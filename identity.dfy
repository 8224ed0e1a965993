/** Resolving the caller of a request from its `Authorization` header
    (routes/posts.js, `getUserId`). */
module Identity {
  import opened Wrappers

  /** A user identifier, as carried in the `id` claim of a token. */
  type UserId = string

  /** The payload of a token that passed verification; `id` is `None` when
      the payload has no `id` claim. */
  datatype Claims = Claims(id: Option<UserId>)

  /** Signature and expiry verification against the process-wide secret of a
      non-empty token. It is total: `None` for every token it rejects (bad
      signature, expired, malformed). */
  type Verifier = string -> Option<Claims>

  /** `s.split(sep)` for a one-character separator, as JavaScript defines it:
      the pieces between separators, empty pieces included. */
  function Split(s: string, sep: char): (words: seq<string>)
    ensures |words| >= 1
    ensures forall i :: 0 <= i < |words| ==> sep !in words[i]
    ensures |words| == 1 <==> sep !in s
    ensures sep !in s ==> words == [s]
    decreases |s|
  {
    if |s| == 0 then [""]
    else
      var rest := Split(s[1..], sep);
      assert s == [s[0]] + s[1..];
      if s[0] == sep then [""] + rest
      else [[s[0]] + rest[0]] + rest[1..]
  }

  /** `words.join(sep)`: the inverse of Split. */
  function Join(words: seq<string>, sep: char): (s: string)
    requires |words| >= 1
    decreases |words|
  {
    if |words| == 1 then words[0] else words[0] + [sep] + Join(words[1..], sep)
  }

  /** Joining the pieces of a split gives back the string. */
  lemma {:induction false} JoinSplit(s: string, sep: char)
    ensures Join(Split(s, sep), sep) == s
    decreases |s|
  {
    if |s| > 0 {
      JoinSplit(s[1..], sep);
      var rest := Split(s[1..], sep);
      if s[0] == sep {
        assert ([""] + rest)[1..] == rest;
      } else {
        var words := [[s[0]] + rest[0]] + rest[1..];
        assert words[1..] == rest[1..];
        assert s == [s[0]] + s[1..];
      }
    }
  }

  /** A word free of the separator, followed by the separator, is split off
      as the first piece. */
  lemma {:induction false} SplitAfterWord(w: string, t: string, sep: char)
    requires sep !in w
    ensures Split(w + [sep] + t, sep) == [w] + Split(t, sep)
    decreases |w|
  {
    var s := w + [sep] + t;
    assert s[1..] == if |w| == 0 then t else w[1..] + [sep] + t;
    if |w| > 0 {
      SplitAfterWord(w[1..], t, sep);
      assert [w[0]] + w[1..] == w;
    }
  }

  /** Splitting the join of separator-free words gives back the words. */
  lemma {:induction false} SplitJoin(words: seq<string>, sep: char)
    requires |words| >= 1
    requires forall i :: 0 <= i < |words| ==> sep !in words[i]
    ensures Split(Join(words, sep), sep) == words
    decreases |words|
  {
    if |words| > 1 {
      SplitJoin(words[1..], sep);
      SplitAfterWord(words[0], Join(words[1..], sep), sep);
      assert [words[0]] + words[1..] == words;
    }
  }

  /** `header.split(' ')[1]`: the second space-separated word of the header,
      or `None` (JavaScript's `undefined`) when the header holds no space. */
  function Token(header: string): (token: Option<string>)
    ensures token.None? <==> ' ' !in header
    ensures token.Some? ==> ' ' !in token.value
  {
    var words := Split(header, ' ');
    if |words| >= 2 then Some(words[1]) else None
  }

  /** Whatever the first word (the scheme) is, the token is the first word
      after the first space. */
  lemma {:induction false} TokenAfterScheme(scheme: string, rest: string)
    requires ' ' !in scheme
    ensures Token(scheme + " " + rest) == Some(Split(rest, ' ')[0])
  {
    SplitAfterWord(scheme, rest, ' ');
  }

  /** A header of the form `<scheme> <token>` yields exactly its token. */
  lemma {:induction false} TokenOfCredentials(scheme: string, token: string)
    requires ' ' !in scheme && ' ' !in token
    ensures Token(scheme + " " + token) == Some(token)
  {
    TokenAfterScheme(scheme, token);
  }

  /** `getUserId`: the `id` claim of the verified token, or `None` on any
      failure. An absent or empty header, a header without a second word or
      with an empty one, and a token the verifier rejects all give `None`;
      no case raises. */
  function GetUserId(header: Option<string>, verify: Verifier): (id: Option<UserId>)
    ensures header.None? || header.value == "" || ' ' !in header.value ==> id.None?
    ensures header.Some? && Token(header.value) == Some("") ==> id.None?
    ensures id.Some? ==> header.Some? && Token(header.value).Some? &&
                         verify(Token(header.value).value) == Some(Claims(id))
  {
    if header.None? || header.value == "" then None
    else
      match Token(header.value)
      // `jwt.verify(undefined, …)` throws: no identity
      case None => None
      // `jwt.verify("", …)` throws as well: no identity
      case Some("") => None
      case Some(token) =>
        match verify(token)
        case None => None
        case Some(claims) => claims.id
  }

  /** A well-formed `<scheme> <token>` header resolves to the id claim of its
      token when the verifier accepts it, and to nothing otherwise. */
  lemma {:induction false} CredentialsResolve(scheme: string, token: string, verify: Verifier)
    requires ' ' !in scheme && ' ' !in token
    ensures GetUserId(Some(scheme + " " + token), verify)
         == if token != "" && verify(token).Some? then verify(token).value.id else None
  {
    TokenOfCredentials(scheme, token);
  }

  /** A header whose first space is followed by another space or by nothing
      has an empty second word and resolves to no identity, whatever the
      verifier accepts. */
  lemma {:induction false} EmptyTokenResolvesToNothing(scheme: string, rest: string, verify: Verifier)
    requires ' ' !in scheme
    ensures GetUserId(Some(scheme + " "), verify) == None
    ensures GetUserId(Some(scheme + " " + " " + rest), verify) == None
  {
    TokenAfterScheme(scheme, "");
    TokenAfterScheme(scheme, " " + rest);
    SplitAfterWord("", rest, ' ');
    assert "" + [' '] + rest == " " + rest;
    assert Split(" " + rest, ' ')[0] == "";
    assert scheme + " " + "" == scheme + " ";
    assert scheme + " " + " " + rest == scheme + " " + (" " + rest);
  }

  /** The scheme word is not checked: two headers that differ only in their
      first word resolve to the same identity. */
  lemma {:induction false} SchemeNotChecked(scheme1: string, scheme2: string, rest: string, verify: Verifier)
    requires ' ' !in scheme1 && ' ' !in scheme2
    ensures GetUserId(Some(scheme1 + " " + rest), verify) == GetUserId(Some(scheme2 + " " + rest), verify)
  {
    TokenAfterScheme(scheme1, rest);
    TokenAfterScheme(scheme2, rest);
  }
}
