# Posts router of a blog backend, modelled in Dafny

This project models the posts router of a small blog backend
(`routes/posts.js`): how the caller of a request is identified from its
`Authorization` header, the authentication gate, and the four handlers that
list, create, update and delete blog posts with visibility and ownership
rules. The database is replaced by an in-memory store, a map from post id to
post, held by a class whose methods change it in place.

- `wrappers.dfy` (`Wrappers`): `Option` (JavaScript `null`/`undefined`) and
  `Result` (a value or the message of a thrown error).
- `identity.dfy` (`Identity`): `getUserId` as pure functions. The header
  is split on spaces exactly as JavaScript's `split(' ')` does, and the
  second word is the token. This is the `<scheme> <token>` shape of section
  2.1 of RFC 6750, but the scheme word is not checked. Token verification
  is a total function from token to optional claims (a `Verifier` value).
- `post_store.dfy` (`PostModel`): the `Post` record, the request body, the
  two list queries, and `PostStore`, the in-memory store. Its methods stand
  for the database calls the router makes (`find`, `findById`, `create`,
  `save`, `deleteOne`). Each call can fail with a message, as chosen by a
  `Faults` argument.
- `posts_router.dfy` (`Routes`): the `Response` type, the `requireAuth`
  gate, and `PostsRouter`. The router is configured with its verifier and
  its store at construction, and has one method per handler.
- `scenarios.dfy` (`Scenarios`): request sequences whose combined effect a
  client can derive from the handler contracts alone.

Three behaviours of the code a reader might not expect:
- A resolved id that is the empty string counts as no caller, because the
  router tests it for JavaScript truthiness. In the list handler such a
  caller sees the published posts; elsewhere the answer is 401.
- `status` is stored as the body sent it. The schema that would restrict it
  to `draft`/`published` is not part of this model; a rejection by the store
  is one of the modelled write failures.
- The list handler answers the matching posts as they are stored, keyed by
  id. The author-summary join is left out, see below.

## Model

| member | source | states |
|---|---|---|
| `Identity.Split` | routes/posts.js:31 | the pieces of `split(' ')`: at least one, none contains the separator, exactly one iff the string has no separator (and then it is the string itself) |
| `Identity.JoinSplit` | routes/posts.js:31 | joining the pieces of a split with the separator gives back the original string |
| `Identity.SplitJoin` | routes/posts.js:31 | splitting the join of separator-free words gives back the words (the other direction of the round trip) |
| `Identity.SplitAfterWord` | routes/posts.js:31 | a separator-free word followed by the separator is split off as the first piece, the rest is split independently |
| `Identity.Token` | routes/posts.js:31 | `header.split(' ')[1]` is undefined exactly when the header has no space; a token never contains a space |
| `Identity.TokenAfterScheme` | routes/posts.js:31 | for any first word, the token is the first word after the first space |
| `Identity.TokenOfCredentials` | routes/posts.js:31 | a `<scheme> <token>` header yields exactly its token |
| `Identity.GetUserId` | routes/posts.js:28-36 | an absent or empty header, one without a second word, or one whose second word is empty gives no identity; any identity is the `id` claim the verifier returned for the header's token; the function is total |
| `Identity.CredentialsResolve` | routes/posts.js:28-36 | a `<scheme> <token>` header resolves to the token's `id` claim when the token is non-empty and the verifier accepts it, and to nothing otherwise |
| `Identity.EmptyTokenResolvesToNothing` | routes/posts.js:31-34 | a header with nothing after its first space, or with a second space right after it, resolves to no identity whatever the verifier accepts (`jwt.verify` throws on an empty token) |
| `Identity.SchemeNotChecked` | routes/posts.js:31-32 | two headers differing only in their first word resolve to the same identity |
| `Routes.RequireAuth` | routes/posts.js:39-44 | the handler proceeds iff the resolved id is truthy (present and non-empty), and then with that id; otherwise the answer is 401 `Authentication required` |
| `PostModel.PostStore.Find` | routes/posts.js:54 | the query returns exactly the stored posts matching the filter, unchanged; a store failure returns its message |
| `PostModel.PostStore.FindById` | routes/posts.js:85 | the lookup returns the stored post with that id, or nothing exactly when no post has it; a store failure returns its message |
| `PostModel.PostStore.Create` | routes/posts.js:67-74 | a new post is stored under the next id of the counter, never used before (every id ever handed out is below it), with exactly the given fields, and no other post changes; a failure stores nothing |
| `PostModel.PostStore.Save` | routes/posts.js:100 | the stored post with the same id is replaced and no other post changes; a failure, or a post no longer stored, writes nothing |
| `PostModel.PostStore.DeleteOne` | routes/posts.js:115 | exactly that id is removed; a failure removes nothing |
| `Routes.PostsRouter.GetPosts` | routes/posts.js:47-59 | with a caller U, exactly the posts whose author is U, of any status; without one, exactly the posts whose status is `published`; posts are returned as stored; a store failure answers 500; nothing is written |
| `Routes.PostsRouter.CreatePost` | routes/posts.js:62-80 | 401 and no write without a caller; otherwise a new post under an id never handed out before, with the caller as author (never a body value), the body's four fields and the upload's path or `null` as image, answered with 201; a store failure answers 400 and writes nothing |
| `Routes.PostsRouter.UpdatePost` | routes/posts.js:83-105 | 401, then 400 on a lookup failure, then 404 for an unknown id, then 403 when the caller is not the author, each leaving the store unchanged; otherwise all four fields are replaced by the body's values, even absent ones, the image only when a file came in, author and id kept, no other post changed, answered with the updated post; a save failure answers 400 and writes nothing |
| `Routes.PostsRouter.DeletePost` | routes/posts.js:108-120 | the same checks in the same order as update, each leaving the store unchanged; otherwise exactly that post is removed and the answer is the message `Deleted`; a store failure answers 400 and removes nothing |
| `Scenarios.CreateThenList` | routes/posts.js:47-80 | a post a caller creates appears unchanged, with the body's fields and no image, in that caller's listing right after |
| `Scenarios.UpdateTwice` | routes/posts.js:83-105 | repeating a successful update answers the same and leaves the store as the first one did; a refused update changes nothing |
| `Scenarios.DeleteTwice` | routes/posts.js:108-120 | after a successful delete, the same delete answers 404 and the store has lost exactly that post |
| `Scenarios.DeletedIdNotReused` | routes/posts.js:62-120 | once a post is deleted, a post created afterwards gets a different id and the deleted id keeps answering 404 |
| `Scenarios.OthersCannotTouch` | routes/posts.js:85-88 | on a post owned by someone else, both update and delete answer 403 and the store is untouched |

## Left out

- The HTTP layer: Express routing, middleware chaining, `async`/`await`,
  JSON serialisation. A handler is a method from request values to a
  `Response`.
- Image upload (Cloudinary storage through multer, routes/posts.js:10-25,
  and its second mounting in server.js). The upload is modelled only by its
  resulting optional path. An upload failure and its error handler are not
  modelled. The model also does not show that the upload happens before the
  404/403 checks in an update.
- JWT cryptography and the secret read from the environment
  (routes/posts.js:32). A `Verifier` function stands for them. An `id` claim
  that is not a string is not modelled.
- The author join `.populate('author', 'name email')` (routes/posts.js:54).
  Listed posts carry the raw author id.
- Schema validation, id casting and `toString()` coercion of the database
  layer. Each appears only as a possible failure of the lookup or the write
  (`Faults`), whose message the handler answers with. Post ids are natural
  numbers taken from a counter, not generated object ids.
- The `createdAt`/`updatedAt` timestamps, which the database maintains from
  its clock.
- Routes.PostsRouter.GetPosts: the listing is a map keyed by post id, so the
  order of the JSON array (the database's natural order) is not modelled.
- server.js: process start-up, CORS, database connection and route mounting.
  It has no decision logic.
