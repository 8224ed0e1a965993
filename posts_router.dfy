/** The posts router of routes/posts.js: the authentication gate and the
    list, create, update and delete handlers over a PostStore. */
module Routes {
  import opened Wrappers
  import opened Identity
  import opened PostModel

  /** The JSON a handler answers with. */
  datatype Body =
    | PostJson(post: Post)
    | PostsJson(posts: map<PostId, Post>)
    | ErrorJson(error: string)
    | MessageJson(message: string)

  datatype Response = Response(status: nat, body: Body)

  const Unauthorized: Response := Response(401, ErrorJson("Authentication required"))
  const NotFound: Response := Response(404, ErrorJson("Not found"))
  const Forbidden: Response := Response(403, ErrorJson("Forbidden"))
  const Deleted: Response := Response(200, MessageJson("Deleted"))

  /** JavaScript truthiness of a resolved id: `null`, `undefined` and the
      empty string all count as no caller. */
  predicate Authenticated(id: Option<UserId>) {
    id.Some? && id.value != ""
  }

  /** `requireAuth`: the handler runs, with the caller's id, only when the
      header resolves to a truthy id; otherwise the answer is 401. */
  function RequireAuth(header: Option<string>, verify: Verifier): (r: Result<UserId, Response>)
    ensures r.Ok? <==> Authenticated(GetUserId(header, verify))
    ensures r.Ok? ==> r.value != "" && GetUserId(header, verify) == Some(r.value)
    ensures r.Err? ==> r.error == Unauthorized
  {
    var userId := GetUserId(header, verify);
    if !Authenticated(userId) then Err(Unauthorized) else Ok(userId.value)
  }

  /** The query the list handler sends: the caller's own posts, or the
      published ones for an anonymous caller. */
  function ListFilter(userId: Option<UserId>): (f: Filter) {
    if Authenticated(userId) then ByAuthor(userId.value) else ByStatus(Published)
  }

  /** The router, with the token verifier it was configured with at start-up
      and the store it serves. */
  class PostsRouter {
    const store: PostStore
    const verify: Verifier

    ghost predicate Valid()
      reads this, store
    {
      store.Valid()
    }

    constructor (store: PostStore, verify: Verifier)
      requires store.Valid()
      ensures Valid() && this.store == store && this.verify == verify
    {
      this.store := store;
      this.verify := verify;
    }

    /** The identity a request with this header carries. */
    function Caller(header: Option<string>): (id: Option<UserId>) {
      GetUserId(header, verify)
    }

    /** GET `/`: a caller sees exactly their own posts, whatever their status;
        an anonymous caller sees exactly the published posts. A store failure
        answers 500. Nothing is written. */
    method GetPosts(header: Option<string>, faults: Faults) returns (res: Response)
      requires Valid()
      ensures faults.onFind.Some? ==> res == Response(500, ErrorJson(faults.onFind.value))
      ensures faults.onFind.None? ==> res.status == 200 && res.body.PostsJson? &&
                                      res.body.posts.Keys <= store.posts.Keys
      ensures faults.onFind.None? ==> forall id :: id in res.body.posts ==> res.body.posts[id] == store.posts[id]
      ensures faults.onFind.None? && Authenticated(Caller(header)) ==>
                forall id :: id in store.posts ==>
                  (id in res.body.posts <==> store.posts[id].author == Caller(header).value)
      ensures faults.onFind.None? && !Authenticated(Caller(header)) ==>
                forall id :: id in store.posts ==>
                  (id in res.body.posts <==> store.posts[id].status == Some(Published))
    {
      var userId := GetUserId(header, verify);
      var filter := ListFilter(userId);
      var found := store.Find(filter, faults.onFind);
      if found.Err? {
        return Response(500, ErrorJson(found.error));
      }
      res := Response(200, PostsJson(found.value));
    }

    /** POST `/`: 401 without a caller; otherwise the post is stored with the
        caller as author (never a value from the body) and the uploaded
        file's path, or `None`, as image, and the answer is 201 with it. A
        store failure answers 400 and stores nothing. */
    method CreatePost(header: Option<string>, body: RequestBody, upload: Option<string>, faults: Faults)
      returns (res: Response)
      requires Valid()
      modifies store
      ensures Valid()
      ensures store.nextId >= old(store.nextId)
      ensures !Authenticated(Caller(header)) ==> res == Unauthorized && store.posts == old(store.posts)
      ensures Authenticated(Caller(header)) && faults.onWrite.Some? ==>
                res == Response(400, ErrorJson(faults.onWrite.value)) && store.posts == old(store.posts)
      ensures Authenticated(Caller(header)) && faults.onWrite.None? ==>
                res.status == 201 && res.body.PostJson? &&
                var p := res.body.post;
                p.id !in old(store.posts) && old(store.nextId) <= p.id < store.nextId &&
                store.posts == old(store.posts)[p.id := p] &&
                p.author == Caller(header).value &&
                p.title == body.title && p.content == body.content &&
                p.category == body.category && p.status == body.status &&
                p.imagePath == upload
    {
      var auth := RequireAuth(header, verify);
      if auth.Err? {
        return auth.error;
      }
      var userId := auth.value;
      var created := store.Create(body.title, body.content, body.category, body.status,
                                  upload, userId, faults.onWrite);
      if created.Err? {
        return Response(400, ErrorJson(created.error));
      }
      res := Response(201, PostJson(created.value));
    }

    /** PUT `/:id`: 401 without a caller, then 404 for an unknown id, then 403
        when the caller is not the author; otherwise every text field is
        replaced by the body's value (absent ones included), the image only
        when a file came in, and the author and id are kept. Every refusal
        and every store failure (400) leaves the store as it was; a success
        changes no other post. */
    method UpdatePost(header: Option<string>, id: PostId, body: RequestBody, upload: Option<string>,
                      faults: Faults) returns (res: Response)
      requires Valid()
      modifies store
      ensures Valid() && store.nextId == old(store.nextId)
      ensures !Authenticated(Caller(header)) ==> res == Unauthorized && store.posts == old(store.posts)
      ensures Authenticated(Caller(header)) && faults.onFind.Some? ==>
                res == Response(400, ErrorJson(faults.onFind.value)) && store.posts == old(store.posts)
      ensures Authenticated(Caller(header)) && faults.onFind.None? && id !in old(store.posts) ==>
                res == NotFound && store.posts == old(store.posts)
      ensures Authenticated(Caller(header)) && faults.onFind.None? && id in old(store.posts) &&
              old(store.posts)[id].author != Caller(header).value ==>
                res == Forbidden && store.posts == old(store.posts)
      ensures Authenticated(Caller(header)) && faults.onFind.None? && id in old(store.posts) &&
              old(store.posts)[id].author == Caller(header).value && faults.onWrite.Some? ==>
                res == Response(400, ErrorJson(faults.onWrite.value)) && store.posts == old(store.posts)
      ensures Authenticated(Caller(header)) && faults.onFind.None? && id in old(store.posts) &&
              old(store.posts)[id].author == Caller(header).value && faults.onWrite.None? ==>
                id in store.posts &&
                var p := old(store.posts)[id];
                var q := store.posts[id];
                res == Response(200, PostJson(q)) && store.posts == old(store.posts)[id := q] &&
                q.id == id && q.author == p.author &&
                q.title == body.title && q.content == body.content &&
                q.category == body.category && q.status == body.status &&
                q.imagePath == (if upload.Some? then upload else p.imagePath)
    {
      var auth := RequireAuth(header, verify);
      if auth.Err? {
        return auth.error;
      }
      var userId := auth.value;
      var found := store.FindById(id, faults.onFind);
      if found.Err? {
        return Response(400, ErrorJson(found.error));
      }
      if found.value.None? {
        return NotFound;
      }
      var post := found.value.value;
      if post.author != userId {
        return Forbidden;
      }
      post := post.(title := body.title);
      post := post.(content := body.content);
      post := post.(category := body.category);
      post := post.(status := body.status);
      if upload.Some? {
        post := post.(imagePath := upload);
      }
      var saved := store.Save(post, faults.onWrite);
      if saved.Err? {
        return Response(400, ErrorJson(saved.error));
      }
      res := Response(200, PostJson(post));
    }

    /** DELETE `/:id`: the same 401, 404 and 403 checks in the same order as
        update; otherwise exactly that post is removed and the answer is the
        message `Deleted`. Every refusal and every store failure (400) leaves
        the store as it was. */
    method DeletePost(header: Option<string>, id: PostId, faults: Faults) returns (res: Response)
      requires Valid()
      modifies store
      ensures Valid() && store.nextId == old(store.nextId)
      ensures !Authenticated(Caller(header)) ==> res == Unauthorized && store.posts == old(store.posts)
      ensures Authenticated(Caller(header)) && faults.onFind.Some? ==>
                res == Response(400, ErrorJson(faults.onFind.value)) && store.posts == old(store.posts)
      ensures Authenticated(Caller(header)) && faults.onFind.None? && id !in old(store.posts) ==>
                res == NotFound && store.posts == old(store.posts)
      ensures Authenticated(Caller(header)) && faults.onFind.None? && id in old(store.posts) &&
              old(store.posts)[id].author != Caller(header).value ==>
                res == Forbidden && store.posts == old(store.posts)
      ensures Authenticated(Caller(header)) && faults.onFind.None? && id in old(store.posts) &&
              old(store.posts)[id].author == Caller(header).value && faults.onWrite.Some? ==>
                res == Response(400, ErrorJson(faults.onWrite.value)) && store.posts == old(store.posts)
      ensures Authenticated(Caller(header)) && faults.onFind.None? && id in old(store.posts) &&
              old(store.posts)[id].author == Caller(header).value && faults.onWrite.None? ==>
                res == Deleted && store.posts == old(store.posts) - {id}
    {
      var auth := RequireAuth(header, verify);
      if auth.Err? {
        return auth.error;
      }
      var userId := auth.value;
      var found := store.FindById(id, faults.onFind);
      if found.Err? {
        return Response(400, ErrorJson(found.error));
      }
      if found.value.None? {
        return NotFound;
      }
      var post := found.value.value;
      if post.author != userId {
        return Forbidden;
      }
      var removed := store.DeleteOne(post.id, faults.onWrite);
      if removed.Err? {
        return Response(400, ErrorJson(removed.error));
      }
      res := Deleted;
    }
  }
}
