/** What a client of the router can conclude from the handlers' contracts
    alone: sequences of requests and their combined effect. */
module Scenarios {
  import opened Wrappers
  import opened Identity
  import opened PostModel
  import opened Routes

  const NoFaults: Faults := Faults(None, None)

  /** A post created by a caller shows up, unchanged, in that caller's own
      listing right after, whatever its status. */
  method CreateThenList(router: PostsRouter, header: Option<string>, body: RequestBody)
    returns (created: Response, listed: Response)
    requires router.Valid() && Authenticated(router.Caller(header))
    modifies router.store
    ensures router.Valid()
    ensures created.status == 201 && created.body.PostJson?
    ensures listed.status == 200 && listed.body.PostsJson?
    ensures var p := created.body.post;
            p.id in listed.body.posts && listed.body.posts[p.id] == p &&
            p.author == router.Caller(header).value &&
            p.title == body.title && p.content == body.content &&
            p.category == body.category && p.status == body.status && p.imagePath.None?
  {
    created := router.CreatePost(header, body, None, NoFaults);
    listed := router.GetPosts(header, NoFaults);
  }

  /** An update repeated with the same request answers the same and leaves
      the store as the first one left it. */
  method UpdateTwice(router: PostsRouter, header: Option<string>, id: PostId, body: RequestBody,
                     upload: Option<string>)
    returns (first: Response, second: Response)
    requires router.Valid()
    modifies router.store
    ensures router.Valid()
    ensures first.status == 200 ==> second == first && first.body.PostJson? &&
                                    router.store.posts == old(router.store.posts)[id := first.body.post]
    ensures first.status != 200 ==> router.store.posts == old(router.store.posts)
  {
    first := router.UpdatePost(header, id, body, upload, NoFaults);
    ghost var afterFirst := router.store.posts;
    second := router.UpdatePost(header, id, body, upload, NoFaults);
    if first.status == 200 {
      assert router.store.posts == afterFirst;
    }
  }

  /** Once its owner has deleted a post, deleting it again answers 404. */
  method DeleteTwice(router: PostsRouter, header: Option<string>, id: PostId)
    returns (first: Response, second: Response)
    requires router.Valid()
    modifies router.store
    ensures router.Valid()
    ensures first == Deleted ==> second == NotFound && router.store.posts == old(router.store.posts) - {id}
  {
    first := router.DeletePost(header, id, NoFaults);
    second := router.DeletePost(header, id, NoFaults);
  }

  /** A post that someone else owns can be neither changed nor removed:
      update and delete both answer 403 and the store is untouched. */
  method OthersCannotTouch(router: PostsRouter, header: Option<string>, id: PostId, body: RequestBody,
                           upload: Option<string>)
    returns (updated: Response, deleted: Response)
    requires router.Valid() && Authenticated(router.Caller(header))
    requires id in router.store.posts && router.store.posts[id].author != router.Caller(header).value
    modifies router.store
    ensures router.Valid()
    ensures updated == Forbidden && deleted == Forbidden
    ensures router.store.posts == old(router.store.posts)
  {
    updated := router.UpdatePost(header, id, body, upload, NoFaults);
    deleted := router.DeletePost(header, id, NoFaults);
  }

  /** Ids are never handed out again: after its owner deletes a post and
      someone creates a new one, the new post has a different id and the
      deleted id still answers 404. */
  method DeletedIdNotReused(router: PostsRouter, owner: Option<string>, creator: Option<string>,
                            id: PostId, body: RequestBody)
    returns (deleted: Response, created: Response, again: Response)
    requires router.Valid()
    modifies router.store
    ensures router.Valid()
    ensures deleted == Deleted && created.status == 201 ==>
              created.body.PostJson? && created.body.post.id != id && again == NotFound
  {
    deleted := router.DeletePost(owner, id, NoFaults);
    created := router.CreatePost(creator, body, None, NoFaults);
    again := router.DeletePost(owner, id, NoFaults);
  }
}
