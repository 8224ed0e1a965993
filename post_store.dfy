/** The stored post and an in-memory post store standing in for the
    Mongoose `Post` model that routes/posts.js calls. */
module PostModel {
  import opened Wrappers
  import opened Identity

  /** The store-generated identifier of a post. */
  type PostId = nat

  /** The status value that makes a post visible to anonymous callers. */
  const Published: string := "published"

  /** A stored post. A text field is `None` when it was written from an
      undefined request value; `imagePath` is `None` (`null`) when no image
      was ever uploaded. */
  datatype Post = Post(
    id: PostId,
    title: Option<string>,
    content: Option<string>,
    category: Option<string>,
    status: Option<string>,
    imagePath: Option<string>,
    author: UserId)

  /** The request body keys the handlers read (`None` = undefined), plus an
      `author` key a client may send and the handlers never read. */
  datatype RequestBody = RequestBody(
    title: Option<string>,
    content: Option<string>,
    category: Option<string>,
    status: Option<string>,
    author: Option<string>)

  /** The query of `Post.find`: `{ author: … }` or `{ status: … }`. */
  datatype Filter = ByAuthor(author: UserId) | ByStatus(status: string)

  predicate Matches(p: Post, f: Filter) {
    match f
    case ByAuthor(a) => p.author == a
    case ByStatus(s) => p.status == Some(s)
  }

  /** What the database does on each call a handler makes: `Some(msg)` makes
      the lookup (`find`/`findById`) or the write (`create`/`save`/`deleteOne`)
      throw an error with message `msg`. */
  datatype Faults = Faults(onFind: Option<string>, onWrite: Option<string>)

  /** The in-memory post store: a map from post id to post. */
  class PostStore {
    var posts: map<PostId, Post>
    var nextId: PostId

    /** Every post is stored under its own id, and every id in use is below
        the next one to be handed out. */
    ghost predicate Valid()
      reads this
    {
      forall id :: id in posts ==> id < nextId && posts[id].id == id
    }

    constructor ()
      ensures Valid() && posts == map[]
    {
      posts := map[];
      nextId := 0;
    }

    /** `Post.find(filter)`: every post that matches, nothing else. */
    method Find(f: Filter, fault: Option<string>) returns (r: Result<map<PostId, Post>, string>)
      ensures fault.Some? ==> r == Err(fault.value)
      ensures fault.None? ==> r.Ok? && r.value.Keys <= posts.Keys
      ensures fault.None? ==> forall id :: id in posts ==>
                (id in r.value <==> Matches(posts[id], f)) && (id in r.value ==> r.value[id] == posts[id])
    {
      if fault.Some? {
        return Err(fault.value);
      }
      r := Ok(map id | id in posts && Matches(posts[id], f) :: posts[id]);
    }

    /** `Post.findById(id)`: the post, or `None` (`null`) when there is none. */
    method FindById(id: PostId, fault: Option<string>) returns (r: Result<Option<Post>, string>)
      requires Valid()
      ensures fault.Some? ==> r == Err(fault.value)
      ensures fault.None? ==> r.Ok? && (r.value.None? <==> id !in posts)
      ensures fault.None? && r.value.Some? ==> r.value.value == posts[id] && r.value.value.id == id
    {
      if fault.Some? {
        return Err(fault.value);
      }
      r := Ok(if id in posts then Some(posts[id]) else None);
    }

    /** `Post.create(doc)`: stores the post under a fresh id. */
    method Create(title: Option<string>, content: Option<string>, category: Option<string>,
                  status: Option<string>, imagePath: Option<string>, author: UserId,
                  fault: Option<string>) returns (r: Result<Post, string>)
      requires Valid()
      modifies this
      ensures Valid()
      ensures fault.Some? ==> r == Err(fault.value) && posts == old(posts) && nextId == old(nextId)
      ensures fault.None? ==> r.Ok? && r.value.id !in old(posts) &&
                              r.value.id == old(nextId) && nextId == old(nextId) + 1 &&
                              r.value == Post(r.value.id, title, content, category, status, imagePath, author) &&
                              posts == old(posts)[r.value.id := r.value]
    {
      if fault.Some? {
        return Err(fault.value);
      }
      var p := Post(nextId, title, content, category, status, imagePath, author);
      posts := posts[nextId := p];
      nextId := nextId + 1;
      r := Ok(p);
    }

    /** `post.save()` on a post fetched earlier: replaces the stored post with
        the same id; a post no longer stored cannot be saved. */
    method Save(p: Post, fault: Option<string>) returns (r: Result<Post, string>)
      requires Valid()
      modifies this
      ensures Valid() && nextId == old(nextId)
      ensures fault.Some? || p.id !in old(posts) ==> r.Err? && posts == old(posts)
      ensures fault.Some? ==> r == Err(fault.value)
      ensures fault.None? && p.id in old(posts) ==> r == Ok(p) && posts == old(posts)[p.id := p]
    {
      if fault.Some? {
        return Err(fault.value);
      }
      if p.id !in posts {
        return Err("No document found for query");
      }
      posts := posts[p.id := p];
      r := Ok(p);
    }

    /** `post.deleteOne()`: removes the post with that id. */
    method DeleteOne(id: PostId, fault: Option<string>) returns (r: Result<(), string>)
      requires Valid()
      modifies this
      ensures Valid() && nextId == old(nextId)
      ensures fault.Some? ==> r == Err(fault.value) && posts == old(posts)
      ensures fault.None? ==> r.Ok? && posts == old(posts) - {id}
    {
      if fault.Some? {
        return Err(fault.value);
      }
      posts := posts - {id};
      r := Ok(());
    }
  }
}
