/** The shared public-visibility filter (blog/utils.py, and its duplicate
    `get_request` in blog/views.py). */
module Utils {
  import opened Models

  /** `category__is_published=True`: the post has a category row and it is
      published. A null category joins nothing and fails the filter. */
  predicate CategoryPublished(db: Db, p: Post) {
    CategoryOf(db, p).Some? && CategoryOf(db, p).value.base.isPublished
  }

  /** A post anyone may see: published, in a published category, and not
      scheduled for later than `now`. */
  predicate PubliclyVisible(db: Db, p: Post, now: Time) {
    p.base.isPublished && CategoryPublished(db, p) && p.pubDate <= now
  }

  /** The ids of the publicly visible posts. */
  function PublicPosts(db: Db, now: Time): (s: set<PostId>)
    ensures s <= db.posts.Keys
    ensures forall p :: p in s <==> p in db.posts && PubliclyVisible(db, db.posts[p], now)
  {
    set p | p in db.posts && PubliclyVisible(db, db.posts[p], now)
  }

  /** `get_request()`: the publicly visible posts, in the default post
      ordering (newest first). */
  function GetRequest(db: Db, now: Time): (r: seq<PostId>)
    ensures forall p :: p in r ==> p in db.posts && db.posts[p].base.isPublished
    ensures forall p :: p in r ==> p in db.posts && CategoryOf(db, db.posts[p]).Some? && CategoryOf(db, db.posts[p]).value.base.isPublished
    ensures forall p :: p in r ==> p in db.posts && db.posts[p].pubDate <= now
    ensures forall p :: p in db.posts && PubliclyVisible(db, db.posts[p], now) ==> p in r
    ensures Distinct(r) && NewestFirst(db, r)
  {
    PostsInDefaultOrder(db, PublicPosts(db, now))
  }

  /** Deleting a category hides exactly the posts that were in it: the
      public posts afterwards are the public posts before, less that
      category's. */
  lemma RemoveCategoryHidesItsPosts(db: Db, cid: CategoryId, now: Time)
    ensures PublicPosts(RemoveCategory(db, cid), now)
         == PublicPosts(db, now) - (set p | p in db.posts && db.posts[p].category == Some(cid))
  {
  }
}
