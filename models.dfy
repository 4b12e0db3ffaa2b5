/** The blog's entities (blog/models.py): the shared published/created part,
    Location, Category, Post and Comment, the store that holds them, the
    store's integrity constraints, the on-delete rules, the default orderings
    and the `__str__` truncations. */
module Models {
  import OrderBy

  datatype Option<T> = None | Some(value: T)

  type UserId = nat
  type CategoryId = nat
  type LocationId = nat
  type PostId = nat
  type CommentId = nat
  /** Instants are integers; the caller supplies `now`. */
  type Time = int

  /** Characters shown by the `__str__` of Location, Category and Post. */
  const NUMBER_OF_CHARACTERS_DISPLAYED: nat := 25
  /** Characters of the comment text shown by `Comment.__str__`. */
  const TEXT_CONSTANT: nat := 5
  /** `max_length` of the `CharField`s (post, category and location titles). */
  const TITLE_MAX_LENGTH: nat := 256
  /** `max_length` of the comment text. */
  const COMMENT_MAX_LENGTH: nat := 550
  /** Default of the `is_published` flag. */
  const DEFAULT_IS_PUBLISHED: bool := true

  /** The fields Location, Category and Post share (`PublishedAndCreated`). */
  datatype PublishedAndCreated = PublishedAndCreated(isPublished: bool, createdAt: Time)

  datatype Location = Location(base: PublishedAndCreated, name: string)

  datatype Category = Category(base: PublishedAndCreated, title: string, description: string, slug: string)

  datatype Post = Post(
    base: PublishedAndCreated,
    title: string,
    text: string,
    pubDate: Time,
    author: UserId,
    location: Option<LocationId>,
    category: Option<CategoryId>)

  datatype Comment = Comment(text: string, post: PostId, author: UserId, createdAt: Time)

  /** The tables: users (id to username), categories, locations, posts, comments. */
  datatype Db = Db(
    users: map<UserId, string>,
    categories: map<CategoryId, Category>,
    locations: map<LocationId, Location>,
    posts: map<PostId, Post>,
    comments: map<CommentId, Comment>)

  /** The published/created part of a row saved at `now` with no value given
      for `is_published`: the field default applies, and `created_at` is the
      save time (`auto_now_add`). */
  function Created(now: Time): (b: PublishedAndCreated)
    ensures b.isPublished && b.createdAt == now
  {
    PublishedAndCreated(DEFAULT_IS_PUBLISHED, now)
  }

  // ---------------------------------------------------------------------
  // Integrity constraints of the store

  /** `username` is unique. */
  predicate UniqueUsernames(db: Db) {
    forall u, v :: u in db.users && v in db.users && db.users[u] == db.users[v] ==> u == v
  }

  /** `Category.slug` is unique. */
  predicate UniqueSlugs(db: Db) {
    forall a, b :: a in db.categories && b in db.categories && db.categories[a].slug == db.categories[b].slug ==> a == b
  }

  /** A post's foreign keys point at stored rows; its title fits its field. */
  predicate PostValid(db: Db, p: Post) {
    && p.author in db.users
    && (p.location.Some? ==> p.location.value in db.locations)
    && (p.category.Some? ==> p.category.value in db.categories)
    && |p.title| <= TITLE_MAX_LENGTH
  }

  /** A comment's foreign keys point at stored rows; its text fits its field. */
  predicate CommentValid(db: Db, c: Comment) {
    c.post in db.posts && c.author in db.users && |c.text| <= COMMENT_MAX_LENGTH
  }

  predicate Valid(db: Db) {
    && UniqueUsernames(db)
    && UniqueSlugs(db)
    && (forall p :: p in db.posts ==> PostValid(db, db.posts[p]))
    && (forall c :: c in db.comments ==> CommentValid(db, db.comments[c]))
  }

  // ---------------------------------------------------------------------
  // Relations

  /** `post.category`: the category row, absent when the key is null
      (or, in a store that is not Valid, dangling). */
  function CategoryOf(db: Db, p: Post): (r: Option<Category>)
    ensures r.Some? <==> p.category.Some? && p.category.value in db.categories
    ensures r.Some? ==> r.value == db.categories[p.category.value]
  {
    if p.category.Some? && p.category.value in db.categories then Some(db.categories[p.category.value]) else None
  }

  /** The comments of post `pid` (the reverse relation `post.comments`). */
  function CommentsOn(db: Db, pid: PostId): set<CommentId> {
    set c | c in db.comments && db.comments[c].post == pid
  }

  // ---------------------------------------------------------------------
  // Default orderings (`Meta.ordering`)

  /** Sort keys of posts for `ordering = ("-pub_date",)`. */
  function PubDateDescending(db: Db): map<nat, int> {
    map p | p in db.posts :: -db.posts[p].pubDate
  }

  /** Sort keys of comments for `ordering = ('created_at',)`. */
  function CreatedAtAscending(db: Db): map<nat, int> {
    map c | c in db.comments :: db.comments[c].createdAt
  }

  /** Posts ordered newest first. */
  predicate NewestFirst(db: Db, r: seq<PostId>) {
    forall i, j :: 0 <= i < j < |r| ==> r[i] in db.posts && r[j] in db.posts && db.posts[r[i]].pubDate >= db.posts[r[j]].pubDate
  }

  /** Each element at most once. */
  predicate Distinct(r: seq<nat>) {
    forall i, j :: 0 <= i < j < |r| ==> r[i] != r[j]
  }

  /** A set of posts in the default post ordering. */
  function PostsInDefaultOrder(db: Db, s: set<PostId>): (r: seq<PostId>)
    requires s <= db.posts.Keys
    ensures forall p :: p in r <==> p in s
    ensures Distinct(r) && NewestFirst(db, r)
  {
    var key := PubDateDescending(db);
    var r := OrderBy.Enumerate(key, s);
    assert forall i, j :: 0 <= i < j < |r| ==> OrderBy.Precedes(key, r[i], r[j]);
    r
  }

  /** The comments of post `pid` in the default comment ordering, oldest first. */
  function CommentsInDefaultOrder(db: Db, pid: PostId): (r: seq<CommentId>)
    ensures forall c :: c in r <==> c in db.comments && db.comments[c].post == pid
    ensures Distinct(r)
    ensures forall i, j :: 0 <= i < j < |r| ==> db.comments[r[i]].createdAt <= db.comments[r[j]].createdAt
  {
    var key := CreatedAtAscending(db);
    var r := OrderBy.Enumerate(key, CommentsOn(db, pid));
    assert forall i, j :: 0 <= i < j < |r| ==> OrderBy.Precedes(key, r[i], r[j]);
    r
  }

  // ---------------------------------------------------------------------
  // `__str__`

  function Min(a: nat, b: nat): nat { if a <= b then a else b }

  /** Python's `s[:n]`. */
  function Prefix(s: string, n: nat): (r: string)
    ensures |r| == Min(|s|, n)
    ensures r == s[..|r|]
  {
    if |s| <= n then s else s[..n]
  }

  /** `Location.__str__`: the name cut to 25 characters. */
  function LocationStr(l: Location): (r: string)
    ensures |r| == Min(|l.name|, NUMBER_OF_CHARACTERS_DISPLAYED)
    ensures r == l.name[..|r|]
  {
    Prefix(l.name, NUMBER_OF_CHARACTERS_DISPLAYED)
  }

  /** `Category.__str__`: the title cut to 25 characters. */
  function CategoryStr(c: Category): (r: string)
    ensures |r| == Min(|c.title|, NUMBER_OF_CHARACTERS_DISPLAYED)
    ensures r == c.title[..|r|]
  {
    Prefix(c.title, NUMBER_OF_CHARACTERS_DISPLAYED)
  }

  /** `Post.__str__`: the title cut to 25 characters. */
  function PostStr(p: Post): (r: string)
    ensures |r| == Min(|p.title|, NUMBER_OF_CHARACTERS_DISPLAYED)
    ensures r == p.title[..|r|]
  {
    Prefix(p.title, NUMBER_OF_CHARACTERS_DISPLAYED)
  }

  /** `Comment.__str__`: the first five characters of the text, a comma and a
      space, then the author (a user renders as their username). */
  function CommentStr(db: Db, c: Comment): (r: string)
    requires c.author in db.users
    ensures var k := Min(|c.text|, TEXT_CONSTANT);
      && |r| == k + 2 + |db.users[c.author]|
      && r[..k] == c.text[..k]
      && r[k..k + 2] == ", "
      && r[k + 2..] == db.users[c.author]
  {
    Prefix(c.text, TEXT_CONSTANT) + ", " + db.users[c.author]
  }

  // ---------------------------------------------------------------------
  // On-delete rules

  /** Deleting a post: `Comment.post` is CASCADE, so exactly the post's comments go with it. */
  function RemovePost(db: Db, pid: PostId): (r: Db)
    ensures r.posts == db.posts - {pid}
    ensures forall c :: c in r.comments <==> c in db.comments && db.comments[c].post != pid
    ensures forall c :: c in r.comments ==> r.comments[c] == db.comments[c]
    ensures r.users == db.users && r.categories == db.categories && r.locations == db.locations
  {
    db.(posts := db.posts - {pid},
        comments := map c | c in db.comments && db.comments[c].post != pid :: db.comments[c])
  }

  /** Deleting a category: `Post.category` is SET_NULL, so the posts that
      referred to it survive with a null category and are otherwise unchanged. */
  function RemoveCategory(db: Db, cid: CategoryId): (r: Db)
    ensures r.categories == db.categories - {cid}
    ensures r.posts.Keys == db.posts.Keys
    ensures forall p :: p in r.posts ==>
      && r.posts[p].category == (if db.posts[p].category == Some(cid) then None else db.posts[p].category)
      && r.posts[p].(category := db.posts[p].category) == db.posts[p]
    ensures r.users == db.users && r.locations == db.locations && r.comments == db.comments
  {
    db.(categories := db.categories - {cid},
        posts := map p | p in db.posts ::
          if db.posts[p].category == Some(cid) then db.posts[p].(category := None) else db.posts[p])
  }

  /** Deleting a location: `Post.location` is SET_NULL, as for categories. */
  function RemoveLocation(db: Db, lid: LocationId): (r: Db)
    ensures r.locations == db.locations - {lid}
    ensures r.posts.Keys == db.posts.Keys
    ensures forall p :: p in r.posts ==>
      && r.posts[p].location == (if db.posts[p].location == Some(lid) then None else db.posts[p].location)
      && r.posts[p].(location := db.posts[p].location) == db.posts[p]
    ensures r.users == db.users && r.categories == db.categories && r.comments == db.comments
  {
    db.(locations := db.locations - {lid},
        posts := map p | p in db.posts ::
          if db.posts[p].location == Some(lid) then db.posts[p].(location := None) else db.posts[p])
  }

  /** Deleting a user: `Post.author` and `Comment.author` are CASCADE, so the
      user's posts go, the user's comments go, and the comments on the user's
      posts go with those posts. */
  function RemoveUser(db: Db, uid: UserId): (r: Db)
    ensures r.users == db.users - {uid}
    ensures forall p :: p in r.posts <==> p in db.posts && db.posts[p].author != uid
    ensures forall c :: c in r.comments <==>
      && c in db.comments
      && db.comments[c].author != uid
      && !(db.comments[c].post in db.posts && db.posts[db.comments[c].post].author == uid)
    ensures forall p :: p in r.posts ==> r.posts[p] == db.posts[p]
    ensures forall c :: c in r.comments ==> r.comments[c] == db.comments[c]
    ensures r.categories == db.categories && r.locations == db.locations
  {
    db.(users := db.users - {uid},
        posts := map p | p in db.posts && db.posts[p].author != uid :: db.posts[p],
        comments := map c | c in db.comments && db.comments[c].author != uid
                            && !(db.comments[c].post in db.posts && db.posts[db.comments[c].post].author == uid)
                        :: db.comments[c])
  }

  lemma RemovePostKeepsValid(db: Db, pid: PostId)
    requires Valid(db)
    ensures Valid(RemovePost(db, pid))
  {
  }

  lemma RemoveCategoryKeepsValid(db: Db, cid: CategoryId)
    requires Valid(db)
    ensures Valid(RemoveCategory(db, cid))
  {
  }

  lemma RemoveLocationKeepsValid(db: Db, lid: LocationId)
    requires Valid(db)
    ensures Valid(RemoveLocation(db, lid))
  {
  }

  /** After deleting a user nothing refers to them: no post or comment of
      theirs is left, and no comment is left dangling. */
  lemma RemoveUserKeepsValid(db: Db, uid: UserId)
    requires Valid(db)
    ensures Valid(RemoveUser(db, uid))
    ensures forall p :: p in RemoveUser(db, uid).posts ==> RemoveUser(db, uid).posts[p].author != uid
    ensures forall c :: c in RemoveUser(db, uid).comments ==> RemoveUser(db, uid).comments[c].author != uid
  {
  }
}
