/** The views of blog/views.py: the listings (index, category, profile), the
    gate each Post and Comment view's `dispatch` applies, and the store that
    the create, update and delete views change. */
module Views {
  import opened Models
  import opened Http
  import opened Utils
  import Mixins

  /** Posts per page on every listing. */
  const PAGINATOR_NUM: nat := 10

  /** Spec-level visibility of a post to a viewer: its author always sees it,
      anyone else only when it is publicly visible. */
  predicate VisibleTo(db: Db, p: Post, viewer: Option<UserId>, now: Time) {
    viewer == Some(p.author) || PubliclyVisible(db, p, now)
  }

  // ---------------------------------------------------------------------
  // Listings

  /** A listed post with its `comment_count` annotation. */
  datatype Entry = Entry(post: PostId, commentCount: nat)

  function PostsOf(entries: seq<Entry>): (r: seq<PostId>)
    ensures |r| == |entries|
    ensures forall i :: 0 <= i < |r| ==> r[i] == entries[i].post
  {
    seq(|entries|, i requires 0 <= i < |entries| => entries[i].post)
  }

  /** `.annotate(comment_count=Count(...))`: each post with the number of
      comments on it. */
  function Annotate(db: Db, ids: seq<PostId>): (r: seq<Entry>)
    ensures PostsOf(r) == ids
    ensures forall i :: 0 <= i < |r| ==> r[i].commentCount == |CommentsOn(db, r[i].post)|
  {
    seq(|ids|, i requires 0 <= i < |ids| => Entry(ids[i], |CommentsOn(db, ids[i])|))
  }

  /** `IndexView.get_queryset`: exactly the publicly visible posts, newest
      first, each with its comment count. */
  function IndexQueryset(db: Db, now: Time): (r: seq<Entry>)
    ensures forall p :: p in PostsOf(r) <==> p in db.posts && PubliclyVisible(db, db.posts[p], now)
    ensures Distinct(PostsOf(r)) && NewestFirst(db, PostsOf(r))
    ensures forall i :: 0 <= i < |r| ==> r[i].commentCount == |CommentsOn(db, r[i].post)|
  {
    Annotate(db, PostsInDefaultOrder(db, PublicPosts(db, now)))
  }

  /** The post's category exists and has the given slug. */
  predicate InCategoryWithSlug(db: Db, p: Post, slug: string) {
    CategoryOf(db, p).Some? && CategoryOf(db, p).value.slug == slug
  }

  /** `category_posts`: 404 unless a published category has this slug;
      otherwise exactly the publicly visible posts of that category, newest
      first. */
  function CategoryPosts(db: Db, slug: string, now: Time): (r: Option<seq<PostId>>)
    requires UniqueSlugs(db)
    ensures r.None? <==> !exists c :: c in db.categories && db.categories[c].slug == slug && db.categories[c].base.isPublished
    ensures r.Some? ==> forall p :: p in r.value <==>
      p in db.posts && PubliclyVisible(db, db.posts[p], now) && InCategoryWithSlug(db, db.posts[p], slug)
    ensures r.Some? ==> Distinct(r.value) && NewestFirst(db, r.value)
  {
    if exists c :: c in db.categories && db.categories[c].slug == slug && db.categories[c].base.isPublished then
      var c :| c in db.categories && db.categories[c].slug == slug && db.categories[c].base.isPublished;
      Some(PostsInDefaultOrder(db, set p | p in PublicPosts(db, now) && db.posts[p].category == Some(c)))
    else
      None
  }

  /** The viewer is the user whose profile is named. */
  predicate IsProfileOwner(db: Db, viewer: Option<UserId>, username: string) {
    viewer.Some? && viewer.value in db.users && db.users[viewer.value] == username
  }

  /** The post's author has the given username. */
  predicate ByUsername(db: Db, p: Post, username: string) {
    p.author in db.users && db.users[p.author] == username
  }

  /** `ProfileListViews.get_queryset`: 404 for an unknown username; the
      profile's owner sees all of their posts, anyone else only that user's
      publicly visible ones; newest first, with comment counts. */
  function ProfileQueryset(db: Db, viewer: Option<UserId>, username: string, now: Time): (r: Option<seq<Entry>>)
    requires UniqueUsernames(db)
    ensures r.None? <==> !exists u :: u in db.users && db.users[u] == username
    ensures r.Some? && IsProfileOwner(db, viewer, username) ==>
      forall p :: p in PostsOf(r.value) <==> p in db.posts && db.posts[p].author == viewer.value
    ensures r.Some? && !IsProfileOwner(db, viewer, username) ==>
      forall p :: p in PostsOf(r.value) <==> p in db.posts && PubliclyVisible(db, db.posts[p], now) && ByUsername(db, db.posts[p], username)
    ensures r.Some? ==> Distinct(PostsOf(r.value)) && NewestFirst(db, PostsOf(r.value))
    ensures r.Some? ==> forall i :: 0 <= i < |r.value| ==> r.value[i].commentCount == |CommentsOn(db, r.value[i].post)|
  {
    if exists u :: u in db.users && db.users[u] == username then
      var u :| u in db.users && db.users[u] == username;
      if Some(u) == viewer then
        Some(Annotate(db, PostsInDefaultOrder(db, set p | p in db.posts && db.posts[p].author == u)))
      else
        Some(Annotate(db, PostsInDefaultOrder(db, set p | p in PublicPosts(db, now) && db.posts[p].author == u)))
    else
      None
  }

  /** The number of pages of a listing of `count` items (an empty listing
      still has one, empty, page). */
  function NumPages(count: nat): (n: nat)
    ensures n >= 1
    ensures count <= n * PAGINATOR_NUM
    ensures count == 0 || (n - 1) * PAGINATOR_NUM < count
  {
    if count == 0 then 1 else (count + PAGINATOR_NUM - 1) / PAGINATOR_NUM
  }

  /** Page `number` (from 1) of a listing: at most ten consecutive items,
      exactly ten on every page but the last. */
  function PageOf<T>(items: seq<T>, number: nat): (r: seq<T>)
    requires 1 <= number <= NumPages(|items|)
    ensures |r| <= PAGINATOR_NUM
    ensures number < NumPages(|items|) ==> |r| == PAGINATOR_NUM
    ensures (number - 1) * PAGINATOR_NUM + |r| <= |items|
    ensures forall k :: 0 <= k < |r| ==> r[k] == items[(number - 1) * PAGINATOR_NUM + k]
  {
    var start := (number - 1) * PAGINATOR_NUM;
    items[start .. Min(start + PAGINATOR_NUM, |items|)]
  }

  /** Every item of a listing is on exactly one page: item `i` is item
      `i % 10` of page `i / 10 + 1`. */
  lemma ItemOnItsPage<T>(items: seq<T>, i: nat)
    requires i < |items|
    ensures 1 <= i / PAGINATOR_NUM + 1 <= NumPages(|items|)
    ensures i % PAGINATOR_NUM < |PageOf(items, i / PAGINATOR_NUM + 1)|
    ensures PageOf(items, i / PAGINATOR_NUM + 1)[i % PAGINATOR_NUM] == items[i]
  {
  }

  // ---------------------------------------------------------------------
  // Gates (`dispatch`)

  /** `PostDetailViews.dispatch`: the visibility check runs before
      `LoginRequiredMixin`. A non-author meets 404 for a hidden post (and a
      server error for a published post whose category is missing, where
      `post.category.is_published` fails); the author always proceeds; an
      anonymous viewer of a visible post is sent to log in. */
  function PostDetailGate(db: Db, user: Option<UserId>, postId: PostId, now: Time): (r: Outcome)
    ensures postId !in db.posts ==> r == NotFound
    ensures postId in db.posts ==> var p := db.posts[postId];
      && (user == Some(p.author) ==> r == Proceed)
      && (r == Proceed <==> user.Some? && VisibleTo(db, p, user, now))
      && (r == LoginRequired <==> user.None? && PubliclyVisible(db, p, now))
      && (r == ServerError <==> user != Some(p.author) && p.base.isPublished && CategoryOf(db, p).None?)
      && (r == NotFound <==> !VisibleTo(db, p, user, now) && !(p.base.isPublished && CategoryOf(db, p).None?))
    ensures !r.RedirectTo?
  {
    if postId !in db.posts then NotFound
    else
      var p := db.posts[postId];
      if Some(p.author) != user then
        if !p.base.isPublished then NotFound
        else match CategoryOf(db, p)
          case None => ServerError
          case Some(c) => if !c.base.isPublished || p.pubDate > now then NotFound else LoginCheck(user)
      else
        LoginCheck(user)
  }

  /** `PostUpdateViews.dispatch`: a non-author (anonymous included) is sent
      to the post's detail page; the author of an unpublished post meets
      404; only the author of a published post proceeds. Login is never
      asked for. */
  function PostEditGate(db: Db, user: Option<UserId>, postId: PostId): (r: Outcome)
    ensures postId !in db.posts ==> r == NotFound
    ensures postId in db.posts ==> var p := db.posts[postId];
      && (user != Some(p.author) ==> r == RedirectTo(PostDetail(postId)))
      && (user == Some(p.author) && !p.base.isPublished ==> r == NotFound)
      && (r == Proceed <==> user == Some(p.author) && p.base.isPublished)
    ensures r != LoginRequired && r != ServerError
  {
    if postId !in db.posts then NotFound
    else if Some(db.posts[postId].author) != user then RedirectTo(PostDetail(postId))
    else if !db.posts[postId].base.isPublished then NotFound
    else LoginCheck(user)
  }

  /** `PostDeleteViews.dispatch`: anonymous requests log in first; anyone
      but the author meets 404 (not a redirect); the author proceeds whether
      or not the post is published. */
  function PostDeleteGate(db: Db, user: Option<UserId>, postId: PostId): (r: Outcome)
    ensures r == LoginRequired <==> user.None?
    ensures r == Proceed <==> user.Some? && postId in db.posts && db.posts[postId].author == user.value
    ensures r == NotFound <==> user.Some? && !(postId in db.posts && db.posts[postId].author == user.value)
  {
    if user.None? then LoginRequired
    else if postId !in db.posts || db.posts[postId].author != user.value then NotFound
    else LoginCheck(user)
  }

  /** `CommentCreateViews.dispatch`: 404 unless the post exists, is
      published and has a published category (its `pub_date` is not looked
      at), checked before login. */
  function CommentCreateGate(db: Db, user: Option<UserId>, postId: PostId): (r: Outcome)
    ensures r == NotFound <==>
      !(postId in db.posts && db.posts[postId].base.isPublished && CategoryPublished(db, db.posts[postId]))
    ensures r != NotFound ==> r == LoginCheck(user)
  {
    if postId !in db.posts || !CategoryPublished(db, db.posts[postId]) || !db.posts[postId].base.isPublished then NotFound
    else LoginCheck(user)
  }

  /** `CommentUpdateViews.dispatch` and `CommentDeleteViews.dispatch` (the
      same code): 404 for a missing comment, the index for anyone but its
      author, then `LoginRequiredMixin`. The URL's `post_id` is not
      consulted, and the result is that of `CommentFormMixin.dispatch`. */
  function CommentAuthorGate(db: Db, user: Option<UserId>, postId: PostId, commentId: CommentId): (r: Outcome)
    ensures r == Mixins.CommentFormDispatch(db, user, commentId)
  {
    if commentId !in db.comments then NotFound
    else if Some(db.comments[commentId].author) != user then RedirectTo(Index)
    else LoginCheck(user)
  }

  // ---------------------------------------------------------------------
  // Properties spanning several gates

  /** The same non-author is sent to the detail page when editing a post but
      meets 404 when deleting it. */
  lemma NonAuthorEditRedirectsDeleteHides(db: Db, user: UserId, postId: PostId)
    requires postId in db.posts && db.posts[postId].author != user
    ensures PostEditGate(db, Some(user), postId) == RedirectTo(PostDetail(postId))
    ensures PostDeleteGate(db, Some(user), postId) == NotFound
  {
  }

  /** The author of an unpublished post can delete it but not edit it. */
  lemma AuthorOfUnpublishedPost(db: Db, user: UserId, postId: PostId)
    requires postId in db.posts && db.posts[postId].author == user && !db.posts[postId].base.isPublished
    ensures PostEditGate(db, Some(user), postId) == NotFound
    ensures PostDeleteGate(db, Some(user), postId) == Proceed
  {
  }

  /** A comment can be added to a published post in a published category
      that is scheduled for later, which no non-author can yet see. */
  lemma CommentOnScheduledPost(db: Db, user: UserId, postId: PostId, now: Time)
    requires postId in db.posts
    requires db.posts[postId].base.isPublished && CategoryPublished(db, db.posts[postId])
    requires db.posts[postId].pubDate > now
    ensures CommentCreateGate(db, Some(user), postId) == Proceed
    ensures !PubliclyVisible(db, db.posts[postId], now)
    ensures user != db.posts[postId].author ==> PostDetailGate(db, Some(user), postId, now) == NotFound
  {
  }

  /** Changing a comment through any post's URL is decided the same way. */
  lemma CommentGateIgnoresUrlPost(db: Db, user: Option<UserId>, p1: PostId, p2: PostId, commentId: CommentId)
    ensures CommentAuthorGate(db, user, p1, commentId) == CommentAuthorGate(db, user, p2, commentId)
  {
  }

  /** A scheduled post appears in its author's own profile listing, while an
      anonymous visitor asking for it meets 404 and it is not on the index. */
  lemma ScheduledPostScenario(db: Db, postId: PostId, now: Time)
    requires UniqueUsernames(db)
    requires postId in db.posts && db.posts[postId].author in db.users
    requires db.posts[postId].base.isPublished && CategoryPublished(db, db.posts[postId])
    requires db.posts[postId].pubDate > now
    ensures var author := db.posts[postId].author;
      var own := ProfileQueryset(db, Some(author), db.users[author], now);
      own.Some? && postId in PostsOf(own.value)
    ensures PostDetailGate(db, None, postId, now) == NotFound
    ensures postId !in PostsOf(IndexQueryset(db, now))
  {
    var author := db.posts[postId].author;
    assert IsProfileOwner(db, Some(author), db.users[author]);
  }

  /** The ORM filter of `get_request` and the detail view's own check agree:
      a stored post is in the public set exactly when an anonymous request
      for it passes the visibility check and is only asked to log in. */
  lemma PublicPostsAgreeWithDetailGate(db: Db, pid: PostId, now: Time)
    requires pid in db.posts
    ensures pid in PublicPosts(db, now) <==> PostDetailGate(db, None, pid, now) == LoginRequired
  {
  }

  // ---------------------------------------------------------------------
  // Forms

  /** The post form's fields (`title`, `text`, `pub_date`, `location`,
      `category`); the image is not modelled. */
  datatype PostForm = PostForm(title: string, text: string, pubDate: Time, location: Option<LocationId>, category: Option<CategoryId>)

  /** The post form validates: required title within its length, required
      text, a stored category (required), and no location or a stored one. */
  predicate PostFormValid(db: Db, f: PostForm) {
    && 0 < |f.title| <= TITLE_MAX_LENGTH
    && 0 < |f.text|
    && f.category.Some? && f.category.value in db.categories
    && (f.location.None? || f.location.value in db.locations)
  }

  /** The comment form's one field validates: required, at most 550 characters. */
  predicate CommentFormValid(text: string) {
    0 < |text| <= COMMENT_MAX_LENGTH
  }

  /** The form a post fills (an update view's initial data). */
  function FormOf(p: Post): PostForm {
    PostForm(p.title, p.text, p.pubDate, p.location, p.category)
  }

  /** `PostCreateViews.form_valid`: the new post holds the form's fields, its
      author is the requester, and `is_published`, absent from the form,
      takes the field default. */
  function NewPost(f: PostForm, author: UserId, now: Time): (p: Post)
    ensures FormOf(p) == f
    ensures p.author == author
    ensures p.base.isPublished && p.base.createdAt == now
  {
    Post(Created(now), f.title, f.text, f.pubDate, author, f.location, f.category)
  }

  /** An update view's save: the form's fields replace the post's; author,
      `is_published` and `created_at` are kept. */
  function EditedPost(p: Post, f: PostForm): (r: Post)
    ensures FormOf(r) == f
    ensures r.author == p.author && r.base == p.base
  {
    p.(title := f.title, text := f.text, pubDate := f.pubDate, location := f.location, category := f.category)
  }

  // ---------------------------------------------------------------------
  // The store and the views that change it

  /** The shared store. Each method handles one request: it answers with the
      view's gate outcome, and when that is `Proceed` and the submission is
      valid it changes the store and names the page the view lands on. */
  class Blog {
    var users: map<UserId, string>
    var categories: map<CategoryId, Category>
    var locations: map<LocationId, Location>
    var posts: map<PostId, Post>
    var comments: map<CommentId, Comment>
    /** The next primary keys to hand out. */
    var nextPostId: PostId
    var nextCommentId: CommentId

    function State(): Db
      reads this
    {
      Db(users, categories, locations, posts, comments)
    }

    ghost predicate Valid()
      reads this
    {
      && Models.Valid(State())
      && (forall p :: p in posts ==> p < nextPostId)
      && (forall c :: c in comments ==> c < nextCommentId)
    }

    /** A store with the given users, categories and locations, and no
        posts or comments yet. */
    constructor (users: map<UserId, string>, categories: map<CategoryId, Category>, locations: map<LocationId, Location>)
      requires UniqueUsernames(Db(users, categories, locations, map[], map[]))
      requires UniqueSlugs(Db(users, categories, locations, map[], map[]))
      ensures Valid()
      ensures State() == Db(users, categories, locations, map[], map[])
    {
      this.users := users;
      this.categories := categories;
      this.locations := locations;
      posts := map[];
      comments := map[];
      nextPostId := 0;
      nextCommentId := 0;
    }

    /** `PostCreateViews` on submission: login first; a valid form adds a
        post authored by the requester and lands on the requester's profile. */
    method CreatePost(user: Option<UserId>, form: PostForm, now: Time) returns (o: Outcome, landing: Option<Page>)
      requires Valid()
      requires user.None? || user.value in users
      modifies this
      ensures Valid()
      ensures o == LoginCheck(user)
      ensures landing.Some? <==> o == Proceed && PostFormValid(old(State()), form)
      ensures landing.Some? ==> user.Some? && landing.value == Profile(old(users)[user.value])
      ensures landing.Some? ==> old(nextPostId) !in old(posts)
      ensures landing.Some? ==> State() == old(State()).(posts := old(posts)[old(nextPostId) := NewPost(form, user.value, now)])
      ensures landing.None? ==> State() == old(State())
    {
      o := LoginCheck(user);
      landing := None;
      if o == Proceed && PostFormValid(State(), form) {
        var id := nextPostId;
        posts := posts[id := NewPost(form, user.value, now)];
        nextPostId := nextPostId + 1;
        landing := Some(Profile(users[user.value]));
      }
    }

    /** `PostUpdateViews` on submission: the edit gate, then a valid form
        replaces the post's fields and lands on its detail page. */
    method EditPost(user: Option<UserId>, postId: PostId, form: PostForm) returns (o: Outcome, landing: Option<Page>)
      requires Valid()
      modifies this
      ensures Valid()
      ensures o == PostEditGate(old(State()), user, postId)
      ensures landing.Some? <==> o == Proceed && PostFormValid(old(State()), form)
      ensures landing.Some? ==> postId in old(posts) && landing.value == PostDetail(postId)
      ensures landing.Some? ==> State() == old(State()).(posts := old(posts)[postId := EditedPost(old(posts)[postId], form)])
      ensures landing.None? ==> State() == old(State())
    {
      o := PostEditGate(State(), user, postId);
      landing := None;
      if o == Proceed && PostFormValid(State(), form) {
        posts := posts[postId := EditedPost(posts[postId], form)];
        landing := Some(PostDetail(postId));
      }
    }

    /** `PostDeleteViews` on confirmation: the delete gate, then the post and
        its comments are deleted and the view lands on the index. */
    method DeletePost(user: Option<UserId>, postId: PostId) returns (o: Outcome, landing: Option<Page>)
      requires Valid()
      modifies this
      ensures Valid()
      ensures o == PostDeleteGate(old(State()), user, postId)
      ensures landing.Some? <==> o == Proceed
      ensures o == Proceed ==> landing.value == Index && State() == RemovePost(old(State()), postId)
      ensures o != Proceed ==> State() == old(State())
    {
      o := PostDeleteGate(State(), user, postId);
      landing := None;
      if o == Proceed {
        RemovePostKeepsValid(State(), postId);
        var after := RemovePost(State(), postId);
        posts, comments := after.posts, after.comments;
        landing := Some(Index);
      }
    }

    /** `CommentCreateViews` on submission: the post gate, login, then a
        valid comment is stored with the requester as author and the
        target post as its post, landing on that post's detail page. */
    method CreateComment(user: Option<UserId>, postId: PostId, text: string, now: Time) returns (o: Outcome, landing: Option<Page>)
      requires Valid()
      requires user.None? || user.value in users
      modifies this
      ensures Valid()
      ensures o == CommentCreateGate(old(State()), user, postId)
      ensures landing.Some? <==> o == Proceed && CommentFormValid(text)
      ensures landing.Some? ==> user.Some? && landing.value == PostDetail(postId)
      ensures landing.Some? ==> old(nextCommentId) !in old(comments)
      ensures landing.Some? ==>
        State() == old(State()).(comments := old(comments)[old(nextCommentId) := Comment(text, postId, user.value, now)])
      ensures landing.None? ==> State() == old(State())
    {
      o := CommentCreateGate(State(), user, postId);
      landing := None;
      if o == Proceed && CommentFormValid(text) {
        var id := nextCommentId;
        comments := comments[id := Comment(text, postId, user.value, now)];
        nextCommentId := nextCommentId + 1;
        landing := Some(PostDetail(postId));
      }
    }

    /** `CommentUpdateViews` on submission: the authorship gate, then a valid
        text replaces the comment's; it lands on the detail page of the
        URL's post, whichever post the comment belongs to. */
    method EditComment(user: Option<UserId>, postId: PostId, commentId: CommentId, text: string)
      returns (o: Outcome, landing: Option<Page>)
      requires Valid()
      modifies this
      ensures Valid()
      ensures o == CommentAuthorGate(old(State()), user, postId, commentId)
      ensures landing.Some? <==> o == Proceed && CommentFormValid(text)
      ensures landing.Some? ==> commentId in old(comments) && landing.value == PostDetail(postId)
      ensures landing.Some? ==>
        State() == old(State()).(comments := old(comments)[commentId := old(comments)[commentId].(text := text)])
      ensures landing.None? ==> State() == old(State())
    {
      o := CommentAuthorGate(State(), user, postId, commentId);
      landing := None;
      if o == Proceed && CommentFormValid(text) {
        comments := comments[commentId := comments[commentId].(text := text)];
        landing := Some(PostDetail(postId));
      }
    }

    /** `CommentDeleteViews` on confirmation: the authorship gate, then the
        comment is deleted and the view lands on the index. */
    method DeleteComment(user: Option<UserId>, postId: PostId, commentId: CommentId) returns (o: Outcome, landing: Option<Page>)
      requires Valid()
      modifies this
      ensures Valid()
      ensures o == CommentAuthorGate(old(State()), user, postId, commentId)
      ensures landing.Some? <==> o == Proceed
      ensures o == Proceed ==> landing.value == Index && State() == old(State()).(comments := old(comments) - {commentId})
      ensures o != Proceed ==> State() == old(State())
    {
      o := CommentAuthorGate(State(), user, postId, commentId);
      landing := None;
      if o == Proceed {
        comments := comments - {commentId};
        landing := Some(Index);
      }
    }
  }
}
