# Blogicum visibility and authorship policy, in Dafny

Blogicum is a small blog site. Users write posts, which can be scheduled for
later publication. Visitors browse posts on the index, by category and by
author profile, and comment on them. The only real logic in it is the
policy that decides, for each request, whether the requester may see, list,
create, change or delete a post or a comment. The policy also decides what
a refusal looks like: a 404, a redirect to some page, or a redirect to the
login page.

This project models that policy over an in-memory store:

- `orderby.dfy` (`OrderBy`): a deterministic `ORDER BY`. It lists a finite
  set of row ids by an integer key.
- `models.dfy` (`Models`): the entities of `blogicum/blog/models.py` and the store
  `Db` that holds them. It also holds the store's integrity constraints
  (`Valid`), the on-delete rules as store functions, the default orderings
  and the `__str__` truncations.
- `http.dfy` (`Http`): the outcomes a view can give (`NotFound`,
  `RedirectTo(page)`, `LoginRequired`, `Proceed`, `ServerError`). It also
  models Django's `LoginRequiredMixin.dispatch` as `LoginCheck`.
- `utils.dfy` (`Utils`): the public-visibility predicate and `get_request`.
- `mixins.dfy` (`Mixins`): `CommentFormMixin.dispatch`. No view uses this
  mixin: `CommentUpdateViews` and `CommentDeleteViews` repeat its code in
  their own `dispatch` (blogicum/blog/views.py:300-306, 325-331).
  `Views.CommentAuthorGate` models that repeated code, and its contract
  proves that it agrees with the mixin.
- `views.dfy` (`Views`): the listings, one gate function per view's
  `dispatch`, and the class `Blog`. `Blog` holds the tables as fields. It
  has one method per view that changes the store.

Users are ids, and a requester is an `Option<UserId>` (`None` is the
anonymous visitor). Time is an integer, and `now` is a parameter. Each `Blog`
method returns the view's gate outcome and a landing page. The landing page
is present only when the gate said `Proceed` and the submission was valid.
The store changes only in that case.

Three behaviours of the code are easy to miss, and the model follows the
code in each:

- Comment creation checks only that the post is published and that its
  category is published. It does not look at `pub_date`, so a scheduled
  post can be commented on before anyone else can see it
  (`Views.CommentOnScheduledPost`).
- A refused non-author is not always sent to the index. Editing a post
  redirects to the post's detail page. Deleting a post gives a 404. Only the
  comment views redirect to the index.
- A post whose category was deleted is not simply hidden from non-authors.
  If the post is published, `post.category.is_published` fails on the null
  category, and the detail view gives a server error. This is modelled as
  the explicit `ServerError` outcome.
- `views.get_request` (blogicum/blog/views.py:23-32) is the same expression as
  `utils.get_request`. Both are modelled by `Utils.GetRequest`. The index
  queryset (blogicum/blog/views.py:45-55) filters on the same three conditions.
  Since `order_by('-pub_date')` is also the model's default ordering, the
  index is that same set in that same order, with comment counts added.

## Model

| member | source | states |
|---|---|---|
| `Models.PostsInDefaultOrder` | blogicum/blog/models.py:90-94 | posts are listed each exactly once, newest `pub_date` first |
| `Models.CommentsInDefaultOrder` | blogicum/blog/models.py:126-127 | a post's comments are exactly the comments whose post it is, each once, oldest `created_at` first |
| `Models.LocationStr` | blogicum/blog/models.py:35-36 | the string is the first `min(25, len)` characters of the name |
| `Models.CategoryStr` | blogicum/blog/models.py:55-56 | the string is the first `min(25, len)` characters of the title |
| `Models.PostStr` | blogicum/blog/models.py:96-97 | the string is the first `min(25, len)` characters of the title |
| `Models.CommentStr` | blogicum/blog/models.py:129-130 | the first `min(5, len)` characters of the text, then `", "`, then the author's username, and nothing else |
| `Models.RemovePost` | blogicum/blog/models.py:114-118 | deleting a post removes it and exactly the comments on it; the other comments and all other tables are unchanged |
| `Models.RemoveCategory` | blogicum/blog/models.py:83-88 | deleting a category nulls the category of exactly the posts that referred to it; every post survives and is otherwise unchanged |
| `Models.RemoveLocation` | blogicum/blog/models.py:75-82 | deleting a location nulls the location of exactly the posts that referred to it; every post survives and is otherwise unchanged |
| `Models.RemoveUser` | blogicum/blog/models.py:70-74 | deleting a user removes their posts, their comments and the comments on their posts, and nothing else |
| `Models.RemovePostKeepsValid` | blogicum/blog/models.py:114-118 | the post cascade leaves no comment pointing at a missing post |
| `Models.RemoveCategoryKeepsValid` | blogicum/blog/models.py:83-88 | after SET_NULL no post points at the deleted category |
| `Models.RemoveLocationKeepsValid` | blogicum/blog/models.py:75-82 | after SET_NULL no post points at the deleted location |
| `Models.RemoveUserKeepsValid` | blogicum/blog/models.py:119-123 | after the user cascade no post or comment of theirs remains, and nothing dangles |
| `Views.PublicPostsAgreeWithDetailGate` | blogicum/blog/views.py:85-93 | a stored post is in the ORM filter's public set (blogicum/blog/utils.py:11-15) exactly when the detail view's own check lets an anonymous request through to the login step |
| `Utils.GetRequest` | blogicum/blog/utils.py:6-15 | every returned post is published, has a present published category and `pub_date <= now`; every such stored post is returned, once, newest first |
| `Utils.RemoveCategoryHidesItsPosts` | blogicum/blog/models.py:83-88 | after a category is deleted, the public posts are the earlier public posts minus that category's posts |
| `Mixins.CommentFormDispatch` | blogicum/blog/mixins.py:13-17 | a missing comment gives 404; anyone but the comment's author, the anonymous visitor included, is redirected to the index; only the author proceeds |
| `Views.IndexQueryset` | blogicum/blog/views.py:42-55 | the index holds exactly the publicly visible posts, each once, newest first, each with the number of comments on it |
| `Views.CategoryPosts` | blogicum/blog/views.py:58-71 | 404 unless a published category has the slug; otherwise exactly the publicly visible posts of that category, each once, newest first |
| `Views.ProfileQueryset` | blogicum/blog/views.py:196-224 | 404 for an unknown username; the owner gets all of their own posts whatever their visibility; anyone else gets only that user's publicly visible posts; newest first, with comment counts |
| `Views.PageOf` | blogicum/blog/views.py:67-69 | a page holds at most 10 consecutive posts of the listing, and exactly 10 on every page before the last |
| `Views.ItemOnItsPage` | blogicum/blog/views.py:67-69 | item `i` of a listing is item `i % 10` of page `i / 10 + 1` |
| `Views.PostDetailGate` | blogicum/blog/views.py:81-93 | a missing post gives 404; the author always proceeds; a non-author gets 404 for a hidden post (a server error for a published post with no category); the check comes before login, so an anonymous viewer of a visible post is asked to log in |
| `Views.PostEditGate` | blogicum/blog/views.py:142-153 | a non-author, the anonymous visitor included, is redirected to the post's detail page; the author of an unpublished post gets 404; only the author of a published post proceeds; login is never asked for |
| `Views.PostDeleteGate` | blogicum/blog/views.py:172-178 | an anonymous requester is asked to log in; anyone but the author gets 404; the author proceeds, published or not |
| `Views.CommentCreateGate` | blogicum/blog/views.py:268-277 | 404 unless the post exists, is published and has a published category, whoever asks and whatever its `pub_date`; then login |
| `Views.CommentAuthorGate` | blogicum/blog/views.py:300-306 | the `dispatch` code repeated in the comment edit and delete views agrees with `CommentFormMixin.dispatch`: it never reads the URL's `post_id`, and its login check never fires |
| `Views.NonAuthorEditRedirectsDeleteHides` | blogicum/blog/views.py:145-177 | the same non-author is redirected to the detail page on edit but gets 404 on delete |
| `Views.AuthorOfUnpublishedPost` | blogicum/blog/views.py:147-177 | the author of an unpublished post can delete it but not edit it |
| `Views.CommentOnScheduledPost` | blogicum/blog/views.py:271-276 | a published post in a published category that is scheduled for later accepts comments while non-authors still get 404 for it |
| `Views.CommentGateIgnoresUrlPost` | blogicum/blog/views.py:328-331 | the comment gates decide the same way whichever post the URL names |
| `Views.ScheduledPostScenario` | blogicum/blog/views.py:203-212 | a scheduled post is in its author's own profile listing, while it is not on the index and an anonymous request for it gets 404 |
| `Views.NewPost` | blogicum/blog/views.py:119-123 | the new post holds exactly the form's fields, its author is the requester, and it is published by default |
| `Views.EditedPost` | blogicum/blog/views.py:134-140 | an edit replaces exactly the form's fields and keeps the author, `is_published` and `created_at` |
| `Views.Blog.CreatePost` | blogicum/blog/views.py:104-131 | login first; a valid form adds one post under a fresh id, authored by the requester, lands on the requester's profile, and changes nothing else |
| `Views.Blog.EditPost` | blogicum/blog/views.py:134-161 | the result is the edit gate's; only a passed gate with a valid form changes that one post, and it lands on its detail page; otherwise the store is unchanged |
| `Views.Blog.DeletePost` | blogicum/blog/views.py:164-178 | the result is the delete gate's; when it passes, the post and exactly its comments are deleted and the view lands on the index; otherwise nothing changes |
| `Views.Blog.CreateComment` | blogicum/blog/views.py:260-289 | the result is the comment-creation gate's; a valid comment is stored with the requester as author and the target post as its post, and it lands on that post's detail page |
| `Views.Blog.EditComment` | blogicum/blog/views.py:292-314 | the result is the authorship gate's; only the author changes the text, and it lands on the detail page of the URL's post; otherwise the comment is unchanged |
| `Views.Blog.DeleteComment` | blogicum/blog/views.py:317-331 | the result is the authorship gate's; only the author deletes, landing on the index; otherwise the store is unchanged |

Every `Blog` method also keeps `Valid()`. This means every foreign key
points at a stored row, usernames and slugs are unique, post titles are at
most 256 characters and comment texts at most 550 characters.

## Left out

- `Views.PageOf`: page numbers outside the range are not modelled, and
  `PageOf` takes only a page number that is already in range. The listings
  treat such numbers in two ways. `category_posts` uses
  `Paginator.get_page`, which turns a missing or non-numeric page number
  into page 1 and clamps an out-of-range one to the last page. The index
  and profile listings paginate through `ListView.paginate_by`, where a
  non-numeric or out-of-range page number gives a 404.
- `Models.PostsInDefaultOrder`: the ordering of posts with equal `pub_date`
  (and of comments with equal `created_at`) depends on the database. The
  model breaks such ties by ascending id, so that each listing is one
  definite sequence.
- Template rendering and context building are not modelled. Success URLs
  are modelled only as the name of the target page. `image_tag` and
  `get_absolute_url` are not modelled. `Post` carries no image field.
- `Views.Blog.CreatePost`: `Post.image` is a required field
  (`blank=False`, blogicum/blog/models.py:62) and is on the create form.
  Django therefore rejects a create submission without an image and stores
  nothing. The model has no image field, so it assumes every create
  submission carries an image. `PostFormValid` does not check for one.
- The URL routing tables, the error-page views, the admin registrations,
  the form field lists and the migrations are not modelled. They are
  declarations with no behaviour beyond what the models state.
- Authentication, registration, sessions and `ProfileUpdateViews` are left
  to Django. A requester is an `Option<UserId>`. `CreatePost` and
  `CreateComment` require that an authenticated requester is a stored user,
  which the authentication layer guarantees.
- The views count and list comments through `Count('comment')` and
  `self.object.comment`, but the model declares `related_name='comments'`.
  The framework error this causes is not modelled. The model gives the
  intended number of comments on each post, and the intended comment list
  (`Models.CommentsInDefaultOrder`).
- `PostCreateViews.get_context_data` reads the comments of a post that is
  not saved yet. It only builds template context and is not modelled.
- The create, update and delete views are modelled on submission. Their GET
  requests (showing a form or a confirmation page) pass through the same
  gate and change nothing.
- Form cleaning is modelled only as these checks the fields declare: a
  non-empty title, text and category, `max_length`, and that a chosen
  category or location exists. The required image is not checked (see
  `Views.Blog.CreatePost` above).
  Django strips surrounding whitespace before those checks; that is not
  modelled.
- Categories, locations and users are deleted through the admin and the
  authentication layer, not through these views. Their on-delete rules are
  modelled as store functions with lemmas, not as `Blog` methods.
- `CommentCreateViews.dispatch` passes `args` and `kwargs` to
  `super().dispatch` without unpacking them (blogicum/blog/views.py:277). The view
  reads its URL arguments from `self.kwargs`, so this does not change the
  outcome, and it is not modelled.
- Real clocks (`timezone.now`) are not modelled. `now` is a parameter.
