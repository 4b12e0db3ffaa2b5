/** `CommentFormMixin.dispatch` (blog/mixins.py): only a comment's author
    gets past it; anyone else, the anonymous visitor included, is sent to the
    index. */
module Mixins {
  import opened Models
  import opened Http

  /** `self.get_object()` gives 404 for a missing comment; a requester who is
      not the comment's author is redirected to the index; the author goes on
      to the view's own handling. */
  function CommentFormDispatch(db: Db, user: Option<UserId>, commentId: CommentId): (r: Outcome)
    ensures r == NotFound <==> commentId !in db.comments
    ensures r == RedirectTo(Index) <==> commentId in db.comments && user != Some(db.comments[commentId].author)
    ensures r == Proceed <==> commentId in db.comments && user == Some(db.comments[commentId].author)
    ensures user.None? ==> r != Proceed
  {
    if commentId !in db.comments then NotFound
    else if Some(db.comments[commentId].author) != user then RedirectTo(Index)
    else Proceed
  }
}
