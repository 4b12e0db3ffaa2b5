/** What a view can answer, as far as the policy is concerned: a 404, a
    redirect to one of the blog's pages, a redirect to the login page, a
    server error, or going on with the view's normal handling. */
module Http {
  import opened Models

  /** The pages a redirect or a success URL can name. */
  datatype Page = Index | PostDetail(postId: PostId) | Profile(username: string)

  datatype Outcome = NotFound | RedirectTo(page: Page) | LoginRequired | Proceed | ServerError

  /** `LoginRequiredMixin.dispatch`: an anonymous request is sent to the
      login page; an authenticated one goes on. */
  function LoginCheck(user: Option<UserId>): (r: Outcome)
    ensures r == LoginRequired <==> user.None?
    ensures r == Proceed <==> user.Some?
  {
    if user.None? then LoginRequired else Proceed
  }
}
