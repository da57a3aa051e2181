/**
 * The two route guards: what a protected page renders, and whether it sends the visitor to a
 * login page, as a function of what the identity providers report.
 */
module RouteGuards {
  import opened Wrappers
  import DealerAuth
  import AdminAuth

  const DealerLoginPath := "/dealer/login"

  datatype View = Spinner | Nothing | Children

  /** What the guard renders, and where (if anywhere) it navigates. */
  datatype Decision = Decision(view: View, redirect: Option<string>)

  /**
   * The dealer guard. The redirect comes from an effect that runs after rendering, so a
   * visitor who is not authenticated sees nothing and is sent to the dealer login page.
   */
  function DealerGuard(isLoading: bool, isAuthenticated: bool, hasDealer: bool): (d: Decision)
    ensures isLoading ==> d.view == Spinner && d.redirect == None
    ensures d.redirect.Some? <==> !isLoading && !isAuthenticated
    ensures d.redirect.Some? ==> d.redirect.value == DealerLoginPath
    ensures d.view == Children <==> !isLoading && isAuthenticated && hasDealer
    ensures d.view == Nothing <==> !isLoading && (!isAuthenticated || !hasDealer)
  {
    var redirect := if !isLoading && !isAuthenticated then Some(DealerLoginPath) else None;
    if isLoading then Decision(Spinner, redirect)
    else if !isAuthenticated || !hasDealer then Decision(Nothing, redirect)
    else Decision(Children, redirect)
  }

  /**
   * The dealer guard over the dealer provider's state. Because the provider's
   * `isAuthenticated` is exactly "a dealer snapshot is present", a page that renders nothing
   * always also redirects: the guard never leaves a blank page behind.
   */
  function DealerRoute(p: DealerAuth.DealerAuthProvider): (d: Decision)
    reads p
    ensures d.view == Nothing ==> d.redirect == Some(DealerLoginPath)
    ensures d.view == Children <==> !p.isLoading && p.dealer.Some?
    ensures d.redirect.Some? <==> !p.isLoading && p.dealer.None?
  {
    DealerGuard(p.isLoading, p.IsAuthenticated(), p.dealer.Some?)
  }

  /** The admin guard: loading screen, or navigate to the admin login and render nothing, or the page. */
  function AdminGuard(isLoading: bool, isAuthenticated: bool): (d: Decision)
    ensures isLoading ==> d.view == Spinner && d.redirect == None
    ensures d.redirect.Some? <==> !isLoading && !isAuthenticated
    ensures d.redirect.Some? ==> d.redirect.value == AdminAuth.LoginPath
    ensures d.view == Children <==> !isLoading && isAuthenticated
    ensures d.view == Children ==> d.redirect.None?
    ensures d.view == Nothing <==> d.redirect.Some?
  {
    if isLoading then Decision(Spinner, None)
    else if !isAuthenticated then Decision(Nothing, Some(AdminAuth.LoginPath))
    else Decision(Children, None)
  }

  /** The admin guard over the profile query: the page shows exactly when a profile loaded without error. */
  function AdminRoute(q: AdminAuth.ProfileQuery): (d: Decision)
    ensures d.view == Children <==> !q.isLoading && q.admin.Some? && !q.hasError
    ensures d.redirect.Some? <==> !q.isLoading && (q.admin.None? || q.hasError)
  {
    AdminGuard(q.isLoading, AdminAuth.IsAuthenticated(q))
  }
}
