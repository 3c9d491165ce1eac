/** The two route guards: one for any signed-in user, one for admins. */
module RouteGuard {
  import opened Text
  import opened Values
  import opened Auth

  datatype Decision = RedirectToLogin | RedirectToHome | RenderChildren

  /** `ProtectedRoute`: a signed-in user sees the page, anyone else is sent
      to `/login`. */
  function ProtectedRoute(currentUser: Option<User>): (d: Decision)
    ensures d == RenderChildren <==> currentUser.Some?
    ensures d != RenderChildren ==> d == RedirectToLogin
  {
    if currentUser.None? then RedirectToLogin else RenderChildren
  }

  /** `AdminRoute`: no user goes to `/login` whatever the role flag says, a
      signed-in non-admin goes to `/`, an admin sees the page. */
  function AdminRoute(currentUser: Option<User>, isAdmin: bool): (d: Decision)
    ensures currentUser.None? ==> d == RedirectToLogin
    ensures currentUser.Some? && !isAdmin ==> d == RedirectToHome
    ensures d == RenderChildren <==> currentUser.Some? && isAdmin
  {
    if currentUser.None? then RedirectToLogin
    else if !isAdmin then RedirectToHome
    else RenderChildren
  }

  /** An admin page is never shown where an ordinary protected page would not
      be, and it redirects to `/login` exactly when the ordinary guard does. */
  lemma AdminRouteIsStricter(currentUser: Option<User>, isAdmin: bool)
    ensures AdminRoute(currentUser, isAdmin) == RenderChildren ==> ProtectedRoute(currentUser) == RenderChildren
    ensures AdminRoute(currentUser, isAdmin) == RedirectToLogin <==> ProtectedRoute(currentUser) == RedirectToLogin
  {
  }

  /** Behind the provider, the admin page is shown only to a signed-in user
      whose token carried `admin: true`. */
  lemma AdminPageNeedsAdminClaim(user: Option<User>, token: Result<Doc, string>)
    ensures AdminRoute(user, ListenerRoles(user, token).admin) == RenderChildren <==>
              user.Some? && token.Ok? && Get(token.value, "admin") == Some(Bool(true))
  {
  }
}
