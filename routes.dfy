/** The two route guards: each decides from the session store's
    `isCheckingAuth` and `authUser` whether to show a loader, render its
    nested routes, or redirect (replacing the history entry). */
module Routes {
  import opened Domain

  /** What a guard renders. */
  datatype Screen = Loader | Outlet | Redirect(to: string, replace: bool)

  /** The guard of the pages that need a session: the loader while the
      session is being checked, whatever the user; then the nested routes
      for a signed-in user and a replacing redirect to `/login` for anyone
      else. */
  function ProtectedRoutes(isCheckingAuth: bool, authUser: Option<User>): (screen: Screen)
    ensures screen == Loader <==> isCheckingAuth
    ensures screen == Outlet <==> !isCheckingAuth && authUser.Some?
    ensures screen == Redirect("/login", true) <==> !isCheckingAuth && authUser.None?
    ensures screen.Redirect? ==> screen == Redirect("/login", true)
  {
    if isCheckingAuth then Loader
    else if authUser.Some? then Outlet
    else Redirect("/login", true)
  }

  /** The guard of the sign-up and login pages: the loader while the
      session is being checked; then the nested routes for a visitor with
      no session and a replacing redirect to `/` for a signed-in user. */
  function GuestRoutes(isCheckingAuth: bool, authUser: Option<User>): (screen: Screen)
    ensures screen == Loader <==> isCheckingAuth
    ensures screen == Outlet <==> !isCheckingAuth && authUser.None?
    ensures screen == Redirect("/", true) <==> !isCheckingAuth && authUser.Some?
    ensures screen.Redirect? ==> screen == Redirect("/", true)
  {
    if isCheckingAuth then Loader
    else if authUser.None? then Outlet
    else Redirect("/", true)
  }

  /** The guards agree on the loader, and once the check is over they are
      complementary: the guest pages are shown exactly when the protected
      pages redirect, and the protected pages exactly when the guest pages
      redirect. So no state shows both kinds of page, and none redirects
      from both. */
  lemma GuardsComplement(isCheckingAuth: bool, authUser: Option<User>)
    ensures ProtectedRoutes(isCheckingAuth, authUser) == Loader <==> GuestRoutes(isCheckingAuth, authUser) == Loader
    ensures !isCheckingAuth ==>
      (GuestRoutes(isCheckingAuth, authUser) == Outlet <==> ProtectedRoutes(isCheckingAuth, authUser).Redirect?)
    ensures !isCheckingAuth ==>
      (ProtectedRoutes(isCheckingAuth, authUser) == Outlet <==> GuestRoutes(isCheckingAuth, authUser).Redirect?)
    ensures !(ProtectedRoutes(isCheckingAuth, authUser) == Outlet && GuestRoutes(isCheckingAuth, authUser) == Outlet)
    ensures !(ProtectedRoutes(isCheckingAuth, authUser).Redirect? && GuestRoutes(isCheckingAuth, authUser).Redirect?)
  {
  }
}
