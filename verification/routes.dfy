/** The two route guards. */
module Routes {
  import opened Js

  /** What a guard renders. */
  datatype Outcome =
    | LoadingPlaceholder
    | Children
    | Redirect(to: string, replace: bool, from: Option<string>)

  /** `AdminRoute`'s `shouldRedirect`. */
  predicate ShouldRedirect(isRefreshing: bool, isLoggedIn: bool, isAdmin: bool) {
    !isRefreshing && (!isLoggedIn || !isAdmin)
  }

  /** `AdminRoute`: the children, or a redirect to `redirectTo`, "/products"
      when not given. It never shows a placeholder: while the session is
      being refreshed the children are rendered. */
  function AdminRoute(isRefreshing: bool, isLoggedIn: bool, isAdmin: bool, redirectTo: Option<string>): (o: Outcome)
    ensures o.Redirect? <==> !isRefreshing && (!isLoggedIn || !isAdmin)
    ensures o.Redirect? ==> o.to == (if redirectTo.Some? then redirectTo.value else "/products")
    ensures !o.Redirect? ==> o == Children
  {
    if ShouldRedirect(isRefreshing, isLoggedIn, isAdmin) then
      Redirect(if redirectTo.Some? then redirectTo.value else "/products", false, None)
    else Children
  }

  /** A logged-out visitor is sent to the same place as a logged-in
      non-admin, "/products" by default, not to the login page. */
  lemma AdminRouteLoggedOutGoesToProducts(isAdmin: bool)
    ensures AdminRoute(false, false, isAdmin, None) == Redirect("/products", false, None)
    ensures AdminRoute(false, false, isAdmin, None) == AdminRoute(false, true, false, None)
  {
  }

  /** The admin guard its comment describes: a logged-out visitor goes to
      "/login", a logged-in non-admin to `redirectTo`. */
  function AdminRouteIntended(isRefreshing: bool, isLoggedIn: bool, isAdmin: bool, redirectTo: Option<string>): (o: Outcome)
    ensures o.Redirect? <==> !isRefreshing && (!isLoggedIn || !isAdmin)
    ensures o.Redirect? && !isLoggedIn ==> o.to == "/login"
    ensures o.Redirect? && isLoggedIn ==> o.to == (if redirectTo.Some? then redirectTo.value else "/products")
    ensures !o.Redirect? ==> o == Children
  {
    if !isRefreshing && !isLoggedIn then Redirect("/login", false, None)
    else AdminRoute(isRefreshing, isLoggedIn, isAdmin, redirectTo)
  }

  /** The described guard and the written one part only for a logged-out
      visitor once the session is settled, and then only when `redirectTo`
      is not already "/login". */
  lemma AdminGuardsDifferOnlyWhenLoggedOut(isRefreshing: bool, isLoggedIn: bool, isAdmin: bool, redirectTo: Option<string>)
    ensures AdminRouteIntended(isRefreshing, isLoggedIn, isAdmin, redirectTo) != AdminRoute(isRefreshing, isLoggedIn, isAdmin, redirectTo)
            <==> !isRefreshing && !isLoggedIn && redirectTo != Some("/login")
  {
  }

  /** `PrivateRoute`: the placeholder while refreshing, whatever the login
      state; then the children when logged in, else a replacing redirect to
      "/login" that remembers where the visitor came from. */
  function PrivateRoute(isRefreshing: bool, isLoggedIn: bool, location: string): (o: Outcome)
    ensures o == LoadingPlaceholder <==> isRefreshing
    ensures o == Children <==> !isRefreshing && isLoggedIn
    ensures o.Redirect? <==> !isRefreshing && !isLoggedIn
    ensures o.Redirect? ==> o == Redirect("/login", true, Some(location))
  {
    if isRefreshing then LoadingPlaceholder
    else if isLoggedIn then Children
    else Redirect("/login", true, Some(location))
  }

  /** The guards differ while refreshing: the private route waits, the
      admin route renders its children even for a logged-out visitor. */
  lemma GuardsDifferWhileRefreshing(location: string)
    ensures PrivateRoute(true, false, location) == LoadingPlaceholder
    ensures AdminRoute(true, false, false, None) == Children
  {
  }
}
