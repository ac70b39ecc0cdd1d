/** The three route guards (src/components/ProtectedRoute.jsx, src/components/PublicRoute.jsx,
    src/components/RootRedirect.jsx): each reads the session's `loading` and
    `isAuthenticated` flags and renders nothing, a redirect, or the page. */
module RouteGuards {

  /** What a guard renders. A redirect always replaces the current history entry. */
  datatype Outcome = Nothing | Redirect(to: string, replace: bool) | Page

  /** `ProtectedRoute`: nothing while the session loads, the login page for a visitor, the
      page for a signed-in user. */
  function Protected(loading: bool, isAuthenticated: bool): (r: Outcome)
    ensures r == Nothing <==> loading
    ensures r == Redirect("/login", true) <==> !loading && !isAuthenticated
    ensures r == Page <==> !loading && isAuthenticated
  {
    if loading then Nothing
    else if !isAuthenticated then Redirect("/login", true)
    else Page
  }

  /** `PublicRoute`: nothing while the session loads, the dashboard for a signed-in user, the
      page for a visitor. */
  function Public(loading: bool, isAuthenticated: bool): (r: Outcome)
    ensures r == Nothing <==> loading
    ensures r == Redirect("/dashboard", true) <==> !loading && isAuthenticated
    ensures r == Page <==> !loading && !isAuthenticated
  {
    if loading then Nothing
    else if isAuthenticated then Redirect("/dashboard", true)
    else Page
  }

  /** `RootRedirect`: nothing while the session loads, and then always a redirect — to the
      dashboard or to the login page — never a page. */
  function Root(loading: bool, isAuthenticated: bool): (r: Outcome)
    ensures r == Nothing <==> loading
    ensures r != Page
    ensures !loading ==> r == Redirect(if isAuthenticated then "/dashboard" else "/login", true)
  {
    if loading then Nothing
    else Redirect(if isAuthenticated then "/dashboard" else "/login", true)
  }

  /** Once the session has loaded, a page is shown by exactly one of the two guards, and the
      root sends a user to the guard that shows them a page: a signed-in user to the
      dashboard, which the protected guard opens, a visitor to the login page, which the
      public guard opens. */
  lemma GuardsComplement(isAuthenticated: bool)
    ensures (Protected(false, isAuthenticated) == Page) != (Public(false, isAuthenticated) == Page)
    ensures Root(false, isAuthenticated).to == "/dashboard" <==> Protected(false, isAuthenticated) == Page
    ensures Root(false, isAuthenticated).to == "/login" <==> Public(false, isAuthenticated) == Page
    ensures Protected(false, isAuthenticated).Redirect? ==> Protected(false, isAuthenticated).to == Root(false, isAuthenticated).to
    ensures Public(false, isAuthenticated).Redirect? ==> Public(false, isAuthenticated).to == Root(false, isAuthenticated).to
  {
  }
}
