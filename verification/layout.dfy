/** The application layout: the guard that sends anonymous visitors to the login page and
    the decision to show the application chrome (header, assistant, mobile navigation). */
module Layout {
  import Auth

  /** `publicRoutes`. */
  const PublicRoutes: seq<string> := ["/login"]

  predicate IsPublic(pathname: string) {
    pathname in PublicRoutes
  }

  /** The redirect effect: fires once loading is over for a visitor without a session on a
      non-public page. */
  function ShouldRedirect(isAuthLoading: bool, isAuthenticated: bool, pathname: string): (r: bool)
    ensures r <==> !isAuthLoading && !isAuthenticated && pathname != "/login"
  {
    !isAuthLoading && !isAuthenticated && !IsPublic(pathname)
  }

  /** `isAppRoute`. */
  function IsAppRoute(isAuthenticated: bool, pathname: string): (r: bool)
    ensures r <==> isAuthenticated && pathname != "/login"
  {
    isAuthenticated && !IsPublic(pathname)
  }

  /** What the layout renders: the pulsing placeholder, or the page, with or without the
      application chrome. */
  datatype View = Placeholder | Page(withChrome: bool)

  function Render(isAuthLoading: bool, isAuthenticated: bool, pathname: string): (r: View)
    ensures isAuthLoading ==> r == Placeholder
    ensures !isAuthLoading && !isAuthenticated && pathname != "/login" ==> r == Placeholder
    ensures r == Placeholder <==> isAuthLoading || (!isAuthenticated && pathname != "/login")
    ensures r.Page? ==> r.withChrome == IsAppRoute(isAuthenticated, pathname)
  {
    if isAuthLoading then Placeholder
    else if !isAuthenticated && !IsPublic(pathname) then Placeholder
    else Page(IsAppRoute(isAuthenticated, pathname))
  }

  /** Whenever a redirect is issued, the page itself is not shown. */
  lemma RedirectShowsPlaceholder(isAuthLoading: bool, isAuthenticated: bool, pathname: string)
    requires ShouldRedirect(isAuthLoading, isAuthenticated, pathname)
    ensures Render(isAuthLoading, isAuthenticated, pathname) == Placeholder
  {
  }

  /** The chrome appears only for a signed-in user away from the login page. */
  lemma ChromeOnlyForSignedIn(isAuthLoading: bool, isAuthenticated: bool, pathname: string)
    requires Render(isAuthLoading, isAuthenticated, pathname) == Page(true)
    ensures !isAuthLoading && isAuthenticated && pathname != "/login"
  {
  }

  /** A signed-in user on the login page stays there, and sees it without the chrome. */
  lemma SignedInOnLogin(isAuthLoading: bool)
    requires !isAuthLoading
    ensures !ShouldRedirect(isAuthLoading, true, "/login")
    ensures Render(isAuthLoading, true, "/login") == Page(false)
  {
  }

  /** After logging out, every page but the login page redirects. */
  lemma LogoutRedirects(s: Auth.AuthState, pathname: string)
    requires pathname != "/login"
    ensures ShouldRedirect(false, Auth.IsAuthenticated(Auth.LogoutStep(s)), pathname)
    ensures Render(false, Auth.IsAuthenticated(Auth.LogoutStep(s)), pathname) == Placeholder
  {
  }
}
