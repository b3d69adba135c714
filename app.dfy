/**
 * The application shell: the session state (`isAuthenticated`, `user`, `loading` and the
 * token kept in local storage), the startup decision between an OAuth redirect, a stored
 * token and nothing, the login and logout handlers, and the route guards.
 */
module App {
  import opened Wrappers
  import opened Dashboard

  /** The session: the three state hooks and the `token` entry of local storage. */
  datatype Session = Session(
    isAuthenticated: bool,
    user: Option<DashboardUser>,
    loading: bool,
    storedToken: Option<string>)

  /** A session that claims to be authenticated has a token stored. */
  predicate Coherent(s: Session) {
    s.isAuthenticated ==> s.storedToken.Some?
  }

  /** The first render: not authenticated, no user, loading, and whatever token was stored. */
  function Mounted(stored: Option<string>): (s: Session)
    ensures Coherent(s) && s.loading && !s.isAuthenticated && s.user.None? && s.storedToken == stored
  {
    Session(false, None, true, stored)
  }

  /** `JSON.parse(decodeURIComponent(userParam))`: it throws, or yields a value (`null`
      being a value with no user in it). */
  datatype ParseResult = Threw | Parsed(user: Option<DashboardUser>)

  /** The profile request for the stored token: a JSON body with or without a truthy `user`,
      or a rejected promise (network failure or a body that is not JSON). */
  datatype ProfileFetch = Responded(user: Option<DashboardUser>) | Failed

  /** Both query parameters are present and the user parameter parses. */
  predicate OAuthRedirect(token: Option<string>, userParam: Option<string>, parsed: ParseResult) {
    Truthy(token) && Truthy(userParam) && parsed.Parsed?
  }

  /** The state once the mount effect has run (and the profile request, if any, settled). */
  function AfterStartup(s: Session, token: Option<string>, userParam: Option<string>,
                        parsed: ParseResult, fetch: ProfileFetch): (r: Session)
    ensures !r.loading
    ensures !s.isAuthenticated ==> Coherent(r)
    ensures OAuthRedirect(token, userParam, parsed) ==>
              r == Session(true, parsed.user, false, token)
    ensures !OAuthRedirect(token, userParam, parsed) && !Truthy(s.storedToken) ==>
              r == s.(loading := false)
    ensures !OAuthRedirect(token, userParam, parsed) && Truthy(s.storedToken) ==>
              if fetch.Responded? && fetch.user.Some? then r == s.(isAuthenticated := true, user := fetch.user, loading := false)
              else r == s.(storedToken := None, loading := false)
  {
    if OAuthRedirect(token, userParam, parsed) then
      s.(isAuthenticated := true, user := parsed.user, loading := false, storedToken := token)
    else if Truthy(s.storedToken) then
      match fetch
      case Responded(Some(u)) => s.(isAuthenticated := true, user := Some(u), loading := false)
      case _ => s.(storedToken := None, loading := false)
    else
      s.(loading := false)
  }

  /** An OAuth redirect authenticates without asking the server: the profile request, which
      is never sent, cannot change the outcome. */
  lemma OAuthSkipsFetch(s: Session, token: Option<string>, userParam: Option<string>, parsed: ParseResult,
                        f1: ProfileFetch, f2: ProfileFetch)
    requires OAuthRedirect(token, userParam, parsed)
    ensures AfterStartup(s, token, userParam, parsed, f1) == AfterStartup(s, token, userParam, parsed, f2)
    ensures AfterStartup(s, token, userParam, parsed, f1).isAuthenticated
    ensures AfterStartup(s, token, userParam, parsed, f1).storedToken == token
  {
  }

  /** Without an OAuth redirect, a stored token that does not bring back a user is removed
      and the session stays signed out. */
  lemma StaleTokenRemoved(stored: string, token: Option<string>, userParam: Option<string>,
                          parsed: ParseResult, fetch: ProfileFetch)
    requires stored != "" && !OAuthRedirect(token, userParam, parsed)
    requires fetch.Failed? || fetch.user.None?
    ensures var r := AfterStartup(Mounted(Some(stored)), token, userParam, parsed, fetch);
            r.storedToken.None? && !r.isAuthenticated && !r.loading
  {
  }

  /** After the mount effect the session is authenticated exactly when the redirect carried a
      parsable user or the stored token brought one back. */
  lemma StartupAuthenticates(stored: Option<string>, token: Option<string>, userParam: Option<string>,
                             parsed: ParseResult, fetch: ProfileFetch)
    ensures AfterStartup(Mounted(stored), token, userParam, parsed, fetch).isAuthenticated <==>
              OAuthRedirect(token, userParam, parsed)
              || (Truthy(stored) && fetch.Responded? && fetch.user.Some?)
  {
  }

  /** `handleLogin(userData, token)`. */
  function LoggedIn(s: Session, userData: DashboardUser, token: string): (r: Session)
    ensures Coherent(r) && r.isAuthenticated
    ensures r.user == Some(userData) && r.storedToken == Some(token) && r.loading == s.loading
  {
    s.(storedToken := Some(token), isAuthenticated := true, user := Some(userData))
  }

  /** `handleLogout()`. */
  function LoggedOut(s: Session): (r: Session)
    ensures Coherent(r) && !r.isAuthenticated
    ensures r.user.None? && r.storedToken.None? && r.loading == s.loading
  {
    s.(storedToken := None, isAuthenticated := false, user := None)
  }

  /** Logging out forgets everything a login stored. */
  lemma LogoutAfterLogin(s: Session, userData: DashboardUser, token: string)
    ensures LoggedOut(LoggedIn(s, userData, token)) == LoggedOut(s)
  {
  }

  /** What a route renders. */
  datatype Element = LoginForm | SignupForm | DashboardPage | NavigateTo(target: string) | NoMatch

  const Routes: set<string> := {"/login", "/signup", "/dashboard", "/"}

  /** The element the router picks for `path`. */
  function RouteElement(path: string, isAuthenticated: bool): (e: Element)
    ensures e == LoginForm <==> path == "/login" && !isAuthenticated
    ensures e == SignupForm <==> path == "/signup" && !isAuthenticated
    ensures e == DashboardPage <==> path == "/dashboard" && isAuthenticated
    ensures e == NoMatch <==> path !in Routes
    ensures e.NavigateTo? ==> e.target == (if isAuthenticated then "/dashboard" else "/login")
  {
    if path == "/login" then
      if !isAuthenticated then LoginForm else NavigateTo("/dashboard")
    else if path == "/signup" then
      if !isAuthenticated then SignupForm else NavigateTo("/dashboard")
    else if path == "/dashboard" then
      if isAuthenticated then DashboardPage else NavigateTo("/login")
    else if path == "/" then
      NavigateTo(if isAuthenticated then "/dashboard" else "/login")
    else
      NoMatch
  }

  /** The element shown once a redirect, if any, has been followed. */
  function Landing(path: string, isAuthenticated: bool): Element {
    match RouteElement(path, isAuthenticated)
    case NavigateTo(t) => RouteElement(t, isAuthenticated)
    case e => e
  }

  /** The guards never loop: from any route one redirect at most reaches a page, the
      dashboard exactly when authenticated, and otherwise the login form unless the
      signup form was asked for. */
  lemma GuardsSettle(path: string, isAuthenticated: bool)
    requires path in Routes
    ensures !Landing(path, isAuthenticated).NavigateTo? && Landing(path, isAuthenticated) != NoMatch
    ensures isAuthenticated ==> Landing(path, isAuthenticated) == DashboardPage
    ensures !isAuthenticated ==>
              Landing(path, isAuthenticated) == (if path == "/signup" then SignupForm else LoginForm)
  {
  }

  /** What the app shows: the spinner while loading, else the routed element. */
  datatype View = Spinner | Routed(element: Element)

  function Render(s: Session, path: string): (v: View)
    ensures s.loading <==> v == Spinner
    ensures v.Routed? ==> v.element == RouteElement(path, s.isAuthenticated)
  {
    if s.loading then Spinner else Routed(RouteElement(path, s.isAuthenticated))
  }

  /** A login submitted on the login page moves the app to the dashboard; a logout there
      sends it back to the login form. */
  lemma LoginLogoutRoutes(s: Session, userData: DashboardUser, token: string)
    requires !s.loading
    ensures Render(LoggedIn(s, userData, token), "/login") == Routed(NavigateTo("/dashboard"))
    ensures Landing("/login", LoggedIn(s, userData, token).isAuthenticated) == DashboardPage
    ensures Render(LoggedOut(s), "/dashboard") == Routed(NavigateTo("/login"))
    ensures Landing("/dashboard", LoggedOut(s).isAuthenticated) == LoginForm
  {
  }

  /** The `App` component's state. */
  class AppState {
    var isAuthenticated: bool
    var user: Option<DashboardUser>
    var loading: bool
    var storedToken: Option<string>

    function State(): Session
      reads this
    {
      Session(isAuthenticated, user, loading, storedToken)
    }

    ghost predicate Valid()
      reads this
    {
      Coherent(State())
    }

    constructor (stored: Option<string>)
      ensures Valid() && State() == Mounted(stored)
    {
      isAuthenticated := false;
      user := None;
      loading := true;
      storedToken := stored;
    }

    /** The mount effect, with the query parameters, the parse of the user parameter and
        the settled profile request as inputs. It runs once, on the first render. */
    method Startup(token: Option<string>, userParam: Option<string>, parsed: ParseResult, fetch: ProfileFetch)
      requires loading && !isAuthenticated
      modifies this
      ensures Valid() && !loading
      ensures State() == AfterStartup(old(State()), token, userParam, parsed, fetch)
    {
      if Truthy(token) && Truthy(userParam) {
        if parsed.Parsed? {
          storedToken := token;
          isAuthenticated := true;
          user := parsed.user;
          loading := false;
          return;
        }
      }
      if Truthy(storedToken) {
        if fetch.Responded? && fetch.user.Some? {
          isAuthenticated := true;
          user := fetch.user;
        } else {
          storedToken := None;
        }
        loading := false;
      } else {
        loading := false;
      }
    }

    method HandleLogin(userData: DashboardUser, token: string)
      modifies this
      ensures Valid() && State() == LoggedIn(old(State()), userData, token)
    {
      storedToken := Some(token);
      isAuthenticated := true;
      user := Some(userData);
    }

    method HandleLogout()
      modifies this
      ensures Valid() && State() == LoggedOut(old(State()))
    {
      storedToken := None;
      isAuthenticated := false;
      user := None;
    }
  }
}
