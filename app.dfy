/** The route table of src/App.jsx: two public pages, seven pages behind the
    guard, and a redirect to the dashboard for the root and every other path. */
module App {
  import opened Base
  import opened ProtectedRoute
  import Login

  datatype Page =
    | LoginPage | SignupPage
    | DashboardPage | TodoPage | UrlsPage | ProfilePage | MediaPage | GamesPage | VideoCallPage

  /** The element a route renders. */
  datatype Element =
    | Public(page: Page)
    | Guarded(page: Page)
    | Navigate(to: string, replace: bool)

  /** What the visitor ends up with for a path. */
  datatype Screen =
    | Shows(page: Page)
    | Spin
    | Goes(to: string, from: Option<Location>, replace: bool)

  const DashboardPath := "/dashboard"

  /** The paths rendered behind the guard. */
  const ProtectedPaths: set<string> :=
    {"/dashboard", "/todos", "/urls", "/profile", "/media", "/games", "/video-call"}

  /** The table path of each page. */
  function PathOf(pg: Page): string {
    match pg
    case LoginPage => "/login"
    case SignupPage => "/signup"
    case DashboardPage => "/dashboard"
    case TodoPage => "/todos"
    case UrlsPage => "/urls"
    case ProfilePage => "/profile"
    case MediaPage => "/media"
    case GamesPage => "/games"
    case VideoCallPage => "/video-call"
  }

  /** ASCII lower case of one character. React Router compares paths with a
      case-insensitive regular expression, and without the `u` flag no character
      outside ASCII folds onto an ASCII one, so on this table's paths ASCII folding is
      the whole comparison. */
  function LowerAscii(c: char): (l: char)
    ensures 'A' <= c <= 'Z' ==> 'a' <= l <= 'z' && l as int == c as int + 32
    ensures !('A' <= c <= 'Z') ==> l == c
  {
    if 'A' <= c <= 'Z' then (c as int + 32) as char else c
  }

  function LowerPath(s: string): (r: string)
    ensures |r| == |s| && forall i :: 0 <= i < |s| ==> r[i] == LowerAscii(s[i])
  {
    seq(|s|, i requires 0 <= i < |s| => LowerAscii(s[i]))
  }

  /** The path without its trailing slashes, which the router's matcher accepts after
      any path. */
  function DropTrailingSlashes(s: string): (r: string)
    ensures |r| <= |s| && r == s[..|r|]
    ensures forall i :: |r| <= i < |s| ==> s[i] == '/'
    ensures r == [] || r[|r| - 1] != '/'
  {
    if s != [] && s[|s| - 1] == '/' then
      var r := DropTrailingSlashes(s[..|s| - 1]);
      assert s[..|s| - 1][..|r|] == s[..|r|];
      r
    else s
  }

  /** The form in which a path is compared with the table: case folded, trailing
      slashes dropped. The root "/" becomes "", which no entry but the redirects takes. */
  function Canonical(path: string): string {
    DropTrailingSlashes(LowerPath(path))
  }

  /** Route matching on the canonical path. The paths of the table are distinct, so
      the order of the checks does not matter; "/" and the `*` fallback both redirect
      to the dashboard with replace. */
  function Route(path: string): (e: Element)
    ensures e.Public? <==> Canonical(path) == "/login" || Canonical(path) == "/signup"
    ensures e.Public? ==> e.page == (if Canonical(path) == "/login" then LoginPage else SignupPage)
    ensures e.Guarded? <==> Canonical(path) in ProtectedPaths
    ensures e.Guarded? ==> e.page != LoginPage && e.page != SignupPage
    ensures e.Public? || e.Guarded? ==> Canonical(path) == PathOf(e.page)
    ensures e.Navigate? <==> Canonical(path) != "/login" && Canonical(path) != "/signup"
                             && Canonical(path) !in ProtectedPaths
    ensures e.Navigate? ==> e == Navigate(DashboardPath, true)
  {
    var p := Canonical(path);
    if p == "/login" then Public(LoginPage)
    else if p == "/signup" then Public(SignupPage)
    else if p == "/dashboard" then Guarded(DashboardPage)
    else if p == "/todos" then Guarded(TodoPage)
    else if p == "/urls" then Guarded(UrlsPage)
    else if p == "/profile" then Guarded(ProfilePage)
    else if p == "/media" then Guarded(MediaPage)
    else if p == "/games" then Guarded(GamesPage)
    else if p == "/video-call" then Guarded(VideoCallPage)
    else Navigate(DashboardPath, true)
  }

  /** A path written in lower case without a trailing slash is its own canonical form. */
  lemma CanonicalPlain(p: string)
    requires forall i :: 0 <= i < |p| ==> !('A' <= p[i] <= 'Z')
    requires p == [] || p[|p| - 1] != '/'
    ensures Canonical(p) == p
  {
    assert LowerPath(p) == p;
  }

  /** Two paths that differ only in the case of ASCII letters show the same thing. */
  lemma RouteIgnoresCase(p: string, q: string)
    requires |p| == |q| && forall i :: 0 <= i < |p| ==> LowerAscii(p[i]) == LowerAscii(q[i])
    ensures Route(p) == Route(q)
  {
    assert LowerPath(p) == LowerPath(q);
  }

  /** A trailing slash does not change what a path shows. */
  lemma RouteIgnoresTrailingSlash(path: string)
    ensures Route(path + "/") == Route(path)
  {
    var l := LowerPath(path + "/");
    assert l == LowerPath(path) + "/";
    assert l[..|l| - 1] == LowerPath(path);
  }

  /** Each protected path shows its own page: two paths that show the same guarded
      page are the same table entry. */
  lemma EachPathItsOwnPage(p: string, q: string)
    requires Route(p).Guarded? && Route(q).Guarded? && Route(p).page == Route(q).page
    ensures Canonical(p) == Canonical(q)
  {
  }

  /** Every page other than the two public ones is reached through its own protected
      path. */
  lemma EveryPageHasItsPath(pg: Page)
    requires pg != LoginPage && pg != SignupPage
    ensures PathOf(pg) in ProtectedPaths && Route(PathOf(pg)) == Guarded(pg)
  {
    CanonicalPlain(PathOf(pg));
  }

  /** The screen for a path, given the session's loading flag and state. */
  function Render(path: string, loading: bool, authenticated: bool): (s: Screen)
    ensures Route(path).Public? ==> s == Shows(Route(path).page)
    ensures Route(path).Navigate? ==> s == Goes(DashboardPath, None, true)
  {
    match Route(path)
    case Public(p) => Shows(p)
    case Navigate(to, replace) => Goes(to, None, replace)
    case Guarded(p) =>
      match Protect(loading, authenticated, Location(path), p)
      case Spinner => Spin
      case RedirectTo(to, from, replace) => Goes(to, Some(from), replace)
      case Render(page) => Shows(page)
  }

  /** A protected page: a spinner while loading, the page for a signed-in user, and
      for a visitor a replacing redirect to the login page that remembers the path. */
  lemma ProtectedPages(path: string, loading: bool, authenticated: bool)
    requires Canonical(path) in ProtectedPaths
    ensures loading ==> Render(path, loading, authenticated) == Spin
    ensures !loading && authenticated ==> Render(path, loading, authenticated) == Shows(Route(path).page)
    ensures !loading && !authenticated ==>
              Render(path, loading, authenticated) == Goes(LoginPath, Some(Location(path)), true)
  {
  }

  /** Every redirect of the table lands on a page that does not redirect again: the
      dashboard, behind the guard. */
  lemma RedirectsSettle(path: string)
    ensures Route(path).Navigate? ==> Route(Route(path).to) == Guarded(DashboardPage)
  {
    CanonicalPlain(DashboardPath);
  }

  /** A visitor sent to the login page from a protected path is taken back to that
      path once signed in, and the login page itself is public. */
  lemma LoginReturnsToRequestedPage(path: string)
    requires Canonical(path) in ProtectedPaths
    ensures var s := Render(path, false, false);
            s.Goes? && s.from.Some? && Login.From(s.from) == path
            && Route(s.to) == Public(LoginPage)
            && Render(Login.From(s.from), false, true) == Shows(Route(path).page)
  {
    CanonicalPlain(LoginPath);
    assert path != "";
  }
}
