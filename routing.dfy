/**
 * The client's route table and its two guards. A guard decides, from the
 * authentication state, whether a page is shown, a loading placeholder is
 * shown, or the browser is redirected.
 */
module Routing {
  import opened JsText

  datatype Page =
    | Landing | Login | Register | Dashboard | Roadmaps | RoomDetail | Lab | WebLab
    | Challenges | CodeEditor | Profile | Leaderboard | AdminDashboard | AdminRooms | AdminUsers

  datatype Rendered = Placeholder | Show(page: Page) | Redirect(to: string)

  /** What the authentication context provides: the stored user is `None` when there is none. */
  datatype AuthState = AuthState(loading: bool, isAuthenticated: bool, role: Option<string>)

  /** `PrivateRoute`. */
  function PrivateRoute(auth: AuthState, page: Page): Rendered {
    if auth.loading then Placeholder
    else if auth.isAuthenticated then Show(page)
    else Redirect("/login")
  }

  /** `AdminRoute`: it looks at the user's role, not at `isAuthenticated`. */
  function AdminRoute(auth: AuthState, page: Page): Rendered {
    if auth.loading then Placeholder
    else if auth.role == Some("admin") then Show(page)
    else Redirect("/dashboard")
  }

  /** The element of "/": it does not wait for loading. */
  function RootRoute(auth: AuthState): Rendered {
    if auth.isAuthenticated then Redirect("/dashboard") else Show(Landing)
  }

  datatype Guard = RootGuard | Unguarded | Private | AdminOnly

  /** A segment of a route pattern: literal text, or a `:name` parameter. */
  datatype Segment = Lit(text: string) | Param(name: string)

  datatype Route = Route(segments: seq<Segment>, guard: Guard, page: Page)

  /** `AppRoutes`, in order; the segments are those of the path after its leading '/'. */
  const Routes: seq<Route> := [
    Route([], RootGuard, Landing),
    Route([Lit("login")], Unguarded, Login),
    Route([Lit("register")], Unguarded, Register),
    Route([Lit("dashboard")], Private, Dashboard),
    Route([Lit("roadmaps")], Private, Roadmaps),
    Route([Lit("rooms"), Param("roomId")], Private, RoomDetail),
    Route([Lit("lab"), Param("sessionId")], Private, Lab),
    Route([Lit("web-lab"), Param("sessionId")], Private, WebLab),
    Route([Lit("challenges")], Private, Challenges),
    Route([Lit("challenges"), Param("challengeId")], Private, CodeEditor),
    Route([Lit("profile"), Param("userId")], Private, Profile),
    Route([Lit("leaderboard")], Private, Leaderboard),
    Route([Lit("admin")], AdminOnly, AdminDashboard),
    Route([Lit("admin"), Lit("rooms")], AdminOnly, AdminRooms),
    Route([Lit("admin"), Lit("users")], AdminOnly, AdminUsers)
  ]

  /** The segments of an absolute path: "/" has none, "/a/b" has "a" and "b". */
  function PathSegments(path: string): seq<string> {
    if path == "/" then [] else if |path| > 0 && path[0] == '/' then Split(path[1..], '/') else [path]
  }

  /** A parameter matches any non-empty segment, a literal only itself. */
  predicate Matches(segments: seq<Segment>, parts: seq<string>) {
    |segments| == |parts|
    && forall k | 0 <= k < |parts| ::
      match segments[k]
      case Lit(t) => parts[k] == t
      case Param(_) => parts[k] != ""
  }

  /** What the router renders for `path`, or `None` when no route matches. */
  function Render(auth: AuthState, path: string): Option<Rendered> {
    var parts := PathSegments(path);
    RenderFirst(auth, parts, Routes)
  }

  function RenderFirst(auth: AuthState, parts: seq<string>, routes: seq<Route>): (r: Option<Rendered>)
    ensures r.None? <==> forall k | 0 <= k < |routes| :: !Matches(routes[k].segments, parts)
  {
    if routes == [] then None
    else if Matches(routes[0].segments, parts) then Some(Apply(auth, routes[0]))
    else RenderFirst(auth, parts, routes[1..])
  }

  function Apply(auth: AuthState, route: Route): Rendered {
    match route.guard
    case RootGuard => RootRoute(auth)
    case Unguarded => Show(route.page)
    case Private => PrivateRoute(auth, route.page)
    case AdminOnly => AdminRoute(auth, route.page)
  }

  // ---------------------------------------------------------------------------
  // Guard properties

  /** While loading, `PrivateRoute` shows the placeholder whatever `isAuthenticated` says. */
  lemma PrivateWaitsForLoading(auth: AuthState, page: Page)
    requires auth.loading
    ensures PrivateRoute(auth, page) == Placeholder
  {
  }

  /** Once loaded, `PrivateRoute` shows its page exactly when authenticated, and sends everyone else to /login. */
  lemma PrivateShowsIffAuthenticated(auth: AuthState, page: Page)
    requires !auth.loading
    ensures PrivateRoute(auth, page) == Show(page) <==> auth.isAuthenticated
    ensures !auth.isAuthenticated ==> PrivateRoute(auth, page) == Redirect("/login")
  {
  }

  /** `AdminRoute` waits while loading, then shows its page exactly to an admin and sends everyone else to /dashboard. */
  lemma AdminShowsIffAdmin(auth: AuthState, page: Page)
    ensures auth.loading ==> AdminRoute(auth, page) == Placeholder
    ensures !auth.loading ==> (AdminRoute(auth, page) == Show(page) <==> auth.role == Some("admin"))
    ensures !auth.loading && auth.role != Some("admin") ==> AdminRoute(auth, page) == Redirect("/dashboard")
  {
  }

  /** "/" sends an authenticated visitor to /dashboard and shows everyone else the landing page. */
  lemma RootRedirects(auth: AuthState)
    ensures Render(auth, "/") == Some(if auth.isAuthenticated then Redirect("/dashboard") else Show(Landing))
  {
  }

  // ---------------------------------------------------------------------------
  // Table properties

  predicate IsAdminRoute(r: Route) {
    |r.segments| > 0 && r.segments[0] == Lit("admin")
  }

  predicate IsAuthRoute(r: Route) {
    r.segments == [Lit("login")] || r.segments == [Lit("register")]
  }

  /** /login and /register are open, every /admin route is admin-only, every other route but "/" is private. */
  lemma GuardTable()
    ensures forall k | 0 <= k < |Routes| ::
      && (Routes[k].guard == Unguarded <==> IsAuthRoute(Routes[k]))
      && (Routes[k].guard == AdminOnly <==> IsAdminRoute(Routes[k]))
      && (Routes[k].guard == RootGuard <==> Routes[k].segments == [])
  {
  }

  /** Two patterns no path can match both: different lengths, or two different literals at one place. */
  predicate Exclusive(a: seq<Segment>, b: seq<Segment>) {
    |a| != |b| || exists k | 0 <= k < |a| :: a[k].Lit? && b[k].Lit? && a[k].text != b[k].text
  }

  lemma ExclusiveNeverBoth(a: seq<Segment>, b: seq<Segment>, parts: seq<string>)
    requires Exclusive(a, b)
    ensures !(Matches(a, parts) && Matches(b, parts))
  {
    if |a| == |b| && Matches(a, parts) {
      var k :| 0 <= k < |a| && a[k].Lit? && b[k].Lit? && a[k].text != b[k].text;
      assert parts[k] == a[k].text;
      assert parts[k] != b[k].text;
    }
  }

  /** Every two routes of the table are exclusive. */
  lemma RoutesPairwiseExclusive()
    ensures forall i, j | 0 <= i < j < |Routes| :: Exclusive(Routes[i].segments, Routes[j].segments)
  {
    forall i, j | 0 <= i < j < |Routes| ensures Exclusive(Routes[i].segments, Routes[j].segments) {
      var a, b := Routes[i].segments, Routes[j].segments;
      if |a| == |b| && |a| > 0 {
        if a[0] == b[0] {
          assert a[1].text != b[1].text;
        } else {
          assert a[0].text != b[0].text;
        }
      }
    }
  }

  /** No path matches two routes, so the router's ranking of routes never comes into play. */
  lemma AtMostOneRouteMatches(path: string, i: nat, j: nat)
    requires i < j < |Routes|
    ensures !(Matches(Routes[i].segments, PathSegments(path)) && Matches(Routes[j].segments, PathSegments(path)))
  {
    RoutesPairwiseExclusive();
    ExclusiveNeverBoth(Routes[i].segments, Routes[j].segments, PathSegments(path));
  }

  /** The one matching route decides what is rendered. */
  lemma {:induction false} RenderUsesTheMatch(auth: AuthState, parts: seq<string>, routes: seq<Route>, i: nat)
    requires i < |routes| && Matches(routes[i].segments, parts)
    requires forall j | 0 <= j < |routes| && j != i :: !Matches(routes[j].segments, parts)
    ensures RenderFirst(auth, parts, routes) == Some(Apply(auth, routes[i]))
  {
    if i > 0 {
      RenderUsesTheMatch(auth, parts, routes[1..], i - 1);
    }
  }

  /** An admin page is shown only to a user whose role is 'admin'. */
  lemma AdminPagesNeedAdmin(auth: AuthState, path: string, i: nat)
    requires i < |Routes| && Matches(Routes[i].segments, PathSegments(path)) && IsAdminRoute(Routes[i])
    ensures Render(auth, path) == Some(AdminRoute(auth, Routes[i].page))
    ensures Render(auth, path) == Some(Show(Routes[i].page)) ==> !auth.loading && auth.role == Some("admin")
  {
    GuardTable();
    forall j | 0 <= j < |Routes| && j != i ensures !Matches(Routes[j].segments, PathSegments(path)) {
      if j < i { AtMostOneRouteMatches(path, j, i); } else { AtMostOneRouteMatches(path, i, j); }
    }
    RenderUsesTheMatch(auth, PathSegments(path), Routes, i);
  }

  /** A signed-out visitor, once loading is over, is sent to /login from every private route. */
  lemma PrivatePagesNeedSignIn(auth: AuthState, path: string, i: nat)
    requires i < |Routes| && Matches(Routes[i].segments, PathSegments(path)) && Routes[i].guard == Private
    requires !auth.loading && !auth.isAuthenticated
    ensures Render(auth, path) == Some(Redirect("/login"))
  {
    forall j | 0 <= j < |Routes| && j != i ensures !Matches(Routes[j].segments, PathSegments(path)) {
      if j < i { AtMostOneRouteMatches(path, j, i); } else { AtMostOneRouteMatches(path, i, j); }
    }
    RenderUsesTheMatch(auth, PathSegments(path), Routes, i);
  }
}
