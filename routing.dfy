/**
 * Route access: the `ProtectedRoute` decision (`components/common/routing/
 * ProtectedRoute.jsx`) and the application's table of paths and their guards
 * (`routes/index.jsx`). The auth state (`user`, `role`, `loading`) is an input.
 */
module Routing {
  import opened Js

  /** What `ProtectedRoute` renders. */
  datatype Decision =
    | Loading            // <div>Loading...</div>
    | Redirect(to: string)  // <Navigate to=... replace />
    | Outlet             // the nested route's page

  const LoginPath := "/auth/login"
  const HomePath := "/"

  /** `roles && roles.length && role && !roles.includes(role)`. */
  predicate RoleRefused(role: JsValue, roles: Option<seq<string>>) {
    roles.Some? && |roles.value| > 0 && Truthy(role) && !(role.Str? && role.s in roles.value)
  }

  /**
   * `ProtectedRoute({ roles })`: the loading view while auth is loading, the login
   * page without a user, the home page for a known role outside a non-empty
   * `roles` list, and the nested page otherwise.
   */
  function ProtectedRoute(loading: bool, user: JsValue, role: JsValue, roles: Option<seq<string>>): (d: Decision)
    ensures loading ==> d == Loading
    ensures !loading && !Truthy(user) ==> d == Redirect(LoginPath)
    ensures !loading && Truthy(user) ==> (d == Redirect(HomePath) <==> RoleRefused(role, roles))
    ensures d == Outlet <==> !loading && Truthy(user) && !RoleRefused(role, roles)
  {
    if loading then Loading
    else if !Truthy(user) then Redirect(LoginPath)
    else if RoleRefused(role, roles) then Redirect(HomePath)
    else Outlet
  }

  /** Without a role list, or with an empty one, any signed-in user gets the page. */
  lemma NoRolesAdmitsAnyUser(user: JsValue, role: JsValue, roles: Option<seq<string>>)
    requires Truthy(user)
    requires roles.None? || roles.value == []
    ensures ProtectedRoute(false, user, role, roles) == Outlet
  {
  }

  /** A user whose role is listed gets the page. */
  lemma ListedRoleAdmitted(user: JsValue, role: string, roles: seq<string>)
    requires Truthy(user) && role in roles
    ensures ProtectedRoute(false, user, Str(role), Some(roles)) == Outlet
  {
  }

  /** A user whose role is not known yet (null, or the empty string) is not refused. */
  lemma UnknownRoleAdmitted(user: JsValue, role: JsValue, roles: Option<seq<string>>)
    requires Truthy(user) && (role == Null || role == Undefined || role == Str(""))
    ensures ProtectedRoute(false, user, role, roles) == Outlet
  {
  }

  /** How a route is reached: directly, or through a `ProtectedRoute` with these roles. */
  datatype Guard = Public | Protected(roles: Option<seq<string>>)

  datatype Route = Route(path: string, guard: Guard)

  const InstructorRoles: seq<string> := ["instructor", "admin"]
  const AdminRoles: seq<string> := ["admin"]

  /** The `<Routes>` of `AppRouter`, in declaration order. */
  const Routes: seq<Route> := [
    Route("/", Protected(None)),
    Route("/courses", Protected(None)),
    Route("/courses/:id", Protected(None)),
    Route("/lessons/:id", Protected(None)),
    Route("/billing", Protected(None)),
    Route("/instructor", Protected(Some(InstructorRoles))),
    Route("/admin", Protected(Some(AdminRoles))),
    Route("/analytics", Protected(None)),
    Route("/pricing", Public),
    Route("/checkout", Protected(None)),
    Route("/auth/login", Public),
    Route("/auth/signup", Public),
    Route("/auth/forgot", Public)
  ]

  predicate UniquePaths(rs: seq<Route>) {
    forall i, j :: 0 <= i < j < |rs| ==> rs[i].path != rs[j].path
  }

  /** The guard of `path`, if the table declares it. */
  function GuardOf(rs: seq<Route>, path: string): (g: Option<Guard>)
    ensures g.Some? <==> exists i :: 0 <= i < |rs| && rs[i].path == path
    ensures g.Some? ==> exists i :: 0 <= i < |rs| && rs[i] == Route(path, g.value)
  {
    if rs == [] then None
    else if rs[0].path == path then Some(rs[0].guard)
    else
      var g := GuardOf(rs[1..], path);
      assert forall i :: 1 <= i < |rs| ==> rs[i] == rs[1..][i - 1];
      g
  }

  /** In a table whose paths are unique, each declared route is what its path looks up. */
  lemma {:induction false} GuardOfUnique(rs: seq<Route>, k: nat)
    requires UniquePaths(rs) && k < |rs|
    ensures GuardOf(rs, rs[k].path) == Some(rs[k].guard)
  {
    if k > 0 {
      assert rs[0].path != rs[k].path;
      assert rs[1..][k - 1] == rs[k];
      GuardOfUnique(rs[1..], k - 1);
    }
  }

  /** Every path of the application appears exactly once. */
  lemma RoutesUnique()
    ensures UniquePaths(Routes)
  {
  }

  /** The guard each path is declared under. */
  lemma RouteGuards()
    ensures GuardOf(Routes, "/pricing") == Some(Public)
    ensures GuardOf(Routes, "/auth/login") == Some(Public)
    ensures GuardOf(Routes, "/auth/signup") == Some(Public)
    ensures GuardOf(Routes, "/auth/forgot") == Some(Public)
    ensures GuardOf(Routes, "/") == Some(Protected(None))
    ensures GuardOf(Routes, "/courses") == Some(Protected(None))
    ensures GuardOf(Routes, "/courses/:id") == Some(Protected(None))
    ensures GuardOf(Routes, "/lessons/:id") == Some(Protected(None))
    ensures GuardOf(Routes, "/billing") == Some(Protected(None))
    ensures GuardOf(Routes, "/analytics") == Some(Protected(None))
    ensures GuardOf(Routes, "/checkout") == Some(Protected(None))
    ensures GuardOf(Routes, "/instructor") == Some(Protected(Some(["instructor", "admin"])))
    ensures GuardOf(Routes, "/admin") == Some(Protected(Some(["admin"])))
  {
    RoutesUnique();
    GuardOfUnique(Routes, 0);
    GuardOfUnique(Routes, 1);
    GuardOfUnique(Routes, 2);
    GuardOfUnique(Routes, 3);
    GuardOfUnique(Routes, 4);
    GuardOfUnique(Routes, 5);
    GuardOfUnique(Routes, 6);
    GuardOfUnique(Routes, 7);
    GuardOfUnique(Routes, 8);
    GuardOfUnique(Routes, 9);
    GuardOfUnique(Routes, 10);
    GuardOfUnique(Routes, 11);
    GuardOfUnique(Routes, 12);
  }

  /** What visiting `path` renders; None when no route matches. */
  function Visit(path: string, loading: bool, user: JsValue, role: JsValue): (d: Option<Decision>)
    ensures d.None? <==> GuardOf(Routes, path).None?
    ensures GuardOf(Routes, path) == Some(Public) ==> d == Some(Outlet)
    ensures GuardOf(Routes, path).Some? && GuardOf(Routes, path).value.Protected? ==>
      d == Some(ProtectedRoute(loading, user, role, GuardOf(Routes, path).value.roles))
  {
    match GuardOf(Routes, path)
    case None => None
    case Some(Public) => Some(Outlet)
    case Some(Protected(roles)) => Some(ProtectedRoute(loading, user, role, roles))
  }

  lemma InstructorRouteGuard()
    ensures GuardOf(Routes, "/instructor") == Some(Protected(Some(InstructorRoles)))
  {
    RoutesUnique();
    GuardOfUnique(Routes, 5);
  }

  lemma AdminRouteGuard()
    ensures GuardOf(Routes, "/admin") == Some(Protected(Some(AdminRoles)))
  {
    RoutesUnique();
    GuardOfUnique(Routes, 6);
  }

  /** A known role missing from a non-empty list is refused. */
  lemma UnlistedRoleRefused(role: string, roles: seq<string>)
    requires role != "" && roles != [] && role !in roles
    ensures RoleRefused(Str(role), Some(roles))
  {
    assert Truthy(Str(role));
  }

  /** A signed-in instructor is sent home from /admin. */
  lemma InstructorRefusedAdmin(user: JsValue)
    requires Truthy(user)
    ensures Visit("/admin", false, user, Str("instructor")) == Some(Redirect(HomePath))
  {
    AdminRouteGuard();
    assert "instructor" !in AdminRoles by {
      assert |AdminRoles[0]| != |"instructor"|;
    }
    UnlistedRoleRefused("instructor", AdminRoles);
  }

  /** A signed-in instructor reaches the instructor dashboard. */
  lemma InstructorAdmitted(user: JsValue)
    requires Truthy(user)
    ensures Visit("/instructor", false, user, Str("instructor")) == Some(Outlet)
  {
    InstructorRouteGuard();
    assert "instructor" in InstructorRoles;
    ListedRoleAdmitted(user, "instructor", InstructorRoles);
  }

  /** A signed-in admin reaches both role-restricted dashboards. */
  lemma AdminAdmitted(user: JsValue)
    requires Truthy(user)
    ensures Visit("/instructor", false, user, Str("admin")) == Some(Outlet)
    ensures Visit("/admin", false, user, Str("admin")) == Some(Outlet)
  {
    InstructorRouteGuard();
    AdminRouteGuard();
    assert "admin" in InstructorRoles && "admin" in AdminRoles;
    ListedRoleAdmitted(user, "admin", InstructorRoles);
    ListedRoleAdmitted(user, "admin", AdminRoles);
  }

  /** A visitor without a user is sent to the login page from checkout, but sees pricing. */
  lemma GuestAccess()
    ensures Visit("/checkout", false, Null, Null) == Some(Redirect(LoginPath))
    ensures Visit("/pricing", false, Null, Null) == Some(Outlet)
  {
    RoutesUnique();
    GuardOfUnique(Routes, 8);
    GuardOfUnique(Routes, 9);
  }

  /** A signed-in user whose role has not loaded yet is let through to /admin. */
  lemma NullRoleReachesAdmin(user: JsValue)
    requires Truthy(user)
    ensures Visit("/admin", false, user, Null) == Some(Outlet)
  {
    AdminRouteGuard();
  }
}
