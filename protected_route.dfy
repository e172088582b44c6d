/** The route guard: signed-out visitors go to /login, signed-in users lacking the route's
    permission go to /dashboard, everyone else sees the page. The application's route table
    is kept as a fixture to state which seeded staff member reaches which page. */
module ProtectedRoute {

  import opened Wrappers
  import AuthContext

  datatype Decision = RenderChildren | RedirectToLogin | RedirectToDashboard

  /** `ProtectedRoute({ requiredPermission })` given the context's `isAuthenticated` and user.
      An absent or empty `requiredPermission` is falsy and asks for nothing. */
  function Gate(isAuthenticated: bool, user: Option<AuthContext.User>, required: Option<string>): (d: Decision)
    ensures !isAuthenticated ==> d == RedirectToLogin
    ensures isAuthenticated && (required.None? || required.value == "") ==> d == RenderChildren
    ensures isAuthenticated && required.Some? && required.value != "" ==>
              (d == RenderChildren <==> AuthContext.HasPermission(user, required.value))
              && (d == RedirectToDashboard <==> !AuthContext.HasPermission(user, required.value))
  {
    if !isAuthenticated then RedirectToLogin
    else if required.Some? && required.value != "" && !AuthContext.HasPermission(user, required.value) then RedirectToDashboard
    else RenderChildren
  }

  /** The guard never sends a signed-in user to /login, nor a signed-out one anywhere else. */
  lemma LoginRedirectIffSignedOut(isAuthenticated: bool, user: Option<AuthContext.User>, required: Option<string>)
    ensures Gate(isAuthenticated, user, required) == RedirectToLogin <==> !isAuthenticated
  {
  }

  /** A row of the router: the path pattern, whether it is wrapped in `ProtectedRoute`, and
      the permission it asks for. */
  datatype Route = Route(path: string, isProtected: bool, requiredPermission: Option<string>)

  /** The application's route table, in declaration order; `*` is the catch-all. */
  function Routes(): (routes: seq<Route>)
    ensures |routes| == 8 && routes[7] == Route("*", false, None)
    ensures forall i, j :: 0 <= i < j < |routes| ==> routes[i].path != routes[j].path
    ensures forall i :: 0 <= i < |routes| && routes[i].requiredPermission.Some? ==> routes[i].isProtected
  {
    [ Route("/", false, None),
      Route("/login", false, None),
      Route("/dashboard", true, None),
      Route("/dashboard/:userRole", true, None),
      Route("/loan/:loanId", true, Some("loans")),
      Route("/loan-application/:appId", true, Some("loans")),
      Route("/borrower/:borrowerId", true, Some("loans")),
      Route("*", false, None) ]
  }

  /** What a visitor sees on a route: unguarded routes always render. */
  function Visit(r: Route, isAuthenticated: bool, user: Option<AuthContext.User>): (d: Decision)
    ensures !r.isProtected ==> d == RenderChildren
    ensures r.isProtected ==> d == Gate(isAuthenticated, user, r.requiredPermission)
  {
    if r.isProtected then Gate(isAuthenticated, user, r.requiredPermission) else RenderChildren
  }

  /** The loan, loan-application and borrower pages are exactly the routes that ask for
      'loans'; no route asks for anything else. */
  lemma LoanRoutesRequireLoans()
    ensures forall r :: r in Routes() && r.requiredPermission.Some? ==>
              r.requiredPermission == Some("loans")
    ensures forall i :: 4 <= i < 7 ==> Routes()[i].isProtected && Routes()[i].requiredPermission == Some("loans")
  {
  }

  /** The seeded staff member `i` after signing in at time `now`. */
  function SeedUser(i: nat, now: string): (u: AuthContext.User)
    requires i < 5
    ensures u.permissions == AuthContext.SeedAccounts()[i].permissions
  {
    AuthContext.SignedInUser(AuthContext.SeedAccounts()[i], now)
  }

  /** On every 'loans' page: the administrator (through 'all'), the credit officer and the
      risk manager get in; the collections and compliance officers are sent to /dashboard. */
  lemma LoanPagesBySeededRole(now: string, r: Route)
    requires r in Routes() && r.requiredPermission == Some("loans")
    ensures Visit(r, true, Some(SeedUser(0, now))) == RenderChildren
    ensures Visit(r, true, Some(SeedUser(1, now))) == RenderChildren
    ensures Visit(r, true, Some(SeedUser(2, now))) == RenderChildren
    ensures Visit(r, true, Some(SeedUser(3, now))) == RedirectToDashboard
    ensures Visit(r, true, Some(SeedUser(4, now))) == RedirectToDashboard
  {
    var seeds := AuthContext.SeedAccounts();
    assert "all" in seeds[0].permissions;
    assert seeds[1].permissions[0] == "loans";
    assert seeds[2].permissions[2] == "loans";
    assert "loans" !in seeds[3].permissions && "all" !in seeds[3].permissions;
    assert "loans" !in seeds[4].permissions && "all" !in seeds[4].permissions;
  }

  /** Signed out, every guarded route leads to /login whatever it asks for. */
  lemma SignedOutGoesToLogin(r: Route, user: Option<AuthContext.User>)
    requires r in Routes() && r.isProtected
    ensures Visit(r, false, user) == RedirectToLogin
  {
  }
}
