/** The application's route table: six public pages, four pages behind a role
    gate, the home redirect at "/" and a catch-all "not found" card. */
module Routes {
  import opened Js
  import Roles
  import HomeRedirect
  import Navbar
  import LoginPage

  datatype Page =
    | Login | Register | OtpVerify | TotpVerify | SetupAccount | Unauthorized
    | ApplyScholarship | ApplicationStatus | VerifyApplications | AdminDashboard
    | Home | NotFound

  /** A page reachable by anyone, or one wrapped in a role-checking route with these allowed roles. */
  datatype Gate = Public | Protected(allowedRoles: seq<string>)

  datatype Route = Route(path: string, page: Page, gate: Gate)

  /** The declared routes, in declaration order. */
  const Table: seq<Route> := [
    Route("/login", Login, Public),
    Route("/register", Register, Public),
    Route("/verify-otp", OtpVerify, Public),
    Route("/verify-totp", TotpVerify, Public),
    Route("/setup-account", SetupAccount, Public),
    Route("/unauthorized", Unauthorized, Public),
    Route("/student/apply", ApplyScholarship, Protected([Roles.Student])),
    Route("/student/status", ApplicationStatus, Protected([Roles.Student])),
    Route("/verifier/dashboard", VerifyApplications, Protected([Roles.Verifier])),
    Route("/admin/dashboard", AdminDashboard, Protected([Roles.Admin])),
    Route("/", Home, Public)
  ]

  /** The `path="*"` route that catches every other path. */
  const CatchAll: Route := Route("*", NotFound, Public)

  /** The position of the route declared for `path`, if any. */
  function Find(routes: seq<Route>, path: string): (r: Option<nat>)
    ensures r.Some? ==> r.value < |routes| && routes[r.value].path == path
    ensures r.Some? ==> forall j :: 0 <= j < r.value ==> routes[j].path != path
    ensures r.None? ==> forall j :: 0 <= j < |routes| ==> routes[j].path != path
  {
    if routes == [] then None
    else if routes[0].path == path then Some(0)
    else match Find(routes[1..], path)
      case None => None
      case Some(i) => Some(i + 1)
  }

  /** `s` without its trailing slashes. */
  function TrimSlashes(s: string): (r: string)
    ensures |r| <= |s|
  {
    if |s| > 0 && s[|s| - 1] == '/' then TrimSlashes(s[..|s| - 1]) else s
  }

  /** Trimming keeps a prefix that does not end in "/", and removes only slashes. */
  lemma {:induction false} TrimSlashesMeaning(s: string)
    ensures var r := TrimSlashes(s);
      && r == s[..|r|]
      && (r == [] || r[|r| - 1] != '/')
      && forall i :: |r| <= i < |s| ==> s[i] == '/'
  {
    if |s| > 0 && s[|s| - 1] == '/' {
      TrimSlashesMeaning(s[..|s| - 1]);
    }
  }

  /** The form in which the router compares a location with the declared paths:
      by default it ignores letter case and accepts any number of trailing slashes. */
  function Normalise(path: string): string
  {
    var t := TrimSlashes(ToLower(path));
    if t == [] then "/" else t
  }

  /** A path in lower case that is "/" or does not end in "/" is its own normal form. */
  lemma NormaliseKeepsCanonical(path: string)
    requires forall i :: 0 <= i < |path| ==> !('A' <= path[i] <= 'Z')
    requires path == "/" || (path != [] && path[|path| - 1] != '/')
    ensures Normalise(path) == path
  {
    ToLowerKeepsLower(path);
  }

  /** The route that renders for `path`. */
  function Resolve(path: string): (r: Route)
    ensures r in Table || r == CatchAll
  {
    match Find(Table, Normalise(path))
    case Some(i) => Table[i]
    case None => CatchAll
  }

  /** Letter case and trailing slashes in the location do not change the page. */
  lemma {:induction false} ResolveIgnoresCaseAndTrailingSlash(path: string)
    ensures Resolve(ToLower(path)) == Resolve(path)
    ensures Resolve(path + "/") == Resolve(path)
  {
    ToLowerIdempotent(path);
    ToLowerAppend(path, "/");
    assert ToLower("/") == "/";
    var l := ToLower(path);
    assert (l + "/")[..|l|] == l;
    assert TrimSlashes(l + "/") == TrimSlashes(l);
  }

  /** Every declared path is in normal form. */
  lemma TablePathsCanonical(i: nat)
    requires i < |Table|
    ensures Normalise(Table[i].path) == Table[i].path
  {
    NormaliseKeepsCanonical(Table[i].path);
  }

  /** No path is declared twice. */
  lemma NoDuplicatePaths()
    ensures forall i, j :: 0 <= i < j < |Table| ==> Table[i].path != Table[j].path
  {
  }

  /** A declared path resolves to its own route. */
  lemma ResolveDeclared(i: nat)
    requires i < |Table|
    ensures Resolve(Table[i].path) == Table[i]
  {
    NoDuplicatePaths();
    TablePathsCanonical(i);
  }

  /** A path whose normal form is not declared renders the "not found" card. */
  lemma ResolveUndeclared(path: string)
    requires forall r :: r in Table ==> r.path != Normalise(path)
    ensures Resolve(path).page == NotFound
  {
  }

  lemma LowerLogin()
    ensures ToLower("/LOGIN") == "/login"
  {
    var l := ToLower("/LOGIN");
    assert l[0] == '/' && l[1] == 'l' && l[2] == 'o' && l[3] == 'g' && l[4] == 'i' && l[5] == 'n';
  }

  /** "/LOGIN" renders the login page. */
  lemma LoginUpperCase()
    ensures Resolve("/LOGIN").page == Login
  {
    LowerLogin();
    ResolveIgnoresCaseAndTrailingSlash("/LOGIN");
    ResolveDeclared(0);
  }

  /** "/login/" renders the login page. */
  lemma LoginTrailingSlash()
    ensures Resolve("/login/").page == Login
  {
    ResolveIgnoresCaseAndTrailingSlash("/login");
    ResolveDeclared(0);
  }

  /** The authentication pages and "/" are reachable without any role check. */
  lemma PublicPages()
    ensures Resolve("/login") == Route("/login", Login, Public)
    ensures Resolve("/register") == Route("/register", Register, Public)
    ensures Resolve("/verify-otp") == Route("/verify-otp", OtpVerify, Public)
    ensures Resolve("/verify-totp") == Route("/verify-totp", TotpVerify, Public)
    ensures Resolve("/setup-account") == Route("/setup-account", SetupAccount, Public)
    ensures Resolve("/unauthorized") == Route("/unauthorized", Unauthorized, Public)
    ensures Resolve("/") == Route("/", Home, Public)
  {
    ResolveDeclared(0);
    ResolveDeclared(1);
    ResolveDeclared(2);
    ResolveDeclared(3);
    ResolveDeclared(4);
    ResolveDeclared(5);
    ResolveDeclared(10);
  }

  /** Each role's pages admit that role only. */
  lemma GatedPages()
    ensures Resolve("/student/apply").gate == Protected([Roles.Student])
    ensures Resolve("/student/status").gate == Protected([Roles.Student])
    ensures Resolve("/verifier/dashboard").gate == Protected([Roles.Verifier])
    ensures Resolve("/admin/dashboard").gate == Protected([Roles.Admin])
  {
    ResolveDeclared(6);
    ResolveDeclared(7);
    ResolveDeclared(8);
    ResolveDeclared(9);
  }

  /** The page "/" redirects a user to is a route gated to exactly that user's role. */
  lemma LandingIsGatedToRole(user: Option<Record>, role: string)
    requires role == Roles.Student || role == Roles.Verifier || role == Roles.Admin
    requires Roles.HasRole(user, role)
    ensures HomeRedirect.Target(user, false).Redirect?
    ensures Resolve(HomeRedirect.Target(user, false).to).gate == Protected([role])
  {
    HomeRedirect.TargetByRole(user);
    Roles.AtMostOneRole(user);
    GatedPages();
  }

  /** Every role link of the navigation bar leads to a page gated to that same role. */
  lemma NavbarLinksGatedToRole(user: Record, role: string)
    requires role == Roles.Student || role == Roles.Verifier || role == Roles.Admin
    requires Roles.HasRole(Some(user), role)
    ensures Navbar.View(Some(user)).Shown?
    ensures forall link :: link in Navbar.View(Some(user)).roleLinks ==> Resolve(link).gate == Protected([role])
  {
    Navbar.LinksByRole(user);
    Roles.AtMostOneRole(Some(user));
    GatedPages();
  }

  /** The login form only ever navigates to pages that need no role. */
  lemma LoginTargetsArePublic(data: Record)
    requires LoginPage.Dispatch(data).GoTo?
    ensures Resolve(LoginPage.Dispatch(data).path).gate == Public
  {
    var path := LoginPage.Dispatch(data).path;
    if path == "/" {
      ResolveDeclared(10);
    } else if path == "/verify-totp" {
      ResolveDeclared(3);
    } else {
      assert path == "/verify-otp";
      ResolveDeclared(2);
    }
  }
}
