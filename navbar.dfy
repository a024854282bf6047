/** The navigation bar: hidden without a user, otherwise a home link, the links
    of the user's role and a logout button. */
module Navbar {
  import opened Js
  import Roles
  import AuthContext

  datatype Bar = Hidden | Shown(home: string, roleLinks: seq<string>)

  /** The role-specific links: three independent conditions on `user.role`. */
  function RoleLinks(role: Option<string>): seq<string>
  {
    (if role == Some(Roles.Student) then ["/student/apply", "/student/status"] else [])
    + (if role == Some(Roles.Verifier) then ["/verifier/dashboard"] else [])
    + (if role == Some(Roles.Admin) then ["/admin/dashboard"] else [])
  }

  /** What the bar renders for the current user. */
  function View(user: Option<Record>): (b: Bar)
    ensures b.Hidden? <==> user.None?
  {
    if user.None? then Hidden else Shown("/", RoleLinks(Roles.RoleOf(user.value)))
  }

  /** Each known role gets exactly its own link group; any other role gets none. */
  lemma LinksByRole(user: Record)
    ensures Roles.HasRole(Some(user), Roles.Student) ==>
              View(Some(user)) == Shown("/", ["/student/apply", "/student/status"])
    ensures Roles.HasRole(Some(user), Roles.Verifier) ==> View(Some(user)) == Shown("/", ["/verifier/dashboard"])
    ensures Roles.HasRole(Some(user), Roles.Admin) ==> View(Some(user)) == Shown("/", ["/admin/dashboard"])
    ensures (!Roles.HasRole(Some(user), Roles.Student) && !Roles.HasRole(Some(user), Roles.Verifier)
             && !Roles.HasRole(Some(user), Roles.Admin)) ==> View(Some(user)) == Shown("/", [])
  {
    Roles.RolesDistinct();
  }

  /** `handleLogout`: end the session, then go to "/login". */
  method HandleLogout(session: AuthContext.Session) returns (to: string)
    modifies session
    ensures session.State() == AuthContext.AfterLogout(old(session.State()))
    ensures to == "/login"
  {
    session.Logout();
    to := "/login";
  }
}
