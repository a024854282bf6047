/** The component mounted at "/": it sends a signed-in user to their role's landing page. */
module HomeRedirect {
  import opened Js
  import Roles

  datatype View = LoadingPlaceholder | Redirect(to: string)

  /** What the component renders for the current user and loading flag. */
  function Target(user: Option<Record>, loading: bool): (v: View)
    ensures v.LoadingPlaceholder? <==> loading
    ensures !loading && user.None? ==> v == Redirect("/login")
  {
    if loading then LoadingPlaceholder
    else if user.None? then Redirect("/login")
    else match Roles.RoleOf(user.value)
      case Some(role) => Redirect(Landing(role))
      case None => Redirect("/login")
  }

  /** The `switch (user.role)`: each known role's landing page, "/login" by default. */
  function Landing(role: string): string
  {
    if role == Roles.Student then "/student/status"
    else if role == Roles.Verifier then "/verifier/dashboard"
    else if role == Roles.Admin then "/admin/dashboard"
    else "/login"
  }

  /** A user holding one of the three roles lands on that role's page; any other
      user, and a missing one, is sent to "/login". */
  lemma TargetByRole(user: Option<Record>)
    ensures Roles.HasRole(user, Roles.Student) ==> Target(user, false) == Redirect("/student/status")
    ensures Roles.HasRole(user, Roles.Verifier) ==> Target(user, false) == Redirect("/verifier/dashboard")
    ensures Roles.HasRole(user, Roles.Admin) ==> Target(user, false) == Redirect("/admin/dashboard")
    ensures (!Roles.HasRole(user, Roles.Student) && !Roles.HasRole(user, Roles.Verifier)
             && !Roles.HasRole(user, Roles.Admin)) ==> Target(user, false) == Redirect("/login")
  {
    Roles.RolesDistinct();
  }
}
