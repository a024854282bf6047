/** The role names and the role test shared by the routing components. */
module Roles {
  import opened Js

  const Student: string := "student"
  const Verifier: string := "verifier"
  const Admin: string := "admin"

  /** `user.role`: undefined when the record has no role field. */
  function RoleOf(user: Record): Option<string>
  {
    Field(user, "role")
  }

  /** `hasRole(user, requiredRole)`: `user && user.role === requiredRole`. */
  predicate HasRole(user: Option<Record>, role: string)
  {
    user.Some? && RoleOf(user.value) == Some(role)
  }

  /** The three role names are pairwise distinct. */
  lemma RolesDistinct()
    ensures Student != Verifier && Verifier != Admin && Student != Admin
  {
    assert Student[0] != Verifier[0] && Verifier[0] != Admin[0] && Student[0] != Admin[0];
  }

  /** A missing user has no role; a present one has exactly the role its record names. */
  lemma HasRoleMeaning(user: Option<Record>, role: string)
    ensures user.None? ==> !HasRole(user, role)
    ensures user.Some? ==> (HasRole(user, role) <==> "role" in user.value && user.value["role"] == role)
  {
  }

  /** No user holds two of the three roles at once. */
  lemma AtMostOneRole(user: Option<Record>)
    ensures (if HasRole(user, Student) then 1 else 0)
          + (if HasRole(user, Verifier) then 1 else 0)
          + (if HasRole(user, Admin) then 1 else 0) <= 1
  {
    RolesDistinct();
  }
}
