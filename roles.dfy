/** The two user roles, their display names and the role predicates. */
module Roles {
  import opened Js

  const USER: int := 0
  const ADMIN: int := 1

  /** `role === USER_ROLES.ADMIN`: strict, so the string "1" is not an admin. */
  predicate IsAdmin(role: Value)
    ensures IsAdmin(role) ==> !IsUser(role)
  {
    role == Num(ADMIN)
  }

  /** `role === USER_ROLES.USER` */
  predicate IsUser(role: Value)
  {
    role == Num(USER)
  }

  /** `ROLE_NAMES[role] || 'Unknown'`: the lookup key is `String(role)`, so the
      two table keys are "0" and "1". */
  function GetRoleName(role: Value): string
  {
    var key := ToJsString(role);
    if key == "0" then "User" else if key == "1" then "Admin" else "Unknown"
  }

  lemma RoleNamesOfTheTwoRoles()
    ensures GetRoleName(Num(USER)) == "User"
    ensures GetRoleName(Num(ADMIN)) == "Admin"
  {
  }

  /** Every other number is "Unknown". */
  lemma RoleNameOfOtherNumbers(n: int)
    requires n != USER && n != ADMIN
    ensures GetRoleName(Num(n)) == "Unknown"
  {
    IntToStringSingleDigit(n);
  }

  /** A number has a known role name exactly when it is one of the two roles,
      and the name agrees with the role predicates. */
  lemma RoleNameAgreesWithPredicates(n: int)
    ensures GetRoleName(Num(n)) == "Admin" <==> IsAdmin(Num(n))
    ensures GetRoleName(Num(n)) == "User" <==> IsUser(Num(n))
  {
    IntToStringSingleDigit(n);
  }

  /** The name lookup converts its key to a string and the predicates do not:
      the string "1" is named "Admin" but is not an admin role. */
  lemma RoleNameLooserThanIsAdmin()
    ensures GetRoleName(Str("1")) == "Admin" && !IsAdmin(Str("1"))
  {
  }
}
