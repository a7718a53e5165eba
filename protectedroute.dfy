/** The client route guard `ProtectedRoute`: it shows a spinner while the
    session loads, sends signed-out visitors to the login page, and admits a
    signed-in user to a route that needs a role when the user's role level is
    at least the required one. */
module ProtectedRoute {
  import opened Common

  /** What the guard renders. */
  datatype View = Spinner | Navigate(to: string) | Children

  /** The `roleHierarchy` table; a role it does not list has no level
      (`undefined`). */
  function RoleLevel(role: string): (level: Option<nat>)
    ensures level.Some? <==> role in {"user", "patrol", "admin", "superAdmin"}
    ensures level.Some? ==> 1 <= level.value <= 4
  {
    if role == "user" then Some(1)
    else if role == "patrol" then Some(2)
    else if role == "admin" then Some(3)
    else if role == "superAdmin" then Some(4)
    else None
  }

  /** The four roles form a strict chain user < patrol < admin < superAdmin,
      and no two roles share a level. */
  lemma RoleLevelsChain()
    ensures RoleLevel("user").value < RoleLevel("patrol").value < RoleLevel("admin").value < RoleLevel("superAdmin").value
    ensures forall a, b :: RoleLevel(a).Some? && RoleLevel(b).Some? && a != b ==> RoleLevel(a) != RoleLevel(b)
  {
  }

  /** A role the route may demand (the TypeScript type of `requiredRole`). */
  predicate KnownRole(role: string) {
    RoleLevel(role).Some?
  }

  /** `userRoleLevel < requiredRoleLevel` as JavaScript evaluates it: a
      comparison with `undefined` is false. */
  predicate BelowLevel(userLevel: Option<nat>, requiredLevel: Option<nat>) {
    userLevel.Some? && requiredLevel.Some? && userLevel.value < requiredLevel.value
  }

  /** The guard as written. `signedIn` is `currentUser`; `profileRole` is the
      role of `userProfile`, `None` when there is no profile. */
  function Guard(loading: bool, signedIn: bool, profileRole: Option<string>, requiredRole: Option<string>): (v: View)
    requires requiredRole.Some? ==> KnownRole(requiredRole.value)
    ensures loading ==> v == Spinner
    ensures !loading && (!signedIn || profileRole.None?) ==> v == Navigate("/login")
    ensures !loading && signedIn && profileRole.Some? && requiredRole.None? ==> v == Children
    ensures !loading && signedIn && profileRole.Some? && requiredRole.Some? && KnownRole(profileRole.value) ==>
      (v == Children <==> RoleLevel(profileRole.value).value >= RoleLevel(requiredRole.value).value) &&
      (v != Children ==> v == Navigate("/"))
  {
    if loading then Spinner
    else if !signedIn || profileRole.None? then Navigate("/login")
    else if requiredRole.Some? && BelowLevel(RoleLevel(profileRole.value), RoleLevel(requiredRole.value)) then Navigate("/")
    else Children
  }

  /** Among the four roles admission is monotone: a role at least as high as
      an admitted one is admitted too. */
  lemma GuardMonotone(low: string, high: string, requiredRole: Option<string>)
    requires requiredRole.Some? ==> KnownRole(requiredRole.value)
    requires KnownRole(low) && KnownRole(high) && RoleLevel(low).value <= RoleLevel(high).value
    requires Guard(false, true, Some(low), requiredRole) == Children
    ensures Guard(false, true, Some(high), requiredRole) == Children
  {
  }

  /** As written, a profile whose role is not one of the four has no level,
      the comparison is false, and every route admits it, the superAdmin-only
      ones included. */
  lemma UnknownRoleAdmitted(role: string, requiredRole: string)
    requires !KnownRole(role) && KnownRole(requiredRole)
    ensures Guard(false, true, Some(role), Some(requiredRole)) == Children
  {
  }

  /** The guard with the comparison the hierarchy is evidently meant to make:
      a role without a level is below every required level. */
  function GuardKnownRoles(loading: bool, signedIn: bool, profileRole: Option<string>, requiredRole: Option<string>): (v: View)
    requires requiredRole.Some? ==> KnownRole(requiredRole.value)
    ensures loading ==> v == Spinner
    ensures !loading && (!signedIn || profileRole.None?) ==> v == Navigate("/login")
    ensures !loading && signedIn && profileRole.Some? && requiredRole.None? ==> v == Children
    ensures !loading && signedIn && profileRole.Some? && requiredRole.Some? ==>
      (v == Children <==> KnownRole(profileRole.value) && RoleLevel(profileRole.value).value >= RoleLevel(requiredRole.value).value) &&
      (v != Children ==> v == Navigate("/"))
  {
    if loading then Spinner
    else if !signedIn || profileRole.None? then Navigate("/login")
    else if requiredRole.Some? && RoleLevel(profileRole.value).GetOr(0) < RoleLevel(requiredRole.value).value then Navigate("/")
    else Children
  }

  /** The corrected guard agrees with the written one on the four roles and
      differs only in turning away unknown roles. */
  lemma GuardKnownRolesAgrees(loading: bool, signedIn: bool, profileRole: Option<string>, requiredRole: Option<string>)
    requires requiredRole.Some? ==> KnownRole(requiredRole.value)
    requires profileRole.Some? ==> KnownRole(profileRole.value)
    ensures GuardKnownRoles(loading, signedIn, profileRole, requiredRole) == Guard(loading, signedIn, profileRole, requiredRole)
  {
  }
}
