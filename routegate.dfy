/**
  The decision of the route guard in src/components/admin/ProtectedRoute.tsx:
  a placeholder while loading, a redirect to the login page without a
  session, "Access Denied" below the required level, otherwise the page.
  `Gate` looks role levels up as own entries of the table, and the route
  table in AppRoutes uses it; `WrittenGate` is the lookup as the code makes
  it, through the prototype chain, and differs only on the names of
  Object.prototype members.
 */
module RouteGate {
  import opened Common
  import opened Auth

  datatype Decision = Placeholder | Redirect(to: string) | AccessDenied | Render

  const LoginPath := "/admin/login"

  /**
    The guard's role levels looked up as own entries of the table only: a
    stored role outside viewer, manager and admin has level 0. This is the
    lookup the guard is evidently meant to make; `WrittenGate` below is the
    lookup as the code makes it.
   */
  function UserLevel(role: string): int
  {
    match RoleLevel(role)
    case None => 0
    case Some(l) => l
  }

  /** `requiredRole` defaults to "viewer"; `roleHierarchy[requiredRole] || 1`. */
  function RequiredLevel(required: Option<string>): int
  {
    match RoleLevel(RequiredName(required))
    case None => 1
    case Some(l) => l
  }

  function RequiredName(required: Option<string>): string
  {
    if required.Some? then required.value else "viewer"
  }

  /** The guard with own-property lookups. */
  function Gate(loading: bool, isAuthenticated: bool, profile: Option<UserProfile>, required: Option<string>): Decision
  {
    if loading then Placeholder
    else if !isAuthenticated || profile.None? then Redirect(LoginPath)
    else if UserLevel(profile.value.role) < RequiredLevel(required) then AccessDenied
    else Render
  }

  /** A level as the `<` of the guard sees it: a number, or NaN for a function or an object. */
  datatype JsLevel = Num(n: int) | NaN

  /**
    `roleHierarchy[key] || fallback` on the object literal: an own entry, an
    inherited Object.prototype member (truthy, and NaN once compared), or
    the fallback when nothing is found.
   */
  function WrittenLevel(key: string, fallback: int): (r: JsLevel)
    ensures r == NaN <==> ProtoKey(key)
    ensures RoleLevel(key).Some? ==> r == Num(RoleLevel(key).value)
    ensures RoleLevel(key).None? && !ProtoKey(key) ==> r == Num(fallback)
  {
    match RoleLevel(key)
    case Some(l) => if l != 0 then Num(l) else Num(fallback)
    case None => if ProtoKey(key) then NaN else Num(fallback)
  }

  /** JavaScript `<`: any comparison with NaN is false. */
  predicate Less(a: JsLevel, b: JsLevel)
  {
    a.Num? && b.Num? && a.n < b.n
  }

  /** The guard as written, with the levels looked up through the prototype chain. */
  function WrittenGate(loading: bool, isAuthenticated: bool, profile: Option<UserProfile>, required: Option<string>): Decision
  {
    if loading then Placeholder
    else if !isAuthenticated || profile.None? then Redirect(LoginPath)
    else if Less(WrittenLevel(profile.value.role, 0), WrittenLevel(RequiredName(required), 1)) then AccessDenied
    else Render
  }

  /**
    As written, a stored role that names an Object.prototype member, such as
    "constructor" or "toString", finds an inherited function whose level is
    NaN; `NaN < n` is false, so the guard renders whatever role is required.
   */
  lemma WrittenGateAdmitsInheritedRole(profile: UserProfile, required: Option<string>)
    requires ProtoKey(profile.role)
    ensures WrittenGate(false, true, Some(profile), required) == Render
    ensures Gate(false, true, Some(profile), required) == AccessDenied
  {
    assert RoleLevel(profile.role).None?;
    assert RequiredLevel(required) >= 1;
  }

  /** Away from the prototype names, the guard as written and the corrected guard decide alike. */
  lemma WrittenGateAgreesElsewhere(loading: bool, isAuthenticated: bool, profile: Option<UserProfile>, required: Option<string>)
    requires profile.Some? ==> !ProtoKey(profile.value.role)
    requires !ProtoKey(RequiredName(required))
    ensures WrittenGate(loading, isAuthenticated, profile, required) == Gate(loading, isAuthenticated, profile, required)
  {
  }

  /** While loading nothing but the placeholder is shown, whatever the role. */
  lemma GateWhileLoading(isAuthenticated: bool, profile: Option<UserProfile>, required: Option<string>)
    ensures Gate(true, isAuthenticated, profile, required) == Placeholder
  {
  }

  /** Without a session or without a profile the guard redirects to the login page. */
  lemma GateWithoutSession(isAuthenticated: bool, profile: Option<UserProfile>, required: Option<string>)
    requires !isAuthenticated || profile.None?
    ensures Gate(false, isAuthenticated, profile, required) == Redirect("/admin/login")
  {
  }

  /** For each of the three role names the guard agrees with `hasRole`. */
  lemma GateAgreesWithHasRole(profile: Option<UserProfile>, required: Role)
    ensures Gate(false, true, profile, Some(RoleName(required))) == Render <==> HasRole(profile, required)
  {
  }

  /**
    With own-property lookups, a stored role outside the table, a prototype
    name included, has level 0 and is denied every requirement.
   */
  lemma GateDeniesUnknownRole(profile: UserProfile, required: Option<string>)
    requires RoleLevel(profile.role).None?
    ensures Gate(false, true, Some(profile), required) == AccessDenied
  {
    assert RequiredLevel(required) >= 1;
  }

  /** An unknown required role, and an omitted one, both behave as "viewer". */
  lemma GateUnknownRequirementIsViewer(loading: bool, isAuthenticated: bool, profile: Option<UserProfile>, required: string)
    requires RoleLevel(required).None?
    ensures Gate(loading, isAuthenticated, profile, Some(required)) == Gate(loading, isAuthenticated, profile, Some("viewer"))
    ensures Gate(loading, isAuthenticated, profile, None) == Gate(loading, isAuthenticated, profile, Some("viewer"))
  {
  }

  /** Whatever is granted for a requirement is granted for every lower requirement. */
  lemma GateMonotone(loading: bool, isAuthenticated: bool, profile: Option<UserProfile>, lower: Option<string>, higher: Option<string>)
    requires RequiredLevel(lower) <= RequiredLevel(higher)
    requires Gate(loading, isAuthenticated, profile, higher) == Render
    ensures Gate(loading, isAuthenticated, profile, lower) == Render
  {
  }
}
