/** The guard around the role-restricted pages. */
module ProtectedRoute {
  import opened Wrappers

  /** The three things the guard can do. */
  datatype Access = ToLogin | ToHome | RenderChildren

  /** Where each redirect leads. */
  function RedirectPath(a: Access): Option<string>
  {
    match a
    case ToLogin => Some("/")
    case ToHome => Some("/home")
    case RenderChildren => None
  }

  /**
   * The guard's decision on the stored role (`None` when nothing is stored):
   * no role or an empty one goes to the login page, a role outside
   * `allowedRoles` goes home, and an allowed role sees the page.
   */
  function Guard(storedRole: Option<string>, allowedRoles: seq<string>): Access
  {
    if storedRole.None? || storedRole.value == "" then ToLogin
    else if storedRole.value !in allowedRoles then ToHome
    else RenderChildren
  }

  /** Each outcome, stated as exactly the condition under which it happens. */
  lemma GuardOutcomes(storedRole: Option<string>, allowedRoles: seq<string>)
    ensures Guard(storedRole, allowedRoles) == ToLogin <==> storedRole.None? || storedRole.value == ""
    ensures Guard(storedRole, allowedRoles) == ToHome <==>
              storedRole.Some? && storedRole.value != "" && storedRole.value !in allowedRoles
    ensures Guard(storedRole, allowedRoles) == RenderChildren <==>
              storedRole.Some? && storedRole.value != "" && storedRole.value in allowedRoles
    ensures RedirectPath(Guard(storedRole, allowedRoles)).None? <==> Guard(storedRole, allowedRoles) == RenderChildren
  {
  }

  /** Allowing more roles never turns a page away from a role it admitted. */
  lemma GuardMonotone(storedRole: Option<string>, allowedRoles: seq<string>, more: seq<string>)
    requires forall r :: r in allowedRoles ==> r in more
    ensures Guard(storedRole, allowedRoles) == RenderChildren ==> Guard(storedRole, more) == RenderChildren
  {
  }
}
