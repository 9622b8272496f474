/**
 * Role-based route guards (src/app/core/guards/role.guard.ts): the decision each guard
 * takes on the first user-profile snapshot, with the dependency injection and the
 * observable plumbing stripped away.
 */
module RoleGuards {
  import opened Wrappers
  import opened Models
  import opened AuthService
  import opened Navigation

  /** Where a guard sends a user who lacks the required role. */
  const UnauthorizedPath: string := "/unauthorized"

  /** `roleGuard(requiredRole)` applied to one profile snapshot. */
  function RoleGuard(requiredRole: UserRole, user: Option<User>): (d: GuardResult)
    ensures d.Allow? ==> user.Some? && Rank(user.value.role) >= Rank(requiredRole)
    ensures user.Some? && Rank(user.value.role) >= Rank(requiredRole) ==> d.Allow?
    ensures !d.Allow? ==> d == Redirect(UnauthorizedPath)
  {
    if user.Some? && CanPerformAction(user, requiredRole) then Allow else Redirect(UnauthorizedPath)
  }

  /** `adminGuard = roleGuard(ADMIN)`: only admins get through. */
  function AdminGuard(user: Option<User>): (d: GuardResult)
    ensures d.Allow? <==> user.Some? && user.value.role == Admin
    ensures !d.Allow? ==> d == Redirect(UnauthorizedPath)
  {
    RoleGuard(Admin, user)
  }

  /** `researcherGuard = roleGuard(RESEARCHER)`: researchers and admins get through, lab technicians do not. */
  function ResearcherGuard(user: Option<User>): (d: GuardResult)
    ensures d.Allow? <==> user.Some? && (user.value.role == Researcher || user.value.role == Admin)
    ensures user.Some? && user.value.role == LabTech ==> d == Redirect(UnauthorizedPath)
    ensures !d.Allow? ==> d == Redirect(UnauthorizedPath)
  {
    RoleGuard(Researcher, user)
  }

  /** The whole guard on a profile stream: only the first snapshot is consulted. */
  function RoleGuardOnStream(requiredRole: UserRole, profiles: seq<Option<User>>): (r: Option<GuardResult>)
    ensures r.None? <==> |profiles| == 0
    ensures |profiles| > 0 ==> r == Some(RoleGuard(requiredRole, profiles[0]))
  {
    TakeFirst(profiles, (user: Option<User>) => RoleGuard(requiredRole, user))
  }

  /** The guard allows exactly when the role check of the auth service does. */
  lemma RoleGuardAgreesWithCanPerformAction(requiredRole: UserRole, user: Option<User>)
    ensures RoleGuard(requiredRole, user).Allow? <==> CanPerformAction(user, requiredRole)
  {
  }

  /** A user let through a guard is let through every guard for a role ranked no higher. */
  lemma RoleGuardMonotone(required: UserRole, lower: UserRole, user: Option<User>)
    requires Rank(lower) <= Rank(required)
    requires RoleGuard(required, user).Allow?
    ensures RoleGuard(lower, user).Allow?
  {
    LowerRequirementAllowed(user, required, lower);
  }

  /** Profile snapshots after the first do not change the decision. */
  lemma RoleGuardDecidesOnFirstSnapshot(requiredRole: UserRole, first: Option<User>, later: seq<Option<User>>)
    ensures RoleGuardOnStream(requiredRole, [first] + later) == Some(RoleGuard(requiredRole, first))
  {
  }
}
