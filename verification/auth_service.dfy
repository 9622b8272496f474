/**
 * Role checks of the authentication service (src/app/core/services/auth.service.ts).
 * Sign-in, registration, sign-out and the profile stream are network calls and are
 * not part of this module; the current user reaches these checks as an `Option<User>`.
 */
module AuthService {
  import opened Wrappers
  import opened Models

  /** A signed-in Firebase Auth account; the guards only look at whether one is present. */
  datatype AuthAccount = AuthAccount(uid: string)

  /** The constant rank table: admin = 3, researcher = 2, lab_tech = 1. */
  function Rank(role: UserRole): (r: nat)
    ensures 1 <= r <= 3
    ensures r == 3 <==> role == Admin
    ensures r == 1 <==> role == LabTech
  {
    match role
    case Admin => 3
    case Researcher => 2
    case LabTech => 1
  }

  /**
   * `hasRole`: the user is present and holds exactly this role, that is, has the
   * same rank (a higher rank does not count).
   */
  function HasRole(user: Option<User>, role: UserRole): (b: bool)
    ensures user.None? ==> !b
    ensures user.Some? ==> (b <==> Rank(user.value.role) == Rank(role))
  {
    user.Some? && user.value.role == role
  }

  /** `isAdmin`: the user is present and holds the top rank. */
  function IsAdmin(user: Option<User>): (b: bool)
    ensures b <==> user.Some? && Rank(user.value.role) == 3
  {
    HasRole(user, Admin)
  }

  /** `canPerformAction`: an absent user may do nothing; otherwise compare ranks. */
  function CanPerformAction(user: Option<User>, requiredRole: UserRole): (ok: bool)
    ensures user.None? ==> !ok
    ensures user.Some? && user.value.role == Admin ==> ok
    ensures requiredRole == LabTech ==> (ok <==> user.Some?)
    ensures requiredRole == Admin ==> (ok <==> IsAdmin(user))
  {
    if user.None? then false else Rank(user.value.role) >= Rank(requiredRole)
  }

  /** Different roles have different ranks, so the hierarchy is a strict chain. */
  lemma RankIsInjective(a: UserRole, b: UserRole)
    ensures Rank(a) == Rank(b) <==> a == b
    ensures Rank(Admin) > Rank(Researcher) > Rank(LabTech)
  {
  }

  /** For a present user, permission is exactly a rank comparison. */
  lemma CanPerformActionIsRankComparison(u: User, requiredRole: UserRole)
    ensures CanPerformAction(Some(u), requiredRole) <==> Rank(u.role) >= Rank(requiredRole)
  {
  }

  /** An absent user may perform no action at all. */
  lemma AbsentUserMayDoNothing(requiredRole: UserRole)
    ensures !CanPerformAction(None, requiredRole)
  {
  }

  /** Reflexivity: every present user may perform the actions of their own role. */
  lemma OwnRoleAllowed(u: User)
    ensures CanPerformAction(Some(u), u.role)
  {
  }

  /** Monotonicity: permission for a role carries over to every role ranked no higher. */
  lemma LowerRequirementAllowed(user: Option<User>, required: UserRole, lower: UserRole)
    requires CanPerformAction(user, required)
    requires Rank(lower) <= Rank(required)
    ensures CanPerformAction(user, lower)
  {
  }

  /** A lab technician may perform only lab-technician actions. */
  lemma LabTechOnlyLabTechActions(u: User, requiredRole: UserRole)
    requires u.role == LabTech
    ensures CanPerformAction(Some(u), requiredRole) <==> requiredRole == LabTech
  {
  }

  /** `hasRole` is exact equality of roles, false for an absent user; `isAdmin` is `hasRole(_, ADMIN)`. */
  lemma HasRoleIsExactEquality(user: Option<User>, role: UserRole)
    ensures !HasRole(None, role)
    ensures user.Some? ==> (HasRole(user, role) <==> user.value.role == role)
    ensures IsAdmin(user) <==> HasRole(user, Admin)
    ensures role != Admin && HasRole(user, role) ==> !IsAdmin(user)
  {
  }

  /** Holding a role grants the actions of that role. */
  lemma HasRoleImpliesCanPerform(user: Option<User>, role: UserRole)
    requires HasRole(user, role)
    ensures CanPerformAction(user, role)
  {
  }

  /** An admin may perform every action. */
  lemma AdminMayDoEverything(user: Option<User>, requiredRole: UserRole)
    requires IsAdmin(user)
    ensures CanPerformAction(user, requiredRole)
  {
  }
}
