/**
 * Authentication route guards (src/app/core/guards/auth.guard.ts): each maps the first
 * snapshot of the Firebase Auth user stream to "activate" or a fixed redirect.
 */
module AuthGuards {
  import opened Wrappers
  import opened AuthService
  import opened Navigation

  /** Where unauthenticated visitors of protected pages are sent. */
  const LoginPath: string := "/auth/login"

  /** Where signed-in visitors of the sign-in pages are sent. */
  const DashboardPath: string := "/dashboard"

  /** `authGuard` on one snapshot: signed-in users pass, others go to the login page. */
  function AuthGuard(account: Option<AuthAccount>): (d: GuardResult)
    ensures d.Allow? <==> account.Some?
    ensures !d.Allow? ==> d == Redirect(LoginPath)
  {
    if account.Some? then Allow else Redirect(LoginPath)
  }

  /** `noAuthGuard` on one snapshot: visitors pass, signed-in users go to the dashboard. */
  function NoAuthGuard(account: Option<AuthAccount>): (d: GuardResult)
    ensures d.Allow? <==> account.None?
    ensures !d.Allow? ==> d == Redirect(DashboardPath)
  {
    if account.None? then Allow else Redirect(DashboardPath)
  }

  /** `authGuard` on the account stream. */
  function AuthGuardOnStream(accounts: seq<Option<AuthAccount>>): (r: Option<GuardResult>)
    ensures r.None? <==> |accounts| == 0
    ensures |accounts| > 0 ==> r == Some(AuthGuard(accounts[0]))
  {
    TakeFirst(accounts, AuthGuard)
  }

  /** `noAuthGuard` on the account stream. */
  function NoAuthGuardOnStream(accounts: seq<Option<AuthAccount>>): (r: Option<GuardResult>)
    ensures r.None? <==> |accounts| == 0
    ensures |accounts| > 0 ==> r == Some(NoAuthGuard(accounts[0]))
  {
    TakeFirst(accounts, NoAuthGuard)
  }

  /** For every snapshot exactly one of the two guards lets the navigation through. */
  lemma ExactlyOneAuthGuardAllows(account: Option<AuthAccount>)
    ensures AuthGuard(account).Allow? != NoAuthGuard(account).Allow?
  {
  }

  /** Account snapshots after the first do not change either decision. */
  lemma AuthGuardsDecideOnFirstSnapshot(first: Option<AuthAccount>, later: seq<Option<AuthAccount>>)
    ensures AuthGuardOnStream([first] + later) == Some(AuthGuard(first))
    ensures NoAuthGuardOnStream([first] + later) == Some(NoAuthGuard(first))
  {
  }
}
