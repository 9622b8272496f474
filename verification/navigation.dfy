/**
 * The shape shared by the route guards: a guard reads the first snapshot of a user
 * stream (`take(1)`) and answers either "activate" or a redirect to a path.
 */
module Navigation {
  import opened Wrappers

  /** `true` or `router.createUrlTree([path])`. */
  datatype GuardResult = Allow | Redirect(path: string)

  /**
   * `stream.pipe(take(1), map(decide))`: the decision for the first snapshot, or no
   * decision when the stream emits nothing.
   */
  function TakeFirst<T>(snapshots: seq<T>, decide: T -> GuardResult): (r: Option<GuardResult>)
    ensures r.None? <==> |snapshots| == 0
    ensures |snapshots| > 0 ==> r == Some(decide(snapshots[0]))
  {
    if |snapshots| == 0 then None else Some(decide(snapshots[0]))
  }

  /** Snapshots after the first never change a guard's decision. */
  lemma LaterSnapshotsIgnored<T>(snapshots: seq<T>, later: seq<T>, decide: T -> GuardResult)
    requires |snapshots| > 0
    ensures TakeFirst(snapshots + later, decide) == TakeFirst(snapshots, decide)
    ensures TakeFirst([snapshots[0]] + later, decide) == TakeFirst(snapshots, decide)
  {
    assert (snapshots + later)[0] == snapshots[0];
  }
}
