/**
 * The pure rules of the batch service (src/app/core/services/batch.service.ts):
 * output validation, the record a new batch starts as, the peak-yield test over the
 * batches of one enzyme, and the effect of a successful creation on the batch store.
 * The `batches` collection is a map from document id to record.
 */
module Batches {
  import opened Wrappers
  import opened Models

  /** Errors surfaced by the batch service. */
  datatype BatchError =
    | OutputsOutOfRange(total: real)  // the thrown "must sum to ~100%" error, with the computed total
    | BatchNotFound(id: BatchId)      // updating a document that does not exist

  /** The closed band the three output percentages must sum into. */
  const MinOutputTotal: real := 95.0
  const MaxOutputTotal: real := 105.0

  /** The `batches` collection: document id to record. */
  type Store = map<BatchId, Batch>

  /** Combined output percentage of a batch. */
  function Total(o: CannabinoidOutputs): real {
    o.thca + o.cbda + o.cbca
  }

  /** The validation step of `createBatch`: an error carrying the total, or nothing. */
  function ValidateOutputs(o: CannabinoidOutputs): (r: Option<BatchError>)
    ensures r.None? <==> MinOutputTotal <= Total(o) <= MaxOutputTotal
    ensures r.Some? ==> r.value == OutputsOutOfRange(Total(o))
  {
    var total := Total(o);
    if total < MinOutputTotal || total > MaxOutputTotal then Some(OutputsOutOfRange(total)) else None
  }

  /** Sums of exactly 95 and 105 are accepted; just outside the band they are not. */
  lemma ValidationBandIsClosed()
    ensures ValidateOutputs(CannabinoidOutputs(30.0, 30.0, 35.0)).None?
    ensures ValidateOutputs(CannabinoidOutputs(35.0, 35.0, 35.0)).None?
    ensures ValidateOutputs(CannabinoidOutputs(30.0, 30.0, 34.99)) == Some(OutputsOutOfRange(94.99))
    ensures ValidateOutputs(CannabinoidOutputs(35.0, 35.0, 35.01)) == Some(OutputsOutOfRange(105.01))
  {
  }

  /** The record `createBatch` writes: the caller's fields, status in-progress. */
  function NewBatch(
    id: BatchId, enzymeId: string, cbgaInput: real, outputs: CannabinoidOutputs,
    labTechId: string, labTechName: string, enzymeName: string, notes: Option<string>,
    timestamp: int): (b: Batch)
  {
    Batch(id, enzymeId, Some(enzymeName), cbgaInput, outputs, timestamp,
          labTechId, Some(labTechName), InProgress, notes)
  }

  /** Every record is filed under its own id (the `idField` of the queries). */
  predicate WellKeyed(store: Store) {
    forall k :: k in store ==> store[k].id == k
  }

  /** The query `where('enzymeId', '==', enzymeId)`. */
  function BatchesByEnzyme(store: Store, enzymeId: string): Store {
    map k | k in store && store[k].enzymeId == enzymeId :: store[k]
  }

  /**
   * The `every` of `checkPeakYield` over the batches of one enzyme: the record of the
   * batch itself is skipped by id, every other total is at most the current one.
   */
  function IsPeak(store: Store, batchId: BatchId, enzymeId: string, currentTotal: real): (p: bool)
    ensures p <==> forall k :: k in store && store[k].enzymeId == enzymeId && store[k].id != batchId ==>
      Total(store[k].outputs) <= currentTotal
    ensures (forall k :: k in store ==> store[k].enzymeId != enzymeId) ==> p
  {
    var forEnzyme := BatchesByEnzyme(store, enzymeId);
    assert forall k :: k in store && store[k].enzymeId == enzymeId ==> k in forEnzyme && forEnzyme[k] == store[k];
    forall k :: k in forEnzyme ==> forEnzyme[k].id == batchId || currentTotal >= Total(forEnzyme[k].outputs)
  }

  /** `updateBatchStatus` on the store: only the status of one existing record changes. */
  function SetStatus(store: Store, id: BatchId, status: BatchStatus): (r: Result<Store, BatchError>)
    ensures r.Failure? <==> id !in store
    ensures r.Failure? ==> r.error == BatchNotFound(id)
    ensures r.Success? ==> r.value.Keys == store.Keys
    ensures r.Success? ==> r.value[id].status == status && r.value[id].(status := store[id].status) == store[id]
    ensures r.Success? ==> forall k :: k in store && k != id ==> r.value[k] == store[k]
  {
    if id in store then Success(store[id := store[id].(status := status)]) else Failure(BatchNotFound(id))
  }

  /** `checkPeakYield` on the store: mark the batch peak if it passes the test. */
  function ClassifyPeak(store: Store, batchId: BatchId, enzymeId: string, currentTotal: real): (r: Result<Store, BatchError>)
    ensures r.Failure? <==> IsPeak(store, batchId, enzymeId, currentTotal) && batchId !in store
    ensures r.Failure? ==> r.error == BatchNotFound(batchId)
    ensures r.Success? ==> r.value.Keys == store.Keys
    ensures r.Success? ==> forall k :: k in store && k != batchId ==> r.value[k] == store[k]
    ensures r.Success? && batchId in store ==>
      && r.value[batchId].(status := store[batchId].status) == store[batchId]
      && (r.value[batchId].status == PeakYield <==>
          IsPeak(store, batchId, enzymeId, currentTotal) || store[batchId].status == PeakYield)
  {
    if IsPeak(store, batchId, enzymeId, currentTotal) then SetStatus(store, batchId, PeakYield) else Success(store)
  }

  /** The store after a successful `createBatch` of `batch`: insert, then classify. */
  function AfterCreate(store: Store, batch: Batch): (r: Store)
    ensures r.Keys == store.Keys + {batch.id}
    ensures forall k :: k in store && k != batch.id ==> r[k] == store[k]
    ensures r[batch.id] == batch || r[batch.id] == batch.(status := PeakYield)
  {
    var inserted := store[batch.id := batch];
    if IsPeak(inserted, batch.id, batch.enzymeId, Total(batch.outputs))
    then inserted[batch.id := batch.(status := PeakYield)]
    else inserted
  }

  /**
   * Reference definition of a peak: the batch's total is at least the total of every
   * batch already stored for the same enzyme (so a first batch is always a peak).
   */
  ghost predicate TopsEnzyme(store: Store, batch: Batch) {
    forall k :: k in store && store[k].enzymeId == batch.enzymeId ==> Total(batch.outputs) >= Total(store[k].outputs)
  }

  /** The `every` test on the store with the new batch inserted is exactly `TopsEnzyme`. */
  lemma PeakTestMatchesReference(store: Store, batch: Batch)
    requires WellKeyed(store) && batch.id !in store
    ensures IsPeak(store[batch.id := batch], batch.id, batch.enzymeId, Total(batch.outputs)) <==> TopsEnzyme(store, batch)
  {
    var inserted := store[batch.id := batch];
    var forEnzyme := BatchesByEnzyme(inserted, batch.enzymeId);
    if TopsEnzyme(store, batch) {
      forall k | k in forEnzyme
        ensures forEnzyme[k].id == batch.id || Total(batch.outputs) >= Total(forEnzyme[k].outputs)
      {
        if k != batch.id {
          assert k in store && store[k].enzymeId == batch.enzymeId;
        }
      }
    }
    if IsPeak(inserted, batch.id, batch.enzymeId, Total(batch.outputs)) {
      forall k | k in store && store[k].enzymeId == batch.enzymeId
        ensures Total(batch.outputs) >= Total(store[k].outputs)
      {
        assert k in forEnzyme && forEnzyme[k] == store[k];
        assert store[k].id == k != batch.id;
      }
    }
  }

  /**
   * A successful creation adds exactly one record under a fresh id, leaves every
   * earlier record (earlier peaks included) as it was, and stores the new batch
   * unchanged except that its status becomes peak-yield exactly when it tops its enzyme.
   */
  lemma CreationOutcome(store: Store, batch: Batch)
    requires WellKeyed(store) && batch.id !in store
    ensures var after := AfterCreate(store, batch);
      && WellKeyed(after)
      && after.Keys == store.Keys + {batch.id}
      && (forall k :: k in store ==> after[k] == store[k])
      && after[batch.id] == batch.(status := if TopsEnzyme(store, batch) then PeakYield else batch.status)
  {
    PeakTestMatchesReference(store, batch);
  }

  /** A new peak holds the highest total among all batches of its enzyme afterwards. */
  lemma NewPeakIsMaximal(store: Store, batch: Batch)
    requires WellKeyed(store) && batch.id !in store && batch.status != PeakYield
    requires AfterCreate(store, batch)[batch.id].status == PeakYield
    ensures var after := AfterCreate(store, batch);
      forall k :: k in after && after[k].enzymeId == batch.enzymeId ==>
        Total(after[batch.id].outputs) >= Total(after[k].outputs)
  {
    CreationOutcome(store, batch);
  }

  /** A batch that is the first of its enzyme is classified peak. */
  lemma FirstBatchOfEnzymeIsPeak(store: Store, batch: Batch)
    requires WellKeyed(store) && batch.id !in store
    requires forall k :: k in store ==> store[k].enzymeId != batch.enzymeId
    ensures AfterCreate(store, batch)[batch.id].status == PeakYield
  {
    CreationOutcome(store, batch);
  }

  /**
   * Batches of other enzymes never affect classification: two stores holding the same
   * batches for the enzyme give the same answer.
   */
  lemma OtherEnzymesDoNotMatter(store: Store, other: Store, batchId: BatchId, enzymeId: string, currentTotal: real)
    requires forall k :: (k in store && store[k].enzymeId == enzymeId) <==> (k in other && other[k].enzymeId == enzymeId)
    requires forall k :: k in store && store[k].enzymeId == enzymeId ==> other[k] == store[k]
    ensures IsPeak(store, batchId, enzymeId, currentTotal) == IsPeak(other, batchId, enzymeId, currentTotal)
  {
    assert BatchesByEnzyme(store, enzymeId) == BatchesByEnzyme(other, enzymeId);
  }

  /** `p` is a peak batch of `k`'s enzyme whose total is at least `k`'s. */
  ghost predicate CoveredBy(store: Store, p: BatchId, k: BatchId)
    requires p in store && k in store
  {
    && store[p].enzymeId == store[k].enzymeId
    && store[p].status == PeakYield
    && Total(store[p].outputs) >= Total(store[k].outputs)
  }

  /** Batch `k` is matched or beaten by a peak batch of its own enzyme. */
  ghost predicate Covered(store: Store, k: BatchId)
    requires k in store
  {
    exists p :: p in store && CoveredBy(store, p, k)
  }

  /** Every batch is matched or beaten by a peak batch of its own enzyme. */
  ghost predicate PeaksCoverAll(store: Store) {
    forall k {:trigger Covered(store, k)} :: k in store ==> Covered(store, k)
  }

  /**
   * Creation keeps every batch covered by a peak: a new batch that does not top its
   * enzyme is beaten by a stored batch, whose own peak still stands because peaks are
   * never demoted. So, from an empty store, as long as only `createBatch` writes, each
   * enzyme's highest total is held by a peak-yield batch.
   */
  lemma CreationKeepsPeaksCovering(store: Store, batch: Batch)
    requires WellKeyed(store) && batch.id !in store
    requires PeaksCoverAll(store)
    ensures PeaksCoverAll(AfterCreate(store, batch))
  {
    CreationOutcome(store, batch);
    var after := AfterCreate(store, batch);
    var tops := TopsEnzyme(store, batch);
    CoverageSurvivesInsertion(store, after, batch.id, tops);
  }

  /**
   * The map-level step behind `CreationKeepsPeaksCovering`: `after` adds one record
   * `id` to `store`, keeps the others, and the new record is a peak if it tops its
   * enzyme.
   */
  lemma {:induction false} CoverageSurvivesInsertion(store: Store, after: Store, id: BatchId, tops: bool)
    requires PeaksCoverAll(store)
    requires id !in store && after.Keys == store.Keys + {id}
    requires forall k :: k in store ==> after[k] == store[k]
    requires tops ==> after[id].status == PeakYield
    requires tops <==> forall k :: k in store && store[k].enzymeId == after[id].enzymeId ==>
                                   Total(after[id].outputs) >= Total(store[k].outputs)
    ensures PeaksCoverAll(after)
  {
    forall k | k in after
      ensures Covered(after, k)
    {
      if k == id {
        if tops {
          assert CoveredBy(after, k, k);
        } else {
          var q :| q in store && store[q].enzymeId == after[id].enzymeId && Total(after[id].outputs) < Total(store[q].outputs);
          assert Covered(store, q);
          var p :| p in store && CoveredBy(store, p, q);
          assert CoveredBy(after, p, k);
        }
      } else {
        assert Covered(store, k);
        var p :| p in store && CoveredBy(store, p, k);
        assert CoveredBy(after, p, k);
      }
    }
  }

  /** The empty store is trivially covered. */
  lemma EmptyStoreIsCovered()
    ensures PeaksCoverAll(map[])
  {
  }

  /** The statuses of a list of batches, in order. */
  function Statuses(batches: seq<Batch>): (r: seq<BatchStatus>)
    ensures |r| == |batches|
    ensures forall i :: 0 <= i < |batches| ==> r[i] == batches[i].status
  {
    if |batches| == 0 then [] else [batches[0].status] + Statuses(batches[1..])
  }

  /**
   * `yield-tracker`'s peak counter `batches.filter(b => b.status === 'peak-yield').length`:
   * the number of occurrences of peak-yield among the statuses.
   */
  function PeakYieldCount(batches: seq<Batch>): (n: nat)
    ensures n == multiset(Statuses(batches))[PeakYield]
    ensures n <= |batches|
    ensures n == 0 <==> forall i :: 0 <= i < |batches| ==> batches[i].status != PeakYield
  {
    if |batches| == 0 then 0
    else (if batches[0].status == PeakYield then 1 else 0) + PeakYieldCount(batches[1..])
  }

  /** Counting peaks distributes over concatenation of batch lists. */
  lemma {:induction false} PeakYieldCountOfConcat(a: seq<Batch>, b: seq<Batch>)
    ensures PeakYieldCount(a + b) == PeakYieldCount(a) + PeakYieldCount(b)
    decreases |a|
  {
    if |a| == 0 {
      assert a + b == b;
    } else {
      assert (a + b)[1..] == a[1..] + b;
      PeakYieldCountOfConcat(a[1..], b);
    }
  }
}
