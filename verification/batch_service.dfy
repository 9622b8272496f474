/**
 * The stateful side of the batch service (src/app/core/services/batch.service.ts):
 * the `batches` collection held as a map that `createBatch`, `checkPeakYield`,
 * `updateBatchStatus` and `deleteBatch` rewrite. The document database becomes this
 * in-memory map, and its id generator a counter.
 */
module BatchServices {
  import opened Wrappers
  import opened Models
  import opened Batches

  class BatchService {
    /** The `batches` collection. */
    var batches: Store
    /** The next id the store hands out; every stored id is below it. */
    var nextId: BatchId

    /** Records are filed under their own ids, and every id was handed out already. */
    predicate Valid()
      reads this
    {
      WellKeyed(batches) && forall k :: k in batches ==> k < nextId
    }

    /** An empty collection. */
    constructor ()
      ensures Valid() && batches == map[]
    {
      batches := map[];
      nextId := 0;
    }

    /**
     * `createBatch`: reject outputs whose total lies outside [95, 105] without
     * touching the store; otherwise add the in-progress record under a fresh id and
     * classify it.
     */
    method CreateBatch(
      enzymeId: string, cbgaInput: real, outputs: CannabinoidOutputs,
      labTechId: string, labTechName: string, enzymeName: string, notes: Option<string>,
      timestamp: int)
      returns (r: Result<BatchId, BatchError>)
      requires Valid()
      modifies this
      ensures Valid()
      ensures r.Failure? <==> Total(outputs) < MinOutputTotal || Total(outputs) > MaxOutputTotal
      ensures r.Failure? ==> r.error == OutputsOutOfRange(Total(outputs)) && batches == old(batches)
      ensures r.Success? ==> r.value !in old(batches)
      ensures r.Success? ==> (batches ==
        AfterCreate(old(batches), NewBatch(r.value, enzymeId, cbgaInput, outputs, labTechId, labTechName, enzymeName, notes, timestamp)))
    {
      var invalid := ValidateOutputs(outputs);
      if invalid.Some? {
        return Failure(invalid.value);
      }
      var id := nextId;
      var batch := NewBatch(id, enzymeId, cbgaInput, outputs, labTechId, labTechName, enzymeName, notes, timestamp);
      batches := batches[id := batch];
      nextId := nextId + 1;
      var classified := CheckPeakYield(id, enzymeId, outputs);
      assert classified.Success?;
      return Success(id);
    }

    /**
     * `checkPeakYield`: read the batches of the enzyme and, if none other has a
     * higher total, set the batch's status to peak-yield.
     */
    method CheckPeakYield(batchId: BatchId, enzymeId: string, outputs: CannabinoidOutputs)
      returns (r: Result<(), BatchError>)
      requires Valid()
      modifies this
      ensures Valid() && nextId == old(nextId)
      ensures ClassifyPeak(old(batches), batchId, enzymeId, Total(outputs)) ==
        (if r.Success? then Success(batches) else Failure(r.error))
      ensures r.Failure? ==> batches == old(batches)
    {
      var currentTotal := Total(outputs);
      if IsPeak(batches, batchId, enzymeId, currentTotal) {
        r := UpdateBatchStatus(batchId, PeakYield);
      } else {
        r := Success(());
      }
    }

    /** `updateBatchStatus`: only the status of the one record changes; a missing record is an error. */
    method UpdateBatchStatus(id: BatchId, status: BatchStatus) returns (r: Result<(), BatchError>)
      requires Valid()
      modifies this
      ensures Valid() && nextId == old(nextId)
      ensures r.Failure? <==> id !in old(batches)
      ensures r.Failure? ==> r.error == BatchNotFound(id) && batches == old(batches)
      ensures r.Success? ==> batches == old(batches)[id := old(batches)[id].(status := status)]
    {
      if id !in batches {
        return Failure(BatchNotFound(id));
      }
      batches := batches[id := batches[id].(status := status)];
      return Success(());
    }

    /** `deleteBatch`: the record is removed; removing a missing record is not an error. */
    method DeleteBatch(id: BatchId)
      requires Valid()
      modifies this
      ensures Valid() && nextId == old(nextId)
      ensures batches == old(batches) - {id}
    {
      batches := batches - {id};
    }
  }
}
