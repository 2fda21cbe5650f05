// The audit, batch and proof tables and the two transactions that add to them. Rows are kept in insertion order;
// within an experiment that is sequence order, which AuditRuns proves.
module AuditTables {
  import opened Prelude
  import opened Digests
  import opened AuditLog
  import opened Merkle
  import opened BatchChain

  datatype BatchRow = BatchRow(batch: Batch, batchHash: Hash)

  datatype Tables = Tables(events: seq<AuditEvent>, batches: seq<BatchRow>, proofs: seq<Proof>)

  function EventOf(experimentId: Id): AuditEvent -> bool {
    (e: AuditEvent) => e.experimentId == experimentId
  }

  function RowOf(experimentId: Id): BatchRow -> bool {
    (row: BatchRow) => row.batch.experimentId == experimentId
  }

  function Numbered(first: int, last: int): AuditEvent -> bool {
    (e: AuditEvent) => first <= e.sequence <= last
  }

  function LogOf(events: seq<AuditEvent>, experimentId: Id): seq<AuditEvent> {
    Select(events, EventOf(experimentId))
  }

  function RowsOf(rows: seq<BatchRow>, experimentId: Id): seq<BatchRow> {
    Select(rows, RowOf(experimentId))
  }

  predicate SameObject(e: AuditEvent, input: AuditInput) {
    e.experimentId == input.experimentId && e.objectType == input.objectType && e.contentHash == input.contentHash
  }

  function FindObject(events: seq<AuditEvent>, input: AuditInput): Option<AuditEvent> {
    if events == [] then None
    else if SameObject(events[0], input) then Some(events[0])
    else FindObject(events[1..], input)
  }

  function FindBatch(rows: seq<BatchRow>, batchId: Id): Option<BatchRow> {
    if rows == [] then None
    else if rows[0].batch.batchId == batchId then Some(rows[0])
    else FindBatch(rows[1..], batchId)
  }

  // An object already audited returns its event; otherwise the next event of the experiment is added.
  function AppendObject(t: Tables, input: AuditInput): Result<(Tables, AuditEvent)> {
    var found := FindObject(t.events, input);
    if found.Some? then Ok((t, found.value))
    else
      var prior := LastOf(LogOf(t.events, input.experimentId));
      var event :- CreateAuditEvent(input, (if prior.Some? then prior.value.sequence else 0) + 1, prior);
      Ok((t.(events := t.events + [event]), event))
  }

  // A known batch id is rebuilt from the log and must give the stored hash; otherwise the stretch after the
  // experiment's last batch is committed.
  function CommitBatch(t: Tables, experimentId: Id, batchId: Id, lastSequence: int): Result<(Tables, Built)> {
    var log := LogOf(t.events, experimentId);
    var found := FindBatch(t.batches, batchId);
    if found.Some? then
      var batch := found.value.batch;
      var rebuilt :- BuildOf(experimentId, batchId, Select(log, Numbered(batch.firstSequence, batch.lastSequence)),
                             batch.previousBatchHash);
      if rebuilt.batchHash != found.value.batchHash then Err(OperationConflict) else Ok((t, rebuilt))
    else
      var prior := LastOf(RowsOf(t.batches, experimentId));
      var first := (if prior.Some? then prior.value.batch.lastSequence else 0) + 1;
      var rows := Select(log, Numbered(first, lastSequence));
      if lastSequence < first then Err(BatchContinuity)
      else if |rows| != lastSequence - first + 1 then Err(BatchContinuity)
      else
        var built :- BuildOf(experimentId, batchId, rows,
                             if prior.Some? then Some(prior.value.batchHash) else None);
        Ok((t.(batches := t.batches + [BatchRow(built.batch, built.batchHash)],
               proofs := t.proofs + built.proofs), built))
  }

  class AuditRepository {
    var events: seq<AuditEvent>
    var batches: seq<BatchRow>
    var proofs: seq<Proof>

    ghost function Contents(): Tables
      reads this
    {
      Tables(events, batches, proofs)
    }

    constructor ()
      ensures Contents() == Tables([], [], [])
    {
      events, batches, proofs := [], [], [];
    }

    method AppendAuditObject(input: AuditInput) returns (result: Result<AuditEvent>)
      modifies this
      ensures result.Ok? ==> AppendObject(old(Contents()), input) == Ok((Contents(), result.value))
      ensures result.Err? ==> AppendObject(old(Contents()), input) == Err(result.code) && Contents() == old(Contents())
    {
      for i := 0 to |events|
        invariant Contents() == old(Contents())
        invariant FindObject(events, input) == FindObject(events[i..], input)
      {
        if SameObject(events[i], input) { return Ok(events[i]); }
      }
      var log := Filter(events, EventOf(input.experimentId));
      var previous := LastOf(log);
      var event :- CreateAuditEvent(input, (if previous.Some? then previous.value.sequence else 0) + 1, previous);
      events := events + [event];
      return Ok(event);
    }

    // The lookup of commitment_batches by primary key.
    method BatchById(batchId: Id) returns (found: Option<BatchRow>)
      ensures found == FindBatch(batches, batchId)
    {
      for i := 0 to |batches|
        invariant FindBatch(batches, batchId) == FindBatch(batches[i..], batchId)
      {
        if batches[i].batch.batchId == batchId { return Some(batches[i]); }
      }
      return None;
    }

    method CreateBatch(experimentId: Id, batchId: Id, lastSequence: int) returns (result: Result<Built>)
      modifies this
      ensures result.Ok? ==>
                CommitBatch(old(Contents()), experimentId, batchId, lastSequence) == Ok((Contents(), result.value))
      ensures result.Err? ==> CommitBatch(old(Contents()), experimentId, batchId, lastSequence) == Err(result.code)
                              && Contents() == old(Contents())
    {
      hide Select, BuildOf, FindBatch;
      var log := Filter(events, EventOf(experimentId));
      var duplicate := BatchById(batchId);
      if duplicate.Some? {
        var batch := duplicate.value.batch;
        var covered := Filter(log, Numbered(batch.firstSequence, batch.lastSequence));
        var rebuilt :- BuildBatch(experimentId, batchId, covered, batch.previousBatchHash);
        return if rebuilt.batchHash != duplicate.value.batchHash then Err(OperationConflict) else Ok(rebuilt);
      }
      var ownRows := Filter(batches, RowOf(experimentId));
      var prior := LastOf(ownRows);
      var first := (if prior.Some? then prior.value.batch.lastSequence else 0) + 1;
      if lastSequence < first { return Err(BatchContinuity); }
      var rows := Filter(log, Numbered(first, lastSequence));
      if |rows| != lastSequence - first + 1 { return Err(BatchContinuity); }
      var built :- BuildBatch(experimentId, batchId, rows, if prior.Some? then Some(prior.value.batchHash) else None);
      batches := batches + [BatchRow(built.batch, built.batchHash)];
      for i := 0 to |built.proofs|
        invariant events == old(events) && batches == old(batches) + [BatchRow(built.batch, built.batchHash)]
        invariant proofs == old(proofs) + built.proofs[..i]
      {
        proofs := proofs + [built.proofs[i]];
      }
      assert built.proofs[..|built.proofs|] == built.proofs;
      return Ok(built);
    }
  }
}
