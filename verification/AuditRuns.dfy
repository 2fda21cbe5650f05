// Every run of appends and batch creations keeps the log and the chain in order, and what it leaves behind is
// accepted by the export verifier.
module AuditRuns {
  import opened Prelude
  import opened Digests
  import opened AuditLog
  import opened Merkle
  import opened BatchChain
  import opened AuditTables

  datatype Step = AppendStep(input: AuditInput) | BatchStep(experimentId: Id, batchId: Id, lastSequence: int)

  // A refused transaction leaves the tables as they were.
  function After(t: Tables, step: Step): Tables {
    match step
    case AppendStep(input) =>
      var r := AppendObject(t, input);
      if r.Ok? then r.value.0 else t
    case BatchStep(x, batchId, last) =>
      var r := CommitBatch(t, x, batchId, last);
      if r.Ok? then r.value.0 else t
  }

  function Run(steps: seq<Step>): Tables {
    if steps == [] then Tables([], [], []) else After(Run(steps[..|steps| - 1]), steps[|steps| - 1])
  }

  /******* What every run keeps *******/

  function BatchesIn(rows: seq<BatchRow>): (batches: seq<Batch>)
    ensures |batches| == |rows|
  {
    seq(|rows|, i requires 0 <= i < |rows| => rows[i].batch)
  }

  // The row is what the builder makes of its stretch of the log, and the proofs filed under it are the builder's.
  predicate RowHolds(log: seq<AuditEvent>, proofs: seq<Proof>, row: BatchRow) {
    var b := row.batch;
    && 1 <= b.firstSequence <= b.lastSequence <= |log|
    && var built := BuildOf(b.experimentId, b.batchId, log[b.firstSequence - 1..b.lastSequence], b.previousBatchHash);
       && built.Ok?
       && built.value.batch == b
       && built.value.batchHash == row.batchHash
       && built.value.proofs == Select(proofs, ProofFor(b.batchId))
  }

  predicate RowsHold(log: seq<AuditEvent>, proofs: seq<Proof>, rows: seq<BatchRow>) {
    forall k | 0 <= k < |rows| :: RowHolds(log, proofs, rows[k])
  }

  predicate ExperimentHolds(log: seq<AuditEvent>, proofs: seq<Proof>, rows: seq<BatchRow>) {
    Continuous(log) && Chained(BatchesIn(rows)) && RowsHold(log, proofs, rows)
  }

  predicate DistinctIds(rows: seq<BatchRow>) {
    forall i, j | 0 <= i < j < |rows| :: rows[i].batch.batchId != rows[j].batch.batchId
  }

  predicate KnownId(rows: seq<BatchRow>, batchId: Id) {
    exists i | 0 <= i < |rows| :: rows[i].batch.batchId == batchId
  }

  predicate ProofsFiled(rows: seq<BatchRow>, proofs: seq<Proof>) {
    forall i | 0 <= i < |proofs| :: KnownId(rows, proofs[i].batchId)
  }

  predicate SameKey(a: AuditEvent, b: AuditEvent) {
    a.experimentId == b.experimentId && a.objectType == b.objectType && a.contentHash == b.contentHash
  }

  // An object is audited once: no two events of an experiment share type and content.
  predicate AuditedOnce(events: seq<AuditEvent>) {
    forall i, j | 0 <= i < j < |events| :: !SameKey(events[i], events[j])
  }

  ghost predicate Consistent(t: Tables) {
    && (forall x: Id :: ExperimentHolds(LogOf(t.events, x), t.proofs, RowsOf(t.batches, x)))
    && DistinctIds(t.batches)
    && ProofsFiled(t.batches, t.proofs)
    && AuditedOnce(t.events)
  }

  /******* Lookups *******/

  lemma {:induction false} ObjectLookup(events: seq<AuditEvent>, input: AuditInput)
    ensures FindObject(events, input).None? <==> forall i | 0 <= i < |events| :: !SameObject(events[i], input)
  {
    if events != [] {
      ObjectLookup(events[1..], input);
      assert forall i | 1 <= i < |events| :: events[i] == events[1..][i - 1];
    }
  }

  lemma {:induction false} BatchLookup(rows: seq<BatchRow>, batchId: Id)
    ensures FindBatch(rows, batchId).Some? <==> KnownId(rows, batchId)
    ensures FindBatch(rows, batchId).Some? ==> FindBatch(rows, batchId).value in rows
                                               && FindBatch(rows, batchId).value.batch.batchId == batchId
  {
    if rows != [] {
      BatchLookup(rows[1..], batchId);
      assert forall i | 1 <= i < |rows| :: rows[i] == rows[1..][i - 1];
      assert rows[0] in rows;
    }
  }

  lemma {:induction false} SelectOneMore<T>(rows: seq<T>, x: T, keep: T -> bool)
    ensures Select(rows + [x], keep) == Select(rows, keep) + if keep(x) then [x] else []
  {
    assert (rows + [x])[..|rows|] == rows;
  }

  lemma {:induction false} Selected<T>(rows: seq<T>, x: T, keep: T -> bool)
    requires x in rows && keep(x)
    ensures x in Select(rows, keep)
  {
    var n := |rows| - 1;
    if x != rows[n] {
      assert x in rows[..n] by { var i :| 0 <= i < |rows| && rows[i] == x; }
      Selected(rows[..n], x, keep);
    }
  }

  /******* Appending an event *******/

  lemma {:induction false} LongerLogKeepsRows(log: seq<AuditEvent>, e: AuditEvent, proofs: seq<Proof>,
      rows: seq<BatchRow>)
    requires RowsHold(log, proofs, rows)
    ensures RowsHold(log + [e], proofs, rows)
  {
    hide BuildOf, Select;
    forall k | 0 <= k < |rows|
      ensures RowHolds(log + [e], proofs, rows[k])
    {
      var b := rows[k].batch;
      assert RowHolds(log, proofs, rows[k]);
      assert (log + [e])[b.firstSequence - 1..b.lastSequence] == log[b.firstSequence - 1..b.lastSequence];
    }
  }

  lemma {:induction false} AppendKeeps(t: Tables, input: AuditInput)
    requires Consistent(t) && AppendObject(t, input).Ok?
    ensures Consistent(AppendObject(t, input).value.0)
  {
    hide RowsHold, Continuous, Chained, FindObject, CreateAuditEvent, Select, DistinctIds, ProofsFiled;
    if FindObject(t.events, input).None? {
      var t' := AppendObject(t, input).value.0;
      var e := AppendObject(t, input).value.1;
      var prior := LastOf(LogOf(t.events, input.experimentId));
      assert CreateAuditEvent(input, (if prior.Some? then prior.value.sequence else 0) + 1, prior) == Ok(e);
      MadeEvent(input, (if prior.Some? then prior.value.sequence else 0) + 1, prior);
      forall x: Id
        ensures ExperimentHolds(LogOf(t'.events, x), t'.proofs, RowsOf(t'.batches, x))
      {
        assert ExperimentHolds(LogOf(t.events, x), t.proofs, RowsOf(t.batches, x));
        SelectOneMore(t.events, e, EventOf(x));
        var log := LogOf(t.events, x);
        if x == input.experimentId {
          assert LogOf(t'.events, x) == log + [e];
          MadeEventContinues(log, input, (if prior.Some? then prior.value.sequence else 0) + 1);
          LongerLogKeepsRows(log, e, t.proofs, RowsOf(t.batches, x));
        } else {
          assert LogOf(t'.events, x) == log;
        }
      }
      ObjectLookup(t.events, input);
      assert forall i | 0 <= i < |t.events| :: SameKey(t.events[i], e) == SameObject(t.events[i], input);
    }
  }

  lemma MadeEvent(input: AuditInput, sequence: int, previous: Option<AuditEvent>)
    requires CreateAuditEvent(input, sequence, previous).Ok?
    ensures SameObject(CreateAuditEvent(input, sequence, previous).value, input)
  {
  }

  /******* Creating a batch *******/

  // The rows found between two numbers are that stretch of the log, or there are too few of them.
  lemma {:induction false} NumberedStretch(log: seq<AuditEvent>, first: int, last: int)
    requires Continuous(log) && 1 <= first <= |log| + 1 && first <= last
    ensures |Select(log, Numbered(first, last))| == last - first + 1 <==> last <= |log|
    ensures last <= |log| ==> Select(log, Numbered(first, last)) == log[first - 1..last]
  {
    hide Select;
    SelectStretch(log, Numbered(first, last), first, if last <= |log| then last else |log|);
  }

  // What a built batch says of the events it was built from.
  lemma {:induction false} BuiltShape(x: Id, batchId: Id, events: seq<AuditEvent>, previous: Option<Hash>)
    requires BuildOf(x, batchId, events, previous).Ok?
    ensures events != []
    ensures var built := BuildOf(x, batchId, events, previous).value;
            && built.batch.experimentId == x && built.batch.batchId == batchId
            && built.batch.firstSequence == events[0].sequence
            && built.batch.lastSequence == events[|events| - 1].sequence
            && built.batch.previousBatchHash == previous
            && BatchParses(built.batch) && built.batch.lastSequence < UINT64_LIMIT
            && built.batchHash == BatchTerm(built.batch)
            && built.batchHash.BatchDigest? && built.batchHash.experimentId == x
            && (forall p | p in built.proofs :: p.batchId == batchId)
  {
    hide Root, Path, Fault;
  }

  lemma {:induction false} BuiltBatch(x: Id, batchId: Id, log: seq<AuditEvent>, first: int, last: int,
      previous: Option<Hash>)
    requires Continuous(log) && 1 <= first <= last <= |log|
    requires BuildOf(x, batchId, log[first - 1..last], previous).Ok?
    ensures var built := BuildOf(x, batchId, log[first - 1..last], previous).value;
            && built.batch.experimentId == x && built.batch.batchId == batchId
            && built.batch.firstSequence == first && built.batch.lastSequence == last
            && built.batch.previousBatchHash == previous
            && BatchParses(built.batch) && last < UINT64_LIMIT
            && built.batchHash == BatchTerm(built.batch)
            && (forall p | p in built.proofs :: p.batchId == batchId)
  {
    hide BuildOf, BatchTerm, BatchParses;
    var events := log[first - 1..last];
    BuiltShape(x, batchId, events, previous);
    assert events[0] == log[first - 1] && events[|events| - 1] == log[last - 1];
  }

  lemma {:induction false} ChainGrows(rows: seq<BatchRow>, row: BatchRow)
    requires Chained(BatchesIn(rows))
    requires BatchParses(row.batch) && row.batch.lastSequence < UINT64_LIMIT
    requires rows == [] ==> row.batch.firstSequence == 1 && row.batch.previousBatchHash == None
    requires rows != [] ==>
               && row.batch.experimentId == rows[|rows| - 1].batch.experimentId
               && row.batch.firstSequence == rows[|rows| - 1].batch.lastSequence + 1
               && row.batch.previousBatchHash == Some(BatchTerm(rows[|rows| - 1].batch))
    ensures Chained(BatchesIn(rows + [row]))
  {
    hide BatchTerm, BatchParses;
    var a, b := BatchesIn(rows), BatchesIn(rows + [row]);
    forall k | 0 <= k < |b|
      ensures BatchParses(b[k]) && LinkedAt(b, k)
    {
      if k < |a| { assert BatchParses(a[k]) && LinkedAt(a, k); }
    }
  }

  lemma {:induction false} MoreProofsKeepRows(log: seq<AuditEvent>, proofs: seq<Proof>, more: seq<Proof>, batchId: Id,
      rows: seq<BatchRow>)
    requires RowsHold(log, proofs, rows) && !KnownId(rows, batchId)
    requires forall p | p in more :: p.batchId == batchId
    ensures RowsHold(log, proofs + more, rows)
  {
    hide BuildOf, Select;
    forall k | 0 <= k < |rows|
      ensures RowHolds(log, proofs + more, rows[k])
    {
      assert RowHolds(log, proofs, rows[k]);
      var keep := ProofFor(rows[k].batch.batchId);
      SelectAppend(proofs, more, keep);
      SelectNone(more, keep);
    }
  }

  lemma {:induction false} NewProofs(rows: seq<BatchRow>, proofs: seq<Proof>, more: seq<Proof>, batchId: Id)
    requires ProofsFiled(rows, proofs) && !KnownId(rows, batchId)
    requires forall p | p in more :: p.batchId == batchId
    ensures Select(proofs + more, ProofFor(batchId)) == more
  {
    hide Select;
    var keep := ProofFor(batchId);
    SelectAppend(proofs, more, keep);
    SelectNone(proofs, keep);
    SelectAll(more, keep);
  }

  lemma {:induction false} FiledTogether(rows: seq<BatchRow>, row: BatchRow, proofs: seq<Proof>, more: seq<Proof>)
    requires DistinctIds(rows) && ProofsFiled(rows, proofs) && !KnownId(rows, row.batch.batchId)
    requires forall p | p in more :: p.batchId == row.batch.batchId
    ensures DistinctIds(rows + [row]) && ProofsFiled(rows + [row], proofs + more)
  {
    var rows' := rows + [row];
    assert rows'[|rows|] == row;
    forall i | 0 <= i < |rows|
      ensures KnownId(rows', rows[i].batch.batchId)
    {
      assert rows'[i] == rows[i];
    }
    forall i | 0 <= i < |proofs + more|
      ensures KnownId(rows', (proofs + more)[i].batchId)
    {
      if i < |proofs| {
        assert KnownId(rows, proofs[i].batchId);
      } else {
        assert more[i - |proofs|] in more;
      }
    }
  }

  lemma {:induction false} SelectedIdKnown(rows: seq<BatchRow>, x: Id, batchId: Id)
    requires !KnownId(rows, batchId)
    ensures !KnownId(RowsOf(rows, x), batchId)
  {
    hide Select;
    var own := RowsOf(rows, x);
    assert forall i | 0 <= i < |own| :: own[i] in rows;
  }

  // Where the next batch of an experiment starts, and the hash it points back to.
  function NextFirst(rows: seq<BatchRow>): int {
    var prior := LastOf(rows);
    (if prior.Some? then prior.value.batch.lastSequence else 0) + 1
  }

  function HashOfLast(rows: seq<BatchRow>): Option<Hash> {
    var prior := LastOf(rows);
    if prior.Some? then Some(prior.value.batchHash) else None
  }

  lemma {:induction false} NewRowHolds(log: seq<AuditEvent>, proofs: seq<Proof>, rows: seq<BatchRow>, x: Id,
      batchId: Id, last: int, built: Built)
    requires ExperimentHolds(log, proofs, rows) && !KnownId(rows, batchId)
    requires forall i | 0 <= i < |rows| :: rows[i].batch.experimentId == x
    requires NextFirst(rows) <= last && |Select(log, Numbered(NextFirst(rows), last))| == last - NextFirst(rows) + 1
    requires BuildOf(x, batchId, Select(log, Numbered(NextFirst(rows), last)), HashOfLast(rows)) == Ok(built)
    requires Select(proofs + built.proofs, ProofFor(batchId)) == built.proofs
    ensures ExperimentHolds(log, proofs + built.proofs, rows + [BatchRow(built.batch, built.batchHash)])
    ensures built.batch.experimentId == x && built.batch.batchId == batchId
    ensures forall p | p in built.proofs :: p.batchId == batchId
  {
    hide BuildOf, Select, Continuous, Chained, BatchParses, BatchTerm;
    var first, row := NextFirst(rows), BatchRow(built.batch, built.batchHash);
    if rows != [] {
      var end := |rows| - 1;
      assert RowHolds(log, proofs, rows[end]);
      var b := rows[end].batch;
      BuiltBatch(x, b.batchId, log, b.firstSequence, b.lastSequence, b.previousBatchHash);
    }
    NumberedStretch(log, first, last);
    BuiltBatch(x, batchId, log, first, last, HashOfLast(rows));
    ChainGrows(rows, row);
    MoreProofsKeepRows(log, proofs, built.proofs, batchId, rows);
    assert RowHolds(log, proofs + built.proofs, row);
  }

  lemma {:induction false} CommitKeeps(t: Tables, x: Id, batchId: Id, last: int)
    requires Consistent(t) && CommitBatch(t, x, batchId, last).Ok?
    ensures Consistent(CommitBatch(t, x, batchId, last).value.0)
  {
    hide RowsHold, Continuous, Chained, FindBatch, BuildOf, Select, DistinctIds, ProofsFiled, AuditedOnce, KnownId;
    if FindBatch(t.batches, batchId).None? {
      var t' := CommitBatch(t, x, batchId, last).value.0;
      var built := CommitBatch(t, x, batchId, last).value.1;
      var row := BatchRow(built.batch, built.batchHash);
      BatchLookup(t.batches, batchId);
      BuiltShape(x, batchId, Select(LogOf(t.events, x), Numbered(NextFirst(RowsOf(t.batches, x)), last)),
                 HashOfLast(RowsOf(t.batches, x)));
      FiledTogether(t.batches, row, t.proofs, built.proofs);
      NewProofs(t.batches, t.proofs, built.proofs, batchId);
      forall y: Id
        ensures ExperimentHolds(LogOf(t'.events, y), t'.proofs, RowsOf(t'.batches, y))
      {
        var log, rows := LogOf(t.events, y), RowsOf(t.batches, y);
        assert ExperimentHolds(log, t.proofs, rows);
        SelectOneMore(t.batches, row, RowOf(y));
        SelectedIdKnown(t.batches, y, batchId);
        if y == x {
          NewRowHolds(log, t.proofs, rows, x, batchId, last, built);
          assert RowsOf(t'.batches, y) == rows + [row];
        } else {
          MoreProofsKeepRows(log, t.proofs, built.proofs, batchId, rows);
          assert RowsOf(t'.batches, y) == rows;
        }
      }
    }
  }

  lemma {:induction false} RunIsConsistent(steps: seq<Step>)
    ensures Consistent(Run(steps))
  {
    hide AppendObject, CommitBatch;
    if steps == [] {
      forall x: Id
        ensures ExperimentHolds(LogOf([], x), [], RowsOf([], x))
      {
      }
    } else {
      hide Consistent;
      var t, step := Run(steps[..|steps| - 1]), steps[|steps| - 1];
      RunIsConsistent(steps[..|steps| - 1]);
      match step
      case AppendStep(input) => if AppendObject(t, input).Ok? { AppendKeeps(t, input); }
      case BatchStep(x, id, last) => if CommitBatch(t, x, id, last).Ok? { CommitKeeps(t, x, id, last); }
    }
  }

  // Asking again for a batch that exists gives it back exactly when it is that experiment's, whatever end is
  // named, and changes nothing.
  lemma {:induction false} RepeatedBatchIsTheSame(t: Tables, x: Id, batchId: Id, last: int)
    requires Consistent(t) && FindBatch(t.batches, batchId).Some?
    ensures var row, r := FindBatch(t.batches, batchId).value, CommitBatch(t, x, batchId, last);
            && (r.Ok? <==> row.batch.experimentId == x)
            && (r.Ok? ==> r.value.0 == t && r.value.1.batch == row.batch && r.value.1.batchHash == row.batchHash
                          && r.value.1.proofs == Select(t.proofs, ProofFor(batchId)))
  {
    hide BuildOf, Select, Continuous, Chained, FindBatch, DistinctIds, ProofsFiled, AuditedOnce, KnownId;
    var row := FindBatch(t.batches, batchId).value;
    BatchLookup(t.batches, batchId);
    var y, b := row.batch.experimentId, row.batch;
    var log, rows := LogOf(t.events, y), RowsOf(t.batches, y);
    assert ExperimentHolds(log, t.proofs, rows);
    Selected(t.batches, row, RowOf(y));
    assert RowHolds(log, t.proofs, row) by { var k :| 0 <= k < |rows| && rows[k] == row; }
    BuiltBatch(y, batchId, log, b.firstSequence, b.lastSequence, b.previousBatchHash);
    if x == y {
      NumberedStretch(log, b.firstSequence, b.lastSequence);
    } else {
      var rebuilt := BuildOf(x, batchId, Select(LogOf(t.events, x), Numbered(b.firstSequence, b.lastSequence)),
                             b.previousBatchHash);
      if rebuilt.Ok? {
        BuiltShape(x, batchId, Select(LogOf(t.events, x), Numbered(b.firstSequence, b.lastSequence)),
                   b.previousBatchHash);
      }
    }
  }
}
