// What every append and every batch adds to the tables, field by field and over whole runs.
module AuditLaws {
  import opened Prelude
  import opened Digests
  import opened AuditLog
  import opened Merkle
  import opened BatchChain
  import opened AuditTables
  import opened AuditRuns

  /******* Appending *******/

  // Some event of the experiment has this type and content.
  predicate Audited(events: seq<AuditEvent>, input: AuditInput) {
    exists i | 0 <= i < |events| ::
      && events[i].experimentId == input.experimentId && events[i].objectType == input.objectType
      && events[i].contentHash == input.contentHash
  }

  // The event says of its object what the input said.
  predicate Records(e: AuditEvent, input: AuditInput) {
    && e.experimentId == input.experimentId && e.objectType == input.objectType && e.occurredAt == input.occurredAt
    && e.resultProvenance == input.resultProvenance && e.objectSchemaVersion == input.objectSchemaVersion
    && e.contentHash == input.contentHash && e.supersedesContentHash == input.supersedesContentHash
  }

  lemma {:induction false} LastInLog(log: seq<AuditEvent>)
    requires Continuous(log)
    ensures (if LastOf(log).Some? then LastOf(log).value.sequence else 0) == |log|
    ensures (if LastOf(log).Some? then Some(EventDigest(LastOf(log).value)) else None) == HashBefore(log, |log|)
  {
  }

  lemma {:induction false} OwnLog(events: seq<AuditEvent>, x: Id)
    ensures forall i | 0 <= i < |LogOf(events, x)| :: LogOf(events, x)[i].experimentId == x
  {
    hide Select;
    assert forall e | e in LogOf(events, x) :: EventOf(x)(e);
  }

  // An event is made after a continuous log exactly when it takes the next number and the log, if any, is of its own
  // experiment; it then records its input and names the last event.
  lemma {:induction false} NextEvent(log: seq<AuditEvent>, input: AuditInput, sequence: int)
    requires Continuous(log)
    ensures var made := CreateAuditEvent(input, sequence, LastOf(log));
            var next := sequence == |log| + 1 && (log != [] ==> log[|log| - 1].experimentId == input.experimentId);
            && (made.Ok? <==> next && IsUInt(sequence))
            && (made == Err(BatchContinuity) <==> !next)
            && (made.Ok? ==> Records(made.value, input) && made.value.sequence == |log| + 1
                             && made.value.previousEventHash == HashBefore(log, |log|))
  {
    hide Continuous;
    LastInLog(log);
  }

  // In every run: an object not audited yet becomes the one next event of its experiment's log, which says of it what
  // the input says, and nothing else moves; an object audited before is answered with its event and nothing moves.
  lemma {:induction false} AppendedExactly(steps: seq<Step>, input: AuditInput)
    ensures var t, answer := Run(steps), AppendObject(Run(steps), input);
            var log := LogOf(t.events, input.experimentId);
            && (answer.Ok? <==> Audited(t.events, input) || IsUInt(|log| + 1))
            && (Audited(t.events, input) ==>
                  && answer.value.0 == t && answer.value.1 in t.events
                  && answer.value.1.experimentId == input.experimentId
                  && answer.value.1.objectType == input.objectType && answer.value.1.contentHash == input.contentHash)
            && (!Audited(t.events, input) && answer.Ok? ==>
                  var (later, e) := answer.value;
                  && later == t.(events := t.events + [e]) && Records(e, input)
                  && e.sequence == |log| + 1 && e.previousEventHash == HashBefore(log, |log|)
                  && LogOf(later.events, input.experimentId) == log + [e]
                  && forall y | y != input.experimentId :: LogOf(later.events, y) == LogOf(t.events, y))
  {
    hide Run, Select, CreateAuditEvent, HashBefore, RowsHold, Chained;
    RunIsConsistent(steps);
    var t, x := Run(steps), input.experimentId;
    FindsAudited(t.events, input);
    var log := LogOf(t.events, x);
    assert ExperimentHolds(log, t.proofs, RowsOf(t.batches, x));
    OwnLog(t.events, x);
    NextEvent(log, input, |log| + 1);
    LastInLog(log);
    var answer := AppendObject(t, input);
    if answer.Ok? && !Audited(t.events, input) {
      forall y
        ensures LogOf(answer.value.0.events, y) == LogOf(t.events, y) + if y == x then [answer.value.1] else []
      {
        SelectOneMore(t.events, answer.value.1, EventOf(y));
      }
    }
  }

  lemma {:induction false} FindsAudited(events: seq<AuditEvent>, input: AuditInput)
    ensures FindObject(events, input).Some? <==> Audited(events, input)
    ensures FindObject(events, input).Some? ==>
              var e := FindObject(events, input).value;
              && e in events && e.experimentId == input.experimentId && e.objectType == input.objectType
              && e.contentHash == input.contentHash
  {
    if events != [] {
      FindsAudited(events[1..], input);
      assert forall i | 1 <= i < |events| :: events[i] == events[1..][i - 1];
      assert events[0] in events;
    }
  }

  // In every run every event is some append's: it says of its object what that input said.
  lemma {:induction false} EveryEventIsAnInput(steps: seq<Step>, k: nat) returns (i: nat)
    requires k < |Run(steps).events|
    ensures i < |steps| && steps[i].AppendStep? && Records(Run(steps).events[k], steps[i].input)
  {
    hide LogOf, Records, CommitBatch, Audited, HashBefore;
    var n := |steps| - 1;
    var before := Run(steps[..n]);
    if k < |before.events| {
      EventsStay(before, steps[n]);
      i := EveryEventIsAnInput(steps[..n], k);
    } else {
      i := n;
      CommitsKeepEvents(before, steps[n]);
      AppendedExactly(steps[..n], steps[n].input);
    }
  }

  lemma {:induction false} EventsStay(t: Tables, step: Step)
    ensures t.events <= After(t, step).events
  {
    hide FindObject, CreateAuditEvent, LogOf, BuildOf, FindBatch, RowsOf, Select;
  }

  lemma {:induction false} CommitsKeepEvents(t: Tables, step: Step)
    ensures step.BatchStep? ==> After(t, step).events == t.events
  {
    hide BuildOf, FindBatch, LogOf, RowsOf, Select;
  }

  /******* Leaves and batch hashes *******/

  // The leaf carries its event's own figures, and its hash is the digest of exactly those.
  predicate LeafOf(leaf: Leaf, e: AuditEvent) {
    && leaf.experimentId == e.experimentId && leaf.sequence == e.sequence && leaf.objectType == e.objectType
    && leaf.objectSchemaVersion == e.objectSchemaVersion && leaf.contentHash == e.contentHash
    && leaf.auditEventHash == EventDigest(e)
    && leaf.leafHash == LeafDigest(e.experimentId, e.sequence, e.objectType, e.objectSchemaVersion, e.contentHash,
                                   EventDigest(e))
  }

  function PreviousOrZero(b: Batch): Hash {
    if b.previousBatchHash.Some? then b.previousBatchHash.value else Zero
  }

  // A batch hash commits the experiment, the range, the root, the predecessor and the archived leaves, and nothing
  // else: the batch id is not in it, and the first batch stands on the zero hash.
  lemma HashFixesBatch(a: Batch, b: Batch)
    ensures BatchTerm(a) == BatchTerm(b) <==>
              && a.experimentId == b.experimentId && a.firstSequence == b.firstSequence
              && a.lastSequence == b.lastSequence && a.root == b.root && PreviousOrZero(a) == PreviousOrZero(b)
              && a.leavesObjectHash == b.leavesObjectHash
  {
  }

  /******* Committing a batch *******/

  // One proof per leaf, of its place, count and root, that folds up.
  predicate ProofsFor(proofs: seq<Proof>, leaves: seq<Leaf>, batchId: Id, root: Hash) {
    && |proofs| == |leaves|
    && forall i | 0 <= i < |leaves| ::
         && proofs[i].batchId == batchId && proofs[i].leafHash == leaves[i].leafHash && proofs[i].leafIndex == i
         && proofs[i].leafCount == |leaves| && proofs[i].root == root
         && Fold(proofs[i].leafHash, proofs[i].siblings) == root
  }

  // The batch's own fields.
  predicate HeadOf(b: Batch, x: Id, batchId: Id, first: int, last: int, previous: Option<Hash>) {
    && b.experimentId == x && b.batchId == batchId && b.firstSequence == first && b.lastSequence == last
    && b.previousBatchHash == previous
  }

  // What a batch of these events must be.
  predicate Commits(built: Built, x: Id, batchId: Id, events: seq<AuditEvent>, first: int, last: int,
      previous: Option<Hash>) {
    var leaves := built.leafSet.leaves;
    && HeadOf(built.batch, x, batchId, first, last, previous) && built.batchHash == BatchTerm(built.batch)
    && |leaves| == |events| > 0 && (forall i | 0 <= i < |events| :: LeafOf(leaves[i], events[i]))
    && built.leafSet == LeafSet(batchId, first, last, leaves)
    && built.batch.leavesObjectHash == LeafSetDigest(built.leafSet)
    && built.batch.root == Root(LeafHashes(leaves))
    && ProofsFor(built.proofs, leaves, batchId, built.batch.root)
  }

  // All of one experiment, each numbered right after the one before.
  predicate Consecutive(x: Id, events: seq<AuditEvent>, i: nat) {
    && (forall j | i <= j < |events| :: events[j].experimentId == x)
    && (forall j | i <= j < |events| && 0 < j :: events[j].sequence == events[j - 1].sequence + 1)
  }

  lemma {:induction false} FaultExactly(x: Id, events: seq<AuditEvent>, i: nat)
    requires i <= |events|
    ensures Fault(x, events, i).None? <==> Consecutive(x, events, i)
    decreases |events| - i
  {
    if i < |events| {
      FaultExactly(x, events, i + 1);
    }
  }

  lemma {:induction false} NumbersRise(x: Id, events: seq<AuditEvent>, n: nat)
    requires Consecutive(x, events, 0) && n < |events|
    ensures events[0].sequence + n == events[n].sequence
  {
    if n > 0 {
      NumbersRise(x, events, n - 1);
    }
  }

  lemma {:induction false} ProofsAreAccepted(batchId: Id, leaves: seq<Leaf>)
    requires leaves != []
    ensures ProofsFor(ProofsOf(batchId, LeafHashes(leaves)), leaves, batchId, Root(LeafHashes(leaves)))
  {
    forall i | 0 <= i < |leaves|
      ensures Fold(LeafHashes(leaves)[i], Path(LeafHashes(leaves), i)) == Root(LeafHashes(leaves))
    {
      ProofIsAccepted(LeafHashes(leaves), i);
    }
    hide Root, Path, Fold;
  }

  // A batch is built if and only if there are events, all parsed, of one experiment, numbered without gap and within
  // uint64; it then commits exactly them.
  lemma {:induction false} BuildsExactly(x: Id, batchId: Id, events: seq<AuditEvent>, previous: Option<Hash>)
    ensures BuildOf(x, batchId, events, previous).Ok? <==>
              && events != [] && AllParse(events) && Consecutive(x, events, 0)
              && events[|events| - 1].sequence < UINT64_LIMIT
    ensures BuildOf(x, batchId, events, previous).Ok? ==>
              Commits(BuildOf(x, batchId, events, previous).value, x, batchId, events, events[0].sequence,
                      events[|events| - 1].sequence, previous)
  {
    hide Root, ProofsOf, Fault, CreateLeaf, LeafOf, BatchTerm, ProofsFor, LeafHashes, Consecutive, EventParses;
    if events != [] {
      ProofsAreAccepted(batchId, Leaves(events));
      FaultExactly(x, events, 0);
      LeavesAreOfTheirEvents(events);
      if AllParse(events) && Consecutive(x, events, 0) {
        NumbersRise(x, events, |events| - 1);
        NumbersInRange(events);
      }
    }
  }

  lemma {:induction false} LeavesAreOfTheirEvents(events: seq<AuditEvent>)
    ensures forall i | 0 <= i < |events| :: LeafOf(Leaves(events)[i], events[i])
  {
    forall i | 0 <= i < |events|
      ensures LeafOf(Leaves(events)[i], events[i])
    {
      assert LeafOf(CreateLeaf(events[i]), events[i]);
    }
  }

  lemma NumbersInRange(events: seq<AuditEvent>)
    requires events != [] && AllParse(events)
    ensures IsPositiveUInt(events[0].sequence) && IsPositiveUInt(events[|events| - 1].sequence)
  {
  }

  lemma {:induction false} BuiltExactly(x: Id, batchId: Id, log: seq<AuditEvent>, first: int, last: int,
      previous: Option<Hash>)
    requires Continuous(log) && 1 <= first <= last <= |log| && forall i | 0 <= i < |log| :: log[i].experimentId == x
    ensures var answer := BuildOf(x, batchId, log[first - 1..last], previous);
            && (answer.Ok? <==> last < UINT64_LIMIT)
            && (answer.Ok? ==> Commits(answer.value, x, batchId, log[first - 1..last], first, last, previous))
  {
    hide BuildOf, Commits, HashBefore;
    var events := log[first - 1..last];
    forall j | 0 <= j < |events|
      ensures events[j] == log[first - 1 + j]
    {
    }
    BuildsExactly(x, batchId, events, previous);
  }

  // In every run, for a new batch id: the batch is committed if and only if it takes up right after the experiment's
  // last batch and ends within the log and uint64.  It then commits exactly that stretch: its leaves in order, their
  // root, the predecessor's hash and one accepted proof per leaf; nothing else moves.
  lemma {:induction false} CommittedExactly(steps: seq<Step>, x: Id, batchId: Id, last: int)
    requires !KnownId(Run(steps).batches, batchId)
    ensures var t, answer := Run(steps), CommitBatch(Run(steps), x, batchId, last);
            var log, rows := LogOf(t.events, x), RowsOf(t.batches, x);
            && (answer.Ok? <==> NextFirst(rows) <= last <= |log| && last < UINT64_LIMIT)
            && (answer.Ok? ==>
                  var (later, built) := answer.value;
                  && 1 <= NextFirst(rows)
                  && later == Tables(t.events, t.batches + [BatchRow(built.batch, built.batchHash)],
                                     t.proofs + built.proofs)
                  && Commits(built, x, batchId, log[NextFirst(rows) - 1..last], NextFirst(rows), last,
                             HashOfLast(rows)))
  {
    hide Run, Select, BuildOf, Continuous, Chained, Commits, FindBatch;
    RunIsConsistent(steps);
    var t := Run(steps);
    var log, rows := LogOf(t.events, x), RowsOf(t.batches, x);
    BatchLookup(t.batches, batchId);
    OwnLog(t.events, x);
    assert ExperimentHolds(log, t.proofs, rows);
    StartsInLog(log, t.proofs, rows);
    if NextFirst(rows) <= last {
      NumberedStretch(log, NextFirst(rows), last);
      if last <= |log| {
        BuiltExactly(x, batchId, log, NextFirst(rows), last, HashOfLast(rows));
      }
    }
  }

  lemma {:induction false} StartsInLog(log: seq<AuditEvent>, proofs: seq<Proof>, rows: seq<BatchRow>)
    requires RowsHold(log, proofs, rows)
    ensures 1 <= NextFirst(rows) <= |log| + 1
  {
    if rows != [] {
      assert RowHolds(log, proofs, rows[|rows| - 1]);
    }
  }
}
