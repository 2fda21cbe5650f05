// Commitment batches: a batch covers a stretch of the log, carries the Merkle root of its leaves and the hash
// of the batch before it. `BuildOf` and `Verdict` are what the builder and the export verifier compute.
module BatchChain {
  import opened Prelude
  import opened Digests
  import opened AuditLog
  import opened Merkle

  const UINT64_LIMIT: int := 0x1_0000000000000000

  datatype Batch = Batch(
    experimentId: Id, batchId: Id, firstSequence: int, lastSequence: int, root: Hash,
    previousBatchHash: Option<Hash>, leavesObjectHash: Hash)

  predicate BatchParses(b: Batch) {
    IsPositiveUInt(b.firstSequence) && IsPositiveUInt(b.lastSequence) && b.firstSequence <= b.lastSequence
  }

  function BatchTerm(b: Batch): Hash {
    BatchDigest(b.experimentId, b.firstSequence, b.lastSequence, b.root,
                if b.previousBatchHash.Some? then b.previousBatchHash.value else Zero, b.leavesObjectHash)
  }

  function CommitmentBatchHash(b: Batch): Result<Hash> {
    if !BatchParses(b) then Err(SchemaRejected)
    else if b.lastSequence >= UINT64_LIMIT then Err(EncodingOutOfRange)
    else Ok(BatchTerm(b))
  }

  /******* Building *******/

  datatype Built = Built(batch: Batch, batchHash: Hash, leafSet: LeafSet, proofs: seq<Proof>)

  predicate AllParse(events: seq<AuditEvent>) {
    forall i | 0 <= i < |events| :: EventParses(events[i])
  }

  // The first event, from i on, that belongs to another experiment or does not follow its neighbour.
  function Fault(experimentId: Id, events: seq<AuditEvent>, i: nat): Option<ErrorCode>
    requires i <= |events|
    decreases |events| - i
  {
    if i == |events| then None
    else if events[i].experimentId != experimentId then Some(ProvenanceSplice)
    else if i > 0 && events[i].sequence != events[i - 1].sequence + 1 then Some(BatchContinuity)
    else Fault(experimentId, events, i + 1)
  }

  function ProofsOf(batchId: Id, hashes: seq<Hash>): (proofs: seq<Proof>)
    ensures |proofs| == |hashes|
  {
    seq(|hashes|, i requires 0 <= i < |hashes| => Proof(batchId, hashes[i], i, |hashes|, Path(hashes, i), Root(hashes)))
  }

  function BatchOf(experimentId: Id, batchId: Id, events: seq<AuditEvent>, previous: Option<Hash>): Batch
    requires events != []
  {
    var first, last := events[0].sequence, events[|events| - 1].sequence;
    Batch(experimentId, batchId, first, last, Root(LeafHashes(Leaves(events))), previous,
          LeafSetDigest(LeafSet(batchId, first, last, Leaves(events))))
  }

  function BuildOf(experimentId: Id, batchId: Id, events: seq<AuditEvent>, previous: Option<Hash>): Result<Built> {
    if events == [] then Err(CommitmentInvalid)
    else if !AllParse(events) then Err(SchemaRejected)
    else if Fault(experimentId, events, 0).Some? then Err(Fault(experimentId, events, 0).value)
    else
      var batch := BatchOf(experimentId, batchId, events, previous);
      var hash :- CommitmentBatchHash(batch);
      Ok(Built(batch, hash, LeafSet(batchId, batch.firstSequence, batch.lastSequence, Leaves(events)),
               ProofsOf(batchId, LeafHashes(Leaves(events)))))
  }

  method BuildBatch(experimentId: Id, batchId: Id, events: seq<AuditEvent>, previous: Option<Hash>)
    returns (result: Result<Built>)
    ensures result == BuildOf(experimentId, batchId, events, previous)
  {
    if events == [] { return Err(CommitmentInvalid); }
    for i := 0 to |events|
      invariant forall j | 0 <= j < i :: EventParses(events[j])
    {
      if !EventParses(events[i]) { return Err(SchemaRejected); }
    }
    for i := 0 to |events|
      invariant Fault(experimentId, events, i) == Fault(experimentId, events, 0)
    {
      if events[i].experimentId != experimentId { return Err(ProvenanceSplice); }
      if i > 0 && events[i].sequence != events[i - 1].sequence + 1 { return Err(BatchContinuity); }
    }
    var leaves := Leaves(events);
    var hashes := LeafHashes(leaves);
    var first, last := events[0].sequence, events[|events| - 1].sequence;
    var root := MerkleRoot(hashes);
    var batch := Batch(experimentId, batchId, first, last, root.value, previous,
                       LeafSetDigest(LeafSet(batchId, first, last, leaves)));
    var batchHash :- CommitmentBatchHash(batch);
    var proofs := [];
    for i := 0 to |hashes|
      invariant proofs == ProofsOf(batchId, hashes)[..i]
    {
      var proof := CreateProof(batchId, hashes, i);
      proofs := proofs + [proof.value];
    }
    assert proofs == ProofsOf(batchId, hashes);
    return Ok(Built(batch, batchHash, LeafSet(batchId, first, last, leaves), proofs));
  }

  /******* The predecessor chain *******/

  // Batch k starts where the one before it ended, names its hash and stays in its experiment.
  predicate LinkedAt(batches: seq<Batch>, k: nat)
    requires k < |batches|
  {
    && (k > 0 ==> batches[k].experimentId == batches[k - 1].experimentId)
    && batches[k].firstSequence == (if k == 0 then 0 else batches[k - 1].lastSequence) + 1
    && batches[k].previousBatchHash == (if k == 0 then None else Some(BatchTerm(batches[k - 1])))
    && batches[k].lastSequence < UINT64_LIMIT
  }

  predicate Chained(batches: seq<Batch>) {
    BatchesParse(batches) && forall k | 0 <= k < |batches| :: LinkedAt(batches, k)
  }

  function ChainVerdict(batches: seq<Batch>, k: nat): Result<bool>
    requires k <= |batches|
    decreases |batches| - k
  {
    if k == |batches| then Ok(true)
    else if k > 0 && batches[k].experimentId != batches[k - 1].experimentId then Err(ProvenanceSplice)
    else if batches[k].firstSequence != (if k == 0 then 0 else batches[k - 1].lastSequence) + 1
    then Err(BatchContinuity)
    else if batches[k].previousBatchHash != (if k == 0 then None else Some(BatchTerm(batches[k - 1])))
    then Err(BatchContinuity)
    else if batches[k].lastSequence >= UINT64_LIMIT then Err(EncodingOutOfRange)
    else ChainVerdict(batches, k + 1)
  }

  predicate BatchesParse(batches: seq<Batch>) {
    forall k | 0 <= k < |batches| :: BatchParses(batches[k])
  }

  method AssertBatchContinuity(batches: seq<Batch>) returns (result: Result<bool>)
    ensures result == if BatchesParse(batches) then ChainVerdict(batches, 0) else Err(SchemaRejected)
  {
    for k := 0 to |batches|
      invariant forall j | 0 <= j < k :: BatchParses(batches[j])
    {
      if !BatchParses(batches[k]) { return Err(SchemaRejected); }
    }
    var last := 0;
    var previous: Option<Hash> := None;
    var experimentId: Option<Id> := None;
    for k := 0 to |batches|
      invariant ChainVerdict(batches, k) == ChainVerdict(batches, 0)
      invariant last == if k == 0 then 0 else batches[k - 1].lastSequence
      invariant previous == if k == 0 then None else Some(BatchTerm(batches[k - 1]))
      invariant experimentId == if k == 0 then None else Some(batches[k - 1].experimentId)
    {
      var batch := batches[k];
      if experimentId.Some? && batch.experimentId != experimentId.value { return Err(ProvenanceSplice); }
      if batch.firstSequence != last + 1 { return Err(BatchContinuity); }
      if batch.previousBatchHash != previous { return Err(BatchContinuity); }
      experimentId := Some(batch.experimentId);
      last := batch.lastSequence;
      var hash :- CommitmentBatchHash(batch);
      previous := Some(hash);
    }
    return Ok(true);
  }

  lemma {:induction false} AcceptedFrom(batches: seq<Batch>, k: nat)
    requires k <= |batches|
    ensures ChainVerdict(batches, k).Ok? <==> forall j | k <= j < |batches| :: LinkedAt(batches, j)
    decreases |batches| - k
  {
    if k < |batches| {
      AcceptedFrom(batches, k + 1);
      assert ChainVerdict(batches, k).Ok? <==> LinkedAt(batches, k) && ChainVerdict(batches, k + 1).Ok?;
    }
  }

  lemma {:induction false} ChainAcceptedExactlyWhenLinked(batches: seq<Batch>)
    ensures BatchesParse(batches) && ChainVerdict(batches, 0).Ok? <==> Chained(batches)
  {
    AcceptedFrom(batches, 0);
  }

  /******* The chain part of the export verifier *******/

  datatype Export = Export(auditEvents: seq<AuditEvent>, leaves: seq<Leaf>, batches: seq<Batch>, proofs: seq<Proof>)

  predicate ExportParses(x: Export) {
    && x.auditEvents != [] && x.leaves != [] && x.batches != [] && x.proofs != []
    && AllParse(x.auditEvents)
    && (forall i | 0 <= i < |x.leaves| :: IsPositiveUInt(x.leaves[i].sequence))
    && BatchesParse(x.batches)
    && (forall i | 0 <= i < |x.proofs| :: x.proofs[i].leafCount > 0)
  }

  function CoveredBy(b: Batch): Leaf -> bool {
    (leaf: Leaf) => b.firstSequence <= leaf.sequence <= b.lastSequence
  }

  function ProofFor(batchId: Id): Proof -> bool {
    (p: Proof) => p.batchId == batchId
  }

  function ProofOf(leafHash: Hash): Proof -> bool {
    (p: Proof) => p.leafHash == leafHash
  }

  // Exactly one of the batch's proofs is for leaf k, at that place, of that count and root, and it folds up.
  predicate ProofBinds(leaves: seq<Leaf>, own: seq<Proof>, root: Hash, k: nat)
    requires k < |leaves|
  {
    var matches := Select(own, ProofOf(leaves[k].leafHash));
    && |matches| == 1
    && matches[0].leafIndex == k
    && matches[0].leafCount == |leaves|
    && matches[0].root == root
    && Fold(matches[0].leafHash, matches[0].siblings) == matches[0].root
  }

  function BatchVerdict(x: Export, b: Batch): Result<bool> {
    var leaves := Select(x.leaves, CoveredBy(b));
    var own := Select(x.proofs, ProofFor(b.batchId));
    if |leaves| != b.lastSequence - b.firstSequence + 1 then Err(BatchContinuity)
    else if leaves == [] then Err(SchemaRejected)
    else if LeafSetDigest(LeafSet(b.batchId, b.firstSequence, b.lastSequence, leaves)) != b.leavesObjectHash
            || Root(LeafHashes(leaves)) != b.root then Err(CommitmentInvalid)
    else if |own| != |leaves| then Err(ExportIncomplete)
    else if exists k | 0 <= k < |leaves| :: !ProofBinds(leaves, own, b.root, k) then Err(CommitmentInvalid)
    else Ok(true)
  }

  function BatchesVerdict(x: Export, k: nat): Result<bool>
    requires k <= |x.batches|
    decreases |x.batches| - k
  {
    if k == |x.batches| then Ok(true)
    else
      var fine :- BatchVerdict(x, x.batches[k]);
      BatchesVerdict(x, k + 1)
  }

  predicate CommitsLeaf(x: Export, i: nat)
    requires i < |x.auditEvents| == |x.leaves|
  {
    x.leaves[i] == CreateLeaf(x.auditEvents[i])
  }

  function Verdict(x: Export): Result<bool> {
    if !ExportParses(x) then Err(SchemaRejected)
    else if !Continuous(x.auditEvents) then Err(BatchContinuity)
    else if |x.leaves| != |x.auditEvents| then Err(ExportIncomplete)
    else if exists i | 0 <= i < |x.auditEvents| :: !CommitsLeaf(x, i) then Err(CommitmentInvalid)
    else
      var linked :- ChainVerdict(x.batches, 0);
      if x.batches[|x.batches| - 1].lastSequence != x.auditEvents[|x.auditEvents| - 1].sequence
      then Err(ExportIncomplete)
      else BatchesVerdict(x, 0)
  }

  // `filter`: the rows kept, in order.
  method Filter<T>(rows: seq<T>, keep: T -> bool) returns (chosen: seq<T>)
    ensures chosen == Select(rows, keep)
  {
    chosen := [];
    for i := 0 to |rows|
      invariant chosen == Select(rows[..i], keep)
    {
      assert rows[..i + 1][..i] == rows[..i];
      if keep(rows[i]) { chosen := chosen + [rows[i]]; }
    }
    assert rows[..|rows|] == rows;
  }

  // Each leaf of the batch against the proofs filed under its id.
  method VerifyBatchProofs(leaves: seq<Leaf>, own: seq<Proof>, root: Hash) returns (result: Result<bool>)
    requires forall i | 0 <= i < |own| :: own[i].leafCount > 0
    ensures result == if forall k | 0 <= k < |leaves| :: ProofBinds(leaves, own, root, k) then Ok(true)
                      else Err(CommitmentInvalid)
  {
    hide Fold;
    for k := 0 to |leaves|
      invariant forall j | 0 <= j < k :: ProofBinds(leaves, own, root, j)
    {
      var matches := Filter(own, ProofOf(leaves[k].leafHash));
      if |matches| != 1 || matches[0].leafIndex != k || matches[0].leafCount != |leaves| || matches[0].root != root {
        assert !ProofBinds(leaves, own, root, k);
        return Err(CommitmentInvalid);
      }
      assert matches[0] in own;
      var verified := VerifyProof(matches[0]);
      assert ProofBinds(leaves, own, root, k) <==> verified.Ok?;
      if verified.Err? { return Err(CommitmentInvalid); }
    }
    return Ok(true);
  }

  method VerifyBatch(x: Export, b: Batch) returns (result: Result<bool>)
    requires forall i | 0 <= i < |x.proofs| :: x.proofs[i].leafCount > 0
    ensures result == BatchVerdict(x, b)
  {
    hide Select, Root, ProofBinds, LeafHashes;
    var leaves := Filter(x.leaves, CoveredBy(b));
    if |leaves| != b.lastSequence - b.firstSequence + 1 { return Err(BatchContinuity); }
    if leaves == [] { return Err(SchemaRejected); }
    var root := MerkleRoot(LeafHashes(leaves));
    if LeafSetDigest(LeafSet(b.batchId, b.firstSequence, b.lastSequence, leaves)) != b.leavesObjectHash
       || root.value != b.root {
      return Err(CommitmentInvalid);
    }
    var own := Filter(x.proofs, ProofFor(b.batchId));
    if |own| != |leaves| { return Err(ExportIncomplete); }
    assert forall i | 0 <= i < |own| :: own[i] in x.proofs;
    result := VerifyBatchProofs(leaves, own, b.root);
  }

  method VerifyExport(x: Export) returns (result: Result<bool>)
    ensures result == Verdict(x)
  {
    hide Continuous, ChainVerdict, BatchVerdict, CreateLeaf;
    if !ExportParses(x) { return Err(SchemaRejected); }
    assert BatchesParse(x.batches);
    var events := AssertAuditContinuity(x.auditEvents);
    if events.Err? { return Err(BatchContinuity); }
    if |x.leaves| != |x.auditEvents| { return Err(ExportIncomplete); }
    for i := 0 to |x.auditEvents|
      invariant forall j | 0 <= j < i :: CommitsLeaf(x, j)
    {
      if x.leaves[i] != CreateLeaf(x.auditEvents[i]) {
        assert !CommitsLeaf(x, i);
        return Err(CommitmentInvalid);
      }
    }
    var linked :- AssertBatchContinuity(x.batches);
    if x.batches[|x.batches| - 1].lastSequence != x.auditEvents[|x.auditEvents| - 1].sequence {
      return Err(ExportIncomplete);
    }
    for k := 0 to |x.batches|
      invariant BatchesVerdict(x, k) == BatchesVerdict(x, 0)
    {
      var fine :- VerifyBatch(x, x.batches[k]);
    }
    return Ok(true);
  }
}
