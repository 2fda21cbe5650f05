// Exactly which exports the chain part of the verifier accepts.
module ExportLaws {
  import opened Prelude
  import opened Digests
  import opened AuditLog
  import opened Merkle
  import opened BatchChain
  import opened AuditRuns
  import opened Exports

  /******* The conditions *******/

  // How many proofs are filed under a batch id.
  function Filed(proofs: seq<Proof>, batchId: Id): nat {
    if proofs == [] then 0
    else Filed(proofs[..|proofs| - 1], batchId) + if proofs[|proofs| - 1].batchId == batchId then 1 else 0
  }

  predicate IsFor(p: Proof, batchId: Id, leafHash: Hash) { p.batchId == batchId && p.leafHash == leafHash }

  // The proof names this place among n leaves and leads to the root.
  predicate Leads(p: Proof, at: int, n: int, root: Hash) {
    p.leafIndex == at && p.leafCount == n && p.root == root && Fold(p.leafHash, p.siblings) == root
  }

  // Exactly one proof is for this leaf under this batch, and it leads to the root from the leaf's place.
  ghost predicate ProvedOnce(proofs: seq<Proof>, batchId: Id, leafHash: Hash, at: int, n: int, root: Hash) {
    exists p: nat | p < |proofs| ::
      && IsFor(proofs[p], batchId, leafHash) && Leads(proofs[p], at, n, root)
      && forall q: nat | q < |proofs| && IsFor(proofs[q], batchId, leafHash) :: q == p
  }

  // A batch of the export is over its own stretch of the log: the archived leaves and the root are of those events,
  // each of them is proved once, and no other proof is filed under it.
  ghost predicate BatchFits(x: Export, b: Batch) {
    && 1 <= b.firstSequence <= b.lastSequence <= |x.auditEvents|
    && var events := x.auditEvents[b.firstSequence - 1..b.lastSequence];
    && b.leavesObjectHash
       == LeafSetDigest(LeafSet(b.batchId, b.firstSequence, b.lastSequence, Leaves(events)))
    && b.root == Root(LeafHashes(Leaves(events)))
    && Filed(x.proofs, b.batchId) == |events|
    && forall i | 0 <= i < |events| ::
         ProvedOnce(x.proofs, b.batchId, LeafHash(events[i]), i, |events|, b.root)
  }

  /******* Counting matches *******/

  lemma {:induction false} FiledIsSelected(proofs: seq<Proof>, batchId: Id)
    ensures Filed(proofs, batchId) == |Select(proofs, ProofFor(batchId))|
  {
    if proofs != [] {
      FiledIsSelected(proofs[..|proofs| - 1], batchId);
    }
  }

  lemma {:induction false} NoneKept<T>(rows: seq<T>, a: T -> bool, b: T -> bool)
    requires forall q: nat | q < |rows| :: !(a(rows[q]) && b(rows[q]))
    ensures Select(Select(rows, a), b) == []
  {
    if rows != [] {
      var n := |rows| - 1;
      NoneKept(rows[..n], a, b);
      SelectAppend(Select(rows[..n], a), if a(rows[n]) then [rows[n]] else [], b);
    }
  }

  lemma {:induction false} OneKept<T>(rows: seq<T>, a: T -> bool, b: T -> bool, p: nat)
    requires p < |rows| && a(rows[p]) && b(rows[p])
    requires forall q: nat | q < |rows| && q != p :: !(a(rows[q]) && b(rows[q]))
    ensures Select(Select(rows, a), b) == [rows[p]]
  {
    var n := |rows| - 1;
    var init := rows[..n];
    assert forall q: nat | q < n :: init[q] == rows[q];
    if p == n {
      NoneKept(init, a, b);
      assert Select(rows, a) == Select(init, a) + [rows[n]];
      SelectAppend(Select(init, a), [rows[n]], b);
      assert Select([rows[n]], b) == [rows[n]] by { assert [rows[n]][..0] == []; }
    } else {
      OneKept(init, a, b, p);
      SelectAppend(Select(init, a), if a(rows[n]) then [rows[n]] else [], b);
    }
  }

  // The verifier's match for a leaf is the one proof there is.
  lemma {:induction false} BindsExactly(leaves: seq<Leaf>, proofs: seq<Proof>, batchId: Id, root: Hash, k: nat)
    requires k < |leaves|
    ensures ProofBinds(leaves, Select(proofs, ProofFor(batchId)), root, k) <==>
              ProvedOnce(proofs, batchId, leaves[k].leafHash, k, |leaves|, root)
  {
    hide Select, Fold;
    var hash := leaves[k].leafHash;
    if ProofBinds(leaves, Select(proofs, ProofFor(batchId)), root, k) {
      var p := OnlyMatch(proofs, batchId, hash);
      assert IsFor(proofs[p], batchId, hash) && Leads(proofs[p], k, |leaves|, root);
    }
    if ProvedOnce(proofs, batchId, hash, k, |leaves|, root) {
      var p: nat :| && p < |proofs| && IsFor(proofs[p], batchId, hash) && Leads(proofs[p], k, |leaves|, root)
                    && forall q: nat | q < |proofs| && IsFor(proofs[q], batchId, hash) :: q == p;
      forall q: nat | q < |proofs| && q != p
        ensures !(ProofFor(batchId)(proofs[q]) && ProofOf(hash)(proofs[q]))
      {
        assert !IsFor(proofs[q], batchId, hash);
      }
      OneKept(proofs, ProofFor(batchId), ProofOf(hash), p);
    }
  }

  /******* Acceptance *******/

  lemma {:induction false} BatchAcceptedExactly(x: Export, b: Batch)
    requires Continuous(x.auditEvents) && x.leaves == Leaves(x.auditEvents)
    requires 1 <= b.firstSequence <= b.lastSequence <= |x.auditEvents|
    ensures BatchVerdict(x, b).Ok? <==> BatchFits(x, b)
  {
    hide Select, Continuous, ProofBinds, ProvedOnce, Root, CreateLeaf, LeafHash;
    CoveredStretch(x.auditEvents, b);
    FiledIsSelected(x.proofs, b.batchId);
    var events := x.auditEvents[b.firstSequence - 1..b.lastSequence];
    var leaves := Leaves(events);
    forall k: nat | k < |leaves|
      ensures ProofBinds(leaves, Select(x.proofs, ProofFor(b.batchId)), b.root, k) <==>
                ProvedOnce(x.proofs, b.batchId, LeafHash(events[k]), k, |leaves|, b.root)
    {
      LeafCarriesHash(events, k);
      BindsExactly(leaves, x.proofs, b.batchId, b.root, k);
    }
  }

  lemma LeafCarriesHash(events: seq<AuditEvent>, k: nat)
    requires k < |events|
    ensures Leaves(events)[k].leafHash == LeafHash(events[k])
  {
  }

  lemma {:induction false} BatchesAcceptedExactly(x: Export, k: nat)
    requires k <= |x.batches|
    ensures BatchesVerdict(x, k).Ok? <==> forall j | k <= j < |x.batches| :: BatchVerdict(x, x.batches[j]).Ok?
    decreases |x.batches| - k
  {
    hide BatchVerdict;
    if k < |x.batches| {
      BatchesAcceptedExactly(x, k + 1);
    }
  }

  // An export is accepted if and only if its records parse, its log is continuous, its leaves are the leaves of its
  // events in order, its batches are linked from the first event to the last, and every batch is over its own stretch,
  // with exactly one leading proof for each of its events and no other proof filed under it.
  lemma {:induction false} AcceptedExactly(x: Export)
    ensures Verdict(x).Ok? <==>
              && ExportParses(x) && Continuous(x.auditEvents) && x.leaves == Leaves(x.auditEvents)
              && Chained(x.batches) && x.batches[|x.batches| - 1].lastSequence == |x.auditEvents|
              && forall k | 0 <= k < |x.batches| :: BatchFits(x, x.batches[k])
  {
    hide BatchVerdict, BatchFits, LinkedAt, CreateLeaf, LeafHash;
    ChainAcceptedExactlyWhenLinked(x.batches);
    BatchesAcceptedExactly(x, 0);
    SameLeavesExactly(x);
    if ExportParses(x) && Continuous(x.auditEvents) && Chained(x.batches) {
      LastIsCounted(x.auditEvents);
      if x.leaves == Leaves(x.auditEvents) && x.batches[|x.batches| - 1].lastSequence == |x.auditEvents| {
        forall k: nat | k < |x.batches|
          ensures BatchVerdict(x, x.batches[k]).Ok? <==> BatchFits(x, x.batches[k])
        {
          LastInRange(x, k);
          BatchAcceptedExactly(x, x.batches[k]);
        }
      }
    }
  }

  lemma {:induction false} SameLeavesExactly(x: Export)
    ensures x.leaves == Leaves(x.auditEvents) <==>
              |x.leaves| == |x.auditEvents| && forall i | 0 <= i < |x.auditEvents| :: CommitsLeaf(x, i)
  {
    hide CreateLeaf;
    if |x.leaves| == |x.auditEvents| && forall i | 0 <= i < |x.auditEvents| :: CommitsLeaf(x, i) {
      forall i | 0 <= i < |x.leaves|
        ensures x.leaves[i] == Leaves(x.auditEvents)[i]
      {
        assert CommitsLeaf(x, i);
      }
    }
  }

  lemma LastIsCounted(events: seq<AuditEvent>)
    requires Continuous(events) && events != []
    ensures events[|events| - 1].sequence == |events|
  {
  }
}
