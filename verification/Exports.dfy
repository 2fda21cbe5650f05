// What an accepted export fixes, and that what the repository builds is accepted.
module Exports {
  import opened Prelude
  import opened Digests
  import opened AuditLog
  import opened Merkle
  import opened BatchChain
  import opened AuditTables
  import opened AuditRuns

  /******* The batches cut the log *******/

  predicate Covers(b: Batch, n: int) {
    b.firstSequence <= n <= b.lastSequence
  }

  lemma {:induction false} BatchesAreOrdered(batches: seq<Batch>, j: nat, k: nat)
    requires Chained(batches) && j < k < |batches|
    ensures 1 <= batches[j].firstSequence
    ensures batches[j].lastSequence < batches[k].firstSequence
    decreases k
  {
    assert LinkedAt(batches, k) && BatchParses(batches[j]);
    if j < k - 1 {
      BatchesAreOrdered(batches, j, k - 1);
      assert BatchParses(batches[k - 1]);
    }
  }

  // The batch a number falls in.
  function Holder(batches: seq<Batch>, n: int): nat
    requires batches != []
  {
    var last := |batches| - 1;
    if last == 0 || n >= batches[last].firstSequence then last else Holder(batches[..last], n)
  }

  lemma {:induction false} HolderCovers(batches: seq<Batch>, n: int)
    requires batches != [] && Chained(batches) && 1 <= n <= batches[|batches| - 1].lastSequence
    ensures Holder(batches, n) < |batches| && Covers(batches[Holder(batches, n)], n)
  {
    var last := |batches| - 1;
    assert LinkedAt(batches, last);
    if last > 0 && n < batches[last].firstSequence {
      var rest := batches[..last];
      forall k | 0 <= k < |rest|
        ensures BatchParses(rest[k]) && LinkedAt(rest, k)
      {
        assert BatchParses(batches[k]) && LinkedAt(batches, k);
      }
      HolderCovers(rest, n);
    }
  }

  // Consecutive ranges from 1 to the end: each number falls in exactly one batch.
  lemma {:induction false} ExactlyOneBatch(batches: seq<Batch>, n: int, k: nat)
    requires Chained(batches) && k < |batches| && 1 <= n <= batches[|batches| - 1].lastSequence
    ensures Covers(batches[k], n) <==> k == Holder(batches, n)
  {
    HolderCovers(batches, n);
    var h := Holder(batches, n);
    if k < h { BatchesAreOrdered(batches, k, h); }
    if h < k { BatchesAreOrdered(batches, h, k); }
  }

  /******* What acceptance says *******/

  lemma {:induction false} EveryBatchAccepted(x: Export, k: nat, j: nat)
    requires k <= j < |x.batches| && BatchesVerdict(x, k).Ok?
    ensures BatchVerdict(x, x.batches[j]).Ok?
    decreases j - k
  {
    hide BatchVerdict;
    if k < j { EveryBatchAccepted(x, k + 1, j); }
  }

  lemma {:induction false} AcceptedParts(x: Export)
    requires Verdict(x).Ok?
    ensures ExportParses(x) && Continuous(x.auditEvents) && Chained(x.batches)
    ensures x.batches != [] && x.auditEvents != []
    ensures x.leaves == Leaves(x.auditEvents)
    ensures x.batches[|x.batches| - 1].lastSequence == |x.auditEvents|
    ensures forall k | 0 <= k < |x.batches| :: BatchVerdict(x, x.batches[k]).Ok?
  {
    hide BatchVerdict, Chained, LinkedAt;
    ChainAcceptedExactlyWhenLinked(x.batches);
    forall i | 0 <= i < |x.auditEvents|
      ensures x.leaves[i] == Leaves(x.auditEvents)[i]
    {
      assert CommitsLeaf(x, i);
    }
    forall k | 0 <= k < |x.batches|
      ensures BatchVerdict(x, x.batches[k]).Ok?
    {
      EveryBatchAccepted(x, 0, k);
    }
  }

  lemma {:induction false} LastInRange(x: Export, k: nat)
    requires Chained(x.batches) && k < |x.batches|
    requires x.batches[|x.batches| - 1].lastSequence == |x.auditEvents|
    ensures 1 <= x.batches[k].firstSequence <= x.batches[k].lastSequence <= |x.auditEvents|
  {
    assert BatchParses(x.batches[k]) && BatchParses(x.batches[|x.batches| - 1]);
    if k < |x.batches| - 1 { BatchesAreOrdered(x.batches, k, |x.batches| - 1); }
  }

  // The leaves a batch covers are a stretch of the log's leaves.
  lemma {:induction false} CoveredStretch(events: seq<AuditEvent>, b: Batch)
    requires Continuous(events) && 1 <= b.firstSequence <= b.lastSequence <= |events|
    ensures Select(Leaves(events), CoveredBy(b)) == Leaves(events[b.firstSequence - 1..b.lastSequence])
  {
    hide Select;
    SelectStretch(Leaves(events), CoveredBy(b), b.firstSequence, b.lastSequence);
    assert Leaves(events)[b.firstSequence - 1..b.lastSequence] == Leaves(events[b.firstSequence - 1..b.lastSequence]);
  }

  function Stretch(x: Export, k: nat): seq<AuditEvent>
    requires k < |x.batches|
    requires 1 <= x.batches[k].firstSequence <= x.batches[k].lastSequence <= |x.auditEvents|
  {
    x.auditEvents[x.batches[k].firstSequence - 1..x.batches[k].lastSequence]
  }

  // An accepted batch is over the leaves of its own stretch, and binds one proof to each of them.
  lemma {:induction false} AcceptedBatch(x: Export, k: nat)
    requires Verdict(x).Ok? && k < |x.batches|
    ensures 1 <= x.batches[k].firstSequence <= x.batches[k].lastSequence <= |x.auditEvents|
    ensures var b, leaves := x.batches[k], Leaves(Stretch(x, k));
            && b.leavesObjectHash == LeafSetDigest(LeafSet(b.batchId, b.firstSequence, b.lastSequence, leaves))
            && b.root == Root(LeafHashes(leaves))
            && |Select(x.proofs, ProofFor(b.batchId))| == |leaves|
            && forall i | 0 <= i < |leaves| :: ProofBinds(leaves, Select(x.proofs, ProofFor(b.batchId)), b.root, i)
  {
    hide Verdict, Select, ProofBinds, Root, Chained, Continuous, ExportParses;
    AcceptedParts(x);
    LastInRange(x, k);
    CoveredStretch(x.auditEvents, x.batches[k]);
  }

  /******* Batch ids are distinct *******/

  predicate NoRepeats(hashes: seq<Hash>) {
    forall i, j | 0 <= i < j < |hashes| :: hashes[i] != hashes[j]
  }

  lemma {:induction false} Pigeonhole(need: seq<Hash>, have: seq<Hash>)
    requires NoRepeats(need) && forall h | h in need :: h in have
    ensures |need| <= |have|
  {
    if need != [] {
      var n := |need| - 1;
      var rest := need[..n];
      assert need[n] in need;
      var i :| 0 <= i < |have| && have[i] == need[n];
      var without := have[..i] + have[i + 1..];
      forall h | h in rest
        ensures h in without
      {
        assert h in need && h != need[n];
        var j :| 0 <= j < |have| && have[j] == h;
        assert if j < i then without[j] == h else without[j - 1] == h;
      }
      Pigeonhole(rest, without);
    }
  }

  function ProofHashes(proofs: seq<Proof>): (hashes: seq<Hash>)
    ensures |hashes| == |proofs|
  {
    seq(|proofs|, i requires 0 <= i < |proofs| => proofs[i].leafHash)
  }

  lemma {:induction false} BoundLeafHasProof(leaves: seq<Leaf>, own: seq<Proof>, root: Hash, i: nat)
    requires i < |leaves| && ProofBinds(leaves, own, root, i)
    ensures leaves[i].leafHash in ProofHashes(own)
  {
    hide Select, Fold;
    var matches := Select(own, ProofOf(leaves[i].leafHash));
    assert matches[0] in own;
    var j :| 0 <= j < |own| && own[j] == matches[0];
    assert ProofHashes(own)[j] == leaves[i].leafHash;
  }

  lemma {:induction false} NumberedLeavesDiffer(events: seq<AuditEvent>, lo: nat, hi: nat, at: nat)
    requires Continuous(events) && lo <= hi <= at < |events|
    ensures NoRepeats(LeafHashes(Leaves(events[lo..hi])) + [LeafHash(events[at])])
  {
    var hashes := LeafHashes(Leaves(events[lo..hi])) + [LeafHash(events[at])];
    assert forall i | 0 <= i < hi - lo :: hashes[i] == LeafHash(events[lo + i]);
  }

  // The leaves of batch j and the first one of a later batch k all have proofs under their batches' ids.
  lemma {:induction false} SharedIdNeedsProofs(x: Export, j: nat, k: nat)
    requires Verdict(x).Ok? && j < k < |x.batches| && x.batches[j].batchId == x.batches[k].batchId
    ensures 1 <= x.batches[j].firstSequence <= x.batches[j].lastSequence < x.batches[k].firstSequence <= |x.auditEvents|
    ensures |Select(x.proofs, ProofFor(x.batches[j].batchId))| == |Stretch(x, j)|
    ensures var needed := LeafHashes(Leaves(Stretch(x, j))) + [LeafHash(x.auditEvents[x.batches[k].firstSequence - 1])];
            forall h | h in needed :: h in ProofHashes(Select(x.proofs, ProofFor(x.batches[j].batchId)))
  {
    hide Verdict, Select, ProofBinds, Continuous, Chained, Root, ExportParses, BatchVerdict, ProofHashes;
    AcceptedParts(x);
    AcceptedBatch(x, j);
    AcceptedBatch(x, k);
    BatchesAreOrdered(x.batches, j, k);
    var a, b := x.batches[j], x.batches[k];
    var own := Select(x.proofs, ProofFor(a.batchId));
    var u, v := Leaves(Stretch(x, j)), Leaves(Stretch(x, k));
    forall h | h in LeafHashes(u) + [LeafHash(x.auditEvents[b.firstSequence - 1])]
      ensures h in ProofHashes(own)
    {
      if h in LeafHashes(u) {
        var i :| 0 <= i < |u| && LeafHashes(u)[i] == h;
        BoundLeafHasProof(u, own, a.root, i);
      } else {
        BoundLeafHasProof(v, own, b.root, 0);
      }
    }
  }

  // Two batches under one id would have to share its proofs, and there are too few of them.
  lemma {:induction false} BatchIdsAreDistinct(x: Export, j: nat, k: nat)
    requires Verdict(x).Ok? && j < k < |x.batches|
    ensures x.batches[j].batchId != x.batches[k].batchId
  {
    hide Verdict, Select, Continuous, ExportParses, BatchVerdict, Chained, NoRepeats, LeafHash;
    if x.batches[j].batchId == x.batches[k].batchId {
      AcceptedParts(x);
      SharedIdNeedsProofs(x, j, k);
      var a, b := x.batches[j], x.batches[k];
      NumberedLeavesDiffer(x.auditEvents, a.firstSequence - 1, a.lastSequence, b.firstSequence - 1);
      Pigeonhole(LeafHashes(Leaves(Stretch(x, j))) + [LeafHash(x.auditEvents[b.firstSequence - 1])],
                 ProofHashes(Select(x.proofs, ProofFor(a.batchId))));
    }
  }

  /******* One proof per event *******/

  lemma {:induction false} TwoKept<T>(rows: seq<T>, a: T -> bool, b: T -> bool, p: nat, q: nat)
    requires p < q < |rows| && a(rows[p]) && b(rows[p]) && a(rows[q]) && b(rows[q])
    ensures |Select(Select(rows, a), b)| >= 2
  {
    hide Select;
    var n := |rows| - 1;
    var init := rows[..n];
    SelectLast(rows, a);
    if q < n {
      TwoKept(init, a, b, p, q);
      SelectAppend(Select(init, a), if a(rows[n]) then [rows[n]] else [], b);
    } else {
      Selected(init, rows[p], a);
      Selected(Select(init, a), rows[p], b);
      SelectOneMore(Select(init, a), rows[n], b);
    }
  }

  // Proof p of the export is filed under the event's batch and names its leaf.
  predicate ProvesEvent(x: Export, p: nat, i: nat)
    requires x.batches != [] && p < |x.proofs| && i < |x.auditEvents|
  {
    var h := Holder(x.batches, i + 1);
    h < |x.batches| && x.proofs[p].batchId == x.batches[h].batchId && x.proofs[p].leafHash == LeafHash(x.auditEvents[i])
  }

  // The one match for a leaf among a batch's proofs, found in the export.
  lemma {:induction false} OnlyMatch(proofs: seq<Proof>, batchId: Id, leafHash: Hash) returns (p: nat)
    requires |Select(Select(proofs, ProofFor(batchId)), ProofOf(leafHash))| == 1
    ensures p < |proofs| && proofs[p] == Select(Select(proofs, ProofFor(batchId)), ProofOf(leafHash))[0]
    ensures proofs[p].batchId == batchId && proofs[p].leafHash == leafHash
    ensures forall q: nat | q < |proofs| && proofs[q].batchId == batchId && proofs[q].leafHash == leafHash :: q == p
  {
    hide Select;
    var own := Select(proofs, ProofFor(batchId));
    var matches := Select(own, ProofOf(leafHash));
    assert matches[0] in own;
    var i :| 0 <= i < |own| && own[i] == matches[0];
    assert own[i] in proofs;
    p :| 0 <= p < |proofs| && proofs[p] == matches[0];
    forall q: nat | q < |proofs| && proofs[q].batchId == batchId && proofs[q].leafHash == leafHash
      ensures q == p
    {
      if q < p { TwoKept(proofs, ProofFor(batchId), ProofOf(leafHash), q, p); }
      if p < q { TwoKept(proofs, ProofFor(batchId), ProofOf(leafHash), p, q); }
    }
  }

  // Each audit event of an accepted export has one batch and one proof, which folds to that batch's root and whose
  // sides lead to the event's place in the tree.
  lemma {:induction false} OneProofPerEvent(x: Export, i: nat) returns (p: nat)
    requires Verdict(x).Ok? && i < |x.auditEvents|
    ensures p < |x.proofs| && ProvesEvent(x, p, i)
    ensures forall q: nat | q < |x.proofs| && ProvesEvent(x, q, i) :: q == p
    ensures var proof, b := x.proofs[p], x.batches[Holder(x.batches, i + 1)];
            && Covers(b, i + 1)
            && proof.leafIndex == i + 1 - b.firstSequence
            && proof.leafCount == b.lastSequence - b.firstSequence + 1
            && Fold(proof.leafHash, proof.siblings) == proof.root == b.root
            && |proof.siblings| == Depth(proof.leafCount)
            && Slot(proof.leafCount, Digits(proof.siblings)) == proof.leafIndex
  {
    hide Verdict, Select, Continuous, Chained, Root, Fold, Holder, Slot, Digits, Depth, ExportParses, BatchVerdict;
    AcceptedParts(x);
    assert x.batches[|x.batches| - 1].lastSequence == |x.auditEvents|;
    HolderCovers(x.batches, i + 1);
    var h := Holder(x.batches, i + 1);
    AcceptedBatch(x, h);
    var b, leaves := x.batches[h], Leaves(Stretch(x, h));
    var own, at := Select(x.proofs, ProofFor(b.batchId)), i + 1 - b.firstSequence;
    assert Stretch(x, h)[at] == x.auditEvents[i];
    assert ProofBinds(leaves, own, b.root, at);
    p := OnlyMatch(x.proofs, b.batchId, LeafHash(x.auditEvents[i]));
    PlacedByItsSides(x.auditEvents, b.firstSequence, b.lastSequence, x.proofs[p].siblings, at);
  }

  lemma {:induction false} PlacedByItsSides(events: seq<AuditEvent>, first: int, last: int, siblings: seq<Sibling>,
      at: nat)
    requires Continuous(events) && 1 <= first <= last <= |events| && at < last - first + 1
    requires Fold(LeafHash(events[first - 1 + at]), siblings) == Root(LeafHashes(Leaves(events[first - 1..last])))
    ensures |siblings| == Depth(last - first + 1)
    ensures Slot(last - first + 1, Digits(siblings)) == at
  {
    hide Root, Fold, Slot, Digits, Depth;
    var hashes := LeafHashes(Leaves(events[first - 1..last]));
    AcceptedLeafIsCommitted(hashes, LeafHash(events[first - 1 + at]), siblings);
    assert hashes[Slot(|hashes|, Digits(siblings))] == LeafHash(events[first - 1 + Slot(|hashes|, Digits(siblings))]);
  }

  /******* The head fixes the history *******/

  lemma {:induction false} HeadFixesChain(a: seq<Batch>, b: seq<Batch>)
    requires Chained(a) && Chained(b) && a != [] && b != []
    requires BatchTerm(a[|a| - 1]) == BatchTerm(b[|b| - 1])
    ensures |a| == |b|
    ensures forall k | 0 <= k < |a| ::
              BatchTerm(a[k]) == BatchTerm(b[k]) && a[k].previousBatchHash == b[k].previousBatchHash
    decreases |a|
  {
    assert LinkedAt(a, |a| - 1) && LinkedAt(b, |b| - 1);
    if |a| > 1 && |b| > 1 {
      var u, v := a[..|a| - 1], b[..|b| - 1];
      assert Chained(u) && Chained(v) by {
        forall k | 0 <= k < |u|
          ensures LinkedAt(u, k) && BatchParses(u[k])
        {
          assert LinkedAt(a, k) && BatchParses(a[k]);
        }
        forall k | 0 <= k < |v|
          ensures LinkedAt(v, k) && BatchParses(v[k])
        {
          assert LinkedAt(b, k) && BatchParses(b[k]);
        }
      }
      HeadFixesChain(u, v);
      assert forall k | 0 <= k < |u| :: a[k] == u[k] && b[k] == v[k];
    }
  }

  lemma {:induction false} SameTermSameBatch(x: Export, y: Export, k: nat)
    requires Verdict(x).Ok? && Verdict(y).Ok? && k < |x.batches| && k < |y.batches|
    requires BatchTerm(x.batches[k]) == BatchTerm(y.batches[k])
    requires x.batches[k].previousBatchHash == y.batches[k].previousBatchHash
    ensures x.batches[k] == y.batches[k]
    ensures 1 <= x.batches[k].firstSequence <= x.batches[k].lastSequence <= |x.auditEvents|
    ensures x.batches[k].lastSequence <= |y.auditEvents|
    ensures Stretch(x, k) == Stretch(y, k)
  {
    hide Verdict, Select, ProofBinds, Root;
    AcceptedBatch(x, k);
    AcceptedBatch(y, k);
    var u, v := Stretch(x, k), Stretch(y, k);
    assert Leaves(u) == Leaves(v);
    forall i | 0 <= i < |u|
      ensures u[i] == v[i]
    {
      assert CreateLeaf(u[i]) == Leaves(u)[i] == Leaves(v)[i] == CreateLeaf(v[i]);
    }
    assert u == v;
  }

  lemma {:induction false} SameHeadSameBatches(x: Export, y: Export)
    requires Verdict(x).Ok? && Verdict(y).Ok? && x.batches != [] && y.batches != []
    requires BatchTerm(x.batches[|x.batches| - 1]) == BatchTerm(y.batches[|y.batches| - 1])
    ensures x.batches == y.batches
  {
    hide Verdict, Continuous, Chained, Leaves, BatchTerm, ExportParses, BatchVerdict;
    AcceptedParts(x);
    AcceptedParts(y);
    HeadFixesChain(x.batches, y.batches);
    forall k | 0 <= k < |x.batches|
      ensures x.batches[k] == y.batches[k]
    {
      SameTermSameBatch(x, y, k);
    }
  }

  lemma {:induction false} SameBatchesSameLog(x: Export, y: Export)
    requires Verdict(x).Ok? && Verdict(y).Ok? && x.batches == y.batches && x.batches != []
    ensures x.auditEvents == y.auditEvents
  {
    hide Verdict, Continuous, Chained, Leaves, BatchTerm, ExportParses, BatchVerdict;
    AcceptedParts(x);
    AcceptedParts(y);
    var last, n := |x.batches| - 1, |x.auditEvents|;
    SameTermSameBatch(x, y, last);
    assert x.auditEvents[n - 1] == Stretch(x, last)[|Stretch(x, last)| - 1] == y.auditEvents[n - 1];
    HeadFixesLog(x.auditEvents, y.auditEvents);
  }

  // Two accepted exports have the same head hash exactly when they hold the same batches over the same events.
  lemma {:induction false} EqualHeadsEqualHistories(x: Export, y: Export)
    requires Verdict(x).Ok? && Verdict(y).Ok?
    ensures x.batches != [] && y.batches != []
    ensures BatchTerm(x.batches[|x.batches| - 1]) == BatchTerm(y.batches[|y.batches| - 1])
            <==> x.batches == y.batches && x.auditEvents == y.auditEvents && x.leaves == y.leaves
  {
    hide Verdict, Continuous, Chained, Leaves, BatchTerm, ExportParses, BatchVerdict;
    AcceptedParts(x);
    AcceptedParts(y);
    if BatchTerm(x.batches[|x.batches| - 1]) == BatchTerm(y.batches[|y.batches| - 1]) {
      SameHeadSameBatches(x, y);
      SameBatchesSameLog(x, y);
    }
  }

  // The same range and root, in whatever two accepted exports: the same leaves over the same events, in the same
  // order. The root alone fixes no leaf count; the verifier's count check does.
  lemma {:induction false} RootAndRangeFixTheLeaves(x: Export, y: Export, j: nat, k: nat)
    requires Verdict(x).Ok? && Verdict(y).Ok? && j < |x.batches| && k < |y.batches|
    requires x.batches[j].firstSequence == y.batches[k].firstSequence
    requires x.batches[j].lastSequence == y.batches[k].lastSequence && x.batches[j].root == y.batches[k].root
    ensures 1 <= x.batches[j].firstSequence <= x.batches[j].lastSequence <= |x.auditEvents|
    ensures y.batches[k].lastSequence <= |y.auditEvents|
    ensures Stretch(x, j) == Stretch(y, k) && Leaves(Stretch(x, j)) == Leaves(Stretch(y, k))
  {
    hide Verdict, Select, ProofBinds, Root;
    AcceptedBatch(x, j);
    AcceptedBatch(y, k);
    var u, v := Stretch(x, j), Stretch(y, k);
    EqualCountsFixTheLeaves(LeafHashes(Leaves(u)), LeafHashes(Leaves(v)));
    forall i | 0 <= i < |u|
      ensures u[i] == v[i]
    {
      assert LeafHash(u[i]) == LeafHashes(Leaves(u))[i] == LeafHashes(Leaves(v))[i] == LeafHash(v[i]);
    }
    assert u == v;
  }

  /******* Proofs of no batch *******/

  lemma {:induction false} OtherProofIgnored(x: Export, p: Proof, b: Batch)
    requires b.batchId != p.batchId
    ensures BatchVerdict(x.(proofs := x.proofs + [p]), b) == BatchVerdict(x, b)
  {
    hide Select, ProofBinds, Root;
    SelectOneMore(x.proofs, p, ProofFor(b.batchId));
    assert Select(x.proofs + [p], ProofFor(b.batchId)) == Select(x.proofs, ProofFor(b.batchId));
  }

  lemma {:induction false} OtherProofsIgnored(x: Export, p: Proof, k: nat)
    requires k <= |x.batches| && forall i | k <= i < |x.batches| :: x.batches[i].batchId != p.batchId
    ensures BatchesVerdict(x.(proofs := x.proofs + [p]), k) == BatchesVerdict(x, k)
    decreases |x.batches| - k
  {
    hide BatchVerdict;
    if k < |x.batches| {
      OtherProofIgnored(x, p, x.batches[k]);
      OtherProofsIgnored(x, p, k + 1);
    }
  }

  // A proof too many for a batch the export does contain.
  lemma {:induction false} ExtraProofRefused(x: Export, p: Proof, b: Batch)
    requires BatchVerdict(x, b).Ok? && b.batchId == p.batchId
    ensures BatchVerdict(x.(proofs := x.proofs + [p]), b).Err?
  {
    hide Select, ProofBinds, Root;
    SelectOneMore(x.proofs, p, ProofFor(b.batchId));
  }

  // An accepted export with one more proof is accepted exactly when the proof is filed under no batch of it.
  lemma {:induction false} ForeignProofsAreTolerated(x: Export, p: Proof)
    requires Verdict(x).Ok? && 0 < p.leafCount
    ensures Verdict(x.(proofs := x.proofs + [p])).Ok? <==>
              forall i | 0 <= i < |x.batches| :: x.batches[i].batchId != p.batchId
  {
    hide BatchVerdict, Continuous, Select;
    var y := x.(proofs := x.proofs + [p]);
    assert ExportParses(y) by { hide AllParse, BatchesParse; }
    assert forall i | 0 <= i < |x.auditEvents| && |x.leaves| == |x.auditEvents| ::
        CommitsLeaf(y, i) <==> CommitsLeaf(x, i);
    AcceptedParts(x);
    hide ExportParses, ChainVerdict;
    if i: nat :| i < |x.batches| && x.batches[i].batchId == p.batchId {
      ExtraProofRefused(x, p, x.batches[i]);
      if Verdict(y).Ok? {
        AcceptedParts(y);
      }
    } else {
      OtherProofsIgnored(x, p, 0);
    }
  }

  /******* What the repository builds is accepted *******/

  function ExportOf(t: Tables, x: Id): Export {
    var log := LogOf(t.events, x);
    Export(log, Leaves(log), BatchesIn(RowsOf(t.batches, x)), t.proofs)
  }

  predicate FullyCommitted(t: Tables, x: Id) {
    var log, rows := LogOf(t.events, x), RowsOf(t.batches, x);
    log != [] && rows != [] && rows[|rows| - 1].batch.lastSequence == |log|
  }

  lemma {:induction false} BuiltProofs(log: seq<AuditEvent>, proofs: seq<Proof>, row: BatchRow)
    requires RowHolds(log, proofs, row)
    ensures var b, leaves := row.batch, Leaves(log[row.batch.firstSequence - 1..row.batch.lastSequence]);
            && Select(proofs, ProofFor(b.batchId)) == ProofsOf(b.batchId, LeafHashes(leaves))
            && b.root == Root(LeafHashes(leaves))
            && b.leavesObjectHash == LeafSetDigest(LeafSet(b.batchId, b.firstSequence, b.lastSequence, leaves))
  {
    hide Root, ProofsOf, Select, Fault, CommitmentBatchHash;
  }

  lemma {:induction false} BuiltProofBinds(log: seq<AuditEvent>, first: int, last: int, batchId: Id, k: nat)
    requires Continuous(log) && 1 <= first <= last <= |log| && k < last - first + 1
    ensures var leaves := Leaves(log[first - 1..last]);
            ProofBinds(leaves, ProofsOf(batchId, LeafHashes(leaves)), Root(LeafHashes(leaves)), k)
  {
    hide Select, Fold, Root, Path, Digits, Depth;
    var leaves := Leaves(log[first - 1..last]);
    var hashes := LeafHashes(leaves);
    var own := ProofsOf(batchId, hashes);
    forall i | 0 <= i < |own|
      ensures ProofOf(hashes[k])(own[i]) <==> k + 1 <= i + 1 <= k + 1
    {
      assert hashes[i].sequence == first + i && hashes[k].sequence == first + k;
    }
    SelectStretch(own, ProofOf(hashes[k]), k + 1, k + 1);
    assert Select(own, ProofOf(hashes[k])) == [own[k]];
    ProofIsAccepted(hashes, k);
  }

  lemma {:induction false} BuiltBatchAccepted(t: Tables, x: Id, k: nat)
    requires ExperimentHolds(LogOf(t.events, x), t.proofs, RowsOf(t.batches, x)) && k < |RowsOf(t.batches, x)|
    ensures BatchVerdict(ExportOf(t, x), RowsOf(t.batches, x)[k].batch) == Ok(true)
  {
    hide Select, ProofBinds, Root, BuildOf, ProofsOf, Chained, Continuous;
    var log, rows := LogOf(t.events, x), RowsOf(t.batches, x);
    var b := rows[k].batch;
    assert RowHolds(log, t.proofs, rows[k]);
    BuiltProofs(log, t.proofs, rows[k]);
    CoveredStretch(log, b);
    var leaves := Leaves(log[b.firstSequence - 1..b.lastSequence]);
    forall i | 0 <= i < |leaves|
      ensures ProofBinds(leaves, Select(t.proofs, ProofFor(b.batchId)), b.root, i)
    {
      BuiltProofBinds(log, b.firstSequence, b.lastSequence, b.batchId, i);
    }
  }

  lemma {:induction false} StoredProofParses(t: Tables, i: nat)
    requires Consistent(t) && i < |t.proofs|
    ensures t.proofs[i].leafCount > 0
  {
    hide Select, BuildOf, Root, Path, Chained, Continuous, DistinctIds, AuditedOnce;
    var p := t.proofs[i];
    assert KnownId(t.batches, p.batchId);
    var j :| 0 <= j < |t.batches| && t.batches[j].batch.batchId == p.batchId;
    var row := t.batches[j];
    var y := row.batch.experimentId;
    var log, rows := LogOf(t.events, y), RowsOf(t.batches, y);
    assert ExperimentHolds(log, t.proofs, rows);
    Selected(t.batches, row, RowOf(y));
    assert RowHolds(log, t.proofs, row) by { var k :| 0 <= k < |rows| && rows[k] == row; }
    BuiltProofs(log, t.proofs, row);
    Selected(t.proofs, p, ProofFor(p.batchId));
    assert p in ProofsOf(p.batchId, LeafHashes(Leaves(log[row.batch.firstSequence - 1..row.batch.lastSequence])));
  }

  lemma {:induction false} AcceptAll(x: Export, k: nat)
    requires k <= |x.batches| && forall j | k <= j < |x.batches| :: BatchVerdict(x, x.batches[j]) == Ok(true)
    ensures BatchesVerdict(x, k) == Ok(true)
    decreases |x.batches| - k
  {
    hide BatchVerdict;
    if k < |x.batches| { AcceptAll(x, k + 1); }
  }

  lemma {:induction false} ExportHasParts(t: Tables, x: Id)
    requires Consistent(t) && FullyCommitted(t, x)
    ensures ExportParses(ExportOf(t, x))
  {
    hide Select, BuildOf, Root, Path, LinkedAt, DistinctIds, AuditedOnce, ProofsFiled, Consistent;
    var log, rows := LogOf(t.events, x), RowsOf(t.batches, x);
    assert ExperimentHolds(log, t.proofs, rows) by { hide ExperimentHolds; Experiment(t, x); }
    assert RowHolds(log, t.proofs, rows[0]);
    BuiltProofs(log, t.proofs, rows[0]);
    assert |Select(t.proofs, ProofFor(rows[0].batch.batchId))| > 0;
    forall i | 0 <= i < |t.proofs|
      ensures t.proofs[i].leafCount > 0
    {
      StoredProofParses(t, i);
    }
  }

  lemma Experiment(t: Tables, x: Id)
    requires Consistent(t)
    ensures ExperimentHolds(LogOf(t.events, x), t.proofs, RowsOf(t.batches, x))
  {
  }

  // Whatever was appended and committed before, an experiment whose last batch reaches the end of its log exports
  // something the verifier accepts.
  lemma {:induction false} BuilderIsAccepted(steps: seq<Step>, x: Id)
    requires FullyCommitted(Run(steps), x)
    ensures Verdict(ExportOf(Run(steps), x)) == Ok(true)
  {
    hide Select, Run, Consistent, BatchVerdict, BatchesVerdict, RowsHold, ChainVerdict, ExportParses;
    var t := Run(steps);
    RunIsConsistent(steps);
    Experiment(t, x);
    ExportHasParts(t, x);
    var e := ExportOf(t, x);
    var rows := RowsOf(t.batches, x);
    forall k | 0 <= k < |e.batches|
      ensures BatchVerdict(e, e.batches[k]) == Ok(true)
    {
      BuiltBatchAccepted(t, x, k);
    }
    AcceptAll(e, 0);
    ChainAcceptedExactlyWhenLinked(e.batches);
    ChainOk(e.batches, 0);
    assert forall i | 0 <= i < |e.auditEvents| :: CommitsLeaf(e, i);
  }

  lemma {:induction false} ChainOk(batches: seq<Batch>, k: nat)
    requires k <= |batches| && ChainVerdict(batches, k).Ok?
    ensures ChainVerdict(batches, k) == Ok(true)
    decreases |batches| - k
  {
    if k < |batches| { ChainOk(batches, k + 1); }
  }
}
