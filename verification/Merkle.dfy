// The Merkle tree of a batch: an odd last node is paired with itself. `Root`, `Path` and `Fold` say what the
// loops compute; the lemmas say what a root and an accepted proof fix.
module Merkle {
  import opened Prelude
  import opened Digests

  datatype Side = Left | Right

  datatype Sibling = Sibling(side: Side, hash: Hash)

  datatype Proof = Proof(
    batchId: Id, leafHash: Hash, leafIndex: nat, leafCount: nat, siblings: seq<Sibling>, root: Hash)

  /******* What the loops compute *******/

  // The right child of node i: the next hash of the level, or the left one again at an odd end.
  function RightOf(level: seq<Hash>, i: nat): Hash
    requires 2 * i < |level|
  {
    if 2 * i + 1 < |level| then level[2 * i + 1] else level[2 * i]
  }

  function Paired(level: seq<Hash>): (next: seq<Hash>)
    ensures |next| == (|level| + 1) / 2
  {
    seq((|level| + 1) / 2, i requires 0 <= i < (|level| + 1) / 2 => NodeDigest(level[2 * i], RightOf(level, i)))
  }

  function Root(level: seq<Hash>): Hash
    requires level != []
    decreases |level|
  {
    if |level| == 1 then level[0] else Root(Paired(level))
  }

  function SiblingAt(level: seq<Hash>, i: nat): Sibling
    requires i < |level|
  {
    if i % 2 == 0 then Sibling(Right, RightOf(level, i / 2)) else Sibling(Left, level[i - 1])
  }

  function Path(level: seq<Hash>, i: nat): seq<Sibling>
    requires i < |level|
    decreases |level|
  {
    if |level| == 1 then [] else [SiblingAt(level, i)] + Path(Paired(level), i / 2)
  }

  function Combine(value: Hash, s: Sibling): Hash {
    if s.side.Left? then NodeDigest(s.hash, value) else NodeDigest(value, s.hash)
  }

  function Fold(value: Hash, siblings: seq<Sibling>): Hash
    decreases siblings
  {
    if siblings == [] then value else Fold(Combine(value, siblings[0]), siblings[1..])
  }

  /******* The source's loops *******/

  method NextLevel(level: seq<Hash>) returns (next: seq<Hash>)
    ensures next == Paired(level)
  {
    next := [];
    var index := 0;
    while index < |level|
      invariant index == 2 * |next|
      invariant index <= |level| + 1
      invariant next == Paired(level)[..|next|]
    {
      next := next + [NodeDigest(level[index], if index + 1 < |level| then level[index + 1] else level[index])];
      index := index + 2;
    }
  }

  method MerkleRoot(hashes: seq<Hash>) returns (result: Result<Hash>)
    ensures hashes == [] ==> result == Err(CommitmentInvalid)
    ensures hashes != [] ==> result == Ok(Root(hashes))
  {
    if hashes == [] { return Err(CommitmentInvalid); }
    var level := hashes;
    while |level| > 1
      invariant level != [] && Root(level) == Root(hashes)
      decreases |level|
    {
      level := NextLevel(level);
    }
    return Ok(level[0]);
  }

  lemma {:induction false} PathStep(level: seq<Hash>, i: nat)
    requires |level| > 1 && i < |level|
    ensures i / 2 < |Paired(level)|
    ensures Path(level, i) == [SiblingAt(level, i)] + Path(Paired(level), i / 2)
    ensures Root(level) == Root(Paired(level))
  {
    hide SiblingAt;
  }

  lemma SiblingFound(level: seq<Hash>, i: nat)
    requires i < |level|
    ensures SiblingAt(level, i) == Sibling(if i % 2 == 0 then Right else Left,
                                           if i % 2 == 1 then level[i - 1]
                                           else if i + 1 < |level| then level[i + 1] else level[i])
  {
  }

  lemma PathEnds(level: seq<Hash>)
    requires |level| == 1
    ensures Path(level, 0) == [] && Root(level) == level[0]
  {
  }

  method CreateProof(batchId: Id, hashes: seq<Hash>, leafIndex: int) returns (result: Result<Proof>)
    ensures !(0 <= leafIndex < |hashes|) ==> result == Err(CommitmentInvalid)
    ensures 0 <= leafIndex < |hashes| ==>
              result
              == Ok(Proof(batchId, hashes[leafIndex], leafIndex, |hashes|, Path(hashes, leafIndex), Root(hashes)))
  {
    hide Path, Root, Paired, SiblingAt;
    if leafIndex < 0 || leafIndex >= |hashes| { return Err(CommitmentInvalid); }
    var siblings: seq<Sibling> := [];
    var index, level := leafIndex, hashes;
    while |level| > 1
      invariant 0 <= index < |level|
      invariant siblings + Path(level, index) == Path(hashes, leafIndex)
      invariant Root(level) == Root(hashes)
      decreases |level|
    {
      var siblingIndex := if index % 2 == 0 then index + 1 else index - 1;
      var sibling := Sibling(if index % 2 == 0 then Right else Left,
                             if siblingIndex < |level| then level[siblingIndex] else level[index]);
      PathStep(level, index);
      SiblingFound(level, index);
      siblings := siblings + [sibling];
      index := index / 2;
      level := NextLevel(level);
    }
    PathEnds(level);
    assert siblings == Path(hashes, leafIndex);
    return Ok(Proof(batchId, hashes[leafIndex], leafIndex, |hashes|, siblings, level[0]));
  }

  // The parsed proof must count at least one leaf; index and count are otherwise not looked at.
  method VerifyProof(proof: Proof) returns (result: Result<bool>)
    ensures result == if proof.leafCount > 0 && Fold(proof.leafHash, proof.siblings) == proof.root then Ok(true)
                      else Err(if proof.leafCount > 0 then CommitmentInvalid else SchemaRejected)
  {
    if proof.leafCount == 0 { return Err(SchemaRejected); }
    var value := proof.leafHash;
    for i := 0 to |proof.siblings|
      invariant Fold(value, proof.siblings[i..]) == Fold(proof.leafHash, proof.siblings)
    {
      value := if proof.siblings[i].side.Left? then NodeDigest(proof.siblings[i].hash, value)
               else NodeDigest(value, proof.siblings[i].hash);
    }
    return if value != proof.root then Err(CommitmentInvalid) else Ok(true);
  }

  /******* Every proof that is made is accepted *******/

  function Pow2(d: nat): (p: nat)
    ensures p > 0
  {
    if d == 0 then 1 else 2 * Pow2(d - 1)
  }

  function Depth(n: nat): nat {
    if n <= 1 then 0 else 1 + Depth((n + 1) / 2)
  }

  // The index the sides spell, lowest binary digit first: a left sibling means the node was a right child.
  function Digits(siblings: seq<Sibling>): nat {
    if siblings == [] then 0 else (if siblings[0].side.Left? then 1 else 0) + 2 * Digits(siblings[1..])
  }

  lemma {:induction false} ProofIsAccepted(hashes: seq<Hash>, i: nat)
    requires i < |hashes|
    ensures Fold(hashes[i], Path(hashes, i)) == Root(hashes)
    ensures Digits(Path(hashes, i)) == i
    ensures |Path(hashes, i)| == Depth(|hashes|)
    decreases |hashes|
  {
    if |hashes| > 1 {
      hide Path, Root, SiblingAt, Combine, Paired;
      var next := Paired(hashes);
      PathStep(hashes, i);
      ProofIsAccepted(next, i / 2);
      SiblingMakesParent(hashes, i);
      var rest := Path(next, i / 2);
      assert Path(hashes, i)[1..] == rest && Path(hashes, i)[0] == SiblingAt(hashes, i);
    } else {
      PathEnds(hashes);
    }
  }

  // A node and its sibling make the node above them; the sibling's side is the node's low digit.
  lemma {:induction false} SiblingMakesParent(level: seq<Hash>, i: nat)
    requires |level| > 1 && i < |level|
    ensures Combine(level[i], SiblingAt(level, i)) == Paired(level)[i / 2]
    ensures SiblingAt(level, i).side.Left? <==> i % 2 == 1
  {
    var half := i / 2;
    if i % 2 == 0 {
      assert i == 2 * half;
    } else {
      assert i == 2 * half + 1;
    }
  }

  // Depth is the ceiling of the binary logarithm.
  lemma {:induction false} DepthIsCeilingOfLog(n: nat)
    requires n > 0
    ensures n <= Pow2(Depth(n))
    ensures n > 1 ==> Pow2(Depth(n) - 1) < n
  {
    if n > 1 {
      DepthIsCeilingOfLog((n + 1) / 2);
      if n > 2 { assert Depth((n + 1) / 2) > 0; }
    }
  }

  /******* What a root fixes *******/

  predicate AllLeaves(hashes: seq<Hash>) {
    forall i | 0 <= i < |hashes| :: hashes[i].LeafDigest?
  }

  // x is a full binary tree of leaf-domain hashes, r levels high.
  predicate Full(x: Hash, r: nat) {
    if r == 0 then x.LeafDigest? else x.NodeDigest? && Full(x.left, r - 1) && Full(x.right, r - 1)
  }

  predicate AllFull(hashes: seq<Hash>, r: nat) {
    forall i | 0 <= i < |hashes| :: Full(hashes[i], r)
  }

  lemma {:induction false} HeightIsUnique(x: Hash, r: nat, s: nat)
    requires Full(x, r) && Full(x, s)
    ensures r == s
  {
    if r > 0 && s > 0 { HeightIsUnique(x.left, r - 1, s - 1); }
  }

  lemma {:induction false} RootIsFull(hashes: seq<Hash>, r: nat)
    requires hashes != [] && AllFull(hashes, r)
    ensures Full(Root(hashes), r + Depth(|hashes|))
    decreases |hashes|
  {
    if |hashes| > 1 { RootIsFull(Paired(hashes), r + 1); }
  }

  // Slot k of the full tree over n leaves shows this leaf; the slots past the end repeat earlier leaves.
  function Slot(n: nat, k: nat): (i: nat)
    requires n > 0
    ensures i < n
  {
    if n == 1 then 0
    else
      var parent := Slot((n + 1) / 2, k / 2);
      if 2 * parent + k % 2 < n then 2 * parent + k % 2 else 2 * parent
  }

  lemma {:induction false} SlotOfALeaf(n: nat, k: nat)
    requires k < n
    ensures Slot(n, k) == k
    decreases n
  {
    if n > 1 { SlotOfALeaf((n + 1) / 2, k / 2); }
  }

  /******* The tree read from left to right *******/

  // What stands d levels below a hash, from left to right.
  function Below(h: Hash, d: nat): seq<Hash> {
    if d == 0 then [h]
    else if h.NodeDigest? then Below(h.left, d - 1) + Below(h.right, d - 1)
    else []
  }

  // One level further down: the two children of each, in place.
  ghost predicate ChildrenOf(up: seq<Hash>, down: seq<Hash>) {
    && |down| == 2 * |up|
    && forall k | 0 <= k < |up| ::
         up[k].NodeDigest? && down[2 * k] == up[k].left && down[2 * k + 1] == up[k].right
  }

  lemma {:induction false} ChildrenOfBoth(a: seq<Hash>, b: seq<Hash>, x: seq<Hash>, y: seq<Hash>)
    requires ChildrenOf(a, x) && ChildrenOf(b, y)
    ensures ChildrenOf(a + b, x + y)
  {
    forall k | 0 <= k < |a + b|
      ensures (a + b)[k].NodeDigest? && (x + y)[2 * k] == (a + b)[k].left && (x + y)[2 * k + 1] == (a + b)[k].right
    {
      if k >= |a| {
        assert (a + b)[k] == b[k - |a|] && (x + y)[2 * k] == y[2 * (k - |a|)];
        assert (x + y)[2 * k + 1] == y[2 * (k - |a|) + 1];
      }
    }
  }

  lemma {:induction false} OneLevelDown(h: Hash, d: nat)
    requires |Below(h, d)| == Pow2(d) && forall x | x in Below(h, d) :: x.NodeDigest?
    ensures ChildrenOf(Below(h, d), Below(h, d + 1))
  {
    if d > 0 {
      BelowIsAtMost(h.left, d - 1);
      BelowIsAtMost(h.right, d - 1);
      OneLevelDown(h.left, d - 1);
      OneLevelDown(h.right, d - 1);
      ChildrenOfBoth(Below(h.left, d - 1), Below(h.right, d - 1), Below(h.left, d), Below(h.right, d));
    } else {
      assert h in Below(h, 0);
      assert Below(h, 1) == Below(h.left, 0) + Below(h.right, 0) == [h.left, h.right];
    }
  }

  lemma {:induction false} BelowIsAtMost(h: Hash, d: nat)
    ensures |Below(h, d)| <= Pow2(d)
  {
    if d > 0 && h.NodeDigest? {
      BelowIsAtMost(h.left, d - 1);
      BelowIsAtMost(h.right, d - 1);
    }
  }

  // The level's hashes, slot by slot, seen from the level above.
  ghost predicate Shows(hashes: seq<Hash>, leaves: seq<Hash>)
    requires hashes != []
  {
    forall k: nat | k < |leaves| :: leaves[k] == hashes[Slot(|hashes|, k)]
  }

  lemma {:induction false} ShownAreNodes(hashes: seq<Hash>, above: seq<Hash>)
    requires |hashes| > 1 && Shows(Paired(hashes), above)
    ensures forall x | x in above :: x.NodeDigest?
  {
    forall k: nat | k < |above|
      ensures above[k].NodeDigest?
    {
      ChildrenAt(hashes, k);
    }
  }

  lemma {:induction false} ShownOneDown(hashes: seq<Hash>, above: seq<Hash>, leaves: seq<Hash>)
    requires |hashes| > 1 && Shows(Paired(hashes), above) && ChildrenOf(above, leaves)
    ensures Shows(hashes, leaves)
  {
    hide Slot, Paired;
    forall k: nat | k < |leaves|
      ensures leaves[k] == hashes[Slot(|hashes|, k)]
    {
      var half := k / 2;
      ChildrenAt(hashes, half);
      assert k == 2 * half || k == 2 * half + 1;
    }
  }

  // A root is the tree over its leaves: read from left to right at its depth, every left child before its right one,
  // it gives the leaves in order and then the repeats that fill it up.
  lemma {:induction false} RootReadsAsItsLeaves(hashes: seq<Hash>)
    requires hashes != []
    ensures var leaves := Below(Root(hashes), Depth(|hashes|));
            && |leaves| == Pow2(Depth(|hashes|)) >= |hashes| && leaves[..|hashes|] == hashes
            && Shows(hashes, leaves)
    decreases |hashes|
  {
    hide Shows, Below, Slot, Paired, ChildrenOf;
    DepthIsCeilingOfLog(|hashes|);
    var leaves := Below(Root(hashes), Depth(|hashes|));
    if |hashes| == 1 {
      OneLeaf(hashes);
    } else {
      var up, d := Paired(hashes), Depth((|hashes| + 1) / 2);
      RootReadsAsItsLeaves(up);
      ShownAreNodes(hashes, Below(Root(up), d));
      OneLevelDown(Root(up), d);
      ShownOneDown(hashes, Below(Root(up), d), leaves);
      assert |leaves| == 2 * Pow2(d) by { TwiceAsMany(Below(Root(up), d), leaves); }
    }
    LeavesInOrder(hashes, leaves);
  }

  lemma OneLeaf(hashes: seq<Hash>)
    requires |hashes| == 1
    ensures Below(Root(hashes), Depth(1)) == hashes && Shows(hashes, hashes) && Pow2(Depth(1)) == 1
  {
  }

  lemma TwiceAsMany(up: seq<Hash>, down: seq<Hash>)
    requires ChildrenOf(up, down)
    ensures |down| == 2 * |up|
  {
  }

  lemma {:induction false} LeavesInOrder(hashes: seq<Hash>, leaves: seq<Hash>)
    requires hashes != [] && |leaves| >= |hashes| && Shows(hashes, leaves)
    ensures leaves[..|hashes|] == hashes
  {
    forall k: nat | k < |hashes|
      ensures leaves[k] == hashes[k]
    {
      SlotOfALeaf(|hashes|, k);
    }
  }

  /******* Equal roots *******/

  // Both lists fill the same full tree with the same leaves.
  ghost predicate SameTree(a: seq<Hash>, b: seq<Hash>)
    requires a != [] && b != []
  {
    && Depth(|a|) == Depth(|b|)
    && forall k: nat | k < Pow2(Depth(|a|)) :: a[Slot(|a|, k)] == b[Slot(|b|, k)]
  }

  lemma {:induction false} ChildrenAt(a: seq<Hash>, k: nat)
    requires |a| > 1
    ensures Paired(a)[Slot((|a| + 1) / 2, k)] == NodeDigest(a[Slot(|a|, 2 * k)], a[Slot(|a|, 2 * k + 1)])
  {
    assert (2 * k + 1) / 2 == k && (2 * k) / 2 == k;
  }

  lemma {:induction false} SameTreeUp(a: seq<Hash>, b: seq<Hash>)
    requires |a| > 1 && |b| > 1 && SameTree(a, b)
    ensures SameTree(Paired(a), Paired(b))
  {
    hide Slot, Paired;
    var pa, pb := Paired(a), Paired(b);
    forall k: nat | k < Pow2(Depth(|pa|))
      ensures pa[Slot(|pa|, k)] == pb[Slot(|pb|, k)]
    {
      ChildrenAt(a, k);
      ChildrenAt(b, k);
      assert 2 * k + 1 < Pow2(Depth(|a|));
    }
  }

  lemma {:induction false} SameTreeDown(a: seq<Hash>, b: seq<Hash>)
    requires |a| > 1 && |b| > 1 && SameTree(Paired(a), Paired(b))
    ensures SameTree(a, b)
  {
    hide Slot, Paired;
    forall k: nat | k < Pow2(Depth(|a|))
      ensures a[Slot(|a|, k)] == b[Slot(|b|, k)]
    {
      var half := k / 2;
      ChildrenAt(a, half);
      ChildrenAt(b, half);
      assert k == 2 * half || k == 2 * half + 1;
      assert half < Pow2(Depth(|Paired(a)|));
    }
  }

  lemma {:induction false} EqualRootsBelow(a: seq<Hash>, b: seq<Hash>, r: nat)
    requires a != [] && b != [] && AllFull(a, r) && AllFull(b, r)
    ensures Root(a) == Root(b) <==> SameTree(a, b)
    decreases |a|
  {
    RootIsFull(a, r);
    RootIsFull(b, r);
    if Depth(|a|) != Depth(|b|) {
      if Root(a) == Root(b) { HeightIsUnique(Root(a), r + Depth(|a|), r + Depth(|b|)); }
    } else if |a| == 1 {
      assert |b| == 1;
      assert Pow2(0) == 1;
      assert Slot(1, 0) == 0;
      assert SameTree(a, b) <==> a[0] == b[0];
    } else {
      EqualRootsBelow(Paired(a), Paired(b), r + 1);
      if SameTree(Paired(a), Paired(b)) { SameTreeDown(a, b); }
      if SameTree(a, b) { SameTreeUp(a, b); }
    }
  }

  lemma {:induction false} EqualRoots(a: seq<Hash>, b: seq<Hash>)
    requires a != [] && b != [] && AllLeaves(a) && AllLeaves(b)
    ensures Root(a) == Root(b) <==> SameTree(a, b)
  {
    EqualRootsBelow(a, b, 0);
  }

  lemma {:induction false} EqualCountsFixTheLeaves(a: seq<Hash>, b: seq<Hash>)
    requires a != [] && |a| == |b| && AllLeaves(a) && AllLeaves(b) && Root(a) == Root(b)
    ensures a == b
  {
    EqualRoots(a, b);
    DepthIsCeilingOfLog(|a|);
    forall k: nat | k < |a|
      ensures a[k] == b[k]
    {
      SlotOfALeaf(|a|, k);
      assert a[Slot(|a|, k)] == b[Slot(|b|, k)];
    }
  }

  lemma OneMoreLeaf(a: seq<Hash>, x: Hash)
    requires AllLeaves(a) && x in a
    ensures AllLeaves(a + [x])
  {
  }

  lemma {:induction false} PastAnEvenEnd(n: nat)
    requires n > 0 && n % 2 == 0
    ensures Slot(n, n) % 2 == 0
  {
    hide Slot;
    var parent := Slot((n + 1) / 2, n / 2);
    SlotStep(n, n, parent);
    assert Slot(n, n) == 2 * parent;
  }

  lemma {:induction false} RepeatedAfterOdd(a: seq<Hash>, x: Hash)
    requires |a| > 1 && |a| % 2 == 1 && x == a[|a| - 1]
    ensures Root(a + [x]) == Root(a)
  {
    hide AllLeaves, Slot;
    var b := a + [x];
    var pa, pb := Paired(a), Paired(b);
    forall i | 0 <= i < |pa|
      ensures pa[i] == pb[i]
    {
      assert b[2 * i] == a[2 * i];
    }
    assert pa == pb;
  }

  lemma {:induction false} RepeatedAfterEven(a: seq<Hash>, x: Hash)
    requires a != [] && |a| % 2 == 0 && x == a[|a| - 1] && AllLeaves(a)
    requires forall i | 0 <= i < |a| - 1 :: a[i] != x
    ensures Root(a + [x]) != Root(a)
  {
    hide Root, Slot, AllLeaves;
    var n, b := |a|, a + [x];
    OneMoreLeaf(a, x);
    EqualRoots(a, b);
    DepthIsCeilingOfLog(n + 1);
    SlotOfALeaf(n + 1, n);
    PastAnEvenEnd(n);
    assert a[Slot(n, n)] != x == b[Slot(n + 1, n)];
    assert Depth(n) == Depth(n + 1) ==> n < Pow2(Depth(n));
  }

  // Without the count a root does not fix the list: repeating the last leaf keeps the root exactly at the odd sizes.
  lemma {:induction false} RepeatedLastLeaf(a: seq<Hash>)
    requires a != [] && AllLeaves(a)
    requires forall i, j | 0 <= i < j < |a| :: a[i] != a[j]
    ensures Root(a + [a[|a| - 1]]) == Root(a) <==> |a| % 2 == 1 && |a| > 1
  {
    hide Slot;
    var x := a[|a| - 1];
    if |a| == 1 {
      assert Root(a + [x]) == Root(Paired(a + [x])) == NodeDigest(x, x);
    } else if |a| % 2 == 1 {
      RepeatedAfterOdd(a, x);
    } else {
      RepeatedAfterEven(a, x);
    }
  }

  /******* What an accepted proof fixes *******/

  lemma {:induction false} FoldLast(value: Hash, siblings: seq<Sibling>)
    requires siblings != []
    ensures Fold(value, siblings) == Combine(Fold(value, siblings[..|siblings| - 1]), siblings[|siblings| - 1])
    decreases siblings
  {
    var init := siblings[..|siblings| - 1];
    if |siblings| > 1 {
      FoldLast(Combine(value, siblings[0]), siblings[1..]);
      assert siblings[1..][..|siblings| - 2] == init[1..];
    }
  }

  // A leaf folded into a full tree went up through all its levels, past full subtrees.
  lemma {:induction false} FoldedLeaf(value: Hash, siblings: seq<Sibling>, r: nat)
    requires value.LeafDigest? && Full(Fold(value, siblings), r)
    ensures |siblings| == r
    ensures forall i | 0 <= i < r :: Full(siblings[i].hash, i)
    decreases |siblings|
  {
    if siblings != [] {
      FoldLast(value, siblings);
      var init := siblings[..|siblings| - 1];
      FoldedLeaf(value, init, r - 1);
      forall i | 0 <= i < r
        ensures Full(siblings[i].hash, i)
      {
        if i < r - 1 { assert siblings[i] == init[i]; }
      }
    }
  }

  lemma {:induction false} SlotStep(n: nat, k: nat, parent: nat)
    requires n > 1 && parent == Slot((n + 1) / 2, k / 2)
    ensures 2 * parent < n
    ensures Slot(n, k) == if 2 * parent + k % 2 < n then 2 * parent + k % 2 else 2 * parent
    ensures k < n ==> parent == k / 2
  {
    if k < n { SlotOfALeaf((n + 1) / 2, k / 2); }
  }

  // One level up: the parent found there says which child the value was and what stood beside it.
  lemma {:induction false} FoldedChild(hashes: seq<Hash>, value: Hash, s: Sibling, k: nat, parent: nat)
    requires |hashes| > 1 && 2 * parent < |hashes| && (k % 2 == 1 <==> s.side.Left?)
    requires Slot(|hashes|, k) == if 2 * parent + k % 2 < |hashes| then 2 * parent + k % 2 else 2 * parent
    requires k < |hashes| ==> parent == k / 2
    requires Combine(value, s) == NodeDigest(hashes[2 * parent], RightOf(hashes, parent))
    ensures value == hashes[Slot(|hashes|, k)]
    ensures k < |hashes| ==> s == SiblingAt(hashes, k)
  {
    hide Slot;
  }

  lemma {:induction false} FoldedBelow(hashes: seq<Hash>, value: Hash, siblings: seq<Sibling>)
    requires hashes != [] && |siblings| == Depth(|hashes|)
    requires Fold(value, siblings) == Root(hashes)
    ensures value == hashes[Slot(|hashes|, Digits(siblings))]
    ensures Digits(siblings) < |hashes| ==> siblings == Path(hashes, Digits(siblings))
    decreases |hashes|
  {
    hide RightOf, SiblingAt, Combine, Slot;
    if |hashes| > 1 {
      var rest, k := siblings[1..], Digits(siblings);
      FoldedBelow(Paired(hashes), Combine(value, siblings[0]), rest);
      assert k / 2 == Digits(rest);
      var parent := Slot((|hashes| + 1) / 2, k / 2);
      SlotStep(|hashes|, k, parent);
      assert Combine(value, siblings[0]) == NodeDigest(hashes[2 * parent], RightOf(hashes, parent));
      FoldedChild(hashes, value, siblings[0], k, parent);
      if k < |hashes| {
        assert siblings == [siblings[0]] + rest;
        assert Path(hashes, k) == [SiblingAt(hashes, k)] + Path(Paired(hashes), k / 2);
      }
    } else {
      assert Slot(|hashes|, Digits(siblings)) == 0;
    }
  }

  // A leaf-domain hash that folds to the root is the list's leaf at the place its sides spell, and when that
  // place is in range the siblings are the ones the builder lists: there is no other accepted proof.
  lemma {:induction false} AcceptedLeafIsCommitted(hashes: seq<Hash>, value: Hash, siblings: seq<Sibling>)
    requires hashes != [] && AllLeaves(hashes) && value.LeafDigest?
    requires Fold(value, siblings) == Root(hashes)
    ensures |siblings| == Depth(|hashes|)
    ensures value == hashes[Slot(|hashes|, Digits(siblings))] && value in hashes
    ensures Digits(siblings) < |hashes| ==> siblings == Path(hashes, Digits(siblings))
  {
    RootIsFull(hashes, 0);
    FoldedLeaf(value, siblings, Depth(|hashes|));
    FoldedBelow(hashes, value, siblings);
  }
}
