// checkpointPortfolio: one accrual per open position, applied in the fixed order of the position ids.
module Checkpoint {
  import opened Prelude
  import opened Ledger
  import opened Keyed
  import opened Positions
  import opened Frames
  import opened Redelivery
  import Accounting

  datatype Accrual = Accrual(positionId: Id, num: int, den: int, observedAt: Timestamp, source: SourceHash)

  // collate is the fixed total order localeCompare puts on ids, by its sort key; operationOf is the operation id
  // hashed from the checkpoint, the portfolio and the position.
  ghost predicate Names(collate: Id -> Text, operationOf: Id -> Id) {
    && (forall a, b :: collate(a) == collate(b) ==> a == b)
    && (forall a, b :: operationOf(a) == operationOf(b) ==> a == b)
  }

  function ReceiptFor(p: Portfolio, a: Accrual, operationOf: Id -> Id): Receipt {
    Receipt(operationOf(a.positionId), p.experimentId, p.scenarioId, p.version, a.observedAt, p.provenance, [a.source],
            Accrue(a.positionId, a.num, a.den, []))
  }

  function KeyedBy(collate: Id -> Text, accruals: seq<Accrual>): (entries: seq<Entry<Accrual>>)
    ensures |entries| == |accruals|
  {
    seq(|accruals|, i requires 0 <= i < |accruals| => Entry(collate(accruals[i].positionId), accruals[i]))
  }

  function InOrder(collate: Id -> Text, accruals: seq<Accrual>): (ordered: seq<Accrual>)
    ensures |ordered| == |accruals|
  {
    var sorted := Sort(KeyedBy(collate, accruals));
    seq(|sorted|, i requires 0 <= i < |sorted| => sorted[i].value)
  }

  ghost function AccrueAll(p: Portfolio, accruals: seq<Accrual>, operationOf: Id -> Id): Result<Portfolio> {
    if accruals == [] then Ok(p)
    else
      var earlier :- AccrueAll(p, accruals[..|accruals| - 1], operationOf);
      ApplyReceipt(earlier, ReceiptFor(earlier, accruals[|accruals| - 1], operationOf))
  }

  predicate OnePerPosition(positions: map<Id, Position>, accruals: seq<Accrual>) {
    |accruals| == |positions| && forall i | 0 <= i < |accruals| :: accruals[i].positionId in positions
  }

  ghost function CheckpointOf(p: Portfolio, accruals: seq<Accrual>,
      collate: Id -> Text, operationOf: Id -> Id): Result<Portfolio> {
    if !Valid(p) then Err(AccountingInvariant)
    else if !OnePerPosition(p.positions, accruals) then Err(DataUnavailable)
    else AccrueAll(p, InOrder(collate, accruals), operationOf)
  }

  lemma {:induction false} RefusalPersists(p: Portfolio, accruals: seq<Accrual>, operationOf: Id -> Id, n: nat)
    requires n <= |accruals| && AccrueAll(p, accruals[..n], operationOf).Err?
    ensures AccrueAll(p, accruals, operationOf) == Err(AccrueAll(p, accruals[..n], operationOf).code)
    decreases |accruals| - n
  {
    hide ApplyReceipt;
    if n < |accruals| {
      assert accruals[..n + 1][..n] == accruals[..n];
      RefusalPersists(p, accruals, operationOf, n + 1);
    } else {
      assert accruals[..n] == accruals;
    }
  }

  // The receipts come back in the order they were applied; the source hands back their hashes.
  method CheckpointPortfolio(p: Portfolio, accruals: seq<Accrual>, collate: Id -> Text, operationOf: Id -> Id)
    returns (result: Result<Portfolio>, receipts: seq<Receipt>)
    ensures result == CheckpointOf(p, accruals, collate, operationOf)
    ensures result.Ok? ==> |receipts| == |accruals| && Replay(p, receipts) == result
  {
    hide ApplyReceipt, Valid, Sort;
    receipts := [];
    var valid := Accounting.AssertPortfolio(p);
    if !valid { return Err(AccountingInvariant), []; }
    if !OnePerPosition(p.positions, accruals) { return Err(DataUnavailable), []; }
    var ordered := InOrder(collate, accruals);
    var portfolio := p;
    for i := 0 to |ordered|
      invariant AccrueAll(p, ordered[..i], operationOf) == Ok(portfolio)
      invariant |receipts| == i && Replay(p, receipts) == Ok(portfolio)
    {
      var receipt := ReceiptFor(portfolio, ordered[i], operationOf);
      assert ordered[..i + 1][..i] == ordered[..i];
      var next := Accounting.ApplyReceipt(portfolio, receipt);
      if next.Err? {
        RefusalPersists(p, ordered, operationOf, i + 1);
        return next, [];
      }
      portfolio := next.value;
      assert (receipts + [receipt])[..|receipts|] == receipts;
      receipts := receipts + [receipt];
    }
    assert ordered[..|ordered|] == ordered;
    result := Ok(portfolio);
  }

  /******* Input order does not matter *******/

  predicate DistinctPositions(accruals: seq<Accrual>) {
    forall i, j | 0 <= i < j < |accruals| :: accruals[i].positionId != accruals[j].positionId
  }

  lemma {:induction false} AnyInputOrder(p: Portfolio, a: seq<Accrual>, b: seq<Accrual>,
      collate: Id -> Text, operationOf: Id -> Id)
    requires Names(collate, operationOf) && DistinctPositions(a) && DistinctPositions(b) && |a| == |b|
    requires forall x | x in a :: x in b
    ensures CheckpointOf(p, a, collate, operationOf) == CheckpointOf(p, b, collate, operationOf)
  {
    hide Valid, Sort;
    var u, v := KeyedBy(collate, a), KeyedBy(collate, b);
    forall e | e in u
      ensures e in v
    {
      var i :| 0 <= i < |u| && u[i] == e;
      assert a[i] in b;
      var j :| 0 <= j < |b| && b[j] == a[i];
      assert v[j] == e;
    }
    SameEntriesSortAlike(u, v);
    if OnePerPosition(p.positions, b) {
      forall i | 0 <= i < |a|
        ensures a[i].positionId in p.positions
      {
        assert a[i] in b;
      }
    }
    if OnePerPosition(p.positions, a) {
      EveryOneIsListed(a, p.positions.Keys);
      var ids := set i | 0 <= i < |a| :: a[i].positionId;
      forall j | 0 <= j < |b|
        ensures b[j].positionId in p.positions
      {
        SameIds(a, b);
        assert b[j].positionId in ids;
      }
    }
  }

  // As many distinct ids as the set holds, all in it, are all of it.
  lemma {:induction false} EveryOneIsListed(accruals: seq<Accrual>, ids: set<Id>)
    requires DistinctPositions(accruals) && |accruals| == |ids|
    requires forall i | 0 <= i < |accruals| :: accruals[i].positionId in ids
    ensures ids == set i | 0 <= i < |accruals| :: accruals[i].positionId
    decreases |accruals|
  {
    if accruals != [] {
      var n := |accruals| - 1;
      var rest, id := accruals[..n], accruals[n].positionId;
      EveryOneIsListed(rest, ids - {id});
      assert ids == (ids - {id}) + {id};
      assert forall i | 0 <= i < n :: rest[i] == accruals[i];
    }
  }

  lemma {:induction false} SameIds(a: seq<Accrual>, b: seq<Accrual>)
    requires DistinctPositions(a) && DistinctPositions(b) && |a| == |b| && forall x | x in a :: x in b
    ensures forall j | 0 <= j < |b| :: exists i | 0 <= i < |a| :: a[i].positionId == b[j].positionId
  {
    var ids := set j | 0 <= j < |b| :: b[j].positionId;
    AsManyAs(b);
    forall i | 0 <= i < |a|
      ensures a[i].positionId in ids
    {
      assert a[i] in b;
    }
    EveryOneIsListed(a, ids);
    assert forall j | 0 <= j < |b| :: b[j].positionId in ids;
  }

  lemma {:induction false} AsManyAs(accruals: seq<Accrual>)
    requires DistinctPositions(accruals)
    ensures |set j | 0 <= j < |accruals| :: accruals[j].positionId| == |accruals|
  {
    var ids := set j | 0 <= j < |accruals| :: accruals[j].positionId;
    if accruals != [] {
      var n := |accruals| - 1;
      var rest := accruals[..n];
      AsManyAs(rest);
      var fewer := set j | 0 <= j < |rest| :: rest[j].positionId;
      assert ids == fewer + {accruals[n].positionId};
    } else {
      assert ids == {};
    }
  }

  /******* What a checkpoint does *******/

  // No operation of this checkpoint is in the history yet.
  predicate FreshOperations(p: Portfolio, accruals: seq<Accrual>, operationOf: Id -> Id) {
    forall i | 0 <= i < |accruals| :: !HasOperation(p.applied, operationOf(accruals[i].positionId))
  }

  // The total of the book changes, position by position.
  ghost function BookChange(p: Portfolio, q: Portfolio, accruals: seq<Accrual>): int {
    if accruals == [] then 0
    else
      var id := accruals[|accruals| - 1].positionId;
      BookChange(p, q, accruals[..|accruals| - 1]) + BookIn(q.positions, id) - BookIn(p.positions, id)
  }

  predicate Marked(p: Portfolio, q: Portfolio, a: Accrual) {
    && a.positionId in p.positions && a.positionId in q.positions
    && q.positions[a.positionId].shares == p.positions[a.positionId].shares
    && q.positions[a.positionId].indexNum == a.num && q.positions[a.positionId].indexDen == a.den
  }

  ghost predicate Checkpointed(p: Portfolio, q: Portfolio, accruals: seq<Accrual>, operationOf: Id -> Id) {
    && DistinctPositions(accruals)
    && (forall i | 0 <= i < |accruals| :: Marked(p, q, accruals[i]))
    && (forall id | Unnamed(accruals, id) :: SameAt(p.positions, q.positions, id))
    && q.version == p.version + |accruals|
    && q.pnl == p.pnl + BookChange(p, q, accruals)
    && (forall i | 0 <= i < |accruals| :: HasOperation(q.applied, operationOf(accruals[i].positionId)))
    && p.applied <= q.applied
    && (forall k | |p.applied| <= k < |q.applied| :: q.applied[k].receipt.expectedVersion < q.version)
  }

  // A second accrual of a position carries a used operation id and a different version, so it is refused.
  lemma {:induction false} SecondAccrualRefused(p: Portfolio, a: Accrual, operationOf: Id -> Id)
    requires Valid(p) && HasOperation(p.applied, operationOf(a.positionId))
    requires forall i | 0 <= i < |p.applied| && p.applied[i].receipt.operationId == operationOf(a.positionId) ::
               p.applied[i].receipt.expectedVersion != p.version
    ensures ApplyReceipt(p, ReceiptFor(p, a, operationOf)).Err?
  {
    hide Valid, Effect;
    var r := ReceiptFor(p, a, operationOf);
    var found := FindApplied(p.applied, r.operationId);
    assert found.Some?;
  }

  lemma {:induction false} AccrualStep(p: Portfolio, a: Accrual, operationOf: Id -> Id, q: Portfolio)
    requires ApplyReceipt(p, ReceiptFor(p, a, operationOf)) == Ok(q)
    requires !HasOperation(p.applied, operationOf(a.positionId))
    ensures Marked(p, q, a) && q.version == p.version + 1
    ensures q.pnl == p.pnl + BookIn(q.positions, a.positionId) - BookIn(p.positions, a.positionId)
    ensures forall id | id != a.positionId :: SameAt(p.positions, q.positions, id)
    ensures q.applied == p.applied + [Applied(ReceiptFor(p, a, operationOf), q.version)]
  {
    hide ApplyReceipt, Valid, Effect;
    var r := ReceiptFor(p, a, operationOf);
    assert !InHistory(p, r);
    StepShape(p, r, q);
    PositionStep(p, r, q, a.positionId);
    forall id | id != a.positionId
      ensures SameAt(p.positions, q.positions, id)
    {
      PositionStep(p, r, q, id);
    }
  }

  lemma {:induction false} BookChangeFrame(p: Portfolio, m: Portfolio, q: Portfolio, accruals: seq<Accrual>)
    requires forall i | 0 <= i < |accruals| :: SameAt(m.positions, q.positions, accruals[i].positionId)
    ensures BookChange(p, m, accruals) == BookChange(p, q, accruals)
  {
    if accruals != [] {
      var init := accruals[..|accruals| - 1];
      assert forall i | 0 <= i < |init| :: init[i] == accruals[i];
      BookChangeFrame(p, m, q, init);
    }
  }

  // What one more accrual leaves of the positions, on either side of it.
  ghost predicate Stepped(m: Portfolio, q: Portfolio, a: Accrual) {
    && Marked(m, q, a)
    && q.pnl == m.pnl + BookIn(q.positions, a.positionId) - BookIn(m.positions, a.positionId)
    && forall id | id != a.positionId :: SameAt(m.positions, q.positions, id)
  }

  predicate Unnamed(accruals: seq<Accrual>, id: Id) {
    forall i | 0 <= i < |accruals| :: accruals[i].positionId != id
  }

  lemma {:induction false} MarksStay(p: Portfolio, m: Portfolio, init: seq<Accrual>, a: Accrual, q: Portfolio)
    requires forall i | 0 <= i < |init| :: Marked(p, m, init[i])
    requires forall id | Unnamed(init, id) :: SameAt(p.positions, m.positions, id)
    requires Unnamed(init, a.positionId) && Stepped(m, q, a)
    ensures forall i | 0 <= i < |init + [a]| :: Marked(p, q, (init + [a])[i])
    ensures forall id | Unnamed(init + [a], id) :: SameAt(p.positions, q.positions, id)
    ensures BookChange(p, q, init + [a]) == BookChange(p, m, init) + (q.pnl - m.pnl)
  {
    var all := init + [a];
    assert forall i | 0 <= i < |init| :: all[i] == init[i];
    assert all[|init|] == a;
    assert SameAt(p.positions, m.positions, a.positionId);
    forall i | 0 <= i < |init|
      ensures Marked(p, q, init[i]) && SameAt(m.positions, q.positions, init[i].positionId)
    {
      assert Marked(p, m, init[i]) && SameAt(m.positions, q.positions, init[i].positionId);
    }
    forall id | Unnamed(all, id)
      ensures SameAt(p.positions, q.positions, id)
    {
      assert id != a.positionId by { assert all[|init|].positionId != id; }
      assert Unnamed(init, id) by { assert forall i | 0 <= i < |init| :: all[i].positionId != id; }
      assert SameAt(p.positions, m.positions, id) && SameAt(m.positions, q.positions, id);
    }
    BookChangeFrame(p, m, q, init);
    assert all[..|all| - 1] == init;
  }

  lemma {:induction false} OperationsStay(p: Portfolio, m: Portfolio, init: seq<Accrual>, a: Accrual,
      operationOf: Id -> Id, q: Portfolio)
    requires forall i | 0 <= i < |init| :: HasOperation(m.applied, operationOf(init[i].positionId))
    requires p.applied <= m.applied
    requires forall k | |p.applied| <= k < |m.applied| :: m.applied[k].receipt.expectedVersion < m.version
    requires q.version == m.version + 1 && q.applied == m.applied + [Applied(ReceiptFor(m, a, operationOf), q.version)]
    ensures forall i | 0 <= i < |init + [a]| :: HasOperation(q.applied, operationOf((init + [a])[i].positionId))
    ensures p.applied <= q.applied
    ensures forall k | |p.applied| <= k < |q.applied| :: q.applied[k].receipt.expectedVersion < q.version
  {
    var all := init + [a];
    forall i | 0 <= i < |all|
      ensures HasOperation(q.applied, operationOf(all[i].positionId))
    {
      if i < |init| {
        KeepsOperation(m.applied, q.applied, operationOf(init[i].positionId));
      } else {
        assert q.applied[|m.applied|].receipt.operationId == operationOf(a.positionId);
      }
    }
  }

  // Going on from m with an accrual of a position not yet accrued.
  lemma {:induction false} OneMoreAccrual(p: Portfolio, m: Portfolio, init: seq<Accrual>, a: Accrual,
      operationOf: Id -> Id, q: Portfolio)
    requires Checkpointed(p, m, init, operationOf)
    requires !HasOperation(m.applied, operationOf(a.positionId))
    requires ApplyReceipt(m, ReceiptFor(m, a, operationOf)) == Ok(q)
    ensures Checkpointed(p, q, init + [a], operationOf)
  {
    hide ApplyReceipt, Marked, SameAt, BookChange;
    AccrualStep(m, a, operationOf, q);
    forall i | 0 <= i < |init|
      ensures init[i].positionId != a.positionId
    {
      assert HasOperation(m.applied, operationOf(init[i].positionId));
    }
    hide HasOperation;
    MarksStay(p, m, init, a, q);
    OperationsStay(p, m, init, a, operationOf, q);
  }

  lemma {:induction false} KeepsOperation(a: seq<Applied>, b: seq<Applied>, op: Id)
    requires a <= b && HasOperation(a, op)
    ensures HasOperation(b, op)
  {
    var i :| 0 <= i < |a| && a[i].receipt.operationId == op;
    assert b[i] == a[i];
  }

  // Accepted accruals name each position once and move nothing but indexes, books and modelled PnL.
  lemma {:induction false} AccrualsCheckpoint(p: Portfolio, accruals: seq<Accrual>, operationOf: Id -> Id, q: Portfolio)
    requires Valid(p) && FreshOperations(p, accruals, operationOf)
    requires AccrueAll(p, accruals, operationOf) == Ok(q)
    ensures Checkpointed(p, q, accruals, operationOf) && Valid(q)
  {
    hide ApplyReceipt, Valid, Checkpointed;
    if accruals == [] {
      NothingAccrued(p, operationOf);
    } else {
      var init, a := accruals[..|accruals| - 1], accruals[|accruals| - 1];
      var m := AccrueAll(p, init, operationOf).value;
      assert FreshOperations(p, init, operationOf) by { assert forall i | 0 <= i < |init| :: init[i] == accruals[i]; }
      AccrualsCheckpoint(p, init, operationOf, m);
      StepKeepsHistory(m, ReceiptFor(m, a, operationOf), q);
      NotUsedYet(p, m, init, a, operationOf);
      OneMoreAccrual(p, m, init, a, operationOf, q);
      assert accruals == init + [a];
    }
  }

  lemma NothingAccrued(p: Portfolio, operationOf: Id -> Id)
    ensures Checkpointed(p, p, [], operationOf)
  {
  }

  lemma {:induction false} NotUsedYet(p: Portfolio, m: Portfolio, init: seq<Accrual>, a: Accrual, operationOf: Id -> Id)
    requires Valid(m) && Checkpointed(p, m, init, operationOf) && !HasOperation(p.applied, operationOf(a.positionId))
    requires ApplyReceipt(m, ReceiptFor(m, a, operationOf)).Ok?
    ensures !HasOperation(m.applied, operationOf(a.positionId))
  {
    hide ApplyReceipt, Valid, BookChange;
    assert forall i | 0 <= i < |p.applied| :: p.applied[i] == m.applied[i];
    if HasOperation(m.applied, operationOf(a.positionId)) {
      forall i | 0 <= i < |m.applied| && m.applied[i].receipt.operationId == operationOf(a.positionId)
        ensures m.applied[i].receipt.expectedVersion != m.version
      {
      }
      SecondAccrualRefused(m, a, operationOf);
    }
  }

  // A fresh checkpoint that is accepted marks every open position at its new index, touches no other collection of
  // positions, advances the version by one per position and moves modelled PnL by the total book change.
  lemma {:induction false} CheckpointMarksEveryPosition(p: Portfolio, accruals: seq<Accrual>,
      collate: Id -> Text, operationOf: Id -> Id, q: Portfolio)
    requires CheckpointOf(p, accruals, collate, operationOf) == Ok(q)
    requires FreshOperations(p, accruals, operationOf)
    ensures DistinctPositions(accruals)
    ensures forall i | 0 <= i < |accruals| :: Marked(p, q, accruals[i])
    ensures q.positions.Keys == p.positions.Keys
    ensures q.version == p.version + |p.positions|
    ensures q.pnl == p.pnl + BookChange(p, q, InOrder(collate, accruals))
  {
    hide ApplyReceipt, Valid, Sort, BookChange, Marked;
    var ordered := InOrder(collate, accruals);
    Reordered(collate, accruals);
    forall i | 0 <= i < |ordered|
      ensures !HasOperation(p.applied, operationOf(ordered[i].positionId))
    {
      assert ordered[i] in accruals;
    }
    AccrualsCheckpoint(p, ordered, operationOf, q);
    forall i | 0 <= i < |accruals|
      ensures Marked(p, q, accruals[i])
    {
      assert accruals[i] in ordered;
    }
    DistinctEitherWay(collate, accruals);
    forall id
      ensures id in q.positions <==> id in p.positions
    {
      if exists i | 0 <= i < |ordered| :: ordered[i].positionId == id {
        var i :| 0 <= i < |ordered| && ordered[i].positionId == id;
        assert Marked(p, q, ordered[i]);
        MarkedInBoth(p, q, ordered[i]);
      } else {
        assert Unnamed(ordered, id);
        assert SameAt(p.positions, q.positions, id);
      }
    }
    assert p.positions.Keys == q.positions.Keys;
  }

  lemma MarkedInBoth(p: Portfolio, q: Portfolio, a: Accrual)
    requires Marked(p, q, a)
    ensures a.positionId in p.positions && a.positionId in q.positions
  {
  }

  lemma {:induction false} Reordered(collate: Id -> Text, accruals: seq<Accrual>)
    ensures forall x <- InOrder(collate, accruals) :: x in accruals
    ensures forall x <- accruals :: x in InOrder(collate, accruals)
  {
    hide Sort;
    var entries, ordered := KeyedBy(collate, accruals), InOrder(collate, accruals);
    var sorted := Sort(entries);
    SortKeeps(entries);
    forall x <- ordered
      ensures x in accruals
    {
      var i :| 0 <= i < |ordered| && ordered[i] == x;
      assert sorted[i] in sorted;
      assert sorted[i] in entries;
      var j :| 0 <= j < |entries| && entries[j] == sorted[i];
    }
    forall x <- accruals
      ensures x in ordered
    {
      var j :| 0 <= j < |accruals| && accruals[j] == x;
      assert entries[j] in entries;
      assert entries[j] in sorted;
      var i :| 0 <= i < |sorted| && sorted[i] == entries[j];
      assert ordered[i] == x;
    }
  }

  // The ordered list has as many distinct ids as the input has, so the input repeats none either.
  lemma {:induction false} DistinctEitherWay(collate: Id -> Text, accruals: seq<Accrual>)
    requires DistinctPositions(InOrder(collate, accruals))
    ensures DistinctPositions(accruals)
  {
    hide Sort, InOrder;
    var ordered := InOrder(collate, accruals);
    Reordered(collate, accruals);
    AsManyAs(ordered);
    var ids := set j | 0 <= j < |accruals| :: accruals[j].positionId;
    var same := set j | 0 <= j < |ordered| :: ordered[j].positionId;
    forall j | 0 <= j < |ordered|
      ensures ordered[j].positionId in ids
    {
      assert ordered[j] in accruals;
    }
    FewerWhenRepeated(accruals);
    assert same <= ids;
    Subset(same, ids);
  }

  lemma {:induction false} Subset(a: set<Id>, b: set<Id>)
    requires a <= b
    ensures |a| <= |b|
  {
    assert b == a + (b - a);
  }

  lemma {:induction false} FewerWhenRepeated(accruals: seq<Accrual>)
    ensures |set j | 0 <= j < |accruals| :: accruals[j].positionId| <= |accruals|
    ensures |set j | 0 <= j < |accruals| :: accruals[j].positionId| == |accruals| ==> DistinctPositions(accruals)
  {
    var ids := set j | 0 <= j < |accruals| :: accruals[j].positionId;
    if accruals == [] {
      assert ids == {};
    } else {
      var n := |accruals| - 1;
      var rest, id := accruals[..n], accruals[n].positionId;
      FewerWhenRepeated(rest);
      var fewer := set j | 0 <= j < |rest| :: rest[j].positionId;
      assert ids == fewer + {id};
      assert forall i | 0 <= i < n :: rest[i] == accruals[i];
      if |ids| == |accruals| {
        assert id !in fewer;
        forall i | 0 <= i < n
          ensures accruals[i].positionId != id
        {
          assert rest[i].positionId in fewer;
        }
      }
    }
  }
}
