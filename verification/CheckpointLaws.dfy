// Exactly when a checkpoint is taken, and what it leaves.
module CheckpointLaws {
  import opened Prelude
  import opened Ledger
  import opened Keyed
  import opened Frames
  import opened Closing
  import opened Redelivery
  import opened Checkpoint
  import N = AaveAcceptance
  import T = AaveTrip
  import R = AaveRoundTrip
  import Postings
  import Refusals

  // The book a position gets, and what that adds to the one it has.
  function BookAt(p: Portfolio, a: Accrual): int
    requires a.positionId in p.positions && 0 < a.den
  {
    p.positions[a.positionId].shares * a.num / a.den
  }

  function GainOf(p: Portfolio, a: Accrual): int {
    if a.positionId in p.positions && 0 < a.den then BookAt(p, a) - p.positions[a.positionId].book else 0
  }

  function Gains(p: Portfolio, accruals: seq<Accrual>): int {
    if accruals == [] then 0
    else Gains(p, accruals[..|accruals| - 1]) + GainOf(p, accruals[|accruals| - 1])
  }

  // The accrual is of an open position, newer than its last observation, at an index that gives a book in range.
  predicate AccrualFits(p: Portfolio, a: Accrual) {
    && a.positionId in p.positions && IsPositiveUInt(a.num) && IsPositiveUInt(a.den)
    && p.positions[a.positionId].lastObservedAt < a.observedAt && IsUInt(BookAt(p, a))
  }

  predicate AllFit(p: Portfolio, accruals: seq<Accrual>) {
    forall i | 0 <= i < |accruals| :: AccrualFits(p, accruals[i])
  }

  // No accrual was observed before the one it follows, nor the first before the portfolio's last receipt.
  predicate TimesAscend(last: Option<Timestamp>, accruals: seq<Accrual>) {
    && (accruals != [] && last.Some? ==> last.value <= accruals[0].observedAt)
    && forall i | 0 < i < |accruals| :: accruals[i - 1].observedAt <= accruals[i].observedAt
  }

  // After each accrual the gains so far leave modelled PnL in range and the portfolio solvent.
  ghost predicate StaysSolvent(p: Portfolio, accruals: seq<Accrual>) {
    forall n | 0 < n <= |accruals| ::
      IsInt256(p.pnl + Gains(p, accruals[..n])) && 0 <= NetValue(p) + Gains(p, accruals[..n])
  }

  predicate OpenFor(p: Portfolio, accruals: seq<Accrual>) {
    accruals != [] ==> p.closedAt.None? && IsUInt(p.version + |accruals|)
  }

  ghost predicate Fits(p: Portfolio, accruals: seq<Accrual>) {
    && OpenFor(p, accruals) && AllFit(p, accruals) && TimesAscend(p.lastAppliedAt, accruals)
    && StaysSolvent(p, accruals)
  }

  predicate NamedIn(accruals: seq<Accrual>, operationOf: Id -> Id, op: Id) {
    exists i | 0 <= i < |accruals| :: operationOf(accruals[i].positionId) == op
  }

  // The header after these accruals.
  ghost predicate HeaderAfter(p: Portfolio, m: Portfolio, accruals: seq<Accrual>, operationOf: Id -> Id) {
    && m.experimentId == p.experimentId && m.scenarioId == p.scenarioId && m.provenance == p.provenance
    && m.closedAt == p.closedAt && m.version == p.version + |accruals|
    && m.lastAppliedAt == (if accruals == [] then p.lastAppliedAt else Some(accruals[|accruals| - 1].observedAt))
    && m.applied == p.applied + Entries(p, accruals, operationOf)
    && forall op :: HasOperation(m.applied, op) <==> HasOperation(p.applied, op) || NamedIn(accruals, operationOf, op)
  }

  // The position an accrual leaves: its shares at the new index, from the accrual's own source and time.
  predicate MarkedAt(p: Portfolio, m: Portfolio, a: Accrual) {
    && a.positionId in p.positions && a.positionId in m.positions && 0 < a.den
    && var x := p.positions[a.positionId];
    m.positions[a.positionId] == Position(x.networkId, x.instrumentId, x.assetId, x.shares, a.num, a.den,
                                          x.shares * a.num / a.den, x.shares * a.num % a.den, a.source, a.observedAt)
  }

  // The books after these accruals: named positions are marked and all others are as they were.
  ghost predicate BooksAfter(p: Portfolio, m: Portfolio, accruals: seq<Accrual>) {
    && m.pnl == p.pnl + Gains(p, accruals) && NetValue(m) == NetValue(p) + Gains(p, accruals)
    && (forall i | 0 <= i < |accruals| :: MarkedAt(p, m, accruals[i]))
    && forall id | Unnamed(accruals, id) :: SameAt(p.positions, m.positions, id)
  }

  // What the accruals add to the history, from this version on.
  function Entries(p: Portfolio, accruals: seq<Accrual>, operationOf: Id -> Id): seq<Applied> {
    seq(|accruals|, i requires 0 <= i < |accruals| =>
      var a := accruals[i];
      Applied(Receipt(operationOf(a.positionId), p.experimentId, p.scenarioId, p.version + i, a.observedAt,
                      p.provenance, [a.source], Accrue(a.positionId, a.num, a.den, [])), p.version + i + 1))
  }

  ghost predicate After(p: Portfolio, m: Portfolio, accruals: seq<Accrual>, operationOf: Id -> Id) {
    && Valid(m) && StartsEmpty(m) && HeaderAfter(p, m, accruals, operationOf) && BooksAfter(p, m, accruals)
  }

  // The conditions for one accrual more.
  lemma {:induction false} FitsOneMore(p: Portfolio, accruals: seq<Accrual>)
    requires accruals != [] && IsUInt(p.version)
    ensures var n := |accruals| - 1;
            var a, init := accruals[n], accruals[..n];
            Fits(p, accruals) <==>
              && Fits(p, init) && p.closedAt.None? && IsUInt(p.version + |accruals|) && AccrualFits(p, a)
              && (if init == [] then p.lastAppliedAt.Some? ==> p.lastAppliedAt.value <= a.observedAt
                  else init[n - 1].observedAt <= a.observedAt)
              && IsInt256(p.pnl + Gains(p, accruals)) && 0 <= NetValue(p) + Gains(p, accruals)
  {
    hide NetValue, AccrualFits, Gains;
    var n := |accruals| - 1;
    var init := accruals[..n];
    assert accruals[..|accruals|] == accruals;
    assert forall i | 0 <= i < n :: init[i] == accruals[i];
    assert forall k | 0 < k <= n :: init[..k] == accruals[..k];
    assert Fits(p, accruals) ==> Fits(p, init) by {
      if Fits(p, accruals) {
        forall k | 0 < k <= n
          ensures IsInt256(p.pnl + Gains(p, init[..k])) && 0 <= NetValue(p) + Gains(p, init[..k])
        {
          assert init[..k] == accruals[..k];
        }
      }
    }
  }

  /******* One accrual *******/

  predicate IsOnTime(m: Portfolio, a: Accrual) {
    m.closedAt.None? && (m.lastAppliedAt.Some? ==> m.lastAppliedAt.value <= a.observedAt)
  }

  lemma {:induction false} NextAccrual(m: Portfolio, a: Accrual, operationOf: Id -> Id)
    requires Valid(m) && StartsEmpty(m) && !HasOperation(m.applied, operationOf(a.positionId))
    ensures var r := ReceiptFor(m, a, operationOf);
            && (ApplyReceipt(m, r).Ok? ==> IsOnTime(m, a) && IsPositiveUInt(a.num) && IsPositiveUInt(a.den)
                                           && IsUInt(m.version + 1))
            && (IsOnTime(m, a) && IsPositiveUInt(a.num) && IsPositiveUInt(a.den) && IsUInt(m.version + 1) ==>
                  N.Next(m, r))
  {
    hide Valid, StartsEmpty, HasOperation, Effect;
    var r := ReceiptFor(m, a, operationOf);
    assert r.body.Costs() == [];
    assert IsUInt(m.version) by { VersionInRange(m); }
    if ApplyReceipt(m, r).Ok? {
      R.NotInHistory(m, r);
      StepShape(m, r, ApplyReceipt(m, r).value);
      VersionInRange(ApplyReceipt(m, r).value);
    }
  }

  lemma VersionInRange(m: Portfolio)
    requires Valid(m)
    ensures IsUInt(m.version)
  {
  }

  // After the accruals before it, one more is taken exactly when it comes in order, fits its position and leaves the
  // totals in range.
  lemma {:induction false} OneMoreTaken(p: Portfolio, m: Portfolio, init: seq<Accrual>, a: Accrual,
      operationOf: Id -> Id)
    requires After(p, m, init, operationOf) && Unnamed(init, a.positionId)
    requires !HasOperation(m.applied, operationOf(a.positionId))
    ensures ApplyReceipt(m, ReceiptFor(m, a, operationOf)).Ok? <==>
              && IsOnTime(m, a) && IsUInt(m.version + 1) && AccrualFits(p, a)
              && IsInt256(m.pnl + GainOf(p, a)) && 0 <= NetValue(m) + GainOf(p, a)
  {
    hide Valid, StartsEmpty, HasOperation, Effect, NetValue, HeaderAfter, N.Next, ApplyReceipt, Gains;
    NextAccrual(m, a, operationOf);
    var r := ReceiptFor(m, a, operationOf);
    assert SameAt(p.positions, m.positions, a.positionId);
    if IsOnTime(m, a) && IsPositiveUInt(a.num) && IsPositiveUInt(a.den) && IsUInt(m.version + 1) {
      N.AccrualTaken(m, r);
      if a.positionId in m.positions {
        BookIsFloor(m, a, r);
      }
    }
  }

  lemma BookIsFloor(m: Portfolio, a: Accrual, r: Receipt)
    requires a.positionId in m.positions && 0 < a.den && r.body == Accrue(a.positionId, a.num, a.den, [])
    ensures N.AccruedBook(m, r) == BookAt(m, a)
  {
  }

  lemma {:induction false} OneMoreAfter(p: Portfolio, m: Portfolio, init: seq<Accrual>, a: Accrual,
      operationOf: Id -> Id, q: Portfolio)
    requires After(p, m, init, operationOf) && Unnamed(init, a.positionId)
    requires !HasOperation(m.applied, operationOf(a.positionId))
    requires ApplyReceipt(m, ReceiptFor(m, a, operationOf)) == Ok(q)
    ensures After(p, q, init + [a], operationOf)
  {
    hide Valid, StartsEmpty, HasOperation, Effect, NetValue, N.Next, ApplyReceipt, HeaderAfter, BooksAfter;
    NextAccrual(m, a, operationOf);
    var r := ReceiptFor(m, a, operationOf);
    T.NextReached(m, r, q);
    Postings.EveryEntryIsPosted(m, r, q);
    HeaderMoves(p, m, init, a, operationOf, q);
    BooksMove(p, m, init, a, operationOf, q);
  }

  lemma {:induction false} HeaderMoves(p: Portfolio, m: Portfolio, init: seq<Accrual>, a: Accrual,
      operationOf: Id -> Id, q: Portfolio)
    requires HeaderAfter(p, m, init, operationOf)
    requires T.Reached(m, q, 1, a.observedAt, {operationOf(a.positionId)}, 0)
    requires q.applied == m.applied + [Applied(ReceiptFor(m, a, operationOf), m.version + 1)]
    ensures HeaderAfter(p, q, init + [a], operationOf)
  {
    hide Valid, StartsEmpty, HasOperation, NetValue;
    var all := init + [a];
    assert Entries(p, all, operationOf)
        == Entries(p, init, operationOf) + [Applied(ReceiptFor(m, a, operationOf), m.version + 1)];
    forall op
      ensures NamedIn(all, operationOf, op) <==> NamedIn(init, operationOf, op) || op == operationOf(a.positionId)
    {
      assert all[|init|] == a;
      if NamedIn(init, operationOf, op) {
        var i :| 0 <= i < |init| && operationOf(init[i].positionId) == op;
        assert all[i] == init[i];
      }
    }
  }

  lemma {:induction false} BooksMove(p: Portfolio, m: Portfolio, init: seq<Accrual>, a: Accrual,
      operationOf: Id -> Id, q: Portfolio)
    requires BooksAfter(p, m, init) && Unnamed(init, a.positionId)
    requires Postings.PositionPosted(m, ReceiptFor(m, a, operationOf), q.positions)
    requires q.pnl == m.pnl + PnlChange(m, ReceiptFor(m, a, operationOf))
    requires NetValue(q) == NetValue(m) + (q.pnl - m.pnl)
    ensures BooksAfter(p, q, init + [a])
  {
    hide NetValue, PnlChange, Gains, GainOf, Postings.PositionPosted;
    assert SameAt(p.positions, m.positions, a.positionId);
    GainsMove(p, m, init, a, operationOf);
    PositionMoves(m, a, operationOf, q);
    var all := init + [a];
    forall i | 0 <= i < |all|
      ensures MarkedAt(p, q, all[i])
    {
      if i < |init| {
        assert MarkedAt(p, m, init[i]) && init[i].positionId != a.positionId;
        assert SameAt(m.positions, q.positions, init[i].positionId);
      }
    }
    forall id | Unnamed(all, id)
      ensures SameAt(p.positions, q.positions, id)
    {
      assert all[|init|].positionId != id;
      forall i | 0 <= i < |init|
        ensures init[i].positionId != id
      {
        assert all[i].positionId != id;
      }
      assert Unnamed(init, id) && SameAt(p.positions, m.positions, id);
      assert SameAt(m.positions, q.positions, id);
    }
  }

  lemma {:induction false} GainsMove(p: Portfolio, m: Portfolio, init: seq<Accrual>, a: Accrual, operationOf: Id -> Id)
    requires SameAt(p.positions, m.positions, a.positionId)
    ensures Gains(p, init + [a]) == Gains(p, init) + PnlChange(m, ReceiptFor(m, a, operationOf))
  {
    var all := init + [a];
    assert all[..|all| - 1] == init && all[|all| - 1] == a;
    hide BookOf;
    if a.positionId in m.positions && 0 < a.den {
      BookIsFloor(m, a, ReceiptFor(m, a, operationOf));
    }
  }

  lemma {:induction false} PositionMoves(m: Portfolio, a: Accrual, operationOf: Id -> Id, q: Portfolio)
    requires Postings.PositionPosted(m, ReceiptFor(m, a, operationOf), q.positions)
    ensures forall id | id != a.positionId :: SameAt(m.positions, q.positions, id)
    ensures MarkedAt(m, q, a)
  {
  }

  /******* All of them *******/

  // One accrual after those that were taken.
  lemma {:induction false} OneMoreStep(p: Portfolio, m: Portfolio, init: seq<Accrual>, a: Accrual,
      operationOf: Id -> Id)
    requires After(p, m, init, operationOf) && Fits(p, init) && IsUInt(p.version)
    requires Unnamed(init, a.positionId) && !HasOperation(p.applied, operationOf(a.positionId))
    requires forall x, y :: operationOf(x) == operationOf(y) ==> x == y
    ensures var told := ApplyReceipt(m, ReceiptFor(m, a, operationOf));
            && (told.Ok? <==> Fits(p, init + [a]))
            && (told.Ok? ==> After(p, told.value, init + [a], operationOf))
  {
    hide Valid, StartsEmpty, ApplyReceipt, Fits, After, NetValue, HasOperation, Gains, GainOf, IsOnTime, AccrualFits;
    hide ReceiptFor, NamedIn, Unnamed;
    var all := init + [a];
    assert all[..|all| - 1] == init && all[|all| - 1] == a;
    FitsOneMore(p, all);
    NotYetNamed(p, m, init, a, operationOf);
    OneMoreTaken(p, m, init, a, operationOf);
    HeaderBefore(p, m, init, a, operationOf);
    var told := ApplyReceipt(m, ReceiptFor(m, a, operationOf));
    if told.Ok? {
      OneMoreAfter(p, m, init, a, operationOf, told.value);
    }
  }

  // Accruals of distinct positions, in the order they are applied.
  lemma {:induction false} AccrualsTaken(p: Portfolio, accruals: seq<Accrual>, operationOf: Id -> Id)
    requires Valid(p) && StartsEmpty(p) && DistinctPositions(accruals) && FreshOperations(p, accruals, operationOf)
    requires forall a, b :: operationOf(a) == operationOf(b) ==> a == b
    ensures AccrueAll(p, accruals, operationOf).Ok? <==> Fits(p, accruals)
    ensures AccrueAll(p, accruals, operationOf).Ok? ==>
              After(p, AccrueAll(p, accruals, operationOf).value, accruals, operationOf)
  {
    hide Valid, StartsEmpty, ApplyReceipt, Fits, After, NetValue, HasOperation;
    SoundTotals(p);
    if accruals == [] {
      NothingFits(p);
      NothingAfter(p, operationOf);
    } else {
      var n := |accruals| - 1;
      var init, a := accruals[..n], accruals[n];
      assert forall i | 0 <= i < n :: init[i] == accruals[i];
      assert accruals == init + [a];
      AccrualsTaken(p, init, operationOf);
      if AccrueAll(p, init, operationOf).Ok? {
        OneMoreStep(p, AccrueAll(p, init, operationOf).value, init, a, operationOf);
      } else {
        FitsOneMore(p, accruals);
      }
    }
  }

  lemma SoundTotals(p: Portfolio)
    requires Valid(p)
    ensures 0 <= NetValue(p) && IsInt256(p.pnl) && IsUInt(p.version)
  {
  }

  lemma NothingFits(p: Portfolio)
    ensures Fits(p, [])
  {
  }

  lemma {:induction false} NothingAfter(p: Portfolio, operationOf: Id -> Id)
    requires Valid(p) && StartsEmpty(p)
    ensures After(p, p, [], operationOf)
  {
    hide Valid, StartsEmpty;
  }

  lemma {:induction false} NotYetNamed(p: Portfolio, m: Portfolio, init: seq<Accrual>, a: Accrual,
      operationOf: Id -> Id)
    requires After(p, m, init, operationOf) && Unnamed(init, a.positionId)
    requires forall x, y :: operationOf(x) == operationOf(y) ==> x == y
    requires !HasOperation(p.applied, operationOf(a.positionId))
    ensures !HasOperation(m.applied, operationOf(a.positionId))
  {
    hide Valid, StartsEmpty, HasOperation, BooksAfter;
    forall i | 0 <= i < |init|
      ensures operationOf(init[i].positionId) != operationOf(a.positionId)
    {
      assert init[i].positionId != a.positionId;
    }
  }

  // What the state before an accrual says about its conditions.
  lemma {:induction false} HeaderBefore(p: Portfolio, m: Portfolio, init: seq<Accrual>, a: Accrual,
      operationOf: Id -> Id)
    requires After(p, m, init, operationOf)
    ensures m.version == p.version + |init| && m.closedAt == p.closedAt
    ensures m.pnl + GainOf(p, a) == p.pnl + Gains(p, init + [a])
    ensures NetValue(m) + GainOf(p, a) == NetValue(p) + Gains(p, init + [a])
    ensures IsOnTime(m, a) <==>
              p.closedAt.None? && if init == [] then p.lastAppliedAt.Some? ==> p.lastAppliedAt.value <= a.observedAt
                                  else init[|init| - 1].observedAt <= a.observedAt
  {
    hide Valid, StartsEmpty, HasOperation, NetValue;
    var all := init + [a];
    assert all[..|all| - 1] == init && all[|all| - 1] == a;
  }

  lemma {:induction false} FreshInOrder(p: Portfolio, accruals: seq<Accrual>, ordered: seq<Accrual>,
      operationOf: Id -> Id)
    requires FreshOperations(p, accruals, operationOf) && forall x <- ordered :: x in accruals
    ensures FreshOperations(p, ordered, operationOf)
  {
    hide HasOperation;
    forall i | 0 <= i < |ordered|
      ensures !HasOperation(p.applied, operationOf(ordered[i].positionId))
    {
      assert ordered[i] in accruals;
    }
  }

  lemma {:induction false} DistinctInOrder(collate: Id -> Text, accruals: seq<Accrual>)
    requires DistinctPositions(accruals)
    ensures DistinctPositions(InOrder(collate, accruals))
  {
    hide Sort, InOrder;
    var ordered := InOrder(collate, accruals);
    Reordered(collate, accruals);
    AsManyAs(accruals);
    FewerWhenRepeated(ordered);
    var ids := set j | 0 <= j < |accruals| :: accruals[j].positionId;
    var same := set j | 0 <= j < |ordered| :: ordered[j].positionId;
    forall j | 0 <= j < |accruals|
      ensures accruals[j].positionId in same
    {
      assert accruals[j] in ordered;
    }
    assert ids <= same;
    Subset(ids, same);
  }

  lemma {:induction false} ForeignAccrual(positions: map<Id, Position>, accruals: seq<Accrual>)
    ensures OnePerPosition(positions, accruals) <==>
              |accruals| == |positions| && forall a :: a in accruals ==> a.positionId in positions
  {
    if OnePerPosition(positions, accruals) {
      forall a | a in accruals
        ensures a.positionId in positions
      {
        var i :| 0 <= i < |accruals| && accruals[i] == a;
      }
    }
  }

  // A refused accrual is never answered as missing data.
  lemma {:induction false} AccrualRefusals(p: Portfolio, accruals: seq<Accrual>, operationOf: Id -> Id)
    ensures AccrueAll(p, accruals, operationOf).Err? ==> !AccrueAll(p, accruals, operationOf).code.DataUnavailable?
  {
    hide ApplyReceipt;
    if accruals != [] {
      var n := |accruals| - 1;
      AccrualRefusals(p, accruals[..n], operationOf);
      if AccrueAll(p, accruals[..n], operationOf).Ok? {
        var m := AccrueAll(p, accruals[..n], operationOf).value;
        Refusals.EveryRefusalIsKnown(m, ReceiptFor(m, accruals[n], operationOf));
      }
    }
  }

  // A checkpoint that is taken leaves every open position marked by its own accrual, moves modelled PnL and net value
  // by the gains, and adds one receipt per position to the history, in the order of the position ids.
  lemma {:induction false} CheckpointLeaves(p: Portfolio, accruals: seq<Accrual>, collate: Id -> Text,
      operationOf: Id -> Id, q: Portfolio)
    requires Valid(p) && StartsEmpty(p) && Names(collate, operationOf) && FreshOperations(p, accruals, operationOf)
    requires CheckpointOf(p, accruals, collate, operationOf) == Ok(q)
    ensures var ordered := InOrder(collate, accruals);
            && HeaderAfter(p, q, ordered, operationOf) && BooksAfter(p, q, ordered)
            && (forall x <- ordered :: x in accruals) && (forall x <- accruals :: x in ordered)
            && (forall i, j | 0 <= i < j < |ordered| ::
                  Before(collate(ordered[i].positionId), collate(ordered[j].positionId)))
  {
    hide Valid, StartsEmpty, ApplyReceipt, InOrder, AccrueAll;
    var ordered := InOrder(collate, accruals);
    Reordered(collate, accruals);
    FreshInOrder(p, accruals, ordered, operationOf);
    AccrualsCheckpoint(p, ordered, operationOf, q);
    AccrualsTaken(p, ordered, operationOf);
    DistinctEitherWay(collate, accruals);
    OrderedByName(collate, accruals);
  }

  lemma {:induction false} OrderedByName(collate: Id -> Text, accruals: seq<Accrual>)
    requires DistinctPositions(accruals) && forall a, b :: collate(a) == collate(b) ==> a == b
    ensures var ordered := InOrder(collate, accruals);
            forall i, j | 0 <= i < j < |ordered| ::
              Before(collate(ordered[i].positionId), collate(ordered[j].positionId))
  {
    hide Sort, Before;
    var entries := KeyedBy(collate, accruals);
    SortAscends(entries);
    SortKeeps(entries);
    var sorted := Sort(entries);
    forall i | 0 <= i < |sorted|
      ensures sorted[i].key == collate(sorted[i].value.positionId)
    {
      assert sorted[i] in entries;
    }
  }

  // Under operation ids not used yet, a checkpoint is taken if and only if there is one accrual for each open position,
  // the portfolio is open, every accrual is newer than its position and gives a book in range, the observation times do
  // not fall in the order of the position ids, and the gains so far keep modelled PnL in range and the portfolio
  // solvent after each of them.
  lemma {:induction false} CheckpointTakenExactly(p: Portfolio, accruals: seq<Accrual>, collate: Id -> Text,
      operationOf: Id -> Id)
    requires Valid(p) && StartsEmpty(p) && Names(collate, operationOf) && FreshOperations(p, accruals, operationOf)
    ensures var ordered := InOrder(collate, accruals);
            CheckpointOf(p, accruals, collate, operationOf).Ok? <==>
              && OnePerPosition(p.positions, accruals) && DistinctPositions(accruals)
              && OpenFor(p, ordered) && AllFit(p, ordered) && TimesAscend(p.lastAppliedAt, ordered)
              && StaysSolvent(p, ordered)
    ensures CheckpointOf(p, accruals, collate, operationOf) == Err(DataUnavailable) <==>
              |accruals| != |p.positions| || exists a :: a in accruals && a.positionId !in p.positions
  {
    AccrualRefusals(p, InOrder(collate, accruals), operationOf);
    ForeignAccrual(p.positions, accruals);
    hide Valid, StartsEmpty, ApplyReceipt, InOrder, AccrueAll, OnePerPosition, AllFit, StaysSolvent, TimesAscend;
    var ordered := InOrder(collate, accruals);
    Reordered(collate, accruals);
    FreshInOrder(p, accruals, ordered, operationOf);
    if AccrueAll(p, ordered, operationOf).Ok? {
      AccrualsCheckpoint(p, ordered, operationOf, AccrueAll(p, ordered, operationOf).value);
      DistinctEitherWay(collate, accruals);
    }
    if DistinctPositions(accruals) {
      DistinctInOrder(collate, accruals);
      AccrualsTaken(p, ordered, operationOf);
    }
  }
}
