// Safety over whole runs: what can never happen again after a close, a settlement or a payment.
module Lifetimes {
  import opened Prelude
  import opened Ledger
  import opened Conservation
  import opened Frames
  import opened Redelivery

  // One accepted receipt, seen from outside applyReceipt.
  lemma {:induction false} AppliedAnew(p: Portfolio, r: Receipt, q: Portfolio)
    requires ApplyReceipt(p, r) == Ok(q) && !InHistory(p, r)
    ensures ReceiptParses(r) && Admit(p, r).Ok? && IndexesPositive(p.positions) && PayablesBacked(p)
    ensures Effect(p, r).Ok? && q == Stamp(Effect(p, r).value, r)
  {
    hide Effect, NetValue, FamiliesHold, ReservationsHold, ReceivablesHold, AllowancesHold, CostsHold, HistoryHolds,
        Admit;
    hide CashHolds, ClosureHolds, HeaderHolds, Imbalance, ReceiptParses;
  }

  lemma {:induction false} StampedFrame(p: Portfolio, r: Receipt, s: Portfolio)
    requires Framed(p, r, s)
    ensures Framed(p, r, Stamp(s, r))
  {
    hide SameAt, NamesReservation, NamesTransfer, NamesPosition;
  }

  lemma {:induction false} AcceptedStep(p: Portfolio, r: Receipt, q: Portfolio)
    requires ApplyReceipt(p, r) == Ok(q)
    ensures InHistory(p, r) ==> q == p
    ensures !InHistory(p, r) ==>
              && ReceiptParses(r) && Admit(p, r).Ok? && IndexesPositive(p.positions) && PayablesBacked(p)
              && Effect(p, r).Ok? && q == Stamp(Effect(p, r).value, r)
              && Framed(p, r, q) && Kept(p, r, Effect(p, r).value)
  {
    hide *;
    StepShape(p, r, q);
    if !InHistory(p, r) {
      AppliedAnew(p, r, q);
      var s := Effect(p, r).value;
      EffectBalances(p, r, s);
      EffectFrame(p, r, s);
      StampedFrame(p, r, s);
    }
  }

  /******* After CLOSE *******/

  // A closed portfolio keeps everything but the receivables it already had, the cash they settle
  // into, and the costs of settling them.
  ghost predicate FrozenBy(p: Portfolio, q: Portfolio) {
    && q.positions == p.positions && q.reservations == p.reservations && q.allowances == p.allowances
    && q.pnl == p.pnl && q.closedAt == p.closedAt && q.deadlineState == p.deadlineState
    && q.receivables.Keys <= p.receivables.Keys
    && p.payables.Keys <= q.payables.Keys
  }

  lemma {:induction false} ClosedStep(p: Portfolio, r: Receipt, q: Portfolio)
    requires p.closedAt.Some? && ApplyReceipt(p, r) == Ok(q)
    ensures FrozenBy(p, q)
  {
    hide Valid, Effect, ReceivableEffect, ReceiptParses, NextReceivable;
    AcceptedStep(p, r, q);
    if !InHistory(p, r) {
      var s := Effect(p, r).value;
      assert ReceivableEffect(p, r) == Ok(s) by { ReceivableKinds(p, r); }
      ReceivableMoves(p, r, s);
      forall id
        ensures SameAt(p.positions, q.positions, id)
      {
        assert !NamesPosition(r.body, id);
      }
      SameEverywhere(p.positions, q.positions);
      assert p.payables.Keys <= q.payables.Keys;
    }
  }

  lemma ReceivableKinds(s: Portfolio, r: Receipt)
    requires r.body.MovesReceivable() && ReceiptParses(r) && IndexesPositive(s.positions)
    ensures Effect(s, r) == ReceivableEffect(s, r)
  {
  }

  // In every continuation of a closed portfolio the closing record, the positions, reservations,
  // allowances and modelled PnL never change, no receivable appears and no payable is paid.
  lemma {:induction false} ClosureIsFinal(p: Portfolio, rs: seq<Receipt>, q: Portfolio)
    requires p.closedAt.Some? && Replay(p, rs) == Ok(q)
    ensures FrozenBy(p, q)
  {
    hide ApplyReceipt, Valid;
    if rs != [] {
      var earlier := Replay(p, rs[..|rs| - 1]).value;
      ClosureIsFinal(p, rs[..|rs| - 1], earlier);
      ClosedStep(earlier, rs[|rs| - 1], q);
    }
  }

  /******* A payable is paid at most once *******/

  predicate Pays(p: Portfolio, i: int, id: Id)
    requires 0 <= i < |p.applied|
  {
    p.applied[i].receipt.body.PayableSettled? && p.applied[i].receipt.body.payableId == id
  }

  // Every payable the history has settled is a recognised cost that is no longer owed.
  ghost predicate PaymentsAreFinal(p: Portfolio) {
    && (forall i, id | 0 <= i < |p.applied| && Pays(p, i, id) :: id in p.costs && id !in p.payables)
    && (forall i, j, id | 0 <= i < j < |p.applied| :: !(Pays(p, i, id) && Pays(p, j, id)))
  }

  lemma {:induction false} PaymentStep(p: Portfolio, r: Receipt, q: Portfolio)
    requires ApplyReceipt(p, r) == Ok(q) && PaymentsAreFinal(p)
    ensures PaymentsAreFinal(q)
  {
    hide Valid;
    AcceptedStep(p, r, q);
    StepShape(p, r, q);
    if !InHistory(p, r) {
      if r.body.PayableSettled? {
        PaymentTakesPayable(p, r, Effect(p, r).value);
      }
      hide Effect, Admit;
      forall i, id | 0 <= i < |q.applied| && Pays(q, i, id)
        ensures id in q.costs && id !in q.payables
        ensures i < |p.applied| ==> Pays(p, i, id)
        ensures i == |p.applied| ==> id in p.payables
      {
        if i < |p.applied| {
          assert Pays(p, i, id);
        }
      }
    }
  }

  lemma PaymentTakesPayable(p: Portfolio, r: Receipt, s: Portfolio)
    requires r.body.PayableSettled? && ReceiptParses(r) && IndexesPositive(p.positions) && PayablesBacked(p)
    requires Effect(p, r) == Ok(s)
    ensures r.body.payableId in p.payables && r.body.payableId in p.costs
    ensures s.costs == p.costs && s.payables == p.payables - {r.body.payableId}
  {
  }

  // From a new portfolio on, no payable is ever settled by two receipts.
  lemma {:induction false} PayablesArePaidAtMostOnce(p: Portfolio, rs: seq<Receipt>, q: Portfolio)
    requires p.applied == [] && Replay(p, rs) == Ok(q)
    ensures PaymentsAreFinal(q)
  {
    hide ApplyReceipt, Valid;
    if rs != [] {
      var earlier := Replay(p, rs[..|rs| - 1]).value;
      PayablesArePaidAtMostOnce(p, rs[..|rs| - 1], earlier);
      PaymentStep(earlier, rs[|rs| - 1], q);
    }
  }

  /******* How long a receivable can live *******/

  function LeftFor(x: Receivable, maxAttempts: int): int {
    match x.state
    case InTransit => 2 * maxAttempts + 1
    case Delayed => 2 * maxAttempts
    case ReadyToReceive => if x.attempts < maxAttempts then 2 * (maxAttempts - x.attempts) - 1 else 1
    case DestinationRetry => if x.attempts < maxAttempts then 2 * (maxAttempts - x.attempts) else 0
  }

  // An upper bound on the transfer receipts a receivable can still accept.
  function ReceiptsLeft(p: Portfolio, id: Id): int {
    if id in p.receivables then LeftFor(p.receivables[id], p.maxDestinationAttempts) else 0
  }

  lemma NextShrinks(x: Receivable, b: Body, at: Timestamp, maxAttempts: int)
    requires b.MovesReceivable() && NextReceivable(x, b, at, maxAttempts).Ok?
    requires 0 < maxAttempts && (x.state.InTransit? || x.state.Delayed? ==> x.attempts == 0)
    ensures var next := NextReceivable(x, b, at, maxAttempts).value;
            && 0 < LeftFor(x, maxAttempts)
            && (next.Some? ==> LeftFor(next.value, maxAttempts) < LeftFor(x, maxAttempts)
                               && (next.value.state.InTransit? || next.value.state.Delayed? ==>
                                     next.value.attempts == 0))
  {
  }

  lemma {:induction false} ReceiptsLeftBound(p: Portfolio, id: Id)
    requires Valid(p)
    ensures 0 <= ReceiptsLeft(p, id) <= 2 * p.maxDestinationAttempts + 1
  {
    hide Imbalance, HistoryHolds, FamiliesHold, ReservationsHold, PositionsHold, PayablesHold, CostsHold,
        AllowancesHold;
    hide Gross, Liabilities, CashHolds;
  }

  predicate MovesTransfer(r: Receipt, id: Id) {
    r.body.MovesReceivable() && r.body.transferId == id
  }

  // A receivable that has not moved yet starts with no attempts and still in transit or delayed.
  predicate AttemptsMatchState(p: Portfolio, id: Id) {
    id in p.receivables ==>
      p.receivables[id].state.InTransit? || p.receivables[id].state.Delayed? ==> p.receivables[id].attempts == 0
  }

  lemma {:induction false} AttemptBoundIsPositive(p: Portfolio, r: Receipt, q: Portfolio)
    requires ApplyReceipt(p, r) == Ok(q)
    ensures 0 < p.maxDestinationAttempts
  {
    hide Effect, Coherent, AllowancesHold;
  }

  lemma {:induction false} ReceivableStep(p: Portfolio, r: Receipt, q: Portfolio, id: Id)
    requires ApplyReceipt(p, r) == Ok(q) && AttemptsMatchState(p, id)
    requires !(r.body.TransferBurned? && r.body.transferId == id)
    ensures AttemptsMatchState(q, id) && q.maxDestinationAttempts == p.maxDestinationAttempts
    ensures MovesTransfer(r, id) && !InHistory(p, r) ==> ReceiptsLeft(q, id) < ReceiptsLeft(p, id)
    ensures !(MovesTransfer(r, id) && !InHistory(p, r)) ==>
              ReceiptsLeft(q, id) == ReceiptsLeft(p, id) && SameAt(p.receivables, q.receivables, id)
  {
    hide Effect, ReceivableEffect, Valid, NextReceivable, LeftFor, Admit;
    AcceptedStep(p, r, q);
    if !InHistory(p, r) && MovesTransfer(r, id) {
      var s := Effect(p, r).value;
      ReceivableKinds(p, r);
      ReceivableMoves(p, r, s);
      AttemptBoundIsPositive(p, r, q);
      NextShrinks(p.receivables[id], r.body, r.observedAt, p.maxDestinationAttempts);
    } else if !InHistory(p, r) {
      assert !NamesTransfer(r.body, id);
    }
  }

  // The transfer receipts for one id that a stream applies for the first time.
  function FirstMoves(p: Portfolio, rs: seq<Receipt>, id: Id): nat {
    var once := Once(p, rs);
    CountMoves(once, id)
  }

  function CountMoves(rs: seq<Receipt>, id: Id): nat {
    if rs == [] then 0
    else CountMoves(rs[..|rs| - 1], id) + (if MovesTransfer(rs[|rs| - 1], id) then 1 else 0)
  }

  predicate NeverReburned(rs: seq<Receipt>, id: Id) {
    forall i | 0 <= i < |rs| :: !(rs[i].body.TransferBurned? && rs[i].body.transferId == id)
  }

  // From burn onward a receivable accepts at most twice the attempt bound plus one transfer
  // receipts, whatever else the portfolio accepts in between.
  lemma {:induction false} TransferReceiptsAreBounded(p: Portfolio, rs: seq<Receipt>, q: Portfolio, id: Id)
    requires Replay(p, rs) == Ok(q) && AttemptsMatchState(p, id) && NeverReburned(rs, id)
    ensures AttemptsMatchState(q, id) && q.maxDestinationAttempts == p.maxDestinationAttempts
    ensures FirstMoves(p, rs, id) + ReceiptsLeft(q, id) <= ReceiptsLeft(p, id)
    ensures FirstMoves(p, rs, id) <= 2 * p.maxDestinationAttempts + 1
  {
    hide ApplyReceipt, ReceiptsLeft, AttemptsMatchState, Valid;
    ReplayFromValid(p, rs, q);
    ReceiptsLeftBound(p, id);
    ReceiptsLeftBound(q, id);
    if rs != [] {
      var n := |rs| - 1;
      var m := Replay(p, rs[..n]).value;
      TransferReceiptsAreBounded(p, rs[..n], m, id);
      ReceivableStep(m, rs[n], q, id);
      FirstDeliveriesAreConsecutive(p, rs[..n], m);
      var earlier := Once(p, rs[..n]);
      assert InHistory(m, rs[n]) <==> InHistory(p, rs[n]) || rs[n] in earlier;
      if !InHistory(m, rs[n]) {
        assert (earlier + [rs[n]])[..|earlier|] == earlier;
      }
    }
  }

  lemma {:induction false} ReplayFromValid(p: Portfolio, rs: seq<Receipt>, q: Portfolio)
    requires Replay(p, rs) == Ok(q)
    ensures Valid(p) && Valid(q)
  {
    RunGrowsHistory(p, rs, q);
  }

  /******* The attempts fit the state in every reachable portfolio *******/

  // No attempt before the first readiness, and never a last attempt left unused while ready.
  predicate AttemptsFit(p: Portfolio) {
    forall id | id in p.receivables ::
      var x := p.receivables[id];
      && (x.state.InTransit? || x.state.Delayed? ==> x.attempts == 0)
      && (x.state.ReadyToReceive? ==> x.attempts < p.maxDestinationAttempts)
  }

  lemma NextFits(x: Receivable, b: Body, at: Timestamp, maxAttempts: int)
    requires b.MovesReceivable() && NextReceivable(x, b, at, maxAttempts).Ok? && 0 < maxAttempts
    requires x.state.InTransit? || x.state.Delayed? ==> x.attempts == 0
    ensures var next := NextReceivable(x, b, at, maxAttempts).value;
            next.Some? ==>
              && (next.value.state.InTransit? || next.value.state.Delayed? ==> next.value.attempts == 0)
              && (next.value.state.ReadyToReceive? ==> next.value.attempts < maxAttempts)
  {
  }

  lemma {:induction false} StepKeepsAttemptsFit(p: Portfolio, r: Receipt, q: Portfolio)
    requires ApplyReceipt(p, r) == Ok(q) && AttemptsFit(p)
    ensures AttemptsFit(q) && q.maxDestinationAttempts == p.maxDestinationAttempts
  {
    hide Effect, ReceivableEffect, BurnedEffect, Valid, NextReceivable, Admit;
    AcceptedStep(p, r, q);
    AttemptBoundIsPositive(p, r, q);
    if !InHistory(p, r) {
      var s := Effect(p, r).value;
      if r.body.MovesReceivable() {
        ReceivableKinds(p, r);
        ReceivableMoves(p, r, s);
        NextFits(p.receivables[r.body.transferId], r.body, r.observedAt, p.maxDestinationAttempts);
      } else if r.body.TransferBurned? {
        BurnStartsTheCount(p, r, q);
      }
      forall id | id in q.receivables && !NamesTransfer(r.body, id)
        ensures id in p.receivables && q.receivables[id] == p.receivables[id]
      {
        assert SameAt(p.receivables, q.receivables, id);
      }
    }
  }

  // Right after its burn a receivable is in transit with no attempts.
  lemma {:induction false} BurnStartsTheCount(p: Portfolio, r: Receipt, q: Portfolio)
    requires ApplyReceipt(p, r) == Ok(q) && r.body.TransferBurned? && !InHistory(p, r)
    ensures r.body.transferId in q.receivables && AttemptsMatchState(q, r.body.transferId)
    ensures q.receivables[r.body.transferId].state.InTransit? && q.receivables[r.body.transferId].attempts == 0
  {
    hide BurnedEffect, Valid, Admit;
    AcceptedStep(p, r, q);
    BurnMoves(p, r, Effect(p, r).value);
  }

  lemma {:induction false} RunKeepsAttemptsFit(p: Portfolio, rs: seq<Receipt>, q: Portfolio)
    requires Replay(p, rs) == Ok(q) && AttemptsFit(p)
    ensures AttemptsFit(q) && q.maxDestinationAttempts == p.maxDestinationAttempts
  {
    hide ApplyReceipt, Valid, AttemptsFit;
    if rs != [] {
      var m := Replay(p, rs[..|rs| - 1]).value;
      RunKeepsAttemptsFit(p, rs[..|rs| - 1], m);
      StepKeepsAttemptsFit(m, rs[|rs| - 1], q);
    }
  }

  // From the burn of a transfer on, with no assumption on the state before it.
  lemma {:induction false} BoundedFromBurnOn(p: Portfolio, burn: Receipt, m: Portfolio, rs: seq<Receipt>, q: Portfolio)
    requires burn.body.TransferBurned? && !InHistory(p, burn) && ApplyReceipt(p, burn) == Ok(m)
    requires Replay(m, rs) == Ok(q) && NeverReburned(rs, burn.body.transferId)
    ensures FirstMoves(m, rs, burn.body.transferId) + ReceiptsLeft(q, burn.body.transferId)
            <= 2 * m.maxDestinationAttempts + 1
  {
    hide ApplyReceipt, Replay, ReceiptsLeft, AttemptsMatchState, Valid;
    BurnStartsTheCount(p, burn, m);
    TransferReceiptsAreBounded(m, rs, q, burn.body.transferId);
    ReplayFromValid(m, rs, q);
    ReceiptsLeftBound(m, burn.body.transferId);
  }

  // In every history that starts from a portfolio without receivables, from any point of it on.
  lemma {:induction false} BoundedInEveryHistory(start: Portfolio, before: seq<Receipt>, p: Portfolio, rs: seq<Receipt>,
      q: Portfolio, id: Id)
    requires start.receivables == map[] && Replay(start, before) == Ok(p)
    requires Replay(p, rs) == Ok(q) && NeverReburned(rs, id)
    ensures AttemptsFit(p) && AttemptsFit(q)
    ensures FirstMoves(p, rs, id) + ReceiptsLeft(q, id) <= ReceiptsLeft(p, id) <= 2 * start.maxDestinationAttempts + 1
  {
    hide ApplyReceipt, Replay, ReceiptsLeft, Valid;
    RunKeepsAttemptsFit(start, before, p);
    RunKeepsAttemptsFit(p, rs, q);
    TransferReceiptsAreBounded(p, rs, q, id);
    ReplayFromValid(p, rs, q);
    ReceiptsLeftBound(p, id);
  }

  // A receivable blocked at the attempt bound stays on the books, unchanged, in every continuation.
  lemma {:induction false} BlockedReceivableKeepsItsValue(p: Portfolio, rs: seq<Receipt>, q: Portfolio, id: Id)
    requires Replay(p, rs) == Ok(q) && NeverReburned(rs, id)
    requires id in p.receivables && p.receivables[id].state.DestinationRetry?
    requires p.receivables[id].attempts == p.maxDestinationAttempts
    ensures id in q.receivables && q.receivables[id] == p.receivables[id]
    ensures FirstMoves(p, rs, id) == 0
  {
    hide ApplyReceipt, Valid;
    TransferReceiptsAreBounded(p, rs, q, id);
    if rs != [] {
      var n := |rs| - 1;
      var m := Replay(p, rs[..n]).value;
      BlockedReceivableKeepsItsValue(p, rs[..n], m, id);
      TransferReceiptsAreBounded(p, rs[..n], m, id);
      ReceivableStep(m, rs[n], q, id);
      ReplayFromValid(p, rs, q);
      ReceiptsLeftBound(q, id);
    }
  }
}
