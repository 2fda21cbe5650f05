// What a receipt leaves alone, and how it moves the items it names.
module Frames {
  import opened Prelude
  import opened Ledger
  import opened Conservation

  predicate NamesReservation(b: Body, id: Id) {
    (b.Reserve? || b.TransferSourceFailed? || b.TransferBurned?) && b.reservationId == id
  }

  predicate NamesTransfer(b: Body, id: Id) {
    (b.TransferBurned? || b.MovesReceivable()) && b.transferId == id
  }

  predicate NamesPosition(b: Body, id: Id) {
    (b.Deposit? || b.Withdraw? || b.Accrue?) && b.positionId == id
  }

  predicate SameAt<V(==)>(m: map<Id, V>, n: map<Id, V>, id: Id) {
    (id in m <==> id in n) && (id in m ==> m[id] == n[id])
  }

  lemma {:induction false} SameEverywhere<V>(m: map<Id, V>, n: map<Id, V>)
    requires forall id :: SameAt(m, n, id)
    ensures m == n
  {
    forall id
      ensures id in m.Keys <==> id in n.Keys
    {
      assert SameAt(m, n, id);
    }
    assert m.Keys == n.Keys;
    forall id | id in m
      ensures m[id] == n[id]
    {
      assert SameAt(m, n, id);
    }
  }

  // Costs are only added, each under the receipt's own operation; a payable appears only with a new
  // cost and disappears only when it is settled.
  predicate CostsAdded(s: Portfolio, r: Receipt, t: Portfolio) {
    && (forall k | k in s.costs :: k in t.costs && t.costs[k] == s.costs[k])
    && (forall k | k in t.costs && k !in s.costs :: t.costs[k].operationId == r.operationId)
    && (forall k | k in t.payables :: k in s.payables || k !in s.costs)
    && (forall k | k in s.payables :: k in t.payables || (r.body.PayableSettled? && r.body.payableId == k))
  }

  // Every collection entry the receipt does not name is untouched.
  ghost predicate Framed(s: Portfolio, r: Receipt, t: Portfolio) {
    && (forall id | !NamesReservation(r.body, id) :: SameAt(s.reservations, t.reservations, id))
    && (forall id | !NamesTransfer(r.body, id) :: SameAt(s.receivables, t.receivables, id))
    && (forall id | !NamesPosition(r.body, id) :: SameAt(s.positions, t.positions, id))
    && CostsAdded(s, r, t)
  }

  lemma {:induction false} FundCostAdds(s: Portfolio, c: Cost, t: Portfolio)
    requires FundCost(s, c) == Ok(t)
    ensures t == s.(cash := t.cash, payables := t.payables)
    ensures t.payables == if c.funding.OnPayable? then s.payables[c.costId := FeePayable(c.networkId, c.amount)]
                          else s.payables
  {
    match c.funding
    case AvailableCash =>
    case OnPayable =>
    case Withheld =>
  }

  lemma {:induction false} ChargeOneAdds(s: Portfolio, r: Receipt, c: Cost, t: Portfolio)
    requires ChargeOne(s, r, c) == Ok(t)
    ensures OnlyCostsMoved(s, t) && CostsAdded(s, r, t)
  {
    hide FundCost;
    FundCostAdds(s, c, FundCost(s, c).value);
  }

  lemma {:induction false} ChargeAllAdds(s: Portfolio, r: Receipt, costs: seq<Cost>, t: Portfolio)
    requires ChargeAll(s, r, costs) == Ok(t)
    ensures OnlyCostsMoved(s, t) && CostsAdded(s, r, t)
  {
    hide ChargeOne;
    if costs != [] {
      var earlier := ChargeAll(s, r, costs[..|costs| - 1]).value;
      ChargeAllAdds(s, r, costs[..|costs| - 1], earlier);
      ChargeOneAdds(earlier, r, costs[|costs| - 1], t);
    }
  }

  lemma {:induction false} ApplyCostsAdds(s: Portfolio, r: Receipt, gap: int, t: Portfolio)
    requires ApplyCosts(s, r, gap) == Ok(t)
    ensures OnlyCostsMoved(s, t) && CostsAdded(s, r, t)
  {
    ChargeAllAdds(s, r, r.body.Costs(), t);
  }

  // The working copy just before its costs are applied, when the branch applies any.
  lemma {:induction false} FramedBeforeCosts(s: Portfolio, r: Receipt, u: Portfolio, gap: int, t: Portfolio)
    requires ApplyCosts(u, r, gap) == Ok(t)
    requires u.costs == s.costs && u.payables == s.payables
    requires forall id | !NamesReservation(r.body, id) :: SameAt(s.reservations, u.reservations, id)
    requires forall id | !NamesTransfer(r.body, id) :: SameAt(s.receivables, u.receivables, id)
    requires forall id | !NamesPosition(r.body, id) :: SameAt(s.positions, u.positions, id)
    ensures Framed(s, r, t)
  {
    hide ApplyCosts;
    ApplyCostsAdds(u, r, gap, t);
  }

  lemma {:induction false} ApproveFrame(s: Portfolio, r: Receipt, t: Portfolio)
    requires r.body.Approve? && ApproveEffect(s, r) == Ok(t)
    ensures Framed(s, r, t)
  {
    hide ApplyCosts;
    if !(r.body.allowanceId in s.allowances && s.allowances[r.body.allowanceId].amount >= r.body.amount) {
      FramedBeforeCosts(s, r, s, 0, ApplyCosts(s, r, 0).value);
    }
  }

  lemma {:induction false} DepositFrame(s: Portfolio, r: Receipt, t: Portfolio)
    requires r.body.Deposit? && ReceiptParses(r) && DepositEffect(s, r) == Ok(t)
    ensures Framed(s, r, t)
  {
    hide ApplyCosts, BookOf, RemainderOf;
    var b := r.body;
    var view := s.views[b.cashViewId];
    var debited := DebitCash(s, view.familyId, b.input).value;
    var known := b.positionId in s.positions;
    var start := if known then s.positions[b.positionId]
                 else Position(view.networkId, b.instrumentId, view.assetId, 0, b.indexNum, b.indexDen, 0, 0,
                               r.sourceHashes[0], r.observedAt);
    var next := Revalue(start, start.shares + b.sharesCredit, b.indexNum, b.indexDen, r.sourceHashes[0], r.observedAt);
    FramedBeforeCosts(s, r, debited.(positions := s.positions[b.positionId := next]),
                      b.input - (next.book - start.book), t);
  }

  lemma {:induction false} WithdrawFrame(s: Portfolio, r: Receipt, t: Portfolio)
    requires r.body.Withdraw? && ReceiptParses(r) && IndexesPositive(s.positions) && WithdrawEffect(s, r) == Ok(t)
    ensures Framed(s, r, t)
  {
    hide ApplyCosts, BookOf, RemainderOf;
    var b := r.body;
    var x := s.positions[b.positionId];
    var left := x.shares - b.sharesDebit;
    var next := Revalue(x, left, x.indexNum, x.indexDen, r.sourceHashes[0], r.observedAt);
    var reduced := s.(positions :=
      if left == 0 then s.positions - {b.positionId} else s.positions[b.positionId := next]);
    var credited := CreditCash(reduced, s.views[b.cashViewId].familyId, b.cashCredit).value;
    FramedBeforeCosts(s, r, credited, x.book - (if left == 0 then 0 else next.book) - b.cashCredit, t);
  }

  lemma {:induction false} SwapFrame(s: Portfolio, r: Receipt, t: Portfolio)
    requires r.body.Swap? && SwapEffect(s, r) == Ok(t)
    ensures Framed(s, r, t)
  {
    hide ApplyCosts;
    var b := r.body;
    var debited := DebitCash(s, s.views[b.sourceViewId].familyId, b.sourceDebit).value;
    var credited := CreditCash(debited, s.views[b.destinationViewId].familyId, b.destinationCredit).value;
    FramedBeforeCosts(s, r, credited, b.sourceDebit - b.destinationCredit, t);
  }

  // A source failure removes its reservation and returns it, less the withheld costs, to its own family.
  lemma {:induction false} SourceFailedMoves(s: Portfolio, r: Receipt, t: Portfolio)
    requires r.body.TransferSourceFailed? && SourceFailedEffect(s, r) == Ok(t)
    ensures Framed(s, r, t)
    ensures r.body.reservationId in s.reservations && t.reservations == s.reservations - {r.body.reservationId}
    ensures t.receivables == s.receivables
  {
    hide ApplyCosts;
    var id := r.body.reservationId;
    var x := s.reservations[id];
    var withheld := WithheldTotal(r.body.costs);
    var credited := CreditCash(s.(reservations := s.reservations - {id}), x.familyId, x.amount - withheld).value;
    FramedBeforeCosts(s, r, credited, withheld, t);
    ApplyCostsAdds(credited, r, withheld, t);
  }

  // A burn turns its reservation into a receivable in transit for the net amount.
  lemma {:induction false} BurnMoves(s: Portfolio, r: Receipt, t: Portfolio)
    requires r.body.TransferBurned? && BurnedEffect(s, r) == Ok(t)
    ensures Framed(s, r, t)
    ensures var b := r.body;
            && b.reservationId in s.reservations && b.transferId !in s.receivables
            && b.netReceivable <= s.reservations[b.reservationId].amount
            && t.reservations == s.reservations - {b.reservationId}
            && b.destinationViewId in s.views
            && t.receivables == s.receivables[b.transferId :=
                 Receivable(b.messageIdentity, s.reservations[b.reservationId].networkId, b.destinationNetworkId,
                            s.views[b.destinationViewId].familyId, b.netReceivable, InTransit, 0,
                            r.observedAt, r.observedAt)]
            && forall k | k in s.receivables :: s.receivables[k].messageIdentity != b.messageIdentity
  {
    hide ApplyCosts;
    var b := r.body;
    var x := s.reservations[b.reservationId];
    var receivable := Receivable(b.messageIdentity, x.networkId, b.destinationNetworkId,
                                 s.views[b.destinationViewId].familyId, b.netReceivable, InTransit, 0,
                                 r.observedAt, r.observedAt);
    var moved := s.(reservations := s.reservations - {b.reservationId},
                    receivables := s.receivables[b.transferId := receivable]);
    FramedBeforeCosts(s, r, moved, x.amount - b.netReceivable, t);
    ApplyCostsAdds(moved, r, x.amount - b.netReceivable, t);
  }

  // The state machine of one receivable; None is its removal by settlement.
  function NextReceivable(x: Receivable, b: Body, at: Timestamp, maxAttempts: int): Result<Option<Receivable>>
    requires b.MovesReceivable()
  {
    match b
    case TransferReady(_, _) =>
      if x.state.ReadyToReceive? || (x.state.DestinationRetry? && x.attempts >= maxAttempts) then Err(InvalidTransition)
      else Ok(Some(x.(state := ReadyToReceive, updatedAt := at)))
    case TransferDelayed(_, _) =>
      if x.state.InTransit? then Ok(Some(x.(state := Delayed, updatedAt := at))) else Err(InvalidTransition)
    case TransferRetry(_, _) =>
      if x.state.ReadyToReceive? && x.attempts < maxAttempts then
        Ok(Some(x.(state := DestinationRetry, attempts := x.attempts + 1, updatedAt := at)))
      else Err(InvalidTransition)
    case TransferSettled(_, credit, _) =>
      if x.state.ReadyToReceive? && credit <= x.amount then Ok(None) else Err(InvalidTransition)
  }

  // What an accepted transfer receipt does to the receivables.
  ghost predicate ReceivableMoved(s: Portfolio, r: Receipt, t: Portfolio)
    requires r.body.MovesReceivable()
  {
    var id := r.body.transferId;
    && id in s.receivables
    && t.reservations == s.reservations
    && var next := NextReceivable(s.receivables[id], r.body, r.observedAt, s.maxDestinationAttempts);
    && next.Ok?
    && t.receivables == (if next.value.Some? then s.receivables[id := next.value.value] else s.receivables - {id})
  }

  lemma {:induction false} SettlementMoves(s: Portfolio, r: Receipt, t: Portfolio)
    requires r.body.TransferSettled? && ReceivableEffect(s, r) == Ok(t)
    ensures Framed(s, r, t) && ReceivableMoved(s, r, t)
  {
    hide ApplyCosts;
    var id := r.body.transferId;
    var x := s.receivables[id];
    var credited := CreditCash(s, x.destinationFamilyId, r.body.destinationCredit).value;
    var u := credited.(receivables := credited.receivables - {id});
    FramedBeforeCosts(s, r, u, x.amount - r.body.destinationCredit, t);
    ApplyCostsAdds(u, r, x.amount - r.body.destinationCredit, t);
  }

  lemma {:induction false} StateChangeMoves(s: Portfolio, r: Receipt, id: Id, x: Receivable, t: Portfolio)
    requires r.body.MovesReceivable() && r.body.transferId == id && MoveReceivable(s, r, id, x) == Ok(t)
    ensures Framed(s, r, t) && t.reservations == s.reservations
    ensures t.receivables == s.receivables[id := x.(updatedAt := r.observedAt)]
  {
    hide ApplyCosts;
    var charged := ApplyCosts(s, r, 0).value;
    FramedBeforeCosts(s, r, s, 0, charged);
    ApplyCostsAdds(s, r, 0, charged);
  }

  lemma {:induction false} ReceivableMoves(s: Portfolio, r: Receipt, t: Portfolio)
    requires r.body.MovesReceivable() && ReceivableEffect(s, r) == Ok(t)
    ensures Framed(s, r, t) && ReceivableMoved(s, r, t)
  {
    hide MoveReceivable, ApplyCosts, CreditCash, Framed;
    var x := s.receivables[r.body.transferId];
    match r.body
    case TransferReady(id, _) => StateChangeMoves(s, r, id, x.(state := ReadyToReceive), t);
    case TransferDelayed(id, _) => StateChangeMoves(s, r, id, x.(state := Delayed), t);
    case TransferRetry(id, _) =>
      StateChangeMoves(s, r, id, x.(state := DestinationRetry, attempts := x.attempts + 1), t);
    case TransferSettled(_, _, _) => SettlementMoves(s, r, t);
  }

  // A reservation takes its amount out of one family's cash.
  lemma ReserveMoves(s: Portfolio, r: Receipt, t: Portfolio)
    requires r.body.Reserve? && ReserveEffect(s, r) == Ok(t)
    ensures Framed(s, r, t)
    ensures var b := r.body;
            && b.reservationId !in s.reservations && b.cashViewId in s.views
            && t.receivables == s.receivables
            && var view := s.views[b.cashViewId];
            t.reservations == s.reservations[b.reservationId :=
              Reservation(r.operationId, view.familyId, view.networkId, view.assetId, b.amount)]
  {
  }

  lemma PayableSettledFrame(s: Portfolio, r: Receipt, t: Portfolio)
    requires r.body.PayableSettled? && PayableSettledEffect(s, r) == Ok(t)
    ensures Framed(s, r, t)
  {
  }

  lemma {:induction false} AccrueFrame(s: Portfolio, r: Receipt, t: Portfolio)
    requires r.body.Accrue? && ReceiptParses(r) && AccrueEffect(s, r) == Ok(t)
    ensures Framed(s, r, t)
  {
    hide BookOf, RemainderOf;
  }

  lemma {:induction false} EffectFrame(s: Portfolio, r: Receipt, t: Portfolio)
    requires ReceiptParses(r) && IndexesPositive(s.positions) && Effect(s, r) == Ok(t)
    ensures Framed(s, r, t)
  {
    hide ApplyCosts, ApproveEffect, DepositEffect, WithdrawEffect, SwapEffect;
    hide SourceFailedEffect, BurnedEffect, ReceivableEffect, ReserveEffect, PayableSettledEffect, AccrueEffect;
    hide Sum;
    match r.body
    case NoEffect =>
    case Reserve(_, _, _, _) => ReserveMoves(s, r, t);
    case CostOnly(_) => FramedBeforeCosts(s, r, s, 0, t);
    case Approve(_, _, _, _, _, _) => ApproveFrame(s, r, t);
    case Deposit(_, _, _, _, _, _, _, _) => DepositFrame(s, r, t);
    case Withdraw(_, _, _, _, _) => WithdrawFrame(s, r, t);
    case Swap(_, _, _, _, _) => SwapFrame(s, r, t);
    case PayableSettled(_, _) => PayableSettledFrame(s, r, t);
    case TransferSourceFailed(_, _) => SourceFailedMoves(s, r, t);
    case TransferBurned(_, _, _, _, _, _, _) => BurnMoves(s, r, t);
    case TransferReady(_, _) => ReceivableMoves(s, r, t);
    case TransferDelayed(_, _) => ReceivableMoves(s, r, t);
    case TransferRetry(_, _) => ReceivableMoves(s, r, t);
    case TransferSettled(_, _, _) => ReceivableMoves(s, r, t);
    case Accrue(_, _, _, _) => AccrueFrame(s, r, t);
    case Close(_) =>
  }
}
