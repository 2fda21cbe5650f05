// Which checks of the closing assertPortfolio can still refuse a receipt whose branch succeeded.
module Closing {
  import opened Prelude
  import opened Ledger
  import opened Conservation

  // Holds of every state createPortfolio builds and every later one: nothing predates the first receipt.
  predicate StartsEmpty(p: Portfolio) {
    p.version == 0 ==> p.positions == map[] && p.receivables == map[] && p.closedAt.None?
  }

  // The working copy s, once stamped with r, passes every check that needs no value comparison.
  predicate Stampable(s: Portfolio, r: Receipt) {
    Coherent(Stamp(s, r))
  }

  lemma {:induction false} OperationsGrow(p: Portfolio, r: Receipt)
    ensures forall op | HasOperation(p.applied, op) :: HasOperation(Stamp(p, r).applied, op)
    ensures HasOperation(Stamp(p, r).applied, r.operationId)
  {
    var grown := Stamp(p, r).applied;
    assert grown[|p.applied|].receipt.operationId == r.operationId;
    forall op | HasOperation(p.applied, op)
      ensures HasOperation(grown, op)
    {
      var i :| 0 <= i < |p.applied| && p.applied[i].receipt.operationId == op;
      assert grown[i].receipt.operationId == op;
    }
  }

  lemma {:induction false} HistoryExtends(p: Portfolio, r: Receipt)
    requires HistoryHolds(p.version, p.applied, p.lastAppliedAt)
    requires ReceiptParses(r) && FindApplied(p.applied, r.operationId).None?
    ensures var t := Stamp(p, r); HistoryHolds(t.version, t.applied, t.lastAppliedAt)
  {
    hide ReceiptParses;
    forall i | 0 <= i < |p.applied|
      ensures p.applied[i].receipt.operationId != r.operationId
    {
    }
  }

  lemma {:induction false} AdmittedIsStampable(p: Portfolio, r: Receipt)
    requires Coherent(p) && StartsEmpty(p) && ReceiptParses(r)
    requires FindApplied(p.applied, r.operationId).None? && Admit(p, r).Ok?
    ensures Stampable(p, r)
  {
    hide IndexDerived, ReceiptParses, HasOperation, HasAsset, CashHolds, FamiliesHold, PayablesHold;
    OperationsGrow(p, r);
    HistoryExtends(p, r);
    assert (p.version == 0) == p.lastAppliedAt.None?;
  }

  /******* Primitive edits of the working copy *******/

  lemma {:induction false} CashEdit(s: Portfolio, r: Receipt, family: Id, amount: int)
    requires Stampable(s, r) && family in s.cash && IsUInt(amount)
    ensures Stampable(s.(cash := s.cash[family := s.cash[family].(amount := amount)]), r)
  {
    hide HistoryHolds, FamiliesHold, ReservationsHold, ReceivablesHold, PositionsHold, PayablesHold, CostsHold;
    hide ClosureHolds;
    var cash := s.cash[family := s.cash[family].(amount := amount)];
    assert FamilyAssets(cash) == FamilyAssets(s.cash);
  }

  lemma {:induction false} DebitEdit(s: Portfolio, r: Receipt, family: Id, amount: int, t: Portfolio)
    requires Stampable(s, r) && DebitCash(s, family, amount) == Ok(t) && 0 <= amount
    ensures Stampable(t, r) && FamilyAssets(t.cash) == FamilyAssets(s.cash)
  {
    hide Coherent;
    assert IsUInt(s.cash[family].amount) by { CashInRange(s, r, family); }
    CashEdit(s, r, family, s.cash[family].amount - amount);
    assert FamilyAssets(t.cash) == FamilyAssets(s.cash);
  }

  lemma {:induction false} CashInRange(s: Portfolio, r: Receipt, family: Id)
    requires Stampable(s, r) && family in s.cash
    ensures IsUInt(s.cash[family].amount)
  {
    hide HistoryHolds, FamiliesHold, ReservationsHold, ReceivablesHold, PositionsHold, PayablesHold, CostsHold;
  }

  lemma {:induction false} CreditEdit(s: Portfolio, r: Receipt, family: Id, amount: int, t: Portfolio)
    requires Stampable(s, r) && CreditCash(s, family, amount) == Ok(t)
    ensures Stampable(t, r) && FamilyAssets(t.cash) == FamilyAssets(s.cash)
  {
    hide Coherent;
    CashEdit(s, r, family, s.cash[family].amount + amount);
    assert FamilyAssets(t.cash) == FamilyAssets(s.cash);
  }

  lemma {:induction false} CostEdit(s: Portfolio, r: Receipt, c: Cost, payables: map<Id, FeePayable>)
    requires Stampable(s, r) && c.costId !in s.costs && IsPositiveUInt(c.amount)
    requires payables == s.payables
             || (c.funding.OnPayable? && payables == s.payables[c.costId := FeePayable(c.networkId, c.amount)])
    ensures Stampable(s.(payables := payables, costs := s.costs[c.costId := RecognizedCost(c, r.operationId)]), r)
  {
    hide HistoryHolds, FamiliesHold, ReservationsHold, ReceivablesHold, PositionsHold, CashHolds, ClosureHolds;
    OperationsGrow(s, r);
    hide HasOperation;
  }

  lemma {:induction false} CashFundedEdit(s: Portfolio, r: Receipt, c: Cost, t: Portfolio)
    requires Stampable(s, r) && c.costId !in s.costs && IsPositiveUInt(c.amount)
    requires c.cashFamily.Some? && DebitCash(s, c.cashFamily.value, c.amount) == Ok(t)
    ensures Stampable(t.(costs := t.costs[c.costId := RecognizedCost(c, r.operationId)]), r)
  {
    hide Stampable, DebitCash;
    DebitMoves(s, c.cashFamily.value, c.amount, t);
    DebitEdit(s, r, c.cashFamily.value, c.amount, t);
    CostEdit(t, r, c, t.payables);
  }

  lemma {:induction false} ChargeOneEdit(s: Portfolio, r: Receipt, c: Cost, t: Portfolio)
    requires Stampable(s, r) && ChargeOne(s, r, c) == Ok(t) && IsPositiveUInt(c.amount)
    ensures Stampable(t, r)
  {
    hide Stampable, DebitCash;
    if c.funding.AvailableCash? {
      CashFundedEdit(s, r, c, DebitCash(s, c.cashFamily.value, c.amount).value);
    } else {
      CostEdit(s, r, c,
               if c.funding.OnPayable? then s.payables[c.costId := FeePayable(c.networkId, c.amount)] else s.payables);
    }
  }

  lemma {:induction false} ChargeAllEdit(s: Portfolio, r: Receipt, costs: seq<Cost>, t: Portfolio)
    requires Stampable(s, r) && ChargeAll(s, r, costs) == Ok(t) && CostsParse(costs)
    ensures Stampable(t, r)
  {
    hide Stampable, ChargeOne;
    if costs != [] {
      var earlier := ChargeAll(s, r, costs[..|costs| - 1]).value;
      ChargeAllEdit(s, r, costs[..|costs| - 1], earlier);
      ChargeOneEdit(earlier, r, costs[|costs| - 1], t);
    }
  }

  lemma {:induction false} ApplyCostsEdit(s: Portfolio, r: Receipt, gap: int, t: Portfolio)
    requires Stampable(s, r) && ApplyCosts(s, r, gap) == Ok(t) && ReceiptParses(r)
    ensures Stampable(t, r)
  {
    hide Stampable;
    ChargeAllEdit(s, r, r.body.Costs(), t);
  }

  lemma {:induction false} ReservationEdit(s: Portfolio, r: Receipt, id: Id, x: Reservation)
    requires Stampable(s, r) && IsPositiveUInt(x.amount) && x.operationId == r.operationId
    requires x.familyId in FamilyAssets(s.cash)
    requires FamilyAssets(s.cash)[x.familyId] == FamilyAsset(x.networkId, x.assetId)
    ensures Stampable(s.(reservations := s.reservations[id := x]), r)
  {
    hide HistoryHolds, FamiliesHold, ReceivablesHold, PositionsHold, PayablesHold, CostsHold, CashHolds, ClosureHolds;
    OperationsGrow(s, r);
    hide HasOperation, FamilyAssets;
  }

  lemma {:induction false} ReservationDrop(s: Portfolio, r: Receipt, id: Id)
    requires Stampable(s, r)
    ensures Stampable(s.(reservations := s.reservations - {id}), r)
  {
    hide HistoryHolds, FamiliesHold, ReceivablesHold, PositionsHold, PayablesHold, CostsHold, CashHolds, ClosureHolds;
    hide HasOperation, FamilyAssets;
  }

  lemma {:induction false} PositionEdit(s: Portfolio, r: Receipt, id: Id, x: Position)
    requires Stampable(s, r) && IndexDerived(x) && HasAsset(s.views, x.networkId, x.assetId)
    requires x.lastObservedAt <= r.observedAt
    ensures Stampable(s.(positions := s.positions[id := x]), r)
  {
    hide HistoryHolds, FamiliesHold, ReceivablesHold, ReservationsHold, PayablesHold, CostsHold, CashHolds,
        ClosureHolds;
    hide IndexDerived, HasAsset;
  }

  lemma {:induction false} PositionDrop(s: Portfolio, r: Receipt, id: Id)
    requires Stampable(s, r)
    ensures Stampable(s.(positions := s.positions - {id}), r)
  {
    hide HistoryHolds, FamiliesHold, ReceivablesHold, ReservationsHold, PayablesHold, CostsHold, CashHolds,
        ClosureHolds;
    hide IndexDerived, HasAsset;
  }

  lemma {:induction false} ReceivableEdit(s: Portfolio, r: Receipt, id: Id, x: Receivable)
    requires Stampable(s, r) && IsPositiveUInt(x.amount) && IsUInt(x.attempts)
    requires x.destinationFamilyId in FamilyAssets(s.cash)
    requires x.destinationNetworkId == FamilyAssets(s.cash)[x.destinationFamilyId].networkId
    requires x.sourceNetworkId != x.destinationNetworkId && x.createdAt <= x.updatedAt <= r.observedAt
    requires x.attempts <= s.maxDestinationAttempts
    requires forall k | k in s.receivables && k != id :: s.receivables[k].messageIdentity != x.messageIdentity
    ensures Stampable(s.(receivables := s.receivables[id := x]), r)
  {
    hide HistoryHolds, FamiliesHold, PositionsHold, ReservationsHold, PayablesHold, CostsHold, CashHolds, ClosureHolds;
    hide FamilyAssets;
  }

  lemma {:induction false} ReceivableDrop(s: Portfolio, r: Receipt, id: Id)
    requires Stampable(s, r)
    ensures Stampable(s.(receivables := s.receivables - {id}), r)
  {
    hide HistoryHolds, FamiliesHold, PositionsHold, ReservationsHold, PayablesHold, CostsHold, CashHolds, ClosureHolds;
    hide FamilyAssets;
  }

  lemma {:induction false} PayableDrop(s: Portfolio, r: Receipt, id: Id)
    requires Stampable(s, r)
    ensures Stampable(s.(payables := s.payables - {id}), r)
  {
    hide HistoryHolds, FamiliesHold, PositionsHold, ReservationsHold, ReceivablesHold, CostsHold, CashHolds,
        ClosureHolds;
    hide FamilyAssets;
  }

  /******* What a stampable working copy says about the items a branch reads *******/

  lemma {:induction false} ViewFacts(s: Portfolio, r: Receipt, viewId: Id)
    requires Stampable(s, r) && viewId in s.views
    ensures var v := s.views[viewId];
            && v.familyId in FamilyAssets(s.cash)
            && FamilyAssets(s.cash)[v.familyId] == FamilyAsset(v.networkId, v.assetId)
            && HasAsset(s.views, v.networkId, v.assetId)
  {
    hide HistoryHolds, PositionsHold, ReservationsHold, ReceivablesHold, CostsHold, PayablesHold, ClosureHolds;
  }

  lemma {:induction false} PositionFacts(s: Portfolio, r: Receipt, id: Id)
    requires Stampable(s, r) && id in s.positions
    ensures IndexDerived(s.positions[id]) && HasAsset(s.views, s.positions[id].networkId, s.positions[id].assetId)
  {
    hide HistoryHolds, FamiliesHold, ReservationsHold, ReceivablesHold, CostsHold, PayablesHold, ClosureHolds;
    hide IndexDerived, HasAsset;
  }

  // Revaluing a position keeps it index-derived when the results stay in range.
  lemma {:induction false} RevaluedIsDerived(x: Position, shares: int, num: int, den: int, source: SourceHash,
      at: Timestamp)
    requires IsPositiveUInt(shares) && IsPositiveUInt(num) && IsPositiveUInt(den)
    requires IsUInt(BookOf(shares, num, den))
    ensures IndexDerived(Revalue(x, shares, num, den, source, at))
  {
    var product := shares * num;
    assert 0 <= product % den < den;
  }

  lemma {:induction false} DepositStampable(s: Portfolio, r: Receipt, t: Portfolio)
    requires Stampable(s, r) && r.body.Deposit? && ReceiptParses(r) && DepositEffect(s, r) == Ok(t)
    ensures Stampable(t, r)
  {
    hide Stampable, BookOf, RemainderOf, ApplyCosts, HasAsset, FamilyAssets;
    var b := r.body;
    var view := s.views[b.cashViewId];
    ViewFacts(s, r, b.cashViewId);
    var debited := DebitCash(s, view.familyId, b.input).value;
    DebitEdit(s, r, view.familyId, b.input, debited);
    var known := b.positionId in s.positions;
    if known {
      PositionFacts(s, r, b.positionId);
    }
    var start := if known then s.positions[b.positionId]
                 else Position(view.networkId, b.instrumentId, view.assetId, 0, b.indexNum, b.indexDen, 0, 0,
                               r.sourceHashes[0], r.observedAt);
    var shares := start.shares + b.sharesCredit;
    var next := Revalue(start, shares, b.indexNum, b.indexDen, r.sourceHashes[0], r.observedAt);
    RevaluedIsDerived(start, shares, b.indexNum, b.indexDen, r.sourceHashes[0], r.observedAt);
    PositionEdit(debited, r, b.positionId, next);
    var held := debited.(positions := debited.positions[b.positionId := next]);
    ApplyCostsEdit(held, r, b.input - (next.book - start.book), t);
  }

  lemma {:induction false} WithdrawStampable(s: Portfolio, r: Receipt, t: Portfolio)
    requires Stampable(s, r) && r.body.Withdraw? && ReceiptParses(r) && IndexesPositive(s.positions)
    requires WithdrawEffect(s, r) == Ok(t)
    ensures Stampable(t, r)
  {
    hide Stampable, BookOf, RemainderOf, ApplyCosts, HasAsset, FamilyAssets, CreditCash;
    var b := r.body;
    var x := s.positions[b.positionId];
    PositionFacts(s, r, b.positionId);
    var left := x.shares - b.sharesDebit;
    var next := Revalue(x, left, x.indexNum, x.indexDen, r.sourceHashes[0], r.observedAt);
    var reduced := s.(positions :=
      if left == 0 then s.positions - {b.positionId} else s.positions[b.positionId := next]);
    if left == 0 {
      PositionDrop(s, r, b.positionId);
    } else {
      RevaluedIsDerived(x, left, x.indexNum, x.indexDen, r.sourceHashes[0], r.observedAt);
      PositionEdit(s, r, b.positionId, next);
    }
    var family := s.views[b.cashViewId].familyId;
    var credited := CreditCash(reduced, family, b.cashCredit).value;
    CreditEdit(reduced, r, family, b.cashCredit, credited);
    ApplyCostsEdit(credited, r, x.book - (if left == 0 then 0 else next.book) - b.cashCredit, t);
  }

  lemma {:induction false} SwapStampable(s: Portfolio, r: Receipt, t: Portfolio)
    requires Stampable(s, r) && r.body.Swap? && ReceiptParses(r) && SwapEffect(s, r) == Ok(t)
    ensures Stampable(t, r)
  {
    hide Stampable, ApplyCosts, CreditCash, DebitCash;
    var b := r.body;
    var source, destination := s.views[b.sourceViewId].familyId, s.views[b.destinationViewId].familyId;
    var debited := DebitCash(s, source, b.sourceDebit).value;
    DebitEdit(s, r, source, b.sourceDebit, debited);
    var credited := CreditCash(debited, destination, b.destinationCredit).value;
    CreditEdit(debited, r, destination, b.destinationCredit, credited);
    ApplyCostsEdit(credited, r, b.sourceDebit - b.destinationCredit, t);
  }

  lemma {:induction false} ReserveStampable(s: Portfolio, r: Receipt, t: Portfolio)
    requires Stampable(s, r) && r.body.Reserve? && ReceiptParses(r) && ReserveEffect(s, r) == Ok(t)
    ensures Stampable(t, r)
  {
    hide Stampable, HasAsset, FamilyAssets;
    var b := r.body;
    var view := s.views[b.cashViewId];
    ViewFacts(s, r, b.cashViewId);
    var debited := DebitCash(s, view.familyId, b.amount).value;
    DebitEdit(s, r, view.familyId, b.amount, debited);
    ReservationEdit(debited, r, b.reservationId, t.reservations[b.reservationId]);
  }

  lemma {:induction false} PayableFacts(s: Portfolio, r: Receipt, id: Id)
    requires Stampable(s, r) && id in s.payables
    ensures IsPositiveUInt(s.payables[id].amount)
  {
    hide HistoryHolds, FamiliesHold, PositionsHold, ReservationsHold, ReceivablesHold, CostsHold, ClosureHolds;
  }

  lemma {:induction false} PayableSettledStampable(s: Portfolio, r: Receipt, t: Portfolio)
    requires Stampable(s, r) && r.body.PayableSettled? && PayableSettledEffect(s, r) == Ok(t)
    ensures Stampable(t, r)
  {
    hide Stampable;
    var id := r.body.payableId;
    var family := s.views[r.body.cashViewId].familyId;
    PayableFacts(s, r, id);
    var debited := DebitCash(s, family, s.payables[id].amount).value;
    DebitEdit(s, r, family, s.payables[id].amount, debited);
    PayableDrop(debited, r, id);
  }

  lemma {:induction false} SourceFailedStampable(s: Portfolio, r: Receipt, t: Portfolio)
    requires Stampable(s, r) && r.body.TransferSourceFailed? && ReceiptParses(r) && SourceFailedEffect(s, r) == Ok(t)
    ensures Stampable(t, r)
  {
    hide Stampable, ApplyCosts, CreditCash;
    var id := r.body.reservationId;
    var x := s.reservations[id];
    var withheld := WithheldTotal(r.body.costs);
    var released := s.(reservations := s.reservations - {id});
    ReservationDrop(s, r, id);
    var credited := CreditCash(released, x.familyId, x.amount - withheld).value;
    CreditEdit(released, r, x.familyId, x.amount - withheld, credited);
    ApplyCostsEdit(credited, r, withheld, t);
  }

  lemma {:induction false} BurnedStampable(s: Portfolio, r: Receipt, t: Portfolio)
    requires Stampable(s, r) && r.body.TransferBurned? && ReceiptParses(r) && BurnedEffect(s, r) == Ok(t)
    requires 0 <= s.maxDestinationAttempts
    ensures Stampable(t, r)
  {
    hide Stampable, ApplyCosts, HasAsset, FamilyAssets;
    var b := r.body;
    var x := s.reservations[b.reservationId];
    var destination := s.views[b.destinationViewId];
    ViewFacts(s, r, b.destinationViewId);
    var receivable := Receivable(b.messageIdentity, x.networkId, b.destinationNetworkId, destination.familyId,
                                 b.netReceivable, InTransit, 0, r.observedAt, r.observedAt);
    ReservationDrop(s, r, b.reservationId);
    var released := s.(reservations := s.reservations - {b.reservationId});
    ReceivableEdit(released, r, b.transferId, receivable);
    ApplyCostsEdit(released.(receivables := s.receivables[b.transferId := receivable]), r, x.amount - b.netReceivable,
                   t);
  }

  lemma {:induction false} ReceivableFacts(s: Portfolio, r: Receipt, id: Id)
    requires Stampable(s, r) && id in s.receivables
    ensures var x := s.receivables[id];
            && IsPositiveUInt(x.amount) && IsUInt(x.attempts) && x.attempts <= s.maxDestinationAttempts
            && x.destinationFamilyId in FamilyAssets(s.cash)
            && x.destinationNetworkId == FamilyAssets(s.cash)[x.destinationFamilyId].networkId
            && x.sourceNetworkId != x.destinationNetworkId && x.createdAt <= x.updatedAt <= r.observedAt
            && forall k | k in s.receivables && k != id :: s.receivables[k].messageIdentity != x.messageIdentity
  {
    hide HistoryHolds, FamiliesHold, PositionsHold, ReservationsHold, PayablesHold, CostsHold, ClosureHolds;
    hide FamilyAssets;
  }

  lemma {:induction false} MovedStampable(s: Portfolio, r: Receipt, id: Id, x: Receivable, t: Portfolio)
    requires Stampable(s, r) && ReceiptParses(r) && id in s.receivables
    requires x == s.receivables[id].(state := x.state, attempts := x.attempts)
    requires IsUInt(x.attempts) && x.attempts <= s.maxDestinationAttempts
    requires MoveReceivable(s, r, id, x) == Ok(t) && PayablesBacked(s)
    ensures Stampable(t, r)
  {
    hide Stampable, ApplyCosts, FamilyAssets;
    var charged := ApplyCosts(s, r, 0).value;
    ApplyCostsMoves(s, r, 0, charged);
    ApplyCostsEdit(s, r, 0, charged);
    ReceivableFacts(charged, r, id);
    ReceivableEdit(charged, r, id, x.(updatedAt := r.observedAt));
  }

  lemma {:induction false} SettledStampable(s: Portfolio, r: Receipt, t: Portfolio)
    requires Stampable(s, r) && r.body.TransferSettled? && ReceiptParses(r) && ReceivableEffect(s, r) == Ok(t)
    ensures Stampable(t, r)
  {
    hide Stampable, ApplyCosts, CreditCash;
    var id := r.body.transferId;
    var x := s.receivables[id];
    var credit := r.body.destinationCredit;
    var credited := CreditCash(s, x.destinationFamilyId, credit).value;
    CreditEdit(s, r, x.destinationFamilyId, credit, credited);
    ReceivableDrop(credited, r, id);
    ApplyCostsEdit(credited.(receivables := credited.receivables - {id}), r, x.amount - credit, t);
  }

  lemma {:induction false} ReceivableStampable(s: Portfolio, r: Receipt, t: Portfolio)
    requires Stampable(s, r) && r.body.MovesReceivable() && ReceiptParses(r) && PayablesBacked(s)
    requires ReceivableEffect(s, r) == Ok(t)
    ensures Stampable(t, r)
  {
    hide Stampable, MoveReceivable, ApplyCosts, CreditCash, FamilyAssets;
    var x := s.receivables[r.body.transferId];
    ReceivableFacts(s, r, r.body.transferId);
    match r.body
    case TransferReady(id, _) => MovedStampable(s, r, id, x.(state := ReadyToReceive), t);
    case TransferDelayed(id, _) => MovedStampable(s, r, id, x.(state := Delayed), t);
    case TransferRetry(id, _) =>
      MovedStampable(s, r, id, x.(state := DestinationRetry, attempts := x.attempts + 1), t);
    case TransferSettled(_, _, _) => SettledStampable(s, r, t);
  }

  lemma {:induction false} AccrueStampable(s: Portfolio, r: Receipt, t: Portfolio)
    requires Stampable(s, r) && r.body.Accrue? && ReceiptParses(r) && AccrueEffect(s, r) == Ok(t)
    ensures Stampable(t, r)
  {
    hide BookOf, RemainderOf, HasAsset, FamilyAssets;
    hide HistoryHolds, FamiliesHold, ReceivablesHold, ReservationsHold, PayablesHold, CostsHold, CashHolds,
        ClosureHolds;
    var x := s.positions[r.body.positionId];
    PositionFacts(s, r, r.body.positionId);
    RevaluedIsDerived(x, x.shares, r.body.nextNum, r.body.nextDen, r.sourceHashes[0], r.observedAt);
    PositionEdit(s, r, r.body.positionId, t.positions[r.body.positionId]);
  }

  lemma {:induction false} CloseStampable(s: Portfolio, r: Receipt, t: Portfolio)
    requires Stampable(s, r) && r.body.Close? && CloseEffect(s, r) == Ok(t)
    ensures Stampable(t, r)
  {
    hide HistoryHolds, FamiliesHold, ReceivablesHold, ReservationsHold, PayablesHold, CostsHold, CashHolds,
        PositionsHold;
  }

  lemma {:induction false} ApproveStampable(s: Portfolio, r: Receipt, t: Portfolio)
    requires Stampable(s, r) && r.body.Approve? && ReceiptParses(r) && ApproveEffect(s, r) == Ok(t)
    ensures Stampable(t, r)
  {
    hide Coherent, ApplyCosts;
    if !(r.body.allowanceId in s.allowances && s.allowances[r.body.allowanceId].amount >= r.body.amount) {
      ApplyCostsEdit(s, r, 0, ApplyCosts(s, r, 0).value);
      AllowanceEdit(ApplyCosts(s, r, 0).value, r, t.allowances);
    } else {
      AllowanceEdit(s, r, t.allowances);
    }
  }

  lemma {:induction false} AllowanceEdit(s: Portfolio, r: Receipt, allowances: map<Id, Allowance>)
    requires Stampable(s, r)
    ensures Stampable(s.(allowances := allowances), r)
  {
    hide HistoryHolds, FamiliesHold, ReceivablesHold, ReservationsHold, PayablesHold, CostsHold, CashHolds,
        PositionsHold;
  }

  lemma {:induction false} EffectStampable(s: Portfolio, r: Receipt, t: Portfolio)
    requires Stampable(s, r) && ReceiptParses(r) && IndexesPositive(s.positions) && PayablesBacked(s)
    requires 0 <= s.maxDestinationAttempts && Effect(s, r) == Ok(t)
    ensures Stampable(t, r)
  {
    hide Stampable, ReserveEffect, ApproveEffect, DepositEffect, WithdrawEffect, SwapEffect, PayableSettledEffect;
    hide SourceFailedEffect, BurnedEffect, ReceivableEffect, AccrueEffect, CloseEffect, ApplyCosts;
    match r.body
    case NoEffect =>
    case Reserve(_, _, _, _) => ReserveStampable(s, r, t);
    case CostOnly(_) => ApplyCostsEdit(s, r, 0, t);
    case Approve(_, _, _, _, _, _) => ApproveStampable(s, r, t);
    case Deposit(_, _, _, _, _, _, _, _) => DepositStampable(s, r, t);
    case Withdraw(_, _, _, _, _) => WithdrawStampable(s, r, t);
    case Swap(_, _, _, _, _) => SwapStampable(s, r, t);
    case PayableSettled(_, _) => PayableSettledStampable(s, r, t);
    case TransferSourceFailed(_, _) => SourceFailedStampable(s, r, t);
    case TransferBurned(_, _, _, _, _, _, _) => BurnedStampable(s, r, t);
    case TransferReady(_, _) => ReceivableStampable(s, r, t);
    case TransferDelayed(_, _) => ReceivableStampable(s, r, t);
    case TransferRetry(_, _) => ReceivableStampable(s, r, t);
    case TransferSettled(_, _, _) => ReceivableStampable(s, r, t);
    case Accrue(_, _, _, _) => AccrueStampable(s, r, t);
    case Close(_) => CloseStampable(s, r, t);
  }

  /******* The exact reach of the closing check *******/

  lemma {:induction false} AllowancesAfter(p: Portfolio, r: Receipt, s: Portfolio)
    requires AllowancesHold(p.allowances, p.views) && ReceiptParses(r) && IndexesPositive(p.positions)
    requires PayablesBacked(p) && Effect(p, r) == Ok(s)
    ensures AllowancesHold(s.allowances, s.views)
            <==> (r.body.Approve? ==> HasAsset(p.views, r.body.networkId, r.body.assetId))
  {
    hide Effect, ReceiptParses, IndexesPositive, PayablesBacked, Imbalance, HasAsset;
    EffectBalances(p, r, s);
    if r.body.Approve? {
      var b := r.body;
      ApprovalRecords(p, r, s);
      assert b.allowanceId in s.allowances && IsUInt(b.amount) by { ApprovalParses(r); }
    }
  }

  lemma ApprovalParses(r: Receipt)
    requires ReceiptParses(r) && r.body.Approve?
    ensures IsUInt(r.body.amount)
  {
  }

  lemma {:induction false} ApprovalRecords(p: Portfolio, r: Receipt, s: Portfolio)
    requires r.body.Approve? && ReceiptParses(r) && IndexesPositive(p.positions) && PayablesBacked(p)
    requires Effect(p, r) == Ok(s)
    ensures var b := r.body;
            s.allowances == p.allowances[b.allowanceId := Allowance(b.networkId, b.assetId, b.spenderId, b.amount)]
  {
    EffectBranch(p, r);
    hide Effect, ReceiptParses, IndexesPositive, ApplyCosts;
    if !(r.body.allowanceId in p.allowances && p.allowances[r.body.allowanceId].amount >= r.body.amount) {
      ApplyCostsMoves(p, r, 0, ApplyCosts(p, r, 0).value);
    }
  }

  // What a receipt adds to modelled PnL, read off before the call: the change of book an accrual marks, else nothing.
  function PnlChange(p: Portfolio, r: Receipt): int {
    if r.body.Accrue? && r.body.positionId in p.positions && 0 < r.body.nextDen then
      var x := p.positions[r.body.positionId];
      BookOf(x.shares, r.body.nextNum, r.body.nextDen) - x.book
    else 0
  }

  lemma {:induction false} PnlMoves(p: Portfolio, r: Receipt, s: Portfolio)
    requires ReceiptParses(r) && IndexesPositive(p.positions) && PayablesBacked(p) && Effect(p, r) == Ok(s)
    ensures s.pnl == p.pnl + PnlChange(p, r)
  {
    hide Imbalance, CostTotal, ApplyCosts, BookOf, RemainderOf;
    EffectBalances(p, r, s);
    EffectBranch(p, r);
    hide Effect;
  }

  // After a branch succeeds on a valid portfolio, the closing assertPortfolio can refuse the receipt
  // for only four reasons, all of them visible before the call: the receipt's own costs exceed net
  // value plus the accrual, an approval names an unknown asset, modelled PnL leaves int256, or the
  // version counter is exhausted.  Conservation is never one of them.
  lemma {:induction false} ClosingCheckRefusesOnlyInsolvency(p: Portfolio, r: Receipt, s: Portfolio)
    requires Valid(p) && StartsEmpty(p) && ReceiptParses(r) && FindApplied(p.applied, r.operationId).None?
    requires Admit(p, r).Ok? && Effect(p, r) == Ok(s)
    ensures Imbalance(Stamp(s, r)) == 0
    ensures ApplyReceipt(p, r).Ok? <==>
              && CostsSum(r.body.Costs()) <= NetValue(p) + PnlChange(p, r)
              && (r.body.Approve? ==> HasAsset(p.views, r.body.networkId, r.body.assetId))
              && IsInt256(p.pnl + PnlChange(p, r))
              && IsUInt(p.version + 1)
    ensures ApplyReceipt(p, r).Ok? ==> ApplyReceipt(p, r) == Ok(Stamp(s, r)) && StartsEmpty(Stamp(s, r))
  {
    hide Effect, Coherent, AllowancesHold, Admit, HasAsset, Sum, CostsSum, PnlChange;
    assert IndexesPositive(p.positions) && PayablesBacked(p) by { CoherentFacts(p); }
    PnlMoves(p, r, s);
    assert Coherent(Stamp(s, r)) by {
      AdmittedIsStampable(p, r);
      EffectStampable(p, r, s);
    }
    EffectBalances(p, r, s);
    AllowancesAfter(p, r, s);
  }

  lemma {:induction false} CoherentFacts(p: Portfolio)
    requires Coherent(p)
    ensures IndexesPositive(p.positions) && PayablesBacked(p)
  {
    hide HistoryHolds, FamiliesHold, ReservationsHold, ReceivablesHold;
  }
}
