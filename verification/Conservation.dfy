// Conservation: every receipt kind keeps net value = initial value + modelled PnL - recognised costs.
module Conservation {
  import opened Prelude
  import opened Ledger

  // Payables are created together with their cost, so every payable key is a cost key.
  predicate PayablesBacked(s: Portfolio) {
    forall k | k in s.payables :: k in s.costs
  }

  // What charging costs may change.
  predicate OnlyCostsMoved(s: Portfolio, t: Portfolio) {
    t == s.(cash := t.cash, payables := t.payables, costs := t.costs)
  }

  function WithheldPart(c: Cost): int { if c.funding.Withheld? then c.amount else 0 }

  lemma {:induction false} PayableOwed(s: Portfolio, id: Id, x: FeePayable)
    requires id !in s.payables
    ensures NetValue(s.(payables := s.payables[id := x])) == NetValue(s) - x.amount
  {
    SumPut(s.payables, PayableAmount, id, x);
  }

  lemma {:induction false} CashPaid(s: Portfolio, t: Portfolio, amount: int)
    requires t == s.(cash := t.cash) && CashTotal(t) == CashTotal(s) - amount
    ensures NetValue(t) == NetValue(s) - amount
  {
    hide Sum;
  }

  lemma {:induction false} FundCostShape(s: Portfolio, c: Cost, t: Portfolio)
    requires FundCost(s, c) == Ok(t)
    ensures OnlyCostsMoved(s, t) && t.costs == s.costs
    ensures forall k | k in t.payables :: k in s.payables || k == c.costId
  {
    hide DebitCash, CashTotal;
    match c.funding
    case AvailableCash => DebitMoves(s, c.cashFamily.value, c.amount, t);
    case OnPayable => assert t == s.(payables := s.payables[c.costId := FeePayable(c.networkId, c.amount)]);
    case Withheld => assert t == s;
  }

  lemma {:induction false} FundCostMoves(s: Portfolio, c: Cost, t: Portfolio)
    requires FundCost(s, c) == Ok(t) && c.costId !in s.payables
    ensures NetValue(t) == NetValue(s) - c.amount + WithheldPart(c)
  {
    hide NetValue, CashTotal, DebitCash;
    match c.funding
    case AvailableCash =>
      DebitMoves(s, c.cashFamily.value, c.amount, t);
      CashPaid(s, t, c.amount);
    case OnPayable => PayableOwed(s, c.costId, FeePayable(c.networkId, c.amount));
    case Withheld =>
  }

  lemma {:induction false} ChargeOneMoves(s: Portfolio, r: Receipt, c: Cost, t: Portfolio)
    requires ChargeOne(s, r, c) == Ok(t) && PayablesBacked(s)
    ensures OnlyCostsMoved(s, t) && PayablesBacked(t)
    ensures NetValue(t) == NetValue(s) - c.amount + WithheldPart(c)
    ensures CostTotal(t) == CostTotal(s) + c.amount
  {
    hide FundCost, Sum, WithheldPart;
    var funded := FundCost(s, c).value;
    FundCostShape(s, c, funded);
    FundCostMoves(s, c, funded);
    SumPut(s.costs, CostAmount, c.costId, RecognizedCost(c, r.operationId));
  }

  // Charging costs unbalances a portfolio by exactly the withheld part.
  lemma {:induction false} ChargeAllMoves(s: Portfolio, r: Receipt, costs: seq<Cost>, t: Portfolio)
    requires ChargeAll(s, r, costs) == Ok(t) && PayablesBacked(s)
    ensures OnlyCostsMoved(s, t) && PayablesBacked(t)
    ensures Imbalance(t) == Imbalance(s) + WithheldTotal(costs)
    ensures CostTotal(t) == CostTotal(s) + CostsSum(costs)
  {
    if costs != [] {
      var earlier := ChargeAll(s, r, costs[..|costs| - 1]).value;
      ChargeAllMoves(s, r, costs[..|costs| - 1], earlier);
      ChargeOneMoves(earlier, r, costs[|costs| - 1], t);
    }
  }

  lemma {:induction false} ApplyCostsMoves(s: Portfolio, r: Receipt, gap: int, t: Portfolio)
    requires ApplyCosts(s, r, gap) == Ok(t) && PayablesBacked(s)
    ensures OnlyCostsMoved(s, t) && PayablesBacked(t)
    ensures Imbalance(t) == Imbalance(s) + gap
    ensures CostTotal(t) == CostTotal(s) + CostsSum(r.body.Costs())
  {
    ChargeAllMoves(s, r, r.body.Costs(), t);
  }

  lemma {:induction false} DebitMoves(s: Portfolio, family: Id, amount: int, t: Portfolio)
    requires DebitCash(s, family, amount) == Ok(t)
    ensures t == s.(cash := t.cash) && CashTotal(t) == CashTotal(s) - amount
  {
    SumPut(s.cash, CashAmount, family, s.cash[family].(amount := s.cash[family].amount - amount));
  }

  lemma {:induction false} CreditMoves(s: Portfolio, family: Id, amount: int, t: Portfolio)
    requires CreditCash(s, family, amount) == Ok(t)
    ensures t == s.(cash := t.cash) && CashTotal(t) == CashTotal(s) + amount
  {
    SumPut(s.cash, CashAmount, family, s.cash[family].(amount := s.cash[family].amount + amount));
  }

  /******* The branches *******/

  // What every branch keeps: the balance, the identity fields, and never a smaller cost total.
  predicate Kept(s: Portfolio, r: Receipt, t: Portfolio) {
    && (!r.body.Accrue? ==> t.pnl == s.pnl)
    && (!r.body.Approve? ==> t.allowances == s.allowances)
    && (!r.body.Close? ==> t.closedAt == s.closedAt && t.deadlineState == s.deadlineState)
    && t.initialValue == s.initialValue
    && t.views == s.views && t.maxDestinationAttempts == s.maxDestinationAttempts
    && t.experimentId == s.experimentId && t.scenarioId == s.scenarioId && t.portfolioId == s.portfolioId
    && t.provenance == s.provenance
    && t.version == s.version && t.applied == s.applied && t.lastAppliedAt == s.lastAppliedAt
    && PayablesBacked(t)
  }

  lemma {:induction false} ReserveBalances(s: Portfolio, r: Receipt, t: Portfolio)
    requires r.body.Reserve? && ReserveEffect(s, r) == Ok(t) && PayablesBacked(s)
    ensures Imbalance(t) == Imbalance(s) && CostTotal(t) == CostTotal(s) + CostsSum(r.body.Costs()) && Kept(s, r, t)
  {
    var b := r.body;
    var view := s.views[b.cashViewId];
    DebitMoves(s, view.familyId, b.amount, DebitCash(s, view.familyId, b.amount).value);
    SumPut(s.reservations, ReservedAmount, b.reservationId, t.reservations[b.reservationId]);
  }

  lemma {:induction false} ApproveBalances(s: Portfolio, r: Receipt, t: Portfolio)
    requires r.body.Approve? && ApproveEffect(s, r) == Ok(t) && PayablesBacked(s) && ReceiptParses(r)
    ensures Imbalance(t) == Imbalance(s) && CostTotal(t) == CostTotal(s) + CostsSum(r.body.Costs()) && Kept(s, r, t)
  {
    hide ApplyCosts, ReceiptParses, Sum;
    if !(r.body.allowanceId in s.allowances && s.allowances[r.body.allowanceId].amount >= r.body.amount) {
      ApplyCostsMoves(s, r, 0, ApplyCosts(s, r, 0).value);
    }
  }

  // An accepted deposit, step by step: the cash debited, the position revalued, the gap charged.
  lemma {:induction false} DepositSteps(s: Portfolio, r: Receipt, t: Portfolio)
    returns (family: Id, debited: Portfolio, next: Position, book: int)
    requires r.body.Deposit? && ReceiptParses(r) && DepositEffect(s, r) == Ok(t)
    ensures DebitCash(s, family, r.body.input) == Ok(debited)
    ensures book == if r.body.positionId in s.positions then s.positions[r.body.positionId].book else 0
    ensures ApplyCosts(debited.(positions := debited.positions[r.body.positionId := next]), r,
                       r.body.input - (next.book - book)) == Ok(t)
  {
    hide ApplyCosts, DebitCash, BookOf, RemainderOf;
    var b := r.body;
    var view := s.views[b.cashViewId];
    family := view.familyId;
    debited := DebitCash(s, family, b.input).value;
    var start := if b.positionId in s.positions then s.positions[b.positionId]
                 else Position(view.networkId, b.instrumentId, view.assetId, 0, b.indexNum, b.indexDen, 0, 0,
                               r.sourceHashes[0], r.observedAt);
    book := start.book;
    next := Revalue(start, start.shares + b.sharesCredit, b.indexNum, b.indexDen, r.sourceHashes[0], r.observedAt);
  }

  lemma {:induction false} DepositBalances(s: Portfolio, r: Receipt, t: Portfolio)
    requires r.body.Deposit? && ReceiptParses(r) && DepositEffect(s, r) == Ok(t) && PayablesBacked(s)
    ensures Imbalance(t) == Imbalance(s) && CostTotal(t) == CostTotal(s) + CostsSum(r.body.Costs()) && Kept(s, r, t)
  {
    hide DepositEffect, ApplyCosts, DebitCash, ReceiptParses, CostsSum, Sum;
    var family, debited, next, book := DepositSteps(s, r, t);
    DebitMoves(s, family, r.body.input, debited);
    SumPut(s.positions, PositionBook, r.body.positionId, next);
    ApplyCostsMoves(debited.(positions := debited.positions[r.body.positionId := next]), r,
                    r.body.input - (next.book - book), t);
  }

  // A position replaced or dropped changes the position total by the book difference.
  lemma {:induction false} PositionsAfterDebit(s: Portfolio, id: Id, next: Position, drop: bool)
    requires id in s.positions
    ensures Sum(if drop then s.positions - {id} else s.positions[id := next], PositionBook)
            == Sum(s.positions, PositionBook) - s.positions[id].book + (if drop then 0 else next.book)
  {
    SumPut(s.positions, PositionBook, id, next);
    SumDrop(s.positions, PositionBook, id);
  }

  // What a withdrawal does once its shares are debited.
  lemma {:induction false} CreditAndCharge(s: Portfolio, reduced: Portfolio, family: Id, credit: int, gap: int,
      r: Receipt, t: Portfolio)
    requires reduced == s.(positions := reduced.positions)
             || reduced == s.(reservations := reduced.reservations)
             || reduced == s.(cash := reduced.cash)
    requires PayablesBacked(s) && CostsParse(r.body.Costs()) && !r.body.Accrue? && !r.body.Approve? && !r.body.Close?
    requires CreditCash(reduced, family, credit).Ok?
    requires ApplyCosts(CreditCash(reduced, family, credit).value, r, gap) == Ok(t)
    ensures Imbalance(t) == Imbalance(reduced) + credit + gap
    ensures CostTotal(t) == CostTotal(s) + CostsSum(r.body.Costs()) && Kept(s, r, t)
  {
    hide ApplyCosts;
    var credited := CreditCash(reduced, family, credit).value;
    CreditMoves(reduced, family, credit, credited);
    ApplyCostsMoves(credited, r, gap, t);
  }

  lemma {:induction false} WithdrawBalances(s: Portfolio, r: Receipt, t: Portfolio)
    requires r.body.Withdraw? && ReceiptParses(r) && IndexesPositive(s.positions) && PayablesBacked(s)
    requires WithdrawEffect(s, r) == Ok(t)
    ensures Imbalance(t) == Imbalance(s) && CostTotal(t) == CostTotal(s) + CostsSum(r.body.Costs()) && Kept(s, r, t)
  {
    hide ApplyCosts, CreditCash, BookOf, RemainderOf, Sum, CostsSum;
    var b := r.body;
    var x := s.positions[b.positionId];
    var left := x.shares - b.sharesDebit;
    var next := Revalue(x, left, x.indexNum, x.indexDen, r.sourceHashes[0], r.observedAt);
    PositionsAfterDebit(s, b.positionId, next, left == 0);
    var reduced := s.(positions :=
      if left == 0 then s.positions - {b.positionId} else s.positions[b.positionId := next]);
    var bookDebit := x.book - (if left == 0 then 0 else next.book);
    CreditAndCharge(s, reduced, s.views[b.cashViewId].familyId, b.cashCredit, bookDebit - b.cashCredit, r, t);
  }

  lemma {:induction false} SwapBalances(s: Portfolio, r: Receipt, t: Portfolio)
    requires r.body.Swap? && ReceiptParses(r) && SwapEffect(s, r) == Ok(t) && PayablesBacked(s)
    ensures Imbalance(t) == Imbalance(s) && CostTotal(t) == CostTotal(s) + CostsSum(r.body.Costs()) && Kept(s, r, t)
  {
    var b := r.body;
    var source, destination := s.views[b.sourceViewId].familyId, s.views[b.destinationViewId].familyId;
    var debited := DebitCash(s, source, b.sourceDebit).value;
    DebitMoves(s, source, b.sourceDebit, debited);
    var credited := CreditCash(debited, destination, b.destinationCredit).value;
    CreditMoves(debited, destination, b.destinationCredit, credited);
    ApplyCostsMoves(credited, r, b.sourceDebit - b.destinationCredit, t);
  }

  lemma {:induction false} PayableSettledBalances(s: Portfolio, r: Receipt, t: Portfolio)
    requires r.body.PayableSettled? && PayableSettledEffect(s, r) == Ok(t) && PayablesBacked(s)
    ensures Imbalance(t) == Imbalance(s) && CostTotal(t) == CostTotal(s) + CostsSum(r.body.Costs()) && Kept(s, r, t)
  {
    var id := r.body.payableId;
    var family := s.views[r.body.cashViewId].familyId;
    DebitMoves(s, family, s.payables[id].amount, DebitCash(s, family, s.payables[id].amount).value);
    SumDrop(s.payables, PayableAmount, id);
  }

  lemma {:induction false} SourceFailedBalances(s: Portfolio, r: Receipt, t: Portfolio)
    requires r.body.TransferSourceFailed? && ReceiptParses(r) && SourceFailedEffect(s, r) == Ok(t) && PayablesBacked(s)
    ensures Imbalance(t) == Imbalance(s) && CostTotal(t) == CostTotal(s) + CostsSum(r.body.Costs()) && Kept(s, r, t)
  {
    var id := r.body.reservationId;
    var x := s.reservations[id];
    SumDrop(s.reservations, ReservedAmount, id);
    var released := s.(reservations := s.reservations - {id});
    var withheld := WithheldTotal(r.body.costs);
    var credited := CreditCash(released, x.familyId, x.amount - withheld).value;
    CreditMoves(released, x.familyId, x.amount - withheld, credited);
    ApplyCostsMoves(credited, r, withheld, t);
  }

  lemma {:induction false} BurnedBalances(s: Portfolio, r: Receipt, t: Portfolio)
    requires r.body.TransferBurned? && ReceiptParses(r) && BurnedEffect(s, r) == Ok(t) && PayablesBacked(s)
    ensures Imbalance(t) == Imbalance(s) && CostTotal(t) == CostTotal(s) + CostsSum(r.body.Costs()) && Kept(s, r, t)
  {
    var b := r.body;
    var x := s.reservations[b.reservationId];
    var destination := s.views[b.destinationViewId];
    var receivable := Receivable(b.messageIdentity, x.networkId, b.destinationNetworkId, destination.familyId,
                                 b.netReceivable, InTransit, 0, r.observedAt, r.observedAt);
    SumDrop(s.reservations, ReservedAmount, b.reservationId);
    SumPut(s.receivables, ReceivableAmount, b.transferId, receivable);
    var moved := s.(reservations := s.reservations - {b.reservationId},
                    receivables := s.receivables[b.transferId := receivable]);
    ApplyCostsMoves(moved, r, x.amount - b.netReceivable, t);
  }

  lemma {:induction false} SettledBalances(s: Portfolio, r: Receipt, t: Portfolio)
    requires r.body.TransferSettled? && ReceiptParses(r) && ReceivableEffect(s, r) == Ok(t) && PayablesBacked(s)
    ensures Imbalance(t) == Imbalance(s) && CostTotal(t) == CostTotal(s) + CostsSum(r.body.Costs()) && Kept(s, r, t)
  {
    hide ApplyCosts;
    var id := r.body.transferId;
    var x := s.receivables[id];
    var credit := r.body.destinationCredit;
    var credited := CreditCash(s, x.destinationFamilyId, credit).value;
    CreditMoves(s, x.destinationFamilyId, credit, credited);
    SumDrop(s.receivables, ReceivableAmount, id);
    ApplyCostsMoves(credited.(receivables := credited.receivables - {id}), r, x.amount - credit, t);
  }

  lemma {:induction false} MovedBalances(s: Portfolio, r: Receipt, id: Id, x: Receivable, t: Portfolio)
    requires id in s.receivables && x.amount == s.receivables[id].amount
    requires CostsParse(r.body.Costs()) && !r.body.Accrue? && !r.body.Approve? && !r.body.Close? && PayablesBacked(s)
    requires MoveReceivable(s, r, id, x) == Ok(t)
    ensures Imbalance(t) == Imbalance(s) && CostTotal(t) == CostTotal(s) + CostsSum(r.body.Costs()) && Kept(s, r, t)
  {
    hide ApplyCosts;
    var charged := ApplyCosts(s, r, 0).value;
    ApplyCostsMoves(s, r, 0, charged);
    SumPut(s.receivables, ReceivableAmount, id, x.(updatedAt := r.observedAt));
  }

  lemma {:induction false} ReceivableBalances(s: Portfolio, r: Receipt, t: Portfolio)
    requires r.body.MovesReceivable() && ReceiptParses(r) && ReceivableEffect(s, r) == Ok(t) && PayablesBacked(s)
    ensures Imbalance(t) == Imbalance(s) && CostTotal(t) == CostTotal(s) + CostsSum(r.body.Costs()) && Kept(s, r, t)
  {
    hide MoveReceivable, ApplyCosts, CreditCash, Imbalance, Kept;
    var x := s.receivables[r.body.transferId];
    match r.body
    case TransferReady(id, _) => MovedBalances(s, r, id, x.(state := ReadyToReceive), t);
    case TransferDelayed(id, _) => MovedBalances(s, r, id, x.(state := Delayed), t);
    case TransferRetry(id, _) =>
      MovedBalances(s, r, id, x.(state := DestinationRetry, attempts := x.attempts + 1), t);
    case TransferSettled(_, _, _) => SettledBalances(s, r, t);
  }

  lemma {:induction false} AccrueBalances(s: Portfolio, r: Receipt, t: Portfolio)
    requires r.body.Accrue? && ReceiptParses(r) && AccrueEffect(s, r) == Ok(t) && PayablesBacked(s)
    ensures Imbalance(t) == Imbalance(s) && CostTotal(t) == CostTotal(s) + CostsSum(r.body.Costs()) && Kept(s, r, t)
  {
    SumPut(s.positions, PositionBook, r.body.positionId, t.positions[r.body.positionId]);
  }

  // Each of the sixteen kinds, taken by itself, keeps the conservation identity and recognises
  // exactly its own costs.  No closing check is involved.
  lemma {:induction false} EffectBalances(s: Portfolio, r: Receipt, t: Portfolio)
    requires ReceiptParses(r) && IndexesPositive(s.positions) && PayablesBacked(s)
    requires Effect(s, r) == Ok(t)
    ensures Imbalance(t) == Imbalance(s)
    ensures CostTotal(t) == CostTotal(s) + CostsSum(r.body.Costs())
    ensures Kept(s, r, t)
  {
    EffectBranch(s, r);
    NoAttemptBalances(s, r, t);
    hide *;
    match r.body
    case NoEffect =>
    case Reserve(_, _, _, _) => ReserveBalances(s, r, t);
    case CostOnly(_) => ApplyCostsMoves(s, r, 0, t); CostsKept(s, r, t);
    case Approve(_, _, _, _, _, _) => ApproveBalances(s, r, t);
    case Deposit(_, _, _, _, _, _, _, _) => DepositBalances(s, r, t);
    case Withdraw(_, _, _, _, _) => WithdrawBalances(s, r, t);
    case Swap(_, _, _, _, _) => SwapBalances(s, r, t);
    case PayableSettled(_, _) => PayableSettledBalances(s, r, t);
    case TransferSourceFailed(_, _) => SourceFailedBalances(s, r, t);
    case TransferBurned(_, _, _, _, _, _, _) => BurnedBalances(s, r, t);
    case TransferReady(_, _) => ReceivableBalances(s, r, t);
    case TransferDelayed(_, _) => ReceivableBalances(s, r, t);
    case TransferRetry(_, _) => ReceivableBalances(s, r, t);
    case TransferSettled(_, _, _) => ReceivableBalances(s, r, t);
    case Accrue(_, _, _, _) => AccrueBalances(s, r, t);
    case Close(_) =>
  }

  // Which branch a receipt takes.
  lemma {:induction false} EffectBranch(s: Portfolio, r: Receipt)
    requires ReceiptParses(r) && IndexesPositive(s.positions)
    ensures r.body.Reserve? ==> Effect(s, r) == ReserveEffect(s, r)
    ensures r.body.CostOnly? ==> Effect(s, r) == ApplyCosts(s, r, 0)
    ensures r.body.Approve? ==> Effect(s, r) == ApproveEffect(s, r)
    ensures r.body.Deposit? ==> Effect(s, r) == DepositEffect(s, r)
    ensures r.body.Withdraw? ==> Effect(s, r) == WithdrawEffect(s, r)
    ensures r.body.Swap? ==> Effect(s, r) == SwapEffect(s, r)
    ensures r.body.PayableSettled? ==> Effect(s, r) == PayableSettledEffect(s, r)
    ensures r.body.TransferSourceFailed? ==> Effect(s, r) == SourceFailedEffect(s, r)
    ensures r.body.TransferBurned? ==> Effect(s, r) == BurnedEffect(s, r)
    ensures r.body.TransferReady? || r.body.TransferDelayed? || r.body.TransferRetry? || r.body.TransferSettled? ==>
              r.body.MovesReceivable() && Effect(s, r) == ReceivableEffect(s, r)
    ensures r.body.Accrue? ==> Effect(s, r) == AccrueEffect(s, r)
  {
    hide ReserveEffect, ApproveEffect, DepositEffect, WithdrawEffect, SwapEffect, PayableSettledEffect;
    hide SourceFailedEffect, BurnedEffect, ReceivableEffect, AccrueEffect, ApplyCosts, CloseEffect, ReceiptParses;
  }

  lemma CostsKept(s: Portfolio, r: Receipt, t: Portfolio)
    requires r.body.CostOnly? && OnlyCostsMoved(s, t) && PayablesBacked(t)
    ensures Kept(s, r, t)
  {
  }

  // The two kinds that attempt nothing.
  lemma {:induction false} NoAttemptBalances(s: Portfolio, r: Receipt, t: Portfolio)
    requires ReceiptParses(r) && IndexesPositive(s.positions) && PayablesBacked(s)
    requires Effect(s, r) == Ok(t)
    ensures r.body.NoEffect? || r.body.Close? ==>
              Imbalance(t) == Imbalance(s) && CostTotal(t) == CostTotal(s) + CostsSum(r.body.Costs()) && Kept(s, r, t)
  {
    hide ReserveEffect, ApproveEffect, DepositEffect, WithdrawEffect, SwapEffect, PayableSettledEffect;
    hide SourceFailedEffect, BurnedEffect, ReceivableEffect, AccrueEffect, ApplyCosts, ReceiptParses, Sum;
    if r.body.NoEffect? || r.body.Close? { assert CostsSum(r.body.Costs()) == 0; }
  }

  /******* Over whole runs *******/

  lemma {:induction false} CostsAreNonNegative(costs: seq<Cost>)
    requires CostsParse(costs)
    ensures 0 <= WithheldTotal(costs) <= CostsSum(costs)
  {
    if costs != [] {
      CostsAreNonNegative(costs[..|costs| - 1]);
    }
  }

  lemma {:induction false} AcceptedSteps(p: Portfolio, r: Receipt, q: Portfolio)
    requires ApplyReceipt(p, r) == Ok(q)
    ensures Valid(p) && Valid(q) && Imbalance(p) == 0 && Imbalance(q) == 0
    ensures CostTotal(p) <= CostTotal(q) && q.initialValue == p.initialValue
    ensures !r.body.Accrue? ==> q.pnl == p.pnl
  {
    hide Effect, HeaderHolds, HistoryHolds, AllowancesHold, FamiliesHold, ReservationsHold, ReceivablesHold;
    if FindApplied(p.applied, r.operationId).None? {
      EffectBalances(p, r, Effect(p, r).value);
      CostsAreNonNegative(r.body.Costs());
    }
  }

  // Over any accepted stream, net value moves by modelled PnL less newly recognised costs, and a
  // stream without accruals can never raise it.
  lemma {:induction false} OnlyAccrualsRaiseNetValue(p: Portfolio, rs: seq<Receipt>, q: Portfolio)
    requires Replay(p, rs) == Ok(q)
    ensures Valid(p) && Valid(q)
    ensures NetValue(q) - NetValue(p) == (q.pnl - p.pnl) - (CostTotal(q) - CostTotal(p))
    ensures CostTotal(p) <= CostTotal(q) && q.initialValue == p.initialValue
    ensures (forall i | 0 <= i < |rs| :: !rs[i].body.Accrue?) ==> q.pnl == p.pnl && NetValue(q) <= NetValue(p)
  {
    hide ApplyReceipt, Valid;
    if rs != [] {
      var earlier := Replay(p, rs[..|rs| - 1]).value;
      OnlyAccrualsRaiseNetValue(p, rs[..|rs| - 1], earlier);
      AcceptedSteps(earlier, rs[|rs| - 1], q);
    }
  }
}
