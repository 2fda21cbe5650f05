// Exactly when the ledger accepts a receipt, for every kind, read off the receipt and the books before it.
module Acceptance {
  import opened Prelude
  import opened Ledger
  import opened Conservation
  import opened Frames
  import opened Redelivery
  import opened Affordable
  import opened Closing
  import opened Commits

  /******* The conditions *******/

  // The view is known and its family has the amount.
  predicate Covers(p: Portfolio, viewId: Id, amount: int) {
    viewId in p.views && p.views[viewId].familyId in p.cash && amount <= p.cash[p.views[viewId].familyId].amount
  }

  function FamilyOf(p: Portfolio, viewId: Id): Id
    requires viewId in p.views
  {
    p.views[viewId].familyId
  }

  predicate ReserveFits(p: Portfolio, b: Body)
    requires b.Reserve?
  {
    b.costs == [] && b.reservationId !in p.reservations && Covers(p, b.cashViewId, b.amount)
  }

  // A known allowance keeps its parties, and a sufficient one is free.
  predicate ApproveFits(p: Portfolio, r: Receipt)
    requires r.body.Approve?
  {
    var b := r.body;
    && (b.allowanceId in p.allowances ==>
          var x := p.allowances[b.allowanceId];
          x.networkId == b.networkId && x.assetId == b.assetId && x.spenderId == b.spenderId)
    && HasAsset(p.views, b.networkId, b.assetId)
    && if b.allowanceId in p.allowances && b.amount <= p.allowances[b.allowanceId].amount then b.costs == []
       else ChargesFit(p, p.cash, r.sourceHashes, b.costs, 0)
  }

  // The shares and the book a position has, none when it is not open.
  function HeldShares(p: Portfolio, id: Id): int { if id in p.positions then p.positions[id].shares else 0 }

  function HeldBook(p: Portfolio, id: Id): int { if id in p.positions then p.positions[id].book else 0 }

  // An open position is of the view's network and asset, and of the deposit's instrument and index.
  predicate SameIndex(p: Portfolio, b: Body)
    requires b.Deposit? && b.cashViewId in p.views
  {
    b.positionId in p.positions ==>
      var x, view := p.positions[b.positionId], p.views[b.cashViewId];
      && x.networkId == view.networkId && x.assetId == view.assetId && x.instrumentId == b.instrumentId
      && x.indexNum == b.indexNum && x.indexDen == b.indexDen
  }

  // Into the same instrument at the same index; the book may not gain more than was put in, and the costs withhold
  // exactly what it does not gain.
  predicate DepositFits(p: Portfolio, r: Receipt)
    requires r.body.Deposit? && 0 < r.body.indexDen
  {
    var b := r.body;
    && Covers(p, b.cashViewId, b.input)
    && SameIndex(p, b)
    && var shares := HeldShares(p, b.positionId) + b.sharesCredit;
    && var book := shares * b.indexNum / b.indexDen;
    && var gain := book - HeldBook(p, b.positionId);
    && IsUInt(shares) && IsUInt(book) && gain <= b.input
    && ChargesFit(p, Credited(p.cash, FamilyOf(p, b.cashViewId), -b.input), r.sourceHashes, b.costs, b.input - gain)
  }

  // Through a view of the position's network and asset, at most its shares and at most the book they take along.
  predicate WithdrawFits(p: Portfolio, r: Receipt)
    requires r.body.Withdraw? && IndexesPositive(p.positions)
  {
    var b := r.body;
    && b.cashViewId in p.views && b.positionId in p.positions
    && var x, view := p.positions[b.positionId], p.views[b.cashViewId];
    && x.networkId == view.networkId && x.assetId == view.assetId && b.sharesDebit <= x.shares
    && var left := x.shares - b.sharesDebit;
    && var released := x.book - (if left == 0 then 0 else left * x.indexNum / x.indexDen);
    && (left != 0 ==> IsUInt(left * x.indexNum / x.indexDen))
    && b.cashCredit <= released && CanCredit(p.cash, view.familyId, b.cashCredit)
    && ChargesFit(p, Credited(p.cash, view.familyId, b.cashCredit), r.sourceHashes, b.costs, released - b.cashCredit)
  }

  // Between two families of one network, and never for more than was given.
  predicate Swappable(p: Portfolio, b: Body)
    requires b.Swap?
  {
    && b.sourceViewId in p.views && b.destinationViewId in p.views && b.destinationCredit <= b.sourceDebit
    && FamilyOf(p, b.sourceViewId) != FamilyOf(p, b.destinationViewId)
    && p.views[b.sourceViewId].networkId == p.views[b.destinationViewId].networkId
  }

  // The source family has the amount, the destination family has room, and the costs withhold the difference.
  predicate SwapFits(p: Portfolio, r: Receipt)
    requires r.body.Swap?
  {
    var b := r.body;
    && Swappable(p, b) && Covers(p, b.sourceViewId, b.sourceDebit)
    && CanCredit(p.cash, FamilyOf(p, b.destinationViewId), b.destinationCredit)
    && ChargesFit(p, Credited(Credited(p.cash, FamilyOf(p, b.sourceViewId), -b.sourceDebit),
                              FamilyOf(p, b.destinationViewId), b.destinationCredit),
                  r.sourceHashes, b.costs, b.sourceDebit - b.destinationCredit)
  }

  predicate PayableFits(p: Portfolio, b: Body)
    requires b.PayableSettled?
  {
    && b.payableId in p.payables && Covers(p, b.cashViewId, p.payables[b.payableId].amount)
    && p.payables[b.payableId].networkId == p.views[b.cashViewId].networkId
  }

  predicate SourceFailureFits(p: Portfolio, r: Receipt)
    requires r.body.TransferSourceFailed?
  {
    var b, withheld := r.body, WithheldTotal(r.body.costs);
    && b.reservationId in p.reservations
    && var x := p.reservations[b.reservationId];
    && withheld <= x.amount && CanCredit(p.cash, x.familyId, x.amount - withheld)
    && ChargesFit(p, Credited(p.cash, x.familyId, x.amount - withheld), r.sourceHashes, b.costs, withheld)
  }

  predicate BurnFits(p: Portfolio, r: Receipt)
    requires r.body.TransferBurned?
  {
    var b := r.body;
    && b.reservationId in p.reservations && b.transferId !in p.receivables
    && (forall k | k in p.receivables :: p.receivables[k].messageIdentity != b.messageIdentity)
    && b.destinationViewId in p.views
    && var x := p.reservations[b.reservationId];
    && p.views[b.destinationViewId].networkId == b.destinationNetworkId != x.networkId
    && b.netReceivable <= x.amount
    && ChargesFit(p, p.cash, r.sourceHashes, b.costs, x.amount - b.netReceivable)
  }

  predicate ReceivableFits(p: Portfolio, r: Receipt)
    requires r.body.MovesReceivable()
  {
    var b := r.body;
    && b.transferId in p.receivables
    && var x := p.receivables[b.transferId];
    && NextReceivable(x, b, r.observedAt, p.maxDestinationAttempts).Ok?
    && if b.TransferSettled? then
         && CanCredit(p.cash, x.destinationFamilyId, b.destinationCredit)
         && ChargesFit(p, Credited(p.cash, x.destinationFamilyId, b.destinationCredit), r.sourceHashes, b.costs,
                       x.amount - b.destinationCredit)
       else ChargesFit(p, p.cash, r.sourceHashes, b.costs, 0)
  }

  predicate AccrueFits(p: Portfolio, r: Receipt)
    requires r.body.Accrue? && 0 < r.body.nextDen
  {
    var b := r.body;
    && b.costs == [] && b.positionId in p.positions && p.positions[b.positionId].lastObservedAt < r.observedAt
    && IsUInt(p.positions[b.positionId].shares * b.nextNum / b.nextDen)
  }

  // What the books must have for each kind.
  predicate BranchFits(p: Portfolio, r: Receipt)
    requires ReceiptParses(r) && IndexesPositive(p.positions)
  {
    match r.body
    case NoEffect => true
    case Reserve(_, _, _, _) => ReserveFits(p, r.body)
    case CostOnly(costs) => ChargesFit(p, p.cash, r.sourceHashes, costs, 0)
    case Approve(_, _, _, _, _, _) => ApproveFits(p, r)
    case Deposit(_, _, _, _, _, _, _, _) => DepositFits(p, r)
    case Withdraw(_, _, _, _, _) => WithdrawFits(p, r)
    case Swap(_, _, _, _, _) => SwapFits(p, r)
    case PayableSettled(_, _) => PayableFits(p, r.body)
    case TransferSourceFailed(_, _) => SourceFailureFits(p, r)
    case TransferBurned(_, _, _, _, _, _, _) => BurnFits(p, r)
    case TransferReady(_, _) => ReceivableFits(p, r)
    case TransferDelayed(_, _) => ReceivableFits(p, r)
    case TransferRetry(_, _) => ReceivableFits(p, r)
    case TransferSettled(_, _, _) => ReceivableFits(p, r)
    case Accrue(_, _, _, _) => AccrueFits(p, r)
    case Close(at) => at == r.observedAt
  }

  // The header is the portfolio's own, at its version, not earlier than its last receipt; a closed portfolio still
  // moves receivables and nothing else.
  predicate HeaderFits(p: Portfolio, r: Receipt) {
    && r.experimentId == p.experimentId && r.scenarioId == p.scenarioId && r.provenance == p.provenance
    && r.expectedVersion == p.version
    && (p.lastAppliedAt.Some? ==> p.lastAppliedAt.value <= r.observedAt)
    && (p.closedAt.Some? ==>
          r.body.TransferReady? || r.body.TransferDelayed? || r.body.TransferRetry? || r.body.TransferSettled?)
    && IsUInt(p.version + 1)
  }

  // The receipt's own costs stay within net value and what it accrues, and modelled PnL within int256.
  ghost predicate ValueFits(p: Portfolio, r: Receipt) {
    CostsSum(r.body.Costs()) <= NetValue(p) + PnlChange(p, r) && IsInt256(p.pnl + PnlChange(p, r))
  }

  /******* Branch by branch *******/

  lemma {:induction false} ReserveTaken(p: Portfolio, r: Receipt)
    requires r.body.Reserve?
    ensures ReserveEffect(p, r).Ok? <==> ReserveFits(p, r.body)
  {
  }

  lemma {:induction false} ApproveTaken(p: Portfolio, r: Receipt)
    requires r.body.Approve? && CashHolds(p.cash) && CostsParse(r.body.Costs())
    ensures ApproveEffect(p, r).Ok? && HasAsset(p.views, r.body.networkId, r.body.assetId) <==> ApproveFits(p, r)
  {
    hide ApplyCosts, CanCharge, CostsParse, WithheldTotal, CashHolds, HasAsset;
    CostsTaken(p, r, 0);
  }

  lemma {:induction false} DebitKept(p: Portfolio, family: Id, amount: int)
    requires CashHolds(p.cash) && 0 <= amount
    ensures DebitCash(p, family, amount).Ok? <==> family in p.cash && amount <= p.cash[family].amount
    ensures DebitCash(p, family, amount).Ok? ==>
              && DebitCash(p, family, amount) == Ok(p.(cash := Credited(p.cash, family, -amount)))
              && CashHolds(Credited(p.cash, family, -amount))
  {
  }

  lemma {:induction false} CreditKept(p: Portfolio, family: Id, amount: int)
    requires CashHolds(p.cash)
    ensures CreditCash(p, family, amount).Ok? <==> CanCredit(p.cash, family, amount)
    ensures CreditCash(p, family, amount).Ok? ==>
              && CreditCash(p, family, amount) == Ok(p.(cash := Credited(p.cash, family, amount)))
              && CashHolds(Credited(p.cash, family, amount))
  {
  }

  // Charging the costs to a working copy that has moved its cash and recognised nothing.
  lemma {:induction false} ChargesDecide(p: Portfolio, u: Portfolio, r: Receipt, gap: int)
    requires u.costs == p.costs && CashHolds(u.cash) && CostsParse(r.body.Costs())
    ensures ApplyCosts(u, r, gap).Ok? <==> ChargesFit(p, u.cash, r.sourceHashes, r.body.Costs(), gap)
  {
    hide ApplyCosts, CanCharge, CostsParse, WithheldTotal, CashHolds;
    CostsTaken(u, r, gap);
  }

  // The position a deposit leaves.
  function Deposited(p: Portfolio, r: Receipt): Position
    requires r.body.Deposit? && ReceiptParses(r) && r.body.cashViewId in p.views
  {
    var b, view := r.body, p.views[r.body.cashViewId];
    var start := if b.positionId in p.positions then p.positions[b.positionId]
                 else Position(view.networkId, b.instrumentId, view.assetId, 0, b.indexNum, b.indexDen, 0, 0,
                               r.sourceHashes[0], r.observedAt);
    Revalue(start, start.shares + b.sharesCredit, b.indexNum, b.indexDen, r.sourceHashes[0], r.observedAt)
  }

  lemma {:induction false} DepositShape(p: Portfolio, r: Receipt)
    requires r.body.Deposit? && ReceiptParses(r)
    ensures DepositEffect(p, r).Ok? <==>
              && r.body.cashViewId in p.views
              && var debited := DebitCash(p, FamilyOf(p, r.body.cashViewId), r.body.input);
              && debited.Ok? && SameIndex(p, r.body)
              && var next := Deposited(p, r);
              && var gain := next.book - HeldBook(p, r.body.positionId);
              && IsUInt(next.shares) && IsUInt(next.book) && gain <= r.body.input
              && ApplyCosts(debited.value.(positions := p.positions[r.body.positionId := next]), r,
                            r.body.input - gain).Ok?
  {
    hide ApplyCosts, BookOf, RemainderOf;
  }

  // The working copy a deposit's costs are applied to, and the part of the input its book does not gain.
  function DepositBefore(p: Portfolio, r: Receipt): Portfolio
    requires r.body.Deposit? && ReceiptParses(r) && r.body.cashViewId in p.views
  {
    p.(cash := Credited(p.cash, FamilyOf(p, r.body.cashViewId), -r.body.input),
       positions := p.positions[r.body.positionId := Deposited(p, r)])
  }

  function DepositGap(p: Portfolio, r: Receipt): int
    requires r.body.Deposit? && ReceiptParses(r) && r.body.cashViewId in p.views
  {
    r.body.input - (Deposited(p, r).book - HeldBook(p, r.body.positionId))
  }

  predicate Depositable(p: Portfolio, r: Receipt)
    requires r.body.Deposit? && ReceiptParses(r)
  {
    && Covers(p, r.body.cashViewId, r.body.input) && SameIndex(p, r.body)
    && IsUInt(Deposited(p, r).shares) && IsUInt(Deposited(p, r).book) && 0 <= DepositGap(p, r)
  }

  lemma {:induction false} DepositBooked(p: Portfolio, r: Receipt)
    requires r.body.Deposit? && ReceiptParses(r) && CashHolds(p.cash)
    ensures Depositable(p, r) ==> r.body.cashViewId in p.views && CashHolds(DepositBefore(p, r).cash)
    ensures DepositEffect(p, r).Ok? <==>
              Depositable(p, r) && ApplyCosts(DepositBefore(p, r), r, DepositGap(p, r)).Ok?
  {
    hide DepositEffect, ApplyCosts, CashHolds, Credited, Deposited, DebitCash;
    ParsedCosts(r);
    DepositShape(p, r);
    if r.body.cashViewId in p.views {
      DebitKept(p, FamilyOf(p, r.body.cashViewId), r.body.input);
    }
  }

  lemma {:induction false} DepositFitsShape(p: Portfolio, r: Receipt)
    requires r.body.Deposit? && ReceiptParses(r)
    ensures 0 < r.body.indexDen
    ensures DepositFits(p, r) <==>
              && Depositable(p, r)
              && ChargesFit(p, DepositBefore(p, r).cash, r.sourceHashes, r.body.Costs(), DepositGap(p, r))
  {
    hide ChargesFit, Credited, CostsParse, IsUInt, SameIndex;
    ParsedCosts(r);
    if r.body.cashViewId in p.views {
      DepositedFigures(p, r);
    }
    hide Deposited, BookOf;
  }

  lemma {:induction false} DepositTaken(p: Portfolio, r: Receipt)
    requires r.body.Deposit? && ReceiptParses(r) && CashHolds(p.cash)
    ensures 0 < r.body.indexDen
    ensures DepositEffect(p, r).Ok? <==> DepositFits(p, r)
  {
    hide *;
    ParsedCosts(r);
    DepositBooked(p, r);
    DepositFitsShape(p, r);
    if Depositable(p, r) {
      DepositBooks(p, r);
      ChargesDecide(p, DepositBefore(p, r), r, DepositGap(p, r));
    }
  }

  lemma DepositBooks(p: Portfolio, r: Receipt)
    requires r.body.Deposit? && ReceiptParses(r) && r.body.cashViewId in p.views
    ensures DepositBefore(p, r).costs == p.costs
  {
  }

  lemma {:induction false} DepositedFigures(p: Portfolio, r: Receipt)
    requires r.body.Deposit? && ReceiptParses(r) && r.body.cashViewId in p.views
    ensures var shares := HeldShares(p, r.body.positionId) + r.body.sharesCredit;
            && 0 < r.body.indexDen && 0 <= r.body.input
            && Deposited(p, r).shares == shares
            && Deposited(p, r).book == shares * r.body.indexNum / r.body.indexDen
  {
  }

  lemma ParsedCosts(r: Receipt)
    requires ReceiptParses(r)
    ensures CostsParse(r.body.Costs())
    ensures r.body.Swap? ==> 0 <= r.body.sourceDebit
    ensures r.body.Deposit? ==> 0 <= r.body.input && 0 < r.body.indexDen
  {
  }

  // The position a withdrawal leaves, and what it releases of the book.
  function Withdrawn(p: Portfolio, r: Receipt): Position
    requires r.body.Withdraw? && ReceiptParses(r) && IndexesPositive(p.positions) && r.body.positionId in p.positions
  {
    var x := p.positions[r.body.positionId];
    Revalue(x, x.shares - r.body.sharesDebit, x.indexNum, x.indexDen, r.sourceHashes[0], r.observedAt)
  }

  // What a withdrawal releases of the book, and the working copy before its cash is credited.
  function Released(p: Portfolio, r: Receipt): int
    requires r.body.Withdraw? && ReceiptParses(r) && IndexesPositive(p.positions) && r.body.positionId in p.positions
  {
    p.positions[r.body.positionId].book - (if Withdrawn(p, r).shares == 0 then 0 else Withdrawn(p, r).book)
  }

  function Reduced(p: Portfolio, r: Receipt): Portfolio
    requires r.body.Withdraw? && ReceiptParses(r) && IndexesPositive(p.positions) && r.body.positionId in p.positions
  {
    p.(positions := if Withdrawn(p, r).shares == 0 then p.positions - {r.body.positionId}
                    else p.positions[r.body.positionId := Withdrawn(p, r)])
  }

  predicate Withdrawable(p: Portfolio, r: Receipt)
    requires r.body.Withdraw? && ReceiptParses(r) && IndexesPositive(p.positions)
  {
    var b := r.body;
    && b.cashViewId in p.views && b.positionId in p.positions
    && var x, view, next := p.positions[b.positionId], p.views[b.cashViewId], Withdrawn(p, r);
    && x.networkId == view.networkId && x.assetId == view.assetId && b.sharesDebit <= x.shares
    && (next.shares != 0 ==> IsUInt(next.book)) && b.cashCredit <= Released(p, r)
  }

  lemma {:induction false} WithdrawShape(p: Portfolio, r: Receipt)
    requires r.body.Withdraw? && ReceiptParses(r) && IndexesPositive(p.positions)
    ensures var b := r.body;
            WithdrawEffect(p, r).Ok? <==>
              && Withdrawable(p, r) && b.cashViewId in p.views && b.positionId in p.positions
              && var credited := CreditCash(Reduced(p, r), FamilyOf(p, b.cashViewId), b.cashCredit);
              && credited.Ok? && ApplyCosts(credited.value, r, Released(p, r) - b.cashCredit).Ok?
  {
    hide ApplyCosts, BookOf, RemainderOf, CreditCash;
  }

  lemma {:induction false} WithdrawFitsShape(p: Portfolio, r: Receipt)
    requires r.body.Withdraw? && ReceiptParses(r) && IndexesPositive(p.positions)
    ensures var b := r.body;
            && (Withdrawable(p, r) ==> b.cashViewId in p.views && b.positionId in p.positions)
            && (WithdrawFits(p, r) <==>
                  && Withdrawable(p, r) && b.cashViewId in p.views && b.positionId in p.positions
                  && CanCredit(p.cash, FamilyOf(p, b.cashViewId), b.cashCredit)
                  && ChargesFit(p, Credited(p.cash, FamilyOf(p, b.cashViewId), b.cashCredit), r.sourceHashes, b.Costs(),
                                Released(p, r) - b.cashCredit))
  {
    hide ChargesFit, Credited, CostsParse, IsUInt, CanCredit;
  }

  lemma ReducedKeeps(p: Portfolio, r: Receipt)
    requires r.body.Withdraw? && ReceiptParses(r) && IndexesPositive(p.positions) && r.body.positionId in p.positions
    ensures Reduced(p, r).cash == p.cash && Reduced(p, r).costs == p.costs
  {
  }

  lemma {:induction false} WithdrawTaken(p: Portfolio, r: Receipt)
    requires r.body.Withdraw? && ReceiptParses(r) && IndexesPositive(p.positions) && CashHolds(p.cash)
    ensures WithdrawEffect(p, r).Ok? <==> WithdrawFits(p, r)
  {
    hide *;
    ParsedCosts(r);
    WithdrawShape(p, r);
    WithdrawFitsShape(p, r);
    if Withdrawable(p, r) {
      ReducedKeeps(p, r);
      CreditKept(Reduced(p, r), FamilyOf(p, r.body.cashViewId), r.body.cashCredit);
      var credited := CreditCash(Reduced(p, r), FamilyOf(p, r.body.cashViewId), r.body.cashCredit);
      if credited.Ok? {
        ChargesDecide(p, credited.value, r, Released(p, r) - r.body.cashCredit);
      }
    }
  }

  // The two moves of a swap, one after the other.
  function SwapMoved(p: Portfolio, b: Body): Result<Portfolio>
    requires b.Swap? && b.sourceViewId in p.views && b.destinationViewId in p.views
  {
    var debited :- DebitCash(p, FamilyOf(p, b.sourceViewId), b.sourceDebit);
    CreditCash(debited, FamilyOf(p, b.destinationViewId), b.destinationCredit)
  }

  lemma {:induction false} SwapCash(p: Portfolio, b: Body)
    requires b.Swap? && b.sourceViewId in p.views && b.destinationViewId in p.views && CashHolds(p.cash)
    requires FamilyOf(p, b.sourceViewId) != FamilyOf(p, b.destinationViewId) && 0 <= b.sourceDebit
    ensures SwapMoved(p, b).Ok? <==>
              Covers(p, b.sourceViewId, b.sourceDebit)
              && CanCredit(p.cash, FamilyOf(p, b.destinationViewId), b.destinationCredit)
    ensures SwapMoved(p, b).Ok? ==>
              var u := SwapMoved(p, b).value;
              && u == p.(cash := Credited(Credited(p.cash, FamilyOf(p, b.sourceViewId), -b.sourceDebit),
                                          FamilyOf(p, b.destinationViewId), b.destinationCredit))
              && CashHolds(u.cash)
  {
    DebitKept(p, FamilyOf(p, b.sourceViewId), b.sourceDebit);
    if Covers(p, b.sourceViewId, b.sourceDebit) {
      CreditKept(DebitCash(p, FamilyOf(p, b.sourceViewId), b.sourceDebit).value, FamilyOf(p, b.destinationViewId),
                 b.destinationCredit);
    }
  }

  lemma {:induction false} SwapShape(p: Portfolio, r: Receipt)
    requires r.body.Swap?
    ensures var b := r.body;
            SwapEffect(p, r).Ok? <==>
              && Swappable(p, b) && b.sourceViewId in p.views && b.destinationViewId in p.views
              && SwapMoved(p, b).Ok?
              && ApplyCosts(SwapMoved(p, b).value, r, b.sourceDebit - b.destinationCredit).Ok?
  {
    hide ApplyCosts, DebitCash, CreditCash;
  }

  lemma {:induction false} SwapFitsShape(p: Portfolio, r: Receipt)
    requires r.body.Swap?
    ensures var b := r.body;
            && (Swappable(p, b) ==>
                  && b.sourceViewId in p.views && b.destinationViewId in p.views
                  && FamilyOf(p, b.sourceViewId) != FamilyOf(p, b.destinationViewId))
            && (SwapFits(p, r) <==>
                  && Swappable(p, b) && Covers(p, b.sourceViewId, b.sourceDebit)
                  && CanCredit(p.cash, FamilyOf(p, b.destinationViewId), b.destinationCredit)
                  && ChargesFit(p, Credited(Credited(p.cash, FamilyOf(p, b.sourceViewId), -b.sourceDebit),
                                            FamilyOf(p, b.destinationViewId), b.destinationCredit),
                                r.sourceHashes, b.costs, b.sourceDebit - b.destinationCredit))
    ensures r.body.Costs() == r.body.costs
  {
    hide ChargesFit, CanCredit, Credited, Covers;
  }

  lemma {:induction false} SwapTaken(p: Portfolio, r: Receipt)
    requires r.body.Swap? && ReceiptParses(r) && CashHolds(p.cash)
    ensures SwapEffect(p, r).Ok? <==> SwapFits(p, r)
  {
    var b := r.body;
    hide *;
    ParsedCosts(r);
    SwapShape(p, r);
    SwapFitsShape(p, r);
    if b.sourceViewId in p.views && b.destinationViewId in p.views
       && FamilyOf(p, b.sourceViewId) != FamilyOf(p, b.destinationViewId) {
      SwapCash(p, b);
      if SwapMoved(p, b).Ok? {
        ChargesDecide(p, SwapMoved(p, b).value, r, b.sourceDebit - b.destinationCredit);
      }
    }
  }

  lemma {:induction false} PayableTaken(p: Portfolio, r: Receipt)
    requires r.body.PayableSettled?
    ensures PayableSettledEffect(p, r).Ok? <==> PayableFits(p, r.body)
  {
  }

  lemma {:induction false} AccrueTaken(p: Portfolio, r: Receipt)
    requires r.body.Accrue? && ReceiptParses(r)
    ensures AccrueEffect(p, r).Ok? <==> AccrueFits(p, r)
  {
  }

  lemma {:induction false} SourceFailureTaken(p: Portfolio, r: Receipt)
    requires r.body.TransferSourceFailed? && CashHolds(p.cash) && CostsParse(r.body.Costs())
    ensures SourceFailedEffect(p, r).Ok? <==> SourceFailureFits(p, r)
  {
    hide SourceFailedEffect, ChargesFit, CanCredit, Credited, CashHolds, CostsParse, WithheldTotal;
    SourceFailedTaken(p, r);
  }

  lemma {:induction false} BurnIsTaken(p: Portfolio, r: Receipt)
    requires r.body.TransferBurned? && CashHolds(p.cash) && CostsParse(r.body.Costs())
    ensures BurnedEffect(p, r).Ok? <==> BurnFits(p, r)
  {
    hide BurnedEffect, ChargesFit, CashHolds, CostsParse;
    BurnTaken(p, r);
  }

  // The working conditions an admitted receipt finds on valid books.
  lemma {:induction false} ReceivableIsTaken(p: Portfolio, r: Receipt)
    requires Valid(p) && StartsEmpty(p) && Admit(p, r).Ok? && r.body.MovesReceivable()
    requires CashHolds(p.cash) && CostsParse(r.body.Costs())
    ensures ReceivableEffect(p, r).Ok? <==> ReceivableFits(p, r)
  {
    hide Valid, StartsEmpty, Admit, ReceivableEffect, ChargesFit, CanCredit, Credited, CashHolds, CostsParse;
    hide NextReceivable;
    AttemptsInRange(p);
    if r.body.transferId in p.receivables {
      AdmittedIsNotEarlier(p, r, r.body.transferId);
    }
    ReceivableTaken(p, r);
  }

  lemma {:induction false} AttemptsInRange(p: Portfolio)
    requires Valid(p)
    ensures p.maxDestinationAttempts < UINT256_LIMIT
    ensures forall k | k in p.receivables :: 0 <= p.receivables[k].attempts
  {
    hide FamiliesHold, ReservationsHold, PositionsHold, AllowancesHold, CostsHold, PayablesHold, HistoryHolds;
    hide Gross, Liabilities, Imbalance, CashHolds;
  }

  lemma {:induction false} BranchTaken(p: Portfolio, r: Receipt)
    requires Valid(p) && StartsEmpty(p) && ReceiptParses(r) && Admit(p, r).Ok?
    ensures IndexesPositive(p.positions)
    ensures Effect(p, r).Ok? && (r.body.Approve? ==> HasAsset(p.views, r.body.networkId, r.body.assetId))
            <==> BranchFits(p, r)
  {
    SoundFacts(p);
    ParsedCosts(r);
    EffectBranch(p, r);
    BranchIs(p, r);
    hide *;
    match r.body
    case NoEffect =>
    case Reserve(_, _, _, _) => ReserveTaken(p, r);
    case CostOnly(_) => ChargesDecide(p, p, r, 0);
    case Approve(_, _, _, _, _, _) => ApproveTaken(p, r);
    case Deposit(_, _, _, _, _, _, _, _) => DepositTaken(p, r);
    case Withdraw(_, _, _, _, _) => WithdrawTaken(p, r);
    case Swap(_, _, _, _, _) => SwapTaken(p, r);
    case PayableSettled(_, _) => PayableTaken(p, r);
    case TransferSourceFailed(_, _) => SourceFailureTaken(p, r);
    case TransferBurned(_, _, _, _, _, _, _) => BurnIsTaken(p, r);
    case TransferReady(_, _) => ReceivableIsTaken(p, r);
    case TransferDelayed(_, _) => ReceivableIsTaken(p, r);
    case TransferRetry(_, _) => ReceivableIsTaken(p, r);
    case TransferSettled(_, _, _) => ReceivableIsTaken(p, r);
    case Accrue(_, _, _, _) => AccrueTaken(p, r);
    case Close(_) =>
  }

  // The two branches without a lemma of their own, and which condition is which.
  lemma {:induction false} BranchIs(p: Portfolio, r: Receipt)
    requires ReceiptParses(r) && IndexesPositive(p.positions)
    ensures r.body.NoEffect? ==> Effect(p, r).Ok? && BranchFits(p, r)
    ensures r.body.Close? ==> (Effect(p, r).Ok? <==> BranchFits(p, r))
    ensures r.body.CostOnly? ==>
              && r.body.Costs() == r.body.costs
              && (BranchFits(p, r) <==> ChargesFit(p, p.cash, r.sourceHashes, r.body.costs, 0))
    ensures r.body.Reserve? ==> (BranchFits(p, r) <==> ReserveFits(p, r.body))
    ensures r.body.Approve? ==> (BranchFits(p, r) <==> ApproveFits(p, r))
    ensures r.body.Deposit? ==> 0 < r.body.indexDen && (BranchFits(p, r) <==> DepositFits(p, r))
    ensures r.body.Withdraw? ==> (BranchFits(p, r) <==> WithdrawFits(p, r))
    ensures r.body.Swap? ==> (BranchFits(p, r) <==> SwapFits(p, r))
    ensures r.body.PayableSettled? ==> (BranchFits(p, r) <==> PayableFits(p, r.body))
    ensures r.body.TransferSourceFailed? ==> (BranchFits(p, r) <==> SourceFailureFits(p, r))
    ensures r.body.TransferBurned? ==> (BranchFits(p, r) <==> BurnFits(p, r))
    ensures r.body.TransferReady? || r.body.TransferDelayed? || r.body.TransferRetry? || r.body.TransferSettled? ==>
              r.body.MovesReceivable() && (BranchFits(p, r) <==> ReceivableFits(p, r))
    ensures r.body.Accrue? ==> 0 < r.body.nextDen && (BranchFits(p, r) <==> AccrueFits(p, r))
  {
    hide ReserveFits, ApproveFits, DepositFits, WithdrawFits, SwapFits, PayableFits, SourceFailureFits, BurnFits;
    hide ReceivableFits, AccrueFits, ChargesFit;
  }

  /******* The verdict *******/

  lemma {:induction false} AdmittedExactly(p: Portfolio, r: Receipt)
    ensures HeaderFits(p, r) <==> Admit(p, r).Ok? && IsUInt(p.version + 1)
  {
  }

  lemma {:induction false} NewReceiptVerdict(p: Portfolio, r: Receipt)
    requires Valid(p) && StartsEmpty(p) && ReceiptParses(r) && !HasOperation(p.applied, r.operationId)
    ensures IndexesPositive(p.positions)
    ensures ApplyReceipt(p, r).Ok? <==> HeaderFits(p, r) && BranchFits(p, r) && ValueFits(p, r)
  {
    hide Valid, StartsEmpty, ReceiptParses, Effect, Admit, HeaderFits, BranchFits, PnlChange, CostsSum, NetValue;
    hide HasAsset, IndexesPositive;
    SoundFacts(p);
    AdmittedExactly(p, r);
    if Admit(p, r).Ok? {
      BranchTaken(p, r);
      if Effect(p, r).Ok? {
        ClosingCheckRefusesOnlyInsolvency(p, r, Effect(p, r).value);
      }
    }
  }

  // On valid books every receipt is decided by figures a caller can read before the call: a known operation by whether
  // it is the same receipt, a new one by its header, by what its kind needs and by its costs.
  lemma {:induction false} EveryReceiptIsDecided(p: Portfolio, r: Receipt)
    requires Valid(p) && StartsEmpty(p)
    ensures IndexesPositive(p.positions)
    ensures ApplyReceipt(p, r).Ok? <==>
              && ReceiptParses(r)
              && if HasOperation(p.applied, r.operationId) then InHistory(p, r)
                 else HeaderFits(p, r) && BranchFits(p, r) && ValueFits(p, r)
    ensures ReceiptParses(r) && HasOperation(p.applied, r.operationId) ==>
              ApplyReceipt(p, r) == if InHistory(p, r) then Ok(p) else Err(OperationConflict)
  {
    hide Valid, StartsEmpty, ReceiptParses, Effect, Admit, HeaderFits, BranchFits, ValueFits, IndexesPositive;
    SoundFacts(p);
    if ReceiptParses(r) {
      if HasOperation(p.applied, r.operationId) {
        KnownOperation(p, r);
      } else {
        NewReceiptVerdict(p, r);
      }
    }
  }

  lemma {:induction false} KnownOperation(p: Portfolio, r: Receipt)
    requires Valid(p) && HasOperation(p.applied, r.operationId)
    ensures FindApplied(p.applied, r.operationId).Some?
    ensures FindApplied(p.applied, r.operationId).value == r <==> InHistory(p, r)
  {
    hide FamiliesHold, ReservationsHold, PositionsHold, AllowancesHold, CostsHold, PayablesHold, ReceivablesHold;
    hide Gross, Liabilities, Imbalance, CashHolds, FindApplied;
    var found := FindApplied(p.applied, r.operationId).value;
    var i :| 0 <= i < |p.applied| && p.applied[i].receipt == found;
    if InHistory(p, r) {
      var j :| 0 <= j < |p.applied| && p.applied[j].receipt == r;
      assert p.applied[i].receipt.operationId == p.applied[j].receipt.operationId;
    }
  }
}
