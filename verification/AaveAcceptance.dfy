// Exactly when the ledger takes an Aave supply, accrual and full withdrawal, and that the whole trip is taken.
module AaveAcceptance {
  import opened Prelude
  import opened Ledger
  import opened Conservation
  import opened Closing
  import opened AaveRoundTrip
  import A = Adapters

  /******* Receipts that are next in line *******/

  // A valid open portfolio for which a receipt with this header is the next one.
  ghost predicate Next(p: Portfolio, r: Receipt) {
    && Valid(p) && StartsEmpty(p) && ReceiptParses(r)
    && Admit(p, r).Ok? && !HasOperation(p.applied, r.operationId) && IsUInt(p.version + 1)
  }

  lemma {:induction false} NextFacts(p: Portfolio, r: Receipt)
    requires Next(p, r)
    ensures IndexesPositive(p.positions) && PayablesBacked(p) && 0 <= NetValue(p) && IsInt256(p.pnl)
    ensures CashHolds(p.cash)
    ensures forall v | v in p.views :: p.views[v].familyId in p.cash
  {
    hide HistoryHolds, ReservationsHold, ReceivablesHold, AllowancesHold, CostsHold, Gross, Liabilities, Admit;
    hide ReceiptParses, HasOperation, Aliases, HasFamily;
    CoherentFacts(p);
  }

  // For a receipt that is next in line the branch and the closing check decide.
  lemma {:induction false} NextIsTaken(p: Portfolio, r: Receipt)
    requires Next(p, r)
    ensures IndexesPositive(p.positions)
    ensures ApplyReceipt(p, r).Ok? <==>
              && Effect(p, r).Ok?
              && CostsSum(r.body.Costs()) <= NetValue(p) + PnlChange(p, r)
              && (r.body.Approve? ==> HasAsset(p.views, r.body.networkId, r.body.assetId))
              && IsInt256(p.pnl + PnlChange(p, r))
    ensures !r.body.Accrue? ==> PnlChange(p, r) == 0
  {
    hide Valid, StartsEmpty, ReceiptParses, Admit, Effect, HasAsset, CostsSum, NetValue;
    NextFacts(p, r);
    if Effect(p, r).Ok? {
      EffectBalances(p, r, Effect(p, r).value);
      ClosingCheckRefusesOnlyInsolvency(p, r, Effect(p, r).value);
    }
  }

  /******* One gas charge *******/

  lemma {:induction false} GasTaken(s: Portfolio, r: Receipt, gas: Cost, gap: int)
    requires IsGas(gas) && r.body.Costs() == [gas] && gas.sourceHash in r.sourceHashes
    ensures ApplyCosts(s, r, gap).Ok? <==> gas.costId !in s.costs && gap == 0
    ensures CostsSum([gas]) == gas.amount
  {
    assert [gas][..0] == [];
    assert ChargeAll(s, r, []) == Ok(s);
    assert ChargeAll(s, r, [gas]) == ChargeOne(s, r, gas);
    assert WithheldTotal([]) == 0 && WithheldTotal([gas]) == 0;
  }

  predicate CarriesGas(r: Receipt, gas: Cost) {
    IsGas(gas) && r.body.Costs() == [gas] && gas.sourceHash in r.sourceHashes
  }

  /******* The three steps *******/

  // An approval is taken if and only if the ledger does not know the allowance, or knows it with the same parties
  // and a smaller amount; the asset is known; and its gas is new and within net value.
  lemma {:induction false} ApprovalTaken(p: Portfolio, r: Receipt, gas: Cost)
    requires Next(p, r) && r.body.Approve? && CarriesGas(r, gas)
    ensures ApplyReceipt(p, r).Ok? <==>
              && (r.body.allowanceId in p.allowances ==>
                    var x := p.allowances[r.body.allowanceId];
                    && x.amount < r.body.amount && x.networkId == r.body.networkId && x.assetId == r.body.assetId
                    && x.spenderId == r.body.spenderId)
              && HasAsset(p.views, r.body.networkId, r.body.assetId)
              && gas.costId !in p.costs && gas.amount <= NetValue(p)
  {
    hide Next, ReceiptParses, ApplyReceipt, ApplyCosts, HasAsset, NetValue, CostsSum;
    NextIsTaken(p, r);
    ApprovalBranch(p, r, gas);
  }

  lemma {:induction false} ApprovalBranch(p: Portfolio, r: Receipt, gas: Cost)
    requires Next(p, r) && r.body.Approve? && CarriesGas(r, gas)
    ensures IndexesPositive(p.positions) && Effect(p, r) == ApproveEffect(p, r) && IsInt256(p.pnl)
    ensures Effect(p, r).Ok? <==>
              && (r.body.allowanceId in p.allowances ==>
                    var x := p.allowances[r.body.allowanceId];
                    && x.amount < r.body.amount && x.networkId == r.body.networkId && x.assetId == r.body.assetId
                    && x.spenderId == r.body.spenderId)
              && gas.costId !in p.costs
    ensures CostsSum(r.body.Costs()) == gas.amount
  {
    NextFacts(p, r);
    hide Valid, StartsEmpty, Admit, ApplyCosts, NetValue, CostsSum, HasOperation;
    EffectBranch(p, r);
    GasTaken(p, r, gas, 0);
    hide Effect;
  }

  // A deposit at par that opens a position is taken if and only if the view is known, cash covers the amount, and its
  // gas is new and within net value.
  lemma {:induction false} DepositTaken(p: Portfolio, r: Receipt, amount: int, gas: Cost)
    requires Next(p, r) && r.body.Deposit? && IsSupply(r, r.body.cashViewId, r.body.positionId, amount)
    requires CarriesGas(r, gas)
    requires r.body.positionId !in p.positions
    ensures ApplyReceipt(p, r).Ok? <==>
              && r.body.cashViewId in p.views && p.views[r.body.cashViewId].familyId in p.cash
              && amount <= p.cash[p.views[r.body.cashViewId].familyId].amount
              && gas.costId !in p.costs && gas.amount <= NetValue(p)
  {
    hide Next, ReceiptParses, ApplyReceipt, ApplyCosts, HasAsset, NetValue, CostsSum;
    NextIsTaken(p, r);
    DepositBranch(p, r, amount, gas);
  }

  lemma {:induction false} DepositBranch(p: Portfolio, r: Receipt, amount: int, gas: Cost)
    requires Next(p, r) && r.body.Deposit? && IsSupply(r, r.body.cashViewId, r.body.positionId, amount)
    requires CarriesGas(r, gas)
    requires r.body.positionId !in p.positions
    ensures IndexesPositive(p.positions) && IsInt256(p.pnl)
    ensures Effect(p, r).Ok? <==>
              && r.body.cashViewId in p.views && p.views[r.body.cashViewId].familyId in p.cash
              && amount <= p.cash[p.views[r.body.cashViewId].familyId].amount
              && gas.costId !in p.costs
    ensures CostsSum(r.body.Costs()) == gas.amount
  {
    NextFacts(p, r);
    hide Valid, StartsEmpty, Admit, ApplyCosts, NetValue, CostsSum, HasOperation, DepositEffect, ReceiptParses;
    EffectBranch(p, r);
    hide Effect;
    A.DepositAmounts(r);
    AtPar(amount);
    A.FreshDeposit(p, r, amount, RemainderOf(amount, 1, 1));
    if r.body.cashViewId in p.views && p.views[r.body.cashViewId].familyId in p.cash {
      A.CashDebited(p, p.views[r.body.cashViewId].familyId, amount);
      GasTaken(A.Opened(p, r), r, gas, 0);
    }
    GasTaken(p, r, gas, 0);
  }

  // The book an accrual leaves.
  function AccruedBook(p: Portfolio, r: Receipt): int
    requires r.body.Accrue? && r.body.positionId in p.positions && 0 < r.body.nextDen
  {
    BookOf(p.positions[r.body.positionId].shares, r.body.nextNum, r.body.nextDen)
  }

  // An accrual is taken if and only if the position exists, the observation is newer, the new book and PnL are in
  // range and the change leaves the portfolio solvent.
  lemma {:induction false} AccrualTaken(p: Portfolio, r: Receipt)
    requires Next(p, r) && r.body.Accrue? && r.body.costs == [] && 0 < r.body.nextDen
    ensures ApplyReceipt(p, r).Ok? <==>
              && r.body.positionId in p.positions
              && p.positions[r.body.positionId].lastObservedAt < r.observedAt
              && IsUInt(AccruedBook(p, r))
              && var change := AccruedBook(p, r) - p.positions[r.body.positionId].book;
              && IsInt256(p.pnl + change) && 0 <= NetValue(p) + change
  {
    hide Next, ReceiptParses, ApplyReceipt, HasAsset, NetValue, CostsSum, AccruedBook, PnlChange;
    NextIsTaken(p, r);
    AccrualBranch(p, r);
  }

  lemma {:induction false} AccrualBranch(p: Portfolio, r: Receipt)
    requires Next(p, r) && r.body.Accrue? && r.body.costs == [] && 0 < r.body.nextDen
    ensures IndexesPositive(p.positions) && CostsSum(r.body.Costs()) == 0
    ensures Effect(p, r).Ok? <==>
              && r.body.positionId in p.positions
              && p.positions[r.body.positionId].lastObservedAt < r.observedAt
              && IsUInt(AccruedBook(p, r))
    ensures Effect(p, r).Ok? ==> PnlChange(p, r) == AccruedBook(p, r) - p.positions[r.body.positionId].book
  {
    NextFacts(p, r);
    hide Valid, StartsEmpty, Admit, NetValue, HasOperation, ReceiptParses, BookOf, RemainderOf;
    EffectBranch(p, r);
    hide Effect;
  }

  // A withdrawal of a whole position is taken if and only if it pays the ledger's own book, through a known view of
  // the position's network and asset, into cash that stays in range, and its gas is new and within net value.
  lemma {:induction false} WithdrawalTaken(p: Portfolio, r: Receipt, gas: Cost)
    requires Next(p, r) && r.body.Withdraw? && CarriesGas(r, gas)
    requires r.body.positionId in p.positions && r.body.sharesDebit == p.positions[r.body.positionId].shares
    ensures ApplyReceipt(p, r).Ok? <==>
              && ViewFits(p, r.body.cashViewId, p.positions[r.body.positionId])
              && r.body.cashCredit == p.positions[r.body.positionId].book
              && IsUInt(p.cash[p.views[r.body.cashViewId].familyId].amount + r.body.cashCredit)
              && gas.costId !in p.costs && gas.amount <= NetValue(p)
  {
    hide Next, ReceiptParses, ApplyReceipt, HasAsset, NetValue, CostsSum, ViewFits;
    NextIsTaken(p, r);
    WithdrawalBranch(p, r, gas);
  }

  // A known view, with cash behind it, of a position's network and asset.
  predicate ViewFits(p: Portfolio, viewId: Id, x: Position) {
    && viewId in p.views && p.views[viewId].familyId in p.cash
    && p.views[viewId].networkId == x.networkId && p.views[viewId].assetId == x.assetId
  }

  lemma {:induction false} WithdrawalBranch(p: Portfolio, r: Receipt, gas: Cost)
    requires Next(p, r) && r.body.Withdraw? && CarriesGas(r, gas)
    requires r.body.positionId in p.positions && r.body.sharesDebit == p.positions[r.body.positionId].shares
    ensures IndexesPositive(p.positions) && IsInt256(p.pnl) && CostsSum(r.body.Costs()) == gas.amount
    ensures Effect(p, r).Ok? <==>
              && ViewFits(p, r.body.cashViewId, p.positions[r.body.positionId])
              && r.body.cashCredit == p.positions[r.body.positionId].book
              && IsUInt(p.cash[p.views[r.body.cashViewId].familyId].amount + r.body.cashCredit)
              && gas.costId !in p.costs
  {
    NextFacts(p, r);
    hide Valid, StartsEmpty, Admit, NetValue, HasOperation, ReceiptParses, WithdrawEffect, ApplyCosts, ViewFits;
    EffectBranch(p, r);
    GasTaken(p, r, gas, 0);
    hide Effect;
    if ViewFits(p, r.body.cashViewId, p.positions[r.body.positionId]) {
      FittingWithdrawal(p, r, gas);
    } else {
      MisfitView(p, r);
    }
  }

  lemma {:induction false} FittingWithdrawal(p: Portfolio, r: Receipt, gas: Cost)
    requires r.body.Withdraw? && ReceiptParses(r) && IndexesPositive(p.positions) && CarriesGas(r, gas)
    requires r.body.positionId in p.positions && r.body.sharesDebit == p.positions[r.body.positionId].shares
    requires ViewFits(p, r.body.cashViewId, p.positions[r.body.positionId])
    ensures WithdrawEffect(p, r).Ok? <==>
              && r.body.cashCredit == p.positions[r.body.positionId].book
              && IsUInt(p.cash[p.views[r.body.cashViewId].familyId].amount + r.body.cashCredit)
              && gas.costId !in p.costs
  {
    hide ReceiptParses, WithdrawEffect, ApplyCosts, CreditCash;
    var x := p.positions[r.body.positionId];
    A.WholeWithdrawal(p, r);
    var closed := p.(positions := p.positions - {r.body.positionId});
    A.CashCredited(closed, p.views[r.body.cashViewId].familyId, r.body.cashCredit);
    var credited := CreditCash(closed, p.views[r.body.cashViewId].familyId, r.body.cashCredit);
    if credited.Ok? {
      GasTaken(credited.value, r, gas, x.book - r.body.cashCredit);
    }
  }

  lemma {:induction false} MisfitView(p: Portfolio, r: Receipt)
    requires r.body.Withdraw? && ReceiptParses(r) && IndexesPositive(p.positions)
    requires r.body.positionId in p.positions && !ViewFits(p, r.body.cashViewId, p.positions[r.body.positionId])
    ensures WithdrawEffect(p, r).Err?
  {
    hide ApplyCosts, ReceiptParses, BookOf, RemainderOf;
  }
}
