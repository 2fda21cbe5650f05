// What accepted Aave receipts do to the ledger: a supply at par, an accrual and a full withdrawal, with gas only owed.
module AaveRoundTrip {
  import opened Prelude
  import opened Ledger
  import opened Conservation
  import opened Frames
  import opened Redelivery
  import opened Lifetimes
  import opened Positions
  import Rounding
  import A = Adapters

  // What the round trip looks at.
  function CashAfter(cash: map<Id, Cash>, family: Id, change: int): map<Id, Cash>
    requires family in cash
  {
    cash[family := cash[family].(amount := cash[family].amount + change)]
  }

  predicate IsGas(c: Cost) {
    c.funding.OnPayable? && c.cashFamily.None?
  }

  lemma {:induction false} OnlyGas(s: Portfolio, r: Receipt, gas: Cost, t: Portfolio)
    requires IsGas(gas) && r.body.Costs() == [gas] && ApplyCosts(s, r, 0) == Ok(t)
    ensures t.cash == s.cash && t.positions == s.positions && t.pnl == s.pnl && t.views == s.views
    ensures t.payables == s.payables[gas.costId := FeePayable(gas.networkId, gas.amount)]
    ensures t.costs.Keys == s.costs.Keys + {gas.costId}
  {
    assert [gas][..0] == [];
    assert ChargeAll(s, r, []) == Ok(s);
    assert ChargeAll(s, r, [gas]) == ChargeOne(s, r, gas);
  }

  lemma {:induction false} ApprovalStep(p: Portfolio, r: Receipt, gas: Cost, q: Portfolio)
    requires ApplyReceipt(p, r) == Ok(q) && !InHistory(p, r) && r.body.Approve? && r.body.costs == [gas] && IsGas(gas)
    ensures q.cash == p.cash && q.positions == p.positions && q.pnl == p.pnl && q.views == p.views
    ensures q.payables.Keys == p.payables.Keys + {gas.costId} && q.costs.Keys == p.costs.Keys + {gas.costId}
  {
    hide Valid, Admit, CostsAdded, Kept, ReceiptParses, ApplyCosts, Framed;
    AcceptedStep(p, r, q);
    assert ApproveEffect(p, r) == Ok(Effect(p, r).value);
    OnlyGas(p, r, gas, ApplyCosts(p, r, 0).value);
  }

  lemma {:induction false} SupplyStep(p: Portfolio, r: Receipt, gas: Cost, amount: int, q: Portfolio)
    requires ApplyReceipt(p, r) == Ok(q) && !InHistory(p, r) && r.body.Deposit? && r.body.costs == [gas] && IsGas(gas)
    requires r.body.positionId !in p.positions && r.body.sharesCredit == amount == r.body.input
    requires r.body.indexNum == 1 && r.body.indexDen == 1
    ensures r.body.cashViewId in p.views && p.views[r.body.cashViewId].familyId in p.cash
    ensures q.cash == CashAfter(p.cash, p.views[r.body.cashViewId].familyId, -amount) && q.pnl == p.pnl
    ensures q.views == p.views
    ensures r.body.positionId in q.positions && q.positions[r.body.positionId].shares == amount
    ensures var x, view := q.positions[r.body.positionId], p.views[r.body.cashViewId];
            && x.book == amount && x.lastObservedAt == r.observedAt
            && x.networkId == view.networkId && x.assetId == view.assetId
    ensures q.payables.Keys == p.payables.Keys + {gas.costId} && q.costs.Keys == p.costs.Keys + {gas.costId}
  {
    hide Valid, Admit, CostsAdded, Kept, ReceiptParses, ApplyCosts, DepositEffect, DebitCash, Framed;
    AcceptedStep(p, r, q);
    assert DepositEffect(p, r) == Ok(Effect(p, r).value);
    A.DepositAmounts(r);
    AtPar(amount);
    A.FreshDeposit(p, r, amount, RemainderOf(amount, 1, 1));
    OnlyGas(A.Opened(p, r), r, gas, Effect(p, r).value);
  }

  lemma AtPar(amount: int)
    ensures BookOf(amount, 1, 1) == amount
  {
  }

  lemma {:induction false} AccrualKeepsCash(p: Portfolio, r: Receipt, q: Portfolio)
    requires ApplyReceipt(p, r) == Ok(q) && !InHistory(p, r) && r.body.Accrue?
    ensures q.cash == p.cash && q.payables == p.payables && q.views == p.views && q.costs == p.costs
  {
    hide Valid, Admit, CostsAdded, Kept, ReceiptParses, Framed;
    AcceptedStep(p, r, q);
    assert AccrueEffect(p, r) == Ok(Effect(p, r).value);
  }

  lemma {:induction false} WithdrawalStep(p: Portfolio, r: Receipt, gas: Cost, q: Portfolio)
    requires ApplyReceipt(p, r) == Ok(q) && !InHistory(p, r) && r.body.Withdraw? && r.body.costs == [gas] && IsGas(gas)
    requires r.body.positionId in p.positions && r.body.sharesDebit == p.positions[r.body.positionId].shares
    ensures r.body.cashCredit == p.positions[r.body.positionId].book
    ensures r.body.cashViewId in p.views && p.views[r.body.cashViewId].familyId in p.cash
    ensures q.cash == CashAfter(p.cash, p.views[r.body.cashViewId].familyId, r.body.cashCredit) && q.pnl == p.pnl
    ensures r.body.positionId !in q.positions
    ensures q.payables.Keys == p.payables.Keys + {gas.costId}
  {
    hide Valid, Admit, CostsAdded, Kept, ReceiptParses, ApplyCosts, WithdrawEffect, CreditCash, Framed, WithheldTotal;
    AcceptedStep(p, r, q);
    var s := Effect(p, r).value;
    assert WithdrawEffect(p, r) == Ok(s);
    NamedViews(p, r, s);
    A.WholeWithdrawal(p, r);
    var closed := p.(positions := p.positions - {r.body.positionId});
    var family := p.views[r.body.cashViewId].familyId;
    FamilyCredited(closed, family, r.body.cashCredit);
    A.CashCredited(closed, family, r.body.cashCredit);
    var credited := CreditCash(closed, family, r.body.cashCredit).value;
    var gap := p.positions[r.body.positionId].book - r.body.cashCredit;
    GapIsWithheld(credited, r, gap, s);
    NothingWithheld(gas);
    OnlyGas(credited, r, gas, s);
  }

  lemma {:induction false} NamedViews(p: Portfolio, r: Receipt, s: Portfolio)
    requires r.body.Withdraw? && ReceiptParses(r) && IndexesPositive(p.positions) && WithdrawEffect(p, r) == Ok(s)
    ensures r.body.cashViewId in p.views && r.body.positionId in p.positions
    ensures p.views[r.body.cashViewId].networkId == p.positions[r.body.positionId].networkId
    ensures p.views[r.body.cashViewId].assetId == p.positions[r.body.positionId].assetId
  {
    hide ApplyCosts, CreditCash;
  }

  lemma FamilyCredited(s: Portfolio, family: Id, amount: int)
    requires CreditCash(s, family, amount).Ok?
    ensures family in s.cash
  {
  }

  lemma {:induction false} NothingWithheld(gas: Cost)
    requires IsGas(gas)
    ensures WithheldTotal([gas]) == 0
  {
    assert [gas][..0] == [];
  }

  lemma {:induction false} ReplayOne(p: Portfolio, rs: seq<Receipt>, q: Portfolio)
    requires |rs| == 1 && Replay(p, rs) == Ok(q)
    ensures ApplyReceipt(p, rs[0]) == Ok(q)
  {
    hide ApplyReceipt, Valid;
    assert rs[..0] == [];
  }

  lemma {:induction false} ReplayTwo(p: Portfolio, rs: seq<Receipt>, q: Portfolio) returns (m: Portfolio)
    requires |rs| == 2 && Replay(p, rs) == Ok(q)
    ensures ApplyReceipt(p, rs[0]) == Ok(m) && ApplyReceipt(m, rs[1]) == Ok(q)
  {
    hide ApplyReceipt, Valid;
    m := Replay(p, rs[..1]).value;
    ReplayOne(p, rs[..1], m);
  }

  lemma {:induction false} SupplyReceipts(ctx: A.Context, amount: int, instrumentId: Id, positionId: Id,
      allowanceId: Id, currentAllowance: int, prefix: Option<Id>, reserve: A.Reserve, approvalGas: A.Gas,
      supplyGas: A.Gas, conversion: A.Conversion, approvalSource: SourceHash, supplySource: SourceHash,
      rs: seq<Receipt>)
    requires A.AaveSupply(ctx, amount, instrumentId, positionId, allowanceId, currentAllowance, prefix, reserve,
                          approvalGas, supplyGas, conversion, approvalSource, supplySource) == Ok(rs)
    ensures SupplyShape(rs, ctx.version, ctx.cashViewId, positionId, amount)
    ensures |rs| == if currentAllowance < amount then 2 else 1
  {
    hide Rounding.CeilDiv, ReceiptParses;
  }

  // One deposit at par, after an approval when the allowance is short.
  predicate SupplyShape(rs: seq<Receipt>, version: int, cashViewId: Id, positionId: Id, amount: int) {
    && 1 <= |rs| <= 2
    && IsSupply(rs[|rs| - 1], cashViewId, positionId, amount)
    && (forall i | 0 <= i < |rs| :: rs[i].expectedVersion == version + i)
    && (|rs| == 2 ==> IsApproval(rs[0]))
  }

  predicate IsSupply(r: Receipt, cashViewId: Id, positionId: Id, amount: int) {
    && r.body.Deposit? && r.body.cashViewId == cashViewId && r.body.positionId == positionId
    && r.body.sharesCredit == amount == r.body.input && r.body.indexNum == 1 && r.body.indexDen == 1
    && |r.body.costs| == 1 && IsGas(r.body.costs[0])
  }

  predicate IsApproval(r: Receipt) {
    r.body.Approve? && |r.body.costs| == 1 && IsGas(r.body.costs[0])
  }

  // What the supply leaves: amount in a position at par, taken from cash; gas only owed.
  predicate HasSupplied(p: Portfolio, q: Portfolio, cashViewId: Id, positionId: Id, amount: int, owed: set<Id>) {
    && cashViewId in p.views && p.views[cashViewId].familyId in p.cash
    && q.cash == CashAfter(p.cash, p.views[cashViewId].familyId, -amount) && q.pnl == p.pnl && q.views == p.views
    && positionId in q.positions && q.positions[positionId].shares == amount == q.positions[positionId].book
    && q.positions[positionId].networkId == p.views[cashViewId].networkId
    && q.positions[positionId].assetId == p.views[cashViewId].assetId
    && q.payables.Keys == p.payables.Keys + owed && q.costs.Keys == p.costs.Keys + owed
  }

  lemma {:induction false} SuppliedAlone(p: Portfolio, r: Receipt, cashViewId: Id, positionId: Id, amount: int,
      q: Portfolio)
    requires ApplyReceipt(p, r) == Ok(q) && !HasOperation(p.applied, r.operationId)
    requires IsSupply(r, cashViewId, positionId, amount) && positionId !in p.positions
    ensures HasSupplied(p, q, cashViewId, positionId, amount, {r.body.costs[0].costId})
    ensures q.positions[positionId].lastObservedAt == r.observedAt
  {
    hide ApplyReceipt, CashAfter;
    NotInHistory(p, r);
    SupplyStep(p, r, r.body.costs[0], amount, q);
  }

  lemma {:induction false} SuppliedAfterApproval(p: Portfolio, a: Receipt, m: Portfolio, r: Receipt, cashViewId: Id,
      positionId: Id, amount: int, q: Portfolio)
    requires ApplyReceipt(p, a) == Ok(m) && ApplyReceipt(m, r) == Ok(q)
    requires !HasOperation(p.applied, a.operationId) && !HasOperation(p.applied, r.operationId)
    requires IsApproval(a) && a.expectedVersion != r.expectedVersion
    requires IsSupply(r, cashViewId, positionId, amount) && positionId !in p.positions
    ensures HasSupplied(p, q, cashViewId, positionId, amount, {a.body.costs[0].costId, r.body.costs[0].costId})
    ensures q.positions[positionId].lastObservedAt == r.observedAt
  {
    hide ApplyReceipt, CashAfter;
    NotInHistory(p, a);
    ApprovalStep(p, a, a.body.costs[0], m);
    StepShape(p, a, m);
    NotInLonger(p, m, a, r);
    SupplyStep(m, r, r.body.costs[0], amount, q);
  }

  // The gas payables of the supply.
  function OwedBy(rs: seq<Receipt>): set<Id> {
    set i | 0 <= i < |rs| && rs[i].body.Costs() != [] :: rs[i].body.Costs()[0].costId
  }

  lemma {:induction false} Supplied(p: Portfolio, rs: seq<Receipt>, version: int, cashViewId: Id, positionId: Id,
      amount: int, q: Portfolio)
    requires SupplyShape(rs, version, cashViewId, positionId, amount)
    requires positionId !in p.positions && Replay(p, rs) == Ok(q)
    requires forall i | 0 <= i < |rs| :: !HasOperation(p.applied, rs[i].operationId)
    ensures HasSupplied(p, q, cashViewId, positionId, amount, OwedBy(rs))
    ensures positionId in q.positions && q.positions[positionId].lastObservedAt == rs[|rs| - 1].observedAt
  {
    hide ApplyReceipt, Replay, HasOperation, IsGas;
    if |rs| == 1 {
      ReplayOne(p, rs, q);
      SuppliedAlone(p, rs[0], cashViewId, positionId, amount, q);
      assert OwedBy(rs) == {rs[0].body.costs[0].costId};
    } else {
      var m := ReplayTwo(p, rs, q);
      SuppliedAfterApproval(p, rs[0], m, rs[1], cashViewId, positionId, amount, q);
      assert OwedBy(rs) == {rs[0].body.costs[0].costId, rs[1].body.costs[0].costId};
    }
  }

  lemma NotInHistory(p: Portfolio, r: Receipt)
    requires !HasOperation(p.applied, r.operationId)
    ensures !InHistory(p, r)
  {
  }

  lemma {:induction false} NotInLonger(p: Portfolio, m: Portfolio, first: Receipt, r: Receipt)
    requires m.applied == p.applied + [Applied(first, m.version)]
    requires !HasOperation(p.applied, r.operationId) && first.expectedVersion != r.expectedVersion
    ensures !InHistory(m, r)
  {
    forall i | 0 <= i < |m.applied|
      ensures m.applied[i].receipt != r
    {
      if i < |p.applied| { assert m.applied[i] == p.applied[i]; }
    }
  }

  lemma {:induction false} ThereAndBack(p: Portfolio, p1: Portfolio, accrue: Receipt, p2: Portfolio, withdraw: Receipt,
      gas: Cost, p3: Portfolio, cashViewId: Id, positionId: Id, amount: int, owed: set<Id>)
    requires HasSupplied(p, p1, cashViewId, positionId, amount, owed)
    requires ApplyReceipt(p1, accrue) == Ok(p2) && !InHistory(p1, accrue)
    requires accrue.body.Accrue? && accrue.body.positionId == positionId && 0 < accrue.body.nextDen
    requires ApplyReceipt(p2, withdraw) == Ok(p3) && !InHistory(p2, withdraw) && IsGas(gas)
    requires withdraw.body.Withdraw? && withdraw.body.cashViewId == cashViewId && withdraw.body.positionId == positionId
    requires withdraw.body.sharesDebit == amount && withdraw.body.costs == [gas]
    ensures withdraw.body.cashCredit == BookOf(amount, accrue.body.nextNum, accrue.body.nextDen)
    ensures cashViewId in p.views && p.views[cashViewId].familyId in p.cash
    ensures p3.cash == CashAfter(p.cash, p.views[cashViewId].familyId, withdraw.body.cashCredit - amount)
    ensures positionId !in p3.positions && p3.pnl == p.pnl + (withdraw.body.cashCredit - amount)
    ensures p3.payables.Keys == p.payables.Keys + owed + {gas.costId}
  {
    hide ApplyReceipt, InHistory, BookOf;
    Accrued(p1, accrue, p2, positionId);
    AccrualKeepsCash(p1, accrue, p2);
    WithdrawalStep(p2, withdraw, gas, p3);
  }

  lemma {:induction false} Accrued(p: Portfolio, r: Receipt, q: Portfolio, id: Id)
    requires ApplyReceipt(p, r) == Ok(q) && !InHistory(p, r) && r.body.Accrue? && r.body.positionId == id
    ensures id in p.positions && id in q.positions && 0 < r.body.nextDen
    ensures q.positions[id].shares == p.positions[id].shares
    ensures q.positions[id].book == BookOf(p.positions[id].shares, r.body.nextNum, r.body.nextDen)
    ensures q.pnl == p.pnl + q.positions[id].book - p.positions[id].book
    ensures q.positions[id].networkId == p.positions[id].networkId && q.positions[id].assetId == p.positions[id].assetId
  {
    hide Valid, Admit, CostsAdded, Kept, Framed, BookOf;
    AcceptedStep(p, r, q);
    assert AccrueEffect(p, r) == Ok(Effect(p, r).value);
  }
}
