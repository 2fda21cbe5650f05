// The Aave adapters' receipts on the ledger: when a supply is taken, and when the whole trip is.
module AaveTrip {
  import opened Prelude
  import opened Ledger
  import opened Conservation
  import opened Frames
  import opened Redelivery
  import opened Lifetimes
  import opened Closing
  import opened AaveRoundTrip
  import opened AaveAcceptance
  import A = Adapters
  import Rounding

  /******* One receipt after another *******/

  // An open valid portfolio at the version of an adapter's context and not past its time.
  ghost predicate Current(p: Portfolio, ctx: A.Context) {
    && Valid(p) && StartsEmpty(p) && p.closedAt.None?
    && ctx.experimentId == p.experimentId && ctx.scenarioId == p.scenarioId && ctx.provenance == p.provenance
    && ctx.version == p.version && IsUInt(p.version + 1)
    && (p.lastAppliedAt.Some? ==> p.lastAppliedAt.value <= ctx.observedAt)
  }

  lemma {:induction false} HandedIsNext(p: Portfolio, ctx: A.Context, operationId: Id, body: Body, r: Receipt)
    requires Current(p, ctx) && A.Handed(ctx, operationId, body) == Ok(r) && !HasOperation(p.applied, operationId)
    ensures Next(p, r) && r.body == body && r.operationId == operationId && r.observedAt == ctx.observedAt
    ensures forall i | 0 <= i < |body.Costs()| :: body.Costs()[i].sourceHash in r.sourceHashes
  {
    hide Valid, StartsEmpty, HasOperation, ReceiptParses;
    A.SourcesListed(body.Costs(), ctx.sourceHashes);
  }

  // A later state of p: n receipts on, last at the given time, with exactly these new operations and that much
  // recognised cost.
  ghost predicate Reached(p: Portfolio, q: Portfolio, n: nat, at: Timestamp, names: set<Id>, cost: int) {
    && Valid(q) && StartsEmpty(q) && q.closedAt == p.closedAt
    && q.experimentId == p.experimentId && q.scenarioId == p.scenarioId && q.provenance == p.provenance
    && q.version == p.version + n && q.lastAppliedAt == Some(at)
    && (forall op :: HasOperation(q.applied, op) <==> HasOperation(p.applied, op) || op in names)
    && NetValue(q) == NetValue(p) + (q.pnl - p.pnl) - cost
  }

  lemma {:induction false} NextReached(p: Portfolio, r: Receipt, q: Portfolio)
    requires Next(p, r) && ApplyReceipt(p, r) == Ok(q) && !r.body.Close?
    ensures Reached(p, q, 1, r.observedAt, {r.operationId}, CostsSum(r.body.Costs())) && !InHistory(p, r)
  {
    hide Valid, StartsEmpty, ReceiptParses, Admit, Effect, CostsSum, NetValue, ApplyReceipt, HasOperation, Framed;
    NotInHistory(p, r);
    AcceptedStep(p, r, q);
    var s := Effect(p, r).value;
    EffectBalances(p, r, s);
    ClosingCheckRefusesOnlyInsolvency(p, r, s);
    AcceptedSteps(p, r, q);
    StampedNetValue(s, r);
    StampedOperations(p, r, q);
    BalancedNetValue(p, s);
  }

  lemma ReachedThen(p: Portfolio, m: Portfolio, q: Portfolio, n: nat, at: Timestamp, names: set<Id>, cost: int, n': nat,
      at': Timestamp, names': set<Id>, cost': int)
    requires Reached(p, m, n, at, names, cost) && Reached(m, q, n', at', names', cost')
    ensures Reached(p, q, n + n', at', names + names', cost + cost')
  {
  }

  lemma StampedNetValue(s: Portfolio, r: Receipt)
    ensures NetValue(Stamp(s, r)) == NetValue(s) && Imbalance(Stamp(s, r)) == Imbalance(s)
  {
  }

  lemma BalancedNetValue(p: Portfolio, s: Portfolio)
    requires Imbalance(s) == Imbalance(p) && s.initialValue == p.initialValue
    ensures NetValue(s) - NetValue(p) == s.pnl - p.pnl - (CostTotal(s) - CostTotal(p))
  {
  }

  lemma {:induction false} StampedOperations(p: Portfolio, r: Receipt, q: Portfolio)
    requires q.applied == p.applied + [Applied(r, q.version)]
    ensures forall op :: HasOperation(q.applied, op) <==> HasOperation(p.applied, op) || op == r.operationId
  {
    forall op
      ensures HasOperation(q.applied, op) <==> HasOperation(p.applied, op) || op == r.operationId
    {
      assert q.applied[|p.applied|].receipt.operationId == r.operationId;
      if HasOperation(p.applied, op) {
        var i :| 0 <= i < |p.applied| && p.applied[i].receipt.operationId == op;
        assert q.applied[i].receipt.operationId == op;
      }
    }
  }

  /******* The supply *******/

  datatype Supply = Supply(
    ctx: A.Context, amount: int, instrumentId: Id, positionId: Id, allowanceId: Id, currentAllowance: int,
    prefix: Option<Id>, reserve: A.Reserve, approvalGas: A.Gas, supplyGas: A.Gas, conversion: A.Conversion,
    approvalSource: SourceHash, supplySource: SourceHash)
  {
    function Receipts(): Result<seq<Receipt>> {
      A.AaveSupply(ctx, amount, instrumentId, positionId, allowanceId, currentAllowance, prefix, reserve, approvalGas,
                   supplyGas, conversion, approvalSource, supplySource)
    }

    function Base(): Id { if prefix.Some? then prefix.value else ctx.scenarioId + "-aave" }

    function DepositName(): Id { Base() + if prefix.Some? then "-deposit" else "-supply" }

    function ApprovalBody(gas: Cost): Body {
      Approve(allowanceId, A.MAINNET, reserve.assetId, "aave-v3-pool", amount, [gas])
    }

    function DepositBody(gas: Cost): Body {
      Deposit(ctx.cashViewId, positionId, instrumentId, amount, 1, 1, amount, [gas])
    }
  }

  // One deposit alone when the allowance suffices, else an approval before it.
  lemma {:induction false} SupplyParts(s: Supply, rs: seq<Receipt>) returns (approval: Cost, deposit: Cost)
    requires s.Receipts() == Ok(rs)
    ensures |rs| == if s.currentAllowance < s.amount then 2 else 1
    ensures IsGas(deposit) && deposit.costId == s.Base() + "-supply-gas"
    ensures A.Handed(s.ctx.(version := s.ctx.version + |rs| - 1), s.DepositName(), s.DepositBody(deposit))
            == Ok(rs[|rs| - 1])
    ensures |rs| == 2 ==>
              && IsGas(approval) && approval.costId == s.Base() + "-approval-gas"
              && A.Handed(s.ctx, s.Base() + "-approve", s.ApprovalBody(approval)) == Ok(rs[0])
  {
    hide Rounding.CeilDiv, A.Handed, A.MulDivCeil;
    deposit := A.GasCost(s.Base() + "-supply-gas", s.supplyGas, s.conversion, ExecutionGas, A.MAINNET,
                         s.supplySource).value;
    approval := deposit;
    if s.currentAllowance < s.amount {
      approval := A.GasCost(s.Base() + "-approval-gas", s.approvalGas, s.conversion, ApprovalGas, A.MAINNET,
                            s.approvalSource).value;
    }
  }

  // Names with different endings differ, whatever comes before.
  lemma {:induction false} EndsDiffer(a: string, x: string, b: string, y: string, k: nat)
    requires 0 < k <= |x| && k <= |y| && x[|x| - k] != y[|y| - k]
    ensures a + x != b + y
  {
    var u, v := a + x, b + y;
    assert u[|u| - k] == x[|x| - k] && v[|v| - k] == y[|y| - k];
  }

  function GasOf(rs: seq<Receipt>): int {
    if rs == [] then 0 else GasOf(rs[..|rs| - 1]) + CostsSum(rs[|rs| - 1].body.Costs())
  }

  function NamesOf(rs: seq<Receipt>): set<Id> { set i | 0 <= i < |rs| :: rs[i].operationId }

  // The ledger does not know the allowance, or knows it with the same parties and a smaller amount; and it knows the
  // asset.
  predicate CanApprove(p: Portfolio, s: Supply) {
    && (s.allowanceId in p.allowances ==>
          var x := p.allowances[s.allowanceId];
          && x.amount < s.amount && x.networkId == A.MAINNET && x.assetId == s.reserve.assetId
          && x.spenderId == "aave-v3-pool")
    && HasAsset(p.views, A.MAINNET, s.reserve.assetId)
  }

  predicate CashCovers(p: Portfolio, viewId: Id, amount: int) {
    viewId in p.views && p.views[viewId].familyId in p.cash && amount <= p.cash[p.views[viewId].familyId].amount
  }

  // The view is known and its cash covers the amount; the gas is new and within net value; a needed approval fits.
  ghost predicate CanSupply(p: Portfolio, s: Supply, rs: seq<Receipt>) {
    && CashCovers(p, s.ctx.cashViewId, s.amount)
    && (forall id | id in OwedBy(rs) :: id !in p.costs)
    && GasOf(rs) <= NetValue(p)
    && (|rs| == 2 ==> CanApprove(p, s))
  }

  lemma {:induction false} ReplayOfOne(p: Portfolio, r: Receipt)
    requires Valid(p)
    ensures Replay(p, [r]) == ApplyReceipt(p, r)
  {
    hide ApplyReceipt, Valid;
    assert [r][..0] == [];
    assert Replay(p, []) == Ok(p);
  }

  lemma {:induction false} ReplayMore(p: Portfolio, rs: seq<Receipt>, r: Receipt)
    ensures Replay(p, rs + [r]).Ok? <==> Replay(p, rs).Ok? && ApplyReceipt(Replay(p, rs).value, r).Ok?
    ensures Replay(p, rs).Ok? ==> Replay(p, rs + [r]) == ApplyReceipt(Replay(p, rs).value, r)
  {
    hide ApplyReceipt, Valid;
    assert (rs + [r])[..|rs|] == rs;
  }

  lemma {:induction false} GasOfOne(r: Receipt, gas: Cost)
    requires r.body.Costs() == [gas]
    ensures GasOf([r]) == CostsSum(r.body.Costs()) == gas.amount && OwedBy([r]) == {gas.costId}
    ensures NamesOf([r]) == {r.operationId}
  {
    assert [r][..0] == [] && [gas][..0] == [];
    assert CostsSum([]) == 0;
    var rs := [r];
    assert rs[0].body.Costs()[0].costId == gas.costId;
    assert OwedBy(rs) == {gas.costId};
  }

  lemma {:induction false} GasOfMore(rs: seq<Receipt>, r: Receipt, gas: Cost)
    requires r.body.Costs() == [gas]
    ensures GasOf(rs + [r]) == GasOf(rs) + gas.amount && OwedBy(rs + [r]) == OwedBy(rs) + {gas.costId}
    ensures NamesOf(rs + [r]) == NamesOf(rs) + {r.operationId}
  {
    var all := rs + [r];
    assert all[..|rs|] == rs;
    assert [gas][..0] == [];
    assert CostsSum([]) == 0 && CostsSum([gas]) == gas.amount;
    forall i | 0 <= i < |rs|
      ensures all[i] == rs[i]
    {
    }
    assert OwedBy(all) == OwedBy(rs) + {gas.costId} by {
      assert all[|rs|].body.Costs()[0].costId == gas.costId;
      assert forall i | 0 <= i < |rs| :: all[i] == rs[i];
    }
    assert NamesOf(all) == NamesOf(rs) + {r.operationId} by {
      assert all[|rs|].operationId == r.operationId;
      assert forall i | 0 <= i < |rs| :: all[i] == rs[i];
    }
  }

  lemma {:induction false} DepositAlone(p: Portfolio, s: Supply, r: Receipt, gas: Cost)
    requires Current(p, s.ctx) && s.positionId !in p.positions && !HasOperation(p.applied, r.operationId)
    requires IsGas(gas) && A.Handed(s.ctx, s.DepositName(), s.DepositBody(gas)) == Ok(r)
    ensures ApplyReceipt(p, r).Ok? <==>
              CashCovers(p, s.ctx.cashViewId, s.amount) && gas.costId !in p.costs && gas.amount <= NetValue(p)
    ensures ApplyReceipt(p, r).Ok? ==>
              Reached(p, ApplyReceipt(p, r).value, 1, s.ctx.observedAt, {r.operationId}, gas.amount)
    ensures r.body.Costs() == [gas]
  {
    hide ApplyReceipt, Current, Next, NetValue, Reached, HasOperation;
    assert r.operationId == s.DepositName();
    HandedIsNext(p, s.ctx, s.DepositName(), s.DepositBody(gas), r);
    assert s.DepositBody(gas).Costs()[0] == gas;
    DepositTaken(p, r, s.amount, gas);
    GasOfOne(r, gas);
    if ApplyReceipt(p, r).Ok? {
      NextReached(p, r, ApplyReceipt(p, r).value);
    }
  }

  lemma {:induction false} ApprovalAlone(p: Portfolio, s: Supply, r: Receipt, gas: Cost)
    requires Current(p, s.ctx) && !HasOperation(p.applied, r.operationId)
    requires IsGas(gas) && A.Handed(s.ctx, s.Base() + "-approve", s.ApprovalBody(gas)) == Ok(r)
    ensures ApplyReceipt(p, r).Ok? <==> CanApprove(p, s) && gas.costId !in p.costs && gas.amount <= NetValue(p)
    ensures ApplyReceipt(p, r).Ok? ==>
              var q := ApplyReceipt(p, r).value;
              && Reached(p, q, 1, s.ctx.observedAt, {r.operationId}, gas.amount)
              && q.cash == p.cash && q.positions == p.positions && q.pnl == p.pnl && q.views == p.views
              && q.costs.Keys == p.costs.Keys + {gas.costId}
    ensures r.body.Costs() == [gas] && 0 < gas.amount
  {
    hide ApplyReceipt, Current, Next, NetValue, Reached, HasOperation, HasAsset;
    HandedIsNext(p, s.ctx, s.Base() + "-approve", s.ApprovalBody(gas), r);
    assert s.ApprovalBody(gas).Costs()[0] == gas;
    ApprovalTaken(p, r, gas);
    GasOfOne(r, gas);
    NextCostsParse(p, r, gas);
    if ApplyReceipt(p, r).Ok? {
      NextReached(p, r, ApplyReceipt(p, r).value);
      ApprovalStep(p, r, gas, ApplyReceipt(p, r).value);
    }
  }

  lemma {:induction false} NextCostsParse(p: Portfolio, r: Receipt, gas: Cost)
    requires Next(p, r) && r.body.Costs() == [gas]
    ensures 0 < gas.amount
  {
    hide Valid, StartsEmpty, Admit, HasOperation;
    assert r.body.Costs()[0] == gas;
  }

  // The context an approval leaves for the deposit after it.
  lemma {:induction false} StillCurrent(p: Portfolio, q: Portfolio, ctx: A.Context, next: A.Context, n: nat,
      at: Timestamp, names: set<Id>, cost: int)
    requires Current(p, ctx) && Reached(p, q, n, at, names, cost) && IsUInt(p.version + n + 1)
    requires next.experimentId == ctx.experimentId && next.scenarioId == ctx.scenarioId
    requires next.provenance == ctx.provenance && next.version == ctx.version + n && at <= next.observedAt
    ensures Current(q, next)
  {
    hide Valid, StartsEmpty, HasOperation, NetValue;
  }

  lemma {:induction false} ApprovedThenDeposited(p: Portfolio, s: Supply, a: Receipt, r: Receipt, approval: Cost,
      deposit: Cost)
    requires Current(p, s.ctx) && IsUInt(p.version + 2) && s.positionId !in p.positions
    requires !HasOperation(p.applied, a.operationId) && !HasOperation(p.applied, r.operationId)
    requires IsGas(approval) && approval.costId == s.Base() + "-approval-gas"
    requires IsGas(deposit) && deposit.costId == s.Base() + "-supply-gas"
    requires A.Handed(s.ctx, s.Base() + "-approve", s.ApprovalBody(approval)) == Ok(a)
    requires A.Handed(s.ctx.(version := s.ctx.version + 1), s.DepositName(), s.DepositBody(deposit)) == Ok(r)
    ensures a.body.Costs() == [approval] && r.body.Costs() == [deposit]
    ensures var m := ApplyReceipt(p, a);
            && (m.Ok? && ApplyReceipt(m.value, r).Ok? <==>
                  && CanApprove(p, s) && CashCovers(p, s.ctx.cashViewId, s.amount)
                  && approval.costId !in p.costs && deposit.costId !in p.costs
                  && approval.amount + deposit.amount <= NetValue(p))
            && (m.Ok? && ApplyReceipt(m.value, r).Ok? ==>
                  Reached(p, ApplyReceipt(m.value, r).value, 2, s.ctx.observedAt, {a.operationId} + {r.operationId},
                          approval.amount + deposit.amount))
  {
    hide ApplyReceipt, Current, NetValue, Reached, HasOperation, CanApprove, CashCovers, A.Handed;
    ApprovalAlone(p, s, a, approval);
    HandedCosts(s.ctx, s.Base() + "-approve", s.ApprovalBody(approval), a);
    HandedCosts(s.ctx.(version := s.ctx.version + 1), s.DepositName(), s.DepositBody(deposit), r);
    DepositGasIsPositive(s.ctx.(version := s.ctx.version + 1), s, deposit, r);
    if ApplyReceipt(p, a).Ok? {
      var m := ApplyReceipt(p, a).value;
      var next := s.(ctx := s.ctx.(version := s.ctx.version + 1));
      StillCurrent(p, m, s.ctx, next.ctx, 1, s.ctx.observedAt, {a.operationId}, approval.amount);
      SecondName(p, m, s, a, r, approval.amount);
      EndsDiffer(s.Base(), "-approval-gas", s.Base(), "-supply-gas", 5);
      DepositAlone(m, next, r, deposit);
      ReachedNetValue(p, m, 1, s.ctx.observedAt, {a.operationId}, approval.amount);
      SameCash(p, m, s.ctx.cashViewId, s.amount);
      if ApplyReceipt(m, r).Ok? {
        ReachedThen(p, m, ApplyReceipt(m, r).value, 1, s.ctx.observedAt, {a.operationId}, approval.amount,
                    1, s.ctx.observedAt, {r.operationId}, deposit.amount);
      }
    }
  }

  lemma HandedCosts(ctx: A.Context, operationId: Id, body: Body, r: Receipt)
    requires A.Handed(ctx, operationId, body) == Ok(r)
    ensures r.body == body && r.operationId == operationId && r.observedAt == ctx.observedAt
  {
  }

  lemma {:induction false} DepositGasIsPositive(ctx: A.Context, s: Supply, gas: Cost, r: Receipt)
    requires A.Handed(ctx, s.DepositName(), s.DepositBody(gas)) == Ok(r)
    ensures 0 < gas.amount
  {
    assert s.DepositBody(gas).Costs()[0] == gas;
  }

  lemma SameCash(p: Portfolio, m: Portfolio, viewId: Id, amount: int)
    requires m.cash == p.cash && m.views == p.views
    ensures CashCovers(m, viewId, amount) <==> CashCovers(p, viewId, amount)
  {
  }

  lemma ReachedNetValue(p: Portfolio, q: Portfolio, n: nat, at: Timestamp, names: set<Id>, cost: int)
    requires Reached(p, q, n, at, names, cost)
    ensures NetValue(q) == NetValue(p) + (q.pnl - p.pnl) - cost
    ensures forall op :: HasOperation(q.applied, op) <==> HasOperation(p.applied, op) || op in names
  {
  }

  lemma {:induction false} SecondName(p: Portfolio, m: Portfolio, s: Supply, a: Receipt, r: Receipt, cost: int)
    requires Reached(p, m, 1, s.ctx.observedAt, {a.operationId}, cost) && !HasOperation(p.applied, r.operationId)
    requires a.operationId == s.Base() + "-approve" && r.operationId == s.DepositName()
    ensures !HasOperation(m.applied, r.operationId)
  {
    hide HasOperation, Valid, StartsEmpty, NetValue;
    if s.prefix.Some? {
      EndsDiffer(s.Base(), "-approve", s.Base(), "-deposit", 1);
    } else {
      EndsDiffer(s.Base(), "-approve", s.Base(), "-supply", 1);
    }
  }

  // Into a fresh position, with new names, the supply the adapter hands out is taken if and only if the view is known
  // and its cash covers the amount, the gas cost ids are unused and the gas is within net value; and, when the adapter
  // also hands out an approval, the ledger's own allowance is smaller and between the same parties.
  lemma {:induction false} SupplyTaken(p: Portfolio, s: Supply, rs: seq<Receipt>)
    requires Current(p, s.ctx) && IsUInt(p.version + 2) && s.positionId !in p.positions && s.Receipts() == Ok(rs)
    requires forall i | 0 <= i < |rs| :: !HasOperation(p.applied, rs[i].operationId)
    ensures Replay(p, rs).Ok? <==> CanSupply(p, s, rs)
    ensures Replay(p, rs).Ok? ==>
              Reached(p, Replay(p, rs).value, |rs|, s.ctx.observedAt, NamesOf(rs), GasOf(rs))
  {
    hide ApplyReceipt, Replay, Current, NetValue, Reached, HasOperation, CanApprove, CashCovers, A.Handed, IsGas;
    hide Supply.Receipts, GasOf, OwedBy, NamesOf, Supply.Base, Valid;
    CurrentIsValid(p, s.ctx);
    var approval, deposit := SupplyParts(s, rs);
    if |rs| == 1 {
      assert rs == [rs[0]];
      ReplayOfOne(p, rs[0]);
      DepositAlone(p, s, rs[0], deposit);
      GasOfOne(rs[0], deposit);
    } else {
      assert rs == [rs[0]] + [rs[1]];
      ApprovedThenDeposited(p, s, rs[0], rs[1], approval, deposit);
      ReplayOfOne(p, rs[0]);
      ReplayMore(p, [rs[0]], rs[1]);
      GasOfOne(rs[0], approval);
      GasOfMore([rs[0]], rs[1], deposit);
    }
  }

  lemma CurrentIsValid(p: Portfolio, ctx: A.Context)
    requires Current(p, ctx)
    ensures Valid(p)
  {
  }

  /******* There and back *******/

  datatype Return = Return(
    accrualCtx: A.Context, opening: int, reserve: A.Reserve,
    withdrawalCtx: A.Context, bookValue: int, reserveThen: A.Reserve, gas: A.Gas, conversion: A.Conversion,
    gasSource: SourceHash)
  {
    function Accrual(positionId: Id): Result<Receipt> { A.AaveAccrue(accrualCtx, positionId, opening, reserve) }

    function Withdrawal(positionId: Id, shares: int): Result<Receipt> {
      A.AaveWithdraw(withdrawalCtx, positionId, shares, bookValue, reserveThen, gas, conversion, gasSource)
    }
  }

  // A context of the same scenario, n receipts later and not earlier in time.
  predicate Continues(ctx: A.Context, later: A.Context, n: nat) {
    && later.experimentId == ctx.experimentId && later.scenarioId == ctx.scenarioId
    && later.provenance == ctx.provenance && later.version == ctx.version + n && ctx.observedAt <= later.observedAt
  }

  lemma AccrualHanded(back: Return, positionId: Id, r: Receipt)
    requires back.Accrual(positionId) == Ok(r)
    ensures 0 < back.opening <= back.reserve.liquidityIndex
    ensures A.Handed(back.accrualCtx, back.accrualCtx.scenarioId + "-aave-accrue",
                     Accrue(positionId, back.reserve.liquidityIndex, back.opening, [])) == Ok(r)
  {
  }

  lemma {:induction false} WithdrawalHanded(back: Return, positionId: Id, shares: int, r: Receipt)
      returns (gas: Cost)
    requires back.Withdrawal(positionId, shares) == Ok(r)
    ensures IsGas(gas) && gas.costId == back.withdrawalCtx.scenarioId + "-aave-withdraw-gas"
    ensures A.Handed(back.withdrawalCtx, back.withdrawalCtx.scenarioId + "-aave-withdraw",
                     Withdraw(back.withdrawalCtx.cashViewId, positionId, shares, back.bookValue, [gas])) == Ok(r)
  {
    hide Rounding.CeilDiv, A.Handed, A.MulDivCeil;
    gas := A.GasCost(back.withdrawalCtx.scenarioId + "-aave-withdraw-gas", back.gas, back.conversion, ExecutionGas,
                     A.MAINNET, back.gasSource).value;
  }

  lemma {:induction false} SupplyNames(s: Supply, rs: seq<Receipt>, id: Id)
    requires s.Receipts() == Ok(rs)
    ensures id + "-aave-accrue" !in NamesOf(rs) && id + "-aave-withdraw" !in NamesOf(rs)
    ensures id + "-aave-withdraw-gas" !in OwedBy(rs)
  {
    hide Supply.Receipts, A.Handed, Supply.Base;
    var approval, deposit := SupplyParts(s, rs);
    HandedCosts(s.ctx.(version := s.ctx.version + |rs| - 1), s.DepositName(), s.DepositBody(deposit), rs[|rs| - 1]);
    var ending := if s.prefix.Some? then "-deposit" else "-supply";
    EndsDiffer(id, "-aave-accrue", s.Base(), ending, 1);
    EndsDiffer(id, "-aave-withdraw", s.Base(), ending, 1);
    EndsDiffer(id, "-aave-withdraw-gas", s.Base(), "-supply-gas", 5);
    if |rs| == 2 {
      HandedCosts(s.ctx, s.Base() + "-approve", s.ApprovalBody(approval), rs[0]);
      EndsDiffer(id, "-aave-accrue", s.Base(), "-approve", 2);
      EndsDiffer(id, "-aave-withdraw", s.Base(), "-approve", 1);
      EndsDiffer(id, "-aave-withdraw-gas", s.Base(), "-approval-gas", 5);
    }
  }

  // An index that has not fallen since the opening never lowers a book opened at par.
  lemma {:induction false} IndexedIsNoLess(amount: int, index: int, opening: int)
    requires 0 <= amount && 0 < opening <= index
    ensures amount <= BookOf(amount, index, opening)
  {
    assert amount * index >= amount * opening by { MoreTimes(amount, opening, index); }
    if amount * index / opening < amount {
      Rounding.Multiples(amount * index / opening + 1, amount, opening);
    }
  }

  lemma MoreTimes(a: int, b: int, c: int)
    requires 0 <= a && b <= c
    ensures a * b <= a * c
  {
  }

  function Indexed(s: Supply, back: Return): int
    requires 0 < back.opening
  {
    BookOf(s.amount, back.reserve.liquidityIndex, back.opening)
  }

  // What the accrual leaves of the supplied state.
  ghost predicate HasAccrued(p: Portfolio, p2: Portfolio, s: Supply, owed: set<Id>, indexed: int) {
    && s.ctx.cashViewId in p.views && p.views[s.ctx.cashViewId].familyId in p.cash
    && p2.cash == CashAfter(p.cash, p.views[s.ctx.cashViewId].familyId, -s.amount) && p2.views == p.views
    && p2.pnl == p.pnl + indexed - s.amount && p2.costs.Keys == p.costs.Keys + owed
    && s.positionId in p2.positions
    && var x := p2.positions[s.positionId];
    && x.shares == s.amount && x.book == indexed
    && x.networkId == p.views[s.ctx.cashViewId].networkId && x.assetId == p.views[s.ctx.cashViewId].assetId
  }

  lemma {:induction false} AccrualLeg(p: Portfolio, p1: Portfolio, s: Supply, n: nat, names: set<Id>, cost: int,
      owed: set<Id>, back: Return, accrue: Receipt)
    requires Current(p, s.ctx) && IsUInt(p.version + n + 1) && 0 <= s.amount
    requires Reached(p, p1, n, s.ctx.observedAt, names, cost)
    requires HasSupplied(p, p1, s.ctx.cashViewId, s.positionId, s.amount, owed)
    requires p1.positions[s.positionId].lastObservedAt == s.ctx.observedAt
    requires Continues(s.ctx, back.accrualCtx, n) && back.Accrual(s.positionId) == Ok(accrue)
    requires !HasOperation(p.applied, accrue.operationId) && accrue.operationId !in names
    ensures 0 < back.opening
    ensures ApplyReceipt(p1, accrue).Ok? <==>
              && s.ctx.observedAt < back.accrualCtx.observedAt && IsUInt(Indexed(s, back))
              && IsInt256(p.pnl + Indexed(s, back) - s.amount)
    ensures ApplyReceipt(p1, accrue).Ok? ==>
              && !InHistory(p1, accrue)
              && HasAccrued(p, ApplyReceipt(p1, accrue).value, s, owed, Indexed(s, back))
              && Reached(p, ApplyReceipt(p1, accrue).value, n + 1, back.accrualCtx.observedAt,
                         names + {accrue.operationId}, cost)
  {
    hide ApplyReceipt, Current, NetValue, Reached, HasOperation, A.Handed, Return.Accrual, CashAfter, BookOf, InHistory;
    hide Next;
    AccrualHanded(back, s.positionId, accrue);
    HandedCosts(back.accrualCtx, back.accrualCtx.scenarioId + "-aave-accrue",
                Accrue(s.positionId, back.reserve.liquidityIndex, back.opening, []), accrue);
    StillCurrent(p, p1, s.ctx, back.accrualCtx, n, s.ctx.observedAt, names, cost);
    ReachedNetValue(p, p1, n, s.ctx.observedAt, names, cost);
    HandedIsNext(p1, back.accrualCtx, back.accrualCtx.scenarioId + "-aave-accrue",
                 Accrue(s.positionId, back.reserve.liquidityIndex, back.opening, []), accrue);
    AccrualTaken(p1, accrue);
    NextFacts(p1, accrue);
    IndexedIsNoLess(s.amount, back.reserve.liquidityIndex, back.opening);
    if ApplyReceipt(p1, accrue).Ok? {
      var p2 := ApplyReceipt(p1, accrue).value;
      NextReached(p1, accrue, p2);
      Accrued(p1, accrue, p2, s.positionId);
      AccrualKeepsCash(p1, accrue, p2);
      NoCosts(accrue);
      ReachedThen(p, p1, p2, n, s.ctx.observedAt, names, cost, 1, back.accrualCtx.observedAt, {accrue.operationId}, 0);
    }
  }

  lemma NoCosts(r: Receipt)
    requires r.body.Costs() == []
    ensures CostsSum(r.body.Costs()) == 0
  {
  }

  lemma {:induction false} WithdrawalLeg(p: Portfolio, p2: Portfolio, s: Supply, n: nat, at: Timestamp, names: set<Id>,
      cost: int, owed: set<Id>, indexed: int, back: Return, withdraw: Receipt, gas: Cost)
    requires Current(p, s.ctx) && IsUInt(p.version + n + 1)
    requires Reached(p, p2, n, at, names, cost) && HasAccrued(p, p2, s, owed, indexed)
    requires Continues(s.ctx, back.withdrawalCtx, n) && at <= back.withdrawalCtx.observedAt
    requires back.withdrawalCtx.cashViewId == s.ctx.cashViewId && IsGas(gas)
    requires A.Handed(back.withdrawalCtx, back.withdrawalCtx.scenarioId + "-aave-withdraw",
                      Withdraw(s.ctx.cashViewId, s.positionId, s.amount, back.bookValue, [gas])) == Ok(withdraw)
    requires !HasOperation(p.applied, withdraw.operationId) && withdraw.operationId !in names
    requires gas.costId !in owed
    ensures ApplyReceipt(p2, withdraw).Ok? <==>
              && back.bookValue == indexed
              && IsUInt(p.cash[p.views[s.ctx.cashViewId].familyId].amount - s.amount + indexed)
              && gas.costId !in p.costs
              && cost + gas.amount <= NetValue(p) + indexed - s.amount
    ensures ApplyReceipt(p2, withdraw).Ok? ==> !InHistory(p2, withdraw)
  {
    hide ApplyReceipt, Current, NetValue, Reached, HasOperation, A.Handed, InHistory, Next;
    HandedCosts(back.withdrawalCtx, back.withdrawalCtx.scenarioId + "-aave-withdraw",
                Withdraw(s.ctx.cashViewId, s.positionId, s.amount, back.bookValue, [gas]), withdraw);
    StillCurrent(p, p2, s.ctx, back.withdrawalCtx, n, at, names, cost);
    ReachedNetValue(p, p2, n, at, names, cost);
    HandedIsNext(p2, back.withdrawalCtx, back.withdrawalCtx.scenarioId + "-aave-withdraw",
                 Withdraw(s.ctx.cashViewId, s.positionId, s.amount, back.bookValue, [gas]), withdraw);
    assert withdraw.body.Costs()[0] == gas;
    WithdrawalTaken(p2, withdraw, gas);
    if ApplyReceipt(p2, withdraw).Ok? {
      NextReached(p2, withdraw, ApplyReceipt(p2, withdraw).value);
    }
  }

  // What the way back still asks of the portfolio the supply starts from: a newer observation, figures in range, the
  // withdrawal quoted at the floor of the indexed amount, and gas that is new and within net value plus the gain.
  ghost predicate CanReturn(p: Portfolio, s: Supply, rs: seq<Receipt>, back: Return, withdraw: Receipt)
    requires 0 < back.opening && CashCovers(p, s.ctx.cashViewId, s.amount)
  {
    var indexed := Indexed(s, back);
    && s.ctx.observedAt < back.accrualCtx.observedAt
    && IsUInt(indexed) && IsInt256(p.pnl + indexed - s.amount)
    && back.bookValue == indexed
    && IsUInt(p.cash[p.views[s.ctx.cashViewId].familyId].amount - s.amount + indexed)
    && back.withdrawalCtx.scenarioId + "-aave-withdraw-gas" !in p.costs
    && GasOf(rs) + GasOf([withdraw]) <= NetValue(p) + indexed - s.amount
  }

  // The inputs of a trip: the adapters' receipts, under names the portfolio has not seen, in contexts one after the
  // other.
  ghost predicate Planned(p: Portfolio, s: Supply, rs: seq<Receipt>, back: Return, accrue: Receipt, withdraw: Receipt) {
    && Current(p, s.ctx) && IsUInt(p.version) && IsUInt(p.version + 4) && s.positionId !in p.positions
    && s.Receipts() == Ok(rs) && back.Accrual(s.positionId) == Ok(accrue)
    && back.Withdrawal(s.positionId, s.amount) == Ok(withdraw)
    && (forall i | 0 <= i < |rs| :: !HasOperation(p.applied, rs[i].operationId))
    && !HasOperation(p.applied, accrue.operationId) && !HasOperation(p.applied, withdraw.operationId)
    && Continues(s.ctx, back.accrualCtx, |rs|) && Continues(s.ctx, back.withdrawalCtx, |rs| + 1)
    && back.accrualCtx.observedAt <= back.withdrawalCtx.observedAt
    && back.withdrawalCtx.cashViewId == s.ctx.cashViewId
  }

  lemma {:induction false} SuppliedState(p: Portfolio, s: Supply, rs: seq<Receipt>)
    requires s.Receipts() == Ok(rs) && s.positionId !in p.positions && Replay(p, rs).Ok?
    requires forall i | 0 <= i < |rs| :: !HasOperation(p.applied, rs[i].operationId)
    ensures var p1 := Replay(p, rs).value;
            && HasSupplied(p, p1, s.ctx.cashViewId, s.positionId, s.amount, OwedBy(rs))
            && p1.positions[s.positionId].lastObservedAt == s.ctx.observedAt
    ensures 0 < s.amount && 1 <= |rs| <= 2
  {
    hide Replay, HasOperation, HasSupplied, A.Handed, OwedBy, IsGas;
    SupplyReceipts(s.ctx, s.amount, s.instrumentId, s.positionId, s.allowanceId, s.currentAllowance, s.prefix,
                   s.reserve, s.approvalGas, s.supplyGas, s.conversion, s.approvalSource, s.supplySource, rs);
    Supplied(p, rs, s.ctx.version, s.ctx.cashViewId, s.positionId, s.amount, Replay(p, rs).value);
    var approval, deposit := SupplyParts(s, rs);
    PositiveDeposit(s, s.ctx.(version := s.ctx.version + |rs| - 1), deposit, rs[|rs| - 1]);
  }

  lemma {:induction false} PositiveDeposit(s: Supply, ctx: A.Context, gas: Cost, r: Receipt)
    requires A.Handed(ctx, s.DepositName(), s.DepositBody(gas)) == Ok(r)
    ensures 0 < s.amount && r.observedAt == ctx.observedAt
  {
  }

  // An approval the ledger takes is on its books, and the deposit after it leaves it there.
  lemma {:induction false} AllowanceRecorded(p: Portfolio, a: Receipt, m: Portfolio, r: Receipt, q: Portfolio)
    requires ApplyReceipt(p, a) == Ok(m) && !InHistory(p, a) && a.body.Approve?
    requires ApplyReceipt(m, r) == Ok(q) && !r.body.Approve?
    ensures var b := a.body;
            && b.allowanceId in q.allowances
            && q.allowances[b.allowanceId] == Allowance(b.networkId, b.assetId, b.spenderId, b.amount)
  {
    hide Valid, Admit, ReceiptParses, ApplyCosts, Framed, CostsAdded, ApplyReceipt, DepositEffect;
    AcceptedStep(p, a, m);
    AcceptedStep(m, r, q);
    assert ApproveEffect(p, a) == Ok(Effect(p, a).value);
    hide Effect;
  }

  // What an accepted supply with an approval leaves: the allowance at the supply's amount, over a known asset.
  lemma {:induction false} SupplyLeavesAllowance(p: Portfolio, s: Supply, rs: seq<Receipt>, p1: Portfolio)
    requires Current(p, s.ctx) && IsUInt(p.version + 2) && s.positionId !in p.positions
    requires s.Receipts() == Ok(rs) && |rs| == 2 && Replay(p, rs) == Ok(p1)
    requires forall i | 0 <= i < |rs| :: !HasOperation(p.applied, rs[i].operationId)
    ensures s.allowanceId in p1.allowances
    ensures p1.allowances[s.allowanceId] == Allowance(A.MAINNET, s.reserve.assetId, "aave-v3-pool", s.amount)
    ensures HasAsset(p1.views, A.MAINNET, s.reserve.assetId) && p1.views == p.views
  {
    hide ApplyReceipt, Replay, Current, NetValue, HasOperation, CashCovers, A.Handed, IsGas, InHistory;
    hide Supply.Receipts, GasOf, OwedBy, NamesOf, Supply.Base, Valid, HasAsset, HasSupplied, Reached;
    var approval, deposit := SupplyParts(s, rs);
    HandedCosts(s.ctx, s.Base() + "-approve", s.ApprovalBody(approval), rs[0]);
    HandedCosts(s.ctx.(version := s.ctx.version + |rs| - 1), s.DepositName(), s.DepositBody(deposit), rs[|rs| - 1]);
    var m := ReplayTwo(p, rs, p1);
    NotInHistory(p, rs[0]);
    AllowanceRecorded(p, rs[0], m, rs[1], p1);
    SupplyTaken(p, s, rs);
    SuppliedState(p, s, rs);
    SuppliedViews(p, p1, s, OwedBy(rs));
  }

  lemma SuppliedViews(p: Portfolio, p1: Portfolio, s: Supply, owed: set<Id>)
    requires HasSupplied(p, p1, s.ctx.cashViewId, s.positionId, s.amount, owed)
    ensures p1.views == p.views
  {
  }

  // A later supply under the allowance an earlier one left: where the adapter hands out an approval, because the caller
  // states a smaller allowance than it asks for, the ledger takes it only above the amount already approved.
  lemma {:induction false} SecondSupplyTaken(p: Portfolio, s: Supply, rs: seq<Receipt>, p1: Portfolio, s2: Supply,
      rs2: seq<Receipt>)
    requires Current(p, s.ctx) && IsUInt(p.version + 2) && s.positionId !in p.positions
    requires s.Receipts() == Ok(rs) && |rs| == 2 && Replay(p, rs) == Ok(p1)
    requires forall i | 0 <= i < |rs| :: !HasOperation(p.applied, rs[i].operationId)
    requires Current(p1, s2.ctx) && IsUInt(p1.version + 2) && s2.positionId !in p1.positions
    requires s2.Receipts() == Ok(rs2) && s2.allowanceId == s.allowanceId
    requires forall i | 0 <= i < |rs2| :: !HasOperation(p1.applied, rs2[i].operationId)
    ensures Replay(p1, rs2).Ok? <==>
              && CashCovers(p1, s2.ctx.cashViewId, s2.amount)
              && (forall id | id in OwedBy(rs2) :: id !in p1.costs) && GasOf(rs2) <= NetValue(p1)
              && (s2.currentAllowance < s2.amount ==> s.amount < s2.amount && s2.reserve.assetId == s.reserve.assetId)
  {
    hide ApplyReceipt, Replay, Current, NetValue, Reached, HasOperation, CashCovers, A.Handed, IsGas, HasAsset;
    hide Supply.Receipts, GasOf, OwedBy, NamesOf, Supply.Base, Valid;
    SupplyLeavesAllowance(p, s, rs, p1);
    var approval, deposit := SupplyParts(s2, rs2);
    SupplyTaken(p1, s2, rs2);
  }

  lemma {:induction false} TripLegs(p: Portfolio, s: Supply, rs: seq<Receipt>, back: Return, accrue: Receipt,
      withdraw: Receipt)
    requires Planned(p, s, rs, back, accrue, withdraw) && Replay(p, rs).Ok?
    ensures 0 < back.opening && CashCovers(p, s.ctx.cashViewId, s.amount)
    ensures var p1 := Replay(p, rs).value;
            var p2 := ApplyReceipt(p1, accrue);
            && (p2.Ok? && ApplyReceipt(p2.value, withdraw).Ok? <==> CanReturn(p, s, rs, back, withdraw))
            && (p2.Ok? ==> !InHistory(p1, accrue))
            && (p2.Ok? && ApplyReceipt(p2.value, withdraw).Ok? ==> !InHistory(p2.value, withdraw))
  {
    hide ApplyReceipt, Replay, Current, NetValue, Reached, HasOperation, A.Handed, InHistory, CashCovers;
    hide Supply.Receipts, Return.Accrual, Return.Withdrawal, GasOf, OwedBy, NamesOf, HasAccrued, Indexed;
    var p1 := Replay(p, rs).value;
    SupplyTaken(p, s, rs);
    SuppliedState(p, s, rs);
    AccrualHanded(back, s.positionId, accrue);
    HandedCosts(back.accrualCtx, back.accrualCtx.scenarioId + "-aave-accrue",
                Accrue(s.positionId, back.reserve.liquidityIndex, back.opening, []), accrue);
    var gas := WithdrawalHanded(back, s.positionId, s.amount, withdraw);
    HandedCosts(back.withdrawalCtx, back.withdrawalCtx.scenarioId + "-aave-withdraw",
                Withdraw(s.ctx.cashViewId, s.positionId, s.amount, back.bookValue, [gas]), withdraw);
    SupplyNames(s, rs, s.ctx.scenarioId);
    EndsDiffer(s.ctx.scenarioId, "-aave-accrue", s.ctx.scenarioId, "-aave-withdraw", 1);
    GasOfOne(withdraw, gas);
    AccrualLeg(p, p1, s, |rs|, NamesOf(rs), GasOf(rs), OwedBy(rs), back, accrue);
    if ApplyReceipt(p1, accrue).Ok? {
      WithdrawalLeg(p, ApplyReceipt(p1, accrue).value, s, |rs| + 1, back.accrualCtx.observedAt,
                    NamesOf(rs) + {accrue.operationId}, GasOf(rs), OwedBy(rs), Indexed(s, back), back, withdraw, gas);
    }
    CashIsCovered(p, s.ctx.cashViewId, s.amount);
  }

  lemma CashIsCovered(p: Portfolio, viewId: Id, amount: int)
    requires CashCovers(p, viewId, amount)
    ensures viewId in p.views && p.views[viewId].familyId in p.cash
  {
  }

  // After an accepted supply and accrual, an accepted withdrawal of the whole position pays the floor of
  // amount * i1 / i0, whatever book value it quoted.
  lemma {:induction false} RoundTripReturnsIndexedAmount(p: Portfolio, s: Supply, rs: seq<Receipt>, p1: Portfolio,
      back: Return, accrue: Receipt, p2: Portfolio, withdraw: Receipt, p3: Portfolio)
    requires s.Receipts() == Ok(rs) && s.positionId !in p.positions && Replay(p, rs) == Ok(p1)
    requires forall i | 0 <= i < |rs| :: !HasOperation(p.applied, rs[i].operationId)
    requires back.Accrual(s.positionId) == Ok(accrue) && ApplyReceipt(p1, accrue) == Ok(p2) && !InHistory(p1, accrue)
    requires back.Withdrawal(s.positionId, s.amount) == Ok(withdraw) && ApplyReceipt(p2, withdraw) == Ok(p3)
    requires !InHistory(p2, withdraw) && back.withdrawalCtx.cashViewId == s.ctx.cashViewId
    ensures 0 < back.opening <= back.reserve.liquidityIndex && back.bookValue == Indexed(s, back)
    ensures s.ctx.cashViewId in p.views && p.views[s.ctx.cashViewId].familyId in p.cash
    ensures p3.cash == CashAfter(p.cash, p.views[s.ctx.cashViewId].familyId, back.bookValue - s.amount)
    ensures s.amount <= back.bookValue && s.positionId !in p3.positions && p3.pnl == p.pnl + back.bookValue - s.amount
    ensures p3.payables.Keys == p.payables.Keys + OwedBy(rs + [withdraw])
  {
    hide ApplyReceipt, Replay, NetValue, HasOperation, A.Handed, InHistory, OwedBy, BookOf, CashAfter, HasSupplied;
    hide IsGas, Supply.Receipts, Return.Accrual, Return.Withdrawal;
    SuppliedState(p, s, rs);
    AccrualHanded(back, s.positionId, accrue);
    var gas := WithdrawalHanded(back, s.positionId, s.amount, withdraw);
    HandedCosts(back.accrualCtx, back.accrualCtx.scenarioId + "-aave-accrue",
                Accrue(s.positionId, back.reserve.liquidityIndex, back.opening, []), accrue);
    HandedCosts(back.withdrawalCtx, back.withdrawalCtx.scenarioId + "-aave-withdraw",
                Withdraw(s.ctx.cashViewId, s.positionId, s.amount, back.bookValue, [gas]), withdraw);
    ThereAndBack(p, p1, accrue, p2, withdraw, gas, p3, s.ctx.cashViewId, s.positionId, s.amount, OwedBy(rs));
    IndexedIsNoLess(s.amount, back.reserve.liquidityIndex, back.opening);
    GasOfMore(rs, withdraw, gas);
  }

  // Supply, one accrual to index i1/i0 and a full withdrawal: the ledger takes all of it if and only if it can take
  // the supply and the way back, both read off the portfolio before the first receipt. Then the withdrawal pays the
  // floor of amount * i1 / i0, the position is gone, modelled PnL moved by the difference, and gas is only owed.
  lemma {:induction false} WholeTripTaken(p: Portfolio, s: Supply, rs: seq<Receipt>, back: Return, accrue: Receipt,
      withdraw: Receipt)
    requires Planned(p, s, rs, back, accrue, withdraw)
    ensures 0 < back.opening <= back.reserve.liquidityIndex
    ensures Replay(p, rs + [accrue] + [withdraw]).Ok? <==>
              CanSupply(p, s, rs) && CanReturn(p, s, rs, back, withdraw)
    ensures Replay(p, rs + [accrue] + [withdraw]).Ok? ==>
              var q := Replay(p, rs + [accrue] + [withdraw]).value;
              var gained := Indexed(s, back) - s.amount;
              && 0 <= gained
              && s.ctx.cashViewId in p.views && p.views[s.ctx.cashViewId].familyId in p.cash
              && q.cash == CashAfter(p.cash, p.views[s.ctx.cashViewId].familyId, gained)
              && s.positionId !in q.positions && q.pnl == p.pnl + gained
              && q.payables.Keys == p.payables.Keys + OwedBy(rs + [withdraw])
  {
    hide ApplyReceipt, Replay, Current, NetValue, Reached, HasOperation, A.Handed, InHistory, CashCovers, CanApprove;
    hide Supply.Receipts, Return.Accrual, Return.Withdrawal, GasOf, OwedBy, CanReturn, BookOf;
    AccrualHanded(back, s.positionId, accrue);
    SupplyTaken(p, s, rs);
    ReplayMore(p, rs, accrue);
    ReplayMore(p, rs + [accrue], withdraw);
    if Replay(p, rs).Ok? {
      TripLegs(p, s, rs, back, accrue, withdraw);
      if Replay(p, rs + [accrue] + [withdraw]).Ok? {
        var p1 := Replay(p, rs).value;
        var p2 := ApplyReceipt(p1, accrue).value;
        RoundTripReturnsIndexedAmount(p, s, rs, p1, back, accrue, p2, withdraw, ApplyReceipt(p2, withdraw).value);
      }
    }
  }
}
