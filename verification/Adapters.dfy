// The receipts the Aave and vault adapters make from captured protocol data, and what the ledger does with them.
module Adapters {
  import opened Prelude
  import opened Rounding
  import opened Ledger

  const BPS: int := 10000

  // Evidence is a captured payload already loaded, checked and fresh.
  datatype Context = Context(
    experimentId: Id, scenarioId: Id, version: int, observedAt: Timestamp, provenance: string, cashViewId: Id,
    sourceHashes: seq<SourceHash>)

  datatype Gas = Gas(amountIn: int, gasUnits: int, priceWei: int)

  datatype Conversion = Conversion(usdcNum: int, weiDen: int)

  datatype Vault = Vault(
    testAmount: int, maxDeposit: int, maxMintShares: int, maxWithdraw: int, maxRedeemShares: int, availableExit: int,
    depositFeeBps: int, redeemFeeBps: int, previewDepositShares: int, previewRedeemAssets: int, sourceHash: SourceHash)

  datatype Reserve = Reserve(
    active: bool, frozen: bool, paused: bool, supplyCap: int, totalSupplied: int, availableLiquidity: int,
    liquidityIndex: int, assetId: Id)

  predicate VaultParses(v: Vault) {
    && IsPositiveUInt(v.testAmount) && IsUInt(v.maxDeposit) && IsUInt(v.maxMintShares) && IsUInt(v.maxWithdraw)
    && IsUInt(v.maxRedeemShares) && IsUInt(v.availableExit) && IsUInt(v.previewDepositShares)
    && IsUInt(v.previewRedeemAssets)
    && 0 <= v.depositFeeBps <= BPS && 0 <= v.redeemFeeBps <= BPS
  }

  predicate GasParses(g: Gas, c: Conversion) {
    && IsPositiveUInt(g.amountIn) && IsUInt(g.gasUnits) && IsUInt(g.priceWei)
    && IsPositiveUInt(c.usdcNum) && IsPositiveUInt(c.weiDen)
  }

  /******* Charges *******/

  // The value of mulDiv with CEIL rounding.
  function MulDivCeil(a: int, b: int, d: int): (r: Result<int>)
    ensures r.Ok? ==> 0 <= a && 0 <= b && 0 < d && IsUInt(r.value) && r.value == CeilDiv(a * b, d)
  {
    var scaled :- MulDiv(a, b, d, Up);
    Ok(scaled.value)
  }

  // A gas charge is owed, not paid: the source books it as a payable on the network.
  function GasCost(costId: Id, gas: Gas, conversion: Conversion, category: CostCategory, networkId: Id,
      source: SourceHash): Result<Cost> {
    var amount :- MulDivCeil(gas.gasUnits * gas.priceWei, conversion.usdcNum, conversion.weiDen);
    if amount == 0 then Err(AccountingInvariant)
    else Ok(Cost(costId, category, OnPayable, amount, networkId, None, source))
  }

  // The gas charge, and the withheld gap when there is one.
  function Charges(gas: Cost, gapId: Id, category: CostCategory, gap: int, networkId: Id,
      source: SourceHash): seq<Cost> {
    [gas] + if gap == 0 then [] else [Cost(gapId, category, Withheld, gap, networkId, None, source)]
  }

  function SourcesOf(costs: seq<Cost>): seq<SourceHash> {
    seq(|costs|, i requires 0 <= i < |costs| => costs[i].sourceHash)
  }

  // Every adapter result is parsed before it is handed out.
  function Handed(ctx: Context, operationId: Id, body: Body): Result<Receipt> {
    var r := Receipt(operationId, ctx.experimentId, ctx.scenarioId, ctx.version, ctx.observedAt, ctx.provenance,
                     ctx.sourceHashes + SourcesOf(body.Costs()), body);
    if ReceiptParses(r) then Ok(r) else Err(SchemaRejected)
  }

  /******* Vault *******/

  function VaultDeposit(ctx: Context, amount: int, instrumentId: Id, positionId: Id, networkId: Id, vault: Vault,
      gas: Gas, conversion: Conversion, gasSource: SourceHash): Result<Receipt> {
    if vault.testAmount != amount || gas.amountIn != amount then Err(DataUnavailable)
    else if amount > vault.maxDeposit || vault.previewDepositShares > vault.maxMintShares then Err(LimitExceeded)
    else if vault.previewDepositShares == 0 then Err(LimitExceeded)
    else
      var gasCharge :- GasCost(ctx.scenarioId + "-vault-deposit-gas", gas, conversion, ExecutionGas, networkId,
                               gasSource);
      var fee :- MulDivCeil(amount, vault.depositFeeBps, BPS);
      Handed(ctx, ctx.scenarioId + "-vault-deposit",
        Deposit(ctx.cashViewId, positionId, instrumentId, vault.previewDepositShares, amount - fee,
                vault.previewDepositShares, amount,
                Charges(gasCharge, ctx.scenarioId + "-vault-entry-fee", ProtocolFee, fee, networkId, vault.sourceHash)))
  }

  function VaultRedeem(ctx: Context, shares: int, bookValue: int, positionId: Id, networkId: Id, vault: Vault, gas: Gas,
      conversion: Conversion, gasSource: SourceHash): Result<Receipt> {
    if gas.amountIn != bookValue then Err(DataUnavailable)
    else if shares > vault.maxRedeemShares || vault.previewRedeemAssets > vault.maxWithdraw then Err(LimitExceeded)
    else if vault.previewRedeemAssets > vault.availableExit then Err(LiquidityUnavailable)
    else
      var gross := vault.previewRedeemAssets;
      var fee :- MulDivCeil(gross, vault.redeemFeeBps, BPS);
      if gross < fee then Err(AccountingInvariant)
      else if gross - fee > bookValue then Err(AccountingInvariant)
      else
        var gasCharge :- GasCost(ctx.scenarioId + "-vault-redeem-gas", gas, conversion, ExecutionGas, networkId,
                                 gasSource);
        Handed(ctx, ctx.scenarioId + "-vault-redeem",
          Withdraw(ctx.cashViewId, positionId, shares, gross - fee,
                   Charges(gasCharge, ctx.scenarioId + "-vault-exit-gap", ProtocolFee, bookValue - (gross - fee),
                           networkId, vault.sourceHash)))
  }

  /******* Aave *******/

  const MAINNET: Id := "ethereum-mainnet"

  function AaveSupply(ctx: Context, amount: int, instrumentId: Id, positionId: Id, allowanceId: Id,
      currentAllowance: int, prefix: Option<Id>, reserve: Reserve, approvalGas: Gas, supplyGas: Gas,
      conversion: Conversion, approvalSource: SourceHash, supplySource: SourceHash): Result<seq<Receipt>> {
    var base := if prefix.Some? then prefix.value else ctx.scenarioId + "-aave";
    if approvalGas.amountIn != amount || supplyGas.amountIn != amount then Err(DataUnavailable)
    else if !reserve.active || reserve.frozen || reserve.paused then Err(LimitExceeded)
    else if reserve.supplyCap > 0 && reserve.totalSupplied + amount > reserve.supplyCap then Err(LimitExceeded)
    else
      var approval :-
        if currentAllowance < amount then
          var cost :- GasCost(base + "-approval-gas", approvalGas, conversion, ApprovalGas, MAINNET, approvalSource);
          var r :- Handed(ctx, base + "-approve",
                          Approve(allowanceId, MAINNET, reserve.assetId, "aave-v3-pool", amount, [cost]));
          Ok([r])
        else Ok([]);
      var cost :- GasCost(base + "-supply-gas", supplyGas, conversion, ExecutionGas, MAINNET, supplySource);
      var r :- Handed(ctx.(version := ctx.version + |approval|), base + if prefix.Some? then "-deposit" else "-supply",
                      Deposit(ctx.cashViewId, positionId, instrumentId, amount, 1, 1, amount, [cost]));
      Ok(approval + [r])
  }

  function AaveAccrue(ctx: Context, positionId: Id, openingIndex: int, reserve: Reserve): Result<Receipt> {
    if reserve.liquidityIndex < openingIndex then Err(AccountingInvariant)
    else Handed(ctx, ctx.scenarioId + "-aave-accrue", Accrue(positionId, reserve.liquidityIndex, openingIndex, []))
  }

  function AaveWithdraw(ctx: Context, positionId: Id, shares: int, bookValue: int, reserve: Reserve, gas: Gas,
      conversion: Conversion, gasSource: SourceHash): Result<Receipt> {
    if gas.amountIn != bookValue then Err(DataUnavailable)
    else if reserve.availableLiquidity < bookValue then Err(LiquidityUnavailable)
    else
      var cost :- GasCost(ctx.scenarioId + "-aave-withdraw-gas", gas, conversion, ExecutionGas, MAINNET, gasSource);
      Handed(ctx, ctx.scenarioId + "-aave-withdraw", Withdraw(ctx.cashViewId, positionId, shares, bookValue, [cost]))
  }

  /******* How the ledger takes the charges *******/

  lemma {:induction false} SourcesListed(costs: seq<Cost>, more: seq<SourceHash>)
    ensures forall i | 0 <= i < |costs| :: costs[i].sourceHash in more + SourcesOf(costs)
  {
    forall i | 0 <= i < |costs|
      ensures costs[i].sourceHash in more + SourcesOf(costs)
    {
      assert (more + SourcesOf(costs))[|more| + i] == costs[i].sourceHash;
    }
  }

  lemma {:induction false} WithheldIsGap(gas: Cost, gapId: Id, category: CostCategory, gap: int, networkId: Id,
      source: SourceHash)
    requires gas.funding.OnPayable?
    ensures WithheldTotal(Charges(gas, gapId, category, gap, networkId, source)) == gap
  {
    var costs := Charges(gas, gapId, category, gap, networkId, source);
    assert [gas][..0] == [];
    assert WithheldTotal([gas]) == 0;
    if gap != 0 { assert costs[..1] == [gas]; }
  }

  function CostsWith(costs: map<Id, RecognizedCost>, operationId: Id, gas: Cost, gapId: Id, category: CostCategory,
      gap: int, networkId: Id, source: SourceHash): map<Id, RecognizedCost> {
    var charged := costs[gas.costId := RecognizedCost(gas, operationId)];
    if gap == 0 then charged
    else charged[gapId := RecognizedCost(Cost(gapId, category, Withheld, gap, networkId, None, source), operationId)]
  }

  function Charged(s: Portfolio, r: Receipt, gas: Cost, gapId: Id, category: CostCategory, gap: int, networkId: Id,
      source: SourceHash): Portfolio {
    s.(payables := s.payables[gas.costId := FeePayable(gas.networkId, gas.amount)],
       costs := CostsWith(s.costs, r.operationId, gas, gapId, category, gap, networkId, source))
  }

  // Gas becomes a payable and the gap a recognised cost; nothing is taken from cash. It fails only on a used cost id.
  lemma {:induction false} ChargesTaken(s: Portfolio, r: Receipt, gas: Cost, gapId: Id, category: CostCategory,
      gap: int, networkId: Id, source: SourceHash)
    requires gas.funding.OnPayable? && gas.cashFamily.None? && gapId != gas.costId
    requires r.body.Costs() == Charges(gas, gapId, category, gap, networkId, source)
    requires gas.sourceHash in r.sourceHashes && (gap != 0 ==> source in r.sourceHashes)
    ensures ApplyCosts(s, r, gap).Ok? <==> gas.costId !in s.costs && (gap != 0 ==> gapId !in s.costs)
    ensures ApplyCosts(s, r, gap).Ok? ==>
              ApplyCosts(s, r, gap) == Ok(Charged(s, r, gas, gapId, category, gap, networkId, source))
  {
    var costs := r.body.Costs();
    WithheldIsGap(gas, gapId, category, gap, networkId, source);
    assert ChargeAll(s, r, []) == Ok(s);
    assert [gas][..0] == [];
    assert ChargeAll(s, r, [gas]) == ChargeOne(s, r, gas);
    if gap != 0 {
      assert costs[..1] == [gas];
      assert DistinctCostIds(costs);
    }
  }

  lemma {:induction false} DifferentEnds(a: string, x: string, y: string)
    requires x != [] && y != [] && x[|x| - 1] != y[|y| - 1]
    ensures a + x != a + y
  {
    var u, v := a + x, a + y;
    assert u[|u| - 1] == x[|x| - 1] && v[|v| - 1] == y[|y| - 1];
  }

  /******* The vault on the ledger *******/

  lemma {:induction false} WholeIndex(shares: int, credited: int)
    requires 0 < shares
    ensures BookOf(shares, credited, shares) == credited && RemainderOf(shares, credited, shares) == 0
  {
    Multiple(credited, shares);
  }

  lemma {:induction false} Multiple(q: int, d: int)
    requires 0 < d
    ensures (d * q) / d == q && (d * q) % d == 0
  {
    assert d * q == q * d && (q + 1) * d == q * d + d;
    QuotientIsUnique(d * q, d, q);
  }

  // What a handed vault deposit holds.
  lemma {:induction false} VaultDepositShape(ctx: Context, amount: int, instrumentId: Id, positionId: Id, networkId: Id,
      vault: Vault, gas: Gas, conversion: Conversion, gasSource: SourceHash)
      returns (charge: Cost, fee: int)
    requires VaultDeposit(ctx, amount, instrumentId, positionId, networkId, vault, gas, conversion, gasSource).Ok?
    ensures var r := VaultDeposit(ctx, amount, instrumentId, positionId, networkId, vault, gas, conversion,
                                  gasSource).value;
            && ReceiptParses(r) && fee == CeilDiv(amount * vault.depositFeeBps, BPS) && 0 <= fee
            && IsUInt(amount - fee) && 0 < vault.previewDepositShares
            && charge.funding == OnPayable && charge.cashFamily == None
            && charge.costId == ctx.scenarioId + "-vault-deposit-gas"
            && r.body == Deposit(ctx.cashViewId, positionId, instrumentId, vault.previewDepositShares, amount - fee,
                                 vault.previewDepositShares, amount,
                                 Charges(charge, ctx.scenarioId + "-vault-entry-fee", ProtocolFee, fee, networkId,
                                         vault.sourceHash))
            && charge.sourceHash in r.sourceHashes && (fee != 0 ==> vault.sourceHash in r.sourceHashes)
  {
    hide CeilDiv;
    charge := GasCost(ctx.scenarioId + "-vault-deposit-gas", gas, conversion, ExecutionGas, networkId, gasSource).value;
    fee := MulDivCeil(amount, vault.depositFeeBps, BPS).value;
    var costs := Charges(charge, ctx.scenarioId + "-vault-entry-fee", ProtocolFee, fee, networkId, vault.sourceHash);
    SourcesListed(costs, ctx.sourceHashes);
    assert costs[0] == charge;
    if fee != 0 { assert costs[1].sourceHash == vault.sourceHash; }
  }

  // A vault deposit is handed out exactly when its fee leaves something to invest, besides the capture and limit
  // checks.
  lemma {:induction false} VaultDepositHandedOut(ctx: Context, amount: int, instrumentId: Id, positionId: Id,
      networkId: Id, vault: Vault, gas: Gas, conversion: Conversion, gasSource: SourceHash)
    requires VaultParses(vault) && GasParses(gas, conversion) && IsUInt(ctx.version) && ctx.sourceHashes != []
    requires vault.testAmount == amount == gas.amountIn
    requires amount <= vault.maxDeposit && 0 < vault.previewDepositShares <= vault.maxMintShares
    requires GasCost(ctx.scenarioId + "-vault-deposit-gas", gas, conversion, ExecutionGas, networkId, gasSource).Ok?
    ensures VaultDeposit(ctx, amount, instrumentId, positionId, networkId, vault, gas, conversion, gasSource).Ok?
            <==> CeilDiv(amount * vault.depositFeeBps, BPS) < amount
  {
    FeeWithinAmount(amount, vault.depositFeeBps);
    hide CeilDiv;
    var fee := CeilDiv(amount * vault.depositFeeBps, BPS);
    assert MulDivCeil(amount, vault.depositFeeBps, BPS) == Ok(fee);
    var charge := GasCost(ctx.scenarioId + "-vault-deposit-gas", gas, conversion, ExecutionGas, networkId,
                          gasSource).value;
    var costs := Charges(charge, ctx.scenarioId + "-vault-entry-fee", ProtocolFee, fee, networkId, vault.sourceHash);
    assert CostsParse(costs);
  }

  lemma {:induction false} FeeWithinAmount(amount: int, bps: int)
    requires 0 < amount && 0 <= bps <= BPS
    ensures 0 <= CeilDiv(amount * bps, BPS) <= amount
  {
    Multiples(0, bps, amount);
    Multiples(bps, BPS, amount);
    assert bps * amount == amount * bps && BPS * amount == amount * BPS;
  }

  lemma {:induction false} FeeBelowAmount(amount: int, bps: int)
    requires 0 <= amount && 0 <= amount * bps
    ensures CeilDiv(amount * bps, BPS) < amount <==> BPS <= amount * (BPS - bps)
  {
    var q := CeilDiv(amount * bps, BPS);
    CeilIsLeastAbove(amount * bps, BPS, q);
    assert amount * (BPS - bps) == amount * BPS - amount * bps;
    hide CeilDiv;
    assert amount * bps <= q * BPS < amount * bps + BPS;
  }

  // The same in the two figures alone: what the fee leaves, times the amount, must reach one whole.
  lemma {:induction false} VaultDepositSmallestAmount(ctx: Context, amount: int, instrumentId: Id, positionId: Id,
      networkId: Id, vault: Vault, gas: Gas, conversion: Conversion, gasSource: SourceHash)
    requires VaultParses(vault) && GasParses(gas, conversion) && IsUInt(ctx.version) && ctx.sourceHashes != []
    requires vault.testAmount == amount == gas.amountIn
    requires amount <= vault.maxDeposit && 0 < vault.previewDepositShares <= vault.maxMintShares
    requires GasCost(ctx.scenarioId + "-vault-deposit-gas", gas, conversion, ExecutionGas, networkId, gasSource).Ok?
    ensures VaultDeposit(ctx, amount, instrumentId, positionId, networkId, vault, gas, conversion, gasSource).Ok?
            <==> BPS <= amount * (BPS - vault.depositFeeBps)
  {
    hide CeilDiv, VaultDeposit;
    VaultDepositHandedOut(ctx, amount, instrumentId, positionId, networkId, vault, gas, conversion, gasSource);
    Multiples(0, vault.depositFeeBps, amount);
    assert 0 <= amount * vault.depositFeeBps;
    FeeBelowAmount(amount, vault.depositFeeBps);
  }

  // The input it fails on: one minor unit is refused at any positive fee.
  lemma {:induction false} OneUnitIsRefused(ctx: Context, instrumentId: Id, positionId: Id, networkId: Id, vault: Vault,
      gas: Gas, conversion: Conversion, gasSource: SourceHash)
    requires VaultParses(vault) && GasParses(gas, conversion) && IsUInt(ctx.version) && ctx.sourceHashes != []
    requires vault.testAmount == 1 == gas.amountIn
    requires 1 <= vault.maxDeposit && 0 < vault.previewDepositShares <= vault.maxMintShares
    requires GasCost(ctx.scenarioId + "-vault-deposit-gas", gas, conversion, ExecutionGas, networkId, gasSource).Ok?
    requires 0 < vault.depositFeeBps
    ensures VaultDeposit(ctx, 1, instrumentId, positionId, networkId, vault, gas, conversion, gasSource).Err?
  {
    hide CeilDiv, VaultDeposit;
    VaultDepositSmallestAmount(ctx, 1, instrumentId, positionId, networkId, vault, gas, conversion, gasSource);
  }

  // Into a fresh position a vault deposit books the amount less the fee, exactly: nothing is left over by the index.
  // The ledger's branch refuses it only for a missing view, too little cash or a used cost id.
  lemma {:induction false} VaultDepositBooksNetOfFee(p: Portfolio, ctx: Context, amount: int, instrumentId: Id,
      positionId: Id, networkId: Id, vault: Vault, gas: Gas, conversion: Conversion, gasSource: SourceHash)
    requires VaultDeposit(ctx, amount, instrumentId, positionId, networkId, vault, gas, conversion, gasSource).Ok?
    requires positionId !in p.positions
    ensures var r := VaultDeposit(ctx, amount, instrumentId, positionId, networkId, vault, gas, conversion,
                                  gasSource).value;
            var fee := CeilDiv(amount * vault.depositFeeBps, BPS);
            var gasId, feeId := ctx.scenarioId + "-vault-deposit-gas", ctx.scenarioId + "-vault-entry-fee";
            && ReceiptParses(r) && r.body.Deposit?
            && (DepositEffect(p, r).Ok? <==>
                  && ctx.cashViewId in p.views && p.views[ctx.cashViewId].familyId in p.cash
                  && amount <= p.cash[p.views[ctx.cashViewId].familyId].amount
                  && gasId !in p.costs && (fee != 0 ==> feeId !in p.costs))
            && (DepositEffect(p, r).Ok? ==>
                  var t, family := DepositEffect(p, r).value, p.views[ctx.cashViewId].familyId;
                  && positionId in t.positions
                  && t.positions[positionId].shares == vault.previewDepositShares
                  && t.positions[positionId].book == amount - fee && t.positions[positionId].remainder == 0
                  && t.cash == p.cash[family := p.cash[family].(amount := p.cash[family].amount - amount)]
                  && t.payables.Keys == p.payables.Keys + {gasId}
                  && t.costs.Keys == p.costs.Keys + {gasId} + (if fee == 0 then {} else {feeId}))
  {
    hide *;
    var charge, fee := VaultDepositShape(ctx, amount, instrumentId, positionId, networkId, vault, gas, conversion,
                                         gasSource);
    var r := VaultDeposit(ctx, amount, instrumentId, positionId, networkId, vault, gas, conversion, gasSource).value;
    DepositAmounts(r);
    WholeIndex(vault.previewDepositShares, amount - fee);
    DifferentEnds(ctx.scenarioId, "-vault-deposit-gas", "-vault-entry-fee");
    OpenedWithCharges(p, r, charge, ctx.scenarioId + "-vault-entry-fee", fee, networkId, vault.sourceHash);
  }

  // A deposit opening a position whose index books exactly what is left after the charge.
  lemma {:induction false} OpenedWithCharges(p: Portfolio, r: Receipt, charge: Cost, feeId: Id, fee: int, networkId: Id,
      source: SourceHash)
    requires r.body.Deposit? && ReceiptParses(r) && r.body.positionId !in p.positions && 0 <= fee
    requires BookOf(r.body.sharesCredit, r.body.indexNum, r.body.indexDen) == r.body.input - fee
    requires RemainderOf(r.body.sharesCredit, r.body.indexNum, r.body.indexDen) == 0 && IsUInt(r.body.input - fee)
    requires charge.funding.OnPayable? && charge.cashFamily.None? && feeId != charge.costId
    requires r.body.costs == Charges(charge, feeId, ProtocolFee, fee, networkId, source)
    requires charge.sourceHash in r.sourceHashes && (fee != 0 ==> source in r.sourceHashes)
    ensures var b := r.body;
            && (DepositEffect(p, r).Ok? <==>
                  && b.cashViewId in p.views && p.views[b.cashViewId].familyId in p.cash
                  && b.input <= p.cash[p.views[b.cashViewId].familyId].amount
                  && charge.costId !in p.costs && (fee != 0 ==> feeId !in p.costs))
            && (DepositEffect(p, r).Ok? ==>
                  var t, family := DepositEffect(p, r).value, p.views[b.cashViewId].familyId;
                  && b.positionId in t.positions
                  && t.positions[b.positionId].shares == b.sharesCredit
                  && t.positions[b.positionId].book == b.input - fee && t.positions[b.positionId].remainder == 0
                  && t.cash == p.cash[family := p.cash[family].(amount := p.cash[family].amount - b.input)]
                  && t.payables.Keys == p.payables.Keys + {charge.costId}
                  && t.costs.Keys == p.costs.Keys + {charge.costId} + (if fee == 0 then {} else {feeId}))
  {
    hide ApplyCosts, DepositEffect, DebitCash, Charges, ReceiptParses, BookOf, RemainderOf;
    DepositAmounts(r);
    FreshDeposit(p, r, r.body.input - fee, 0);
    if r.body.cashViewId in p.views && p.views[r.body.cashViewId].familyId in p.cash {
      CashDebited(p, p.views[r.body.cashViewId].familyId, r.body.input);
      ChargesTaken(Opened(p, r), r, charge, feeId, ProtocolFee, fee, networkId, source);
    }
  }

  // A deposit that opens a position: cash out, the position at the receipt's index.
  function Opened(p: Portfolio, r: Receipt): Portfolio
    requires r.body.Deposit? && ReceiptParses(r) && r.body.cashViewId in p.views
    requires p.views[r.body.cashViewId].familyId in p.cash
  {
    var b, view := r.body, p.views[r.body.cashViewId];
    var book := BookOf(b.sharesCredit, b.indexNum, b.indexDen);
    p.(cash := p.cash[view.familyId := p.cash[view.familyId].(amount := p.cash[view.familyId].amount - b.input)],
       positions := p.positions[b.positionId :=
         Position(view.networkId, b.instrumentId, view.assetId, b.sharesCredit, b.indexNum, b.indexDen, book,
                  RemainderOf(b.sharesCredit, b.indexNum, b.indexDen), r.sourceHashes[0], r.observedAt)])
  }

  lemma {:induction false} FreshDeposit(p: Portfolio, r: Receipt, book: int, remainder: int)
    requires r.body.Deposit? && ReceiptParses(r) && r.body.positionId !in p.positions
    requires IsUInt(book) && book <= r.body.input
    requires book == BookOf(r.body.sharesCredit, r.body.indexNum, r.body.indexDen)
    requires remainder == RemainderOf(r.body.sharesCredit, r.body.indexNum, r.body.indexDen)
    ensures r.body.cashViewId !in p.views ==> DepositEffect(p, r).Err?
    ensures r.body.cashViewId in p.views && p.views[r.body.cashViewId].familyId !in p.cash ==> DepositEffect(p, r).Err?
    ensures r.body.cashViewId in p.views && p.views[r.body.cashViewId].familyId in p.cash ==>
              DepositEffect(p, r) ==
                if DebitCash(p, p.views[r.body.cashViewId].familyId, r.body.input).Err?
                then Err(DebitCash(p, p.views[r.body.cashViewId].familyId, r.body.input).code)
                else ApplyCosts(Opened(p, r), r, r.body.input - book)
  {
    hide ApplyCosts, BookOf, RemainderOf, ReceiptParses;
    DepositAmounts(r);
  }

  lemma CashDebited(s: Portfolio, family: Id, amount: int)
    requires family in s.cash
    ensures DebitCash(s, family, amount).Ok? <==> amount <= s.cash[family].amount
  {
  }

  lemma DepositAmounts(r: Receipt)
    requires ReceiptParses(r) && r.body.Deposit?
    ensures IsPositiveUInt(r.body.sharesCredit) && IsPositiveUInt(r.body.indexNum) && IsPositiveUInt(r.body.indexDen)
    ensures IsPositiveUInt(r.body.input) && r.sourceHashes != []
  {
  }

  lemma {:induction false} VaultRedeemShape(ctx: Context, shares: int, bookValue: int, positionId: Id, networkId: Id,
      vault: Vault, gas: Gas, conversion: Conversion, gasSource: SourceHash)
      returns (charge: Cost, cash: int)
    requires VaultRedeem(ctx, shares, bookValue, positionId, networkId, vault, gas, conversion, gasSource).Ok?
    ensures var r := VaultRedeem(ctx, shares, bookValue, positionId, networkId, vault, gas, conversion,
                                 gasSource).value;
            && ReceiptParses(r)
            && cash == vault.previewRedeemAssets - CeilDiv(vault.previewRedeemAssets * vault.redeemFeeBps, BPS)
            && cash <= bookValue
            && charge.funding == OnPayable && charge.cashFamily == None
            && charge.costId == ctx.scenarioId + "-vault-redeem-gas"
            && r.body == Withdraw(ctx.cashViewId, positionId, shares, cash,
                                  Charges(charge, ctx.scenarioId + "-vault-exit-gap", ProtocolFee, bookValue - cash,
                                          networkId, vault.sourceHash))
            && charge.sourceHash in r.sourceHashes && (bookValue != cash ==> vault.sourceHash in r.sourceHashes)
  {
    hide CeilDiv;
    charge := GasCost(ctx.scenarioId + "-vault-redeem-gas", gas, conversion, ExecutionGas, networkId, gasSource).value;
    cash := vault.previewRedeemAssets - MulDivCeil(vault.previewRedeemAssets, vault.redeemFeeBps, BPS).value;
    var costs := Charges(charge, ctx.scenarioId + "-vault-exit-gap", ProtocolFee, bookValue - cash, networkId,
                         vault.sourceHash);
    SourcesListed(costs, ctx.sourceHashes);
    assert costs[0] == charge;
    if bookValue != cash { assert costs[1].sourceHash == vault.sourceHash; }
  }

  // A redeem of the whole position is taken exactly when the book value it was quoted for is the ledger's own, so the
  // withheld gap is the book debit less the cash; then the position is gone and the cash is in.
  lemma {:induction false} FullRedeemGapIsBookLessCash(p: Portfolio, ctx: Context, bookValue: int, positionId: Id,
      networkId: Id, vault: Vault, gas: Gas, conversion: Conversion, gasSource: SourceHash)
    requires positionId in p.positions && IndexesPositive(p.positions) && 0 < p.positions[positionId].shares
    requires VaultRedeem(ctx, p.positions[positionId].shares, bookValue, positionId, networkId, vault, gas, conversion,
                         gasSource).Ok?
    requires ctx.cashViewId in p.views && p.views[ctx.cashViewId].familyId in p.cash
    requires p.views[ctx.cashViewId].networkId == p.positions[positionId].networkId
    requires p.views[ctx.cashViewId].assetId == p.positions[positionId].assetId
    requires ctx.scenarioId + "-vault-redeem-gas" !in p.costs && ctx.scenarioId + "-vault-exit-gap" !in p.costs
    ensures var r := VaultRedeem(ctx, p.positions[positionId].shares, bookValue, positionId, networkId, vault, gas,
                                 conversion, gasSource).value;
            var cash := vault.previewRedeemAssets - CeilDiv(vault.previewRedeemAssets * vault.redeemFeeBps, BPS);
            var family := p.views[ctx.cashViewId].familyId;
            && ReceiptParses(r) && r.body.Withdraw?
            && (WithdrawEffect(p, r).Ok? <==>
                  bookValue == p.positions[positionId].book && IsUInt(p.cash[family].amount + cash))
            && (WithdrawEffect(p, r).Ok? ==>
                  var t := WithdrawEffect(p, r).value;
                  && t.positions == p.positions - {positionId}
                  && t.cash == p.cash[family := p.cash[family].(amount := p.cash[family].amount + cash)]
                  && WithheldTotal(r.body.costs) == p.positions[positionId].book - cash)
  {
    hide VaultRedeem, ApplyCosts, WithdrawEffect, CeilDiv, Charges, ReceiptParses, WithheldTotal, CreditCash;
    var x := p.positions[positionId];
    var r := VaultRedeem(ctx, x.shares, bookValue, positionId, networkId, vault, gas, conversion, gasSource).value;
    var charge, cash := VaultRedeemShape(ctx, x.shares, bookValue, positionId, networkId, vault, gas, conversion,
                                         gasSource);
    var gapId := ctx.scenarioId + "-vault-exit-gap";
    DifferentEnds(ctx.scenarioId, "-vault-redeem-gas", "-vault-exit-gap");
    WithheldIsGap(charge, gapId, ProtocolFee, bookValue - cash, networkId, vault.sourceHash);
    WholeWithdrawal(p, r);
    var closed, family := p.(positions := p.positions - {positionId}), p.views[ctx.cashViewId].familyId;
    CashCredited(closed, family, cash);
    if cash <= x.book && IsUInt(p.cash[family].amount + cash) {
      var credited := CreditCash(closed, family, cash).value;
      if bookValue == x.book {
        ChargesTaken(credited, r, charge, gapId, ProtocolFee, bookValue - cash, networkId, vault.sourceHash);
        hide CostsWith;
      } else {
        WrongGapRefused(credited, r, x.book - cash);
      }
    }
  }

  // A withdrawal of all the shares closes the position and leaves its whole book to be accounted for.
  lemma {:induction false} WholeWithdrawal(p: Portfolio, r: Receipt)
    requires r.body.Withdraw? && ReceiptParses(r) && IndexesPositive(p.positions)
    requires r.body.positionId in p.positions && r.body.sharesDebit == p.positions[r.body.positionId].shares
    requires r.body.cashViewId in p.views
    requires p.views[r.body.cashViewId].networkId == p.positions[r.body.positionId].networkId
    requires p.views[r.body.cashViewId].assetId == p.positions[r.body.positionId].assetId
    ensures var b, x := r.body, p.positions[r.body.positionId];
            var credited := CreditCash(p.(positions := p.positions - {b.positionId}), p.views[b.cashViewId].familyId,
                                       b.cashCredit);
            WithdrawEffect(p, r) ==
              if b.cashCredit > x.book then Err(AccountingInvariant)
              else if credited.Err? then Err(credited.code)
              else ApplyCosts(credited.value, r, x.book - b.cashCredit)
  {
    hide ApplyCosts, CreditCash, BookOf, RemainderOf, ReceiptParses;
  }

  lemma CashCredited(s: Portfolio, family: Id, amount: int)
    requires family in s.cash
    ensures CreditCash(s, family, amount).Ok? <==> IsUInt(s.cash[family].amount + amount)
    ensures CreditCash(s, family, amount).Ok? ==>
              CreditCash(s, family, amount)
              == Ok(s.(cash := s.cash[family := s.cash[family].(amount := s.cash[family].amount + amount)]))
  {
  }

  lemma {:induction false} WrongGapRefused(s: Portfolio, r: Receipt, gap: int)
    requires WithheldTotal(r.body.Costs()) != gap
    ensures ApplyCosts(s, r, gap).Err?
  {
    hide ChargeAll;
  }
}
