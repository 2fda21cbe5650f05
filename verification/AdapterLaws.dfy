// Exactly when the adapters hand out receipts, and what those receipts say, read off the captured data.
module AdapterLaws {
  import opened Prelude
  import opened Ledger
  import opened Adapters
  import R = Rounding

  /******* Amounts *******/

  // x is the least whole number not below n / d.
  predicate LeastAbove(x: int, n: int, d: int) { n <= x * d && (x - 1) * d < n }

  // What a context needs for any receipt to parse.
  predicate ContextParses(ctx: Context) { IsUInt(ctx.version) && ctx.sourceHashes != [] }

  // The gas has a positive price in the settlement asset, and one in range.
  predicate Priced(gas: Gas, conversion: Conversion) {
    && IsUInt(gas.gasUnits * gas.priceWei) && IsUInt(conversion.usdcNum) && IsPositiveUInt(conversion.weiDen)
    && 0 < gas.gasUnits * gas.priceWei * conversion.usdcNum <= (UINT256_LIMIT - 1) * conversion.weiDen
  }

  // The cost owes the gas on a network: its price, rounded up, to be paid later.
  predicate OwedFor(c: Cost, costId: Id, category: CostCategory, networkId: Id, source: SourceHash, gas: Gas,
      conversion: Conversion) {
    && c == Cost(costId, category, OnPayable, c.amount, networkId, None, source)
    && LeastAbove(c.amount, gas.gasUnits * gas.priceWei * conversion.usdcNum, conversion.weiDen)
  }

  lemma {:induction false} CeilIsLeast(a: int, b: int, d: int)
    ensures MulDivCeil(a, b, d).Ok? <==>
              IsUInt(a) && IsUInt(b) && IsPositiveUInt(d) && a * b <= (UINT256_LIMIT - 1) * d
    ensures MulDivCeil(a, b, d).Ok? ==>
              LeastAbove(MulDivCeil(a, b, d).value, a * b, d) && IsUInt(MulDivCeil(a, b, d).value)
    ensures MulDivCeil(a, b, d).Err? ==> MulDivCeil(a, b, d).code == AccountingInvariant
  {
    R.ScaledExactly(a, b, d, R.Up);
    if MulDivCeil(a, b, d).Ok? {
      R.CeilIsLeastAbove(a * b, d, MulDivCeil(a, b, d).value);
    }
    hide R.MulDiv, R.CeilDiv;
  }

  lemma {:induction false} OneLeast(x: int, y: int, n: int, d: int)
    requires 0 < d && LeastAbove(x, n, d) && LeastAbove(y, n, d)
    ensures x == y
  {
    if x < y { R.Multiples(x, y - 1, d); }
    if y < x { R.Multiples(y, x - 1, d); }
  }

  lemma {:induction false} LeastIsZero(x: int, n: int, d: int)
    requires 0 < d && 0 <= n && LeastAbove(x, n, d)
    ensures 0 <= x && (x == 0 <==> n == 0)
  {
    if x < 0 { R.Multiples(x, -1, d); }
    if n == 0 && 0 < x { R.Multiples(0, x - 1, d); }
  }

  // A gas cost is made exactly when the gas has a price, and it is the one that owes it.
  lemma {:induction false} GasIsOwed(costId: Id, gas: Gas, conversion: Conversion, category: CostCategory,
      networkId: Id, source: SourceHash)
    ensures var answer := GasCost(costId, gas, conversion, category, networkId, source);
            && (answer.Ok? <==> Priced(gas, conversion))
            && (answer.Ok? ==> OwedFor(answer.value, costId, category, networkId, source, gas, conversion)
                               && IsPositiveUInt(answer.value.amount))
            && (answer.Err? ==> answer.code == AccountingInvariant)
  {
    var wei := gas.gasUnits * gas.priceWei;
    CeilIsLeast(wei, conversion.usdcNum, conversion.weiDen);
    hide LeastAbove;
    var amount := MulDivCeil(wei, conversion.usdcNum, conversion.weiDen);
    if amount.Ok? {
      R.NaturalProduct(wei, conversion.usdcNum);
      LeastIsZero(amount.value, wei * conversion.usdcNum, conversion.weiDen);
    }
    hide MulDivCeil;
  }

  // The withheld cost of a gap, when there is one.
  function Gap(costId: Id, category: CostCategory, gap: int, networkId: Id, source: SourceHash): seq<Cost> {
    if gap == 0 then [] else [Cost(costId, category, Withheld, gap, networkId, None, source)]
  }

  // The fee of a number of ten-thousandths, rounded up.
  lemma {:induction false} FeeIsLeast(amount: int, bps: int, fee: int)
    requires IsUInt(amount) && 0 <= bps <= 10000 && LeastAbove(fee, amount * bps, 10000)
    ensures MulDivCeil(amount, bps, 10000) == Ok(fee)
    ensures 0 <= fee <= amount
  {
    CeilIsLeast(amount, bps, 10000);
    R.NaturalProduct(amount, bps);
    LeastIsZero(fee, amount * bps, 10000);
    if 0 < amount { R.Multiples(bps, 10000, amount); }
    assert bps * amount == amount * bps && 10000 * amount == amount * 10000;
    if MulDivCeil(amount, bps, 10000).Ok? {
      OneLeast(fee, MulDivCeil(amount, bps, 10000).value, amount * bps, 10000);
    }
    hide MulDivCeil;
  }

  lemma {:induction false} SourcesOfTwo(gas: Cost, gap: seq<Cost>)
    requires |gap| <= 1
    ensures SourcesOf([gas] + gap) == [gas.sourceHash] + (if gap == [] then [] else [gap[0].sourceHash])
  {
  }

  lemma CostsOfTwo(gas: Cost, gap: seq<Cost>)
    requires IsPositiveUInt(gas.amount) && |gap| <= 1 && (gap != [] ==> IsPositiveUInt(gap[0].amount))
    ensures CostsParse([gas] + gap)
  {
  }

  /******* The vault *******/

  // A vault deposit is handed out exactly when the captures are for this amount, the limits allow it, the gas has a
  // price and the fee leaves something to book. Its receipt books the amount less the fee for the previewed shares,
  // withholds the fee and owes the gas.
  lemma {:induction false} VaultDepositExactly(ctx: Context, amount: int, instrumentId: Id, positionId: Id,
      networkId: Id, vault: Vault, gas: Gas, conversion: Conversion, gasSource: SourceHash, fee: int)
    requires VaultParses(vault) && ContextParses(ctx) && LeastAbove(fee, amount * vault.depositFeeBps, 10000)
    ensures var answer := VaultDeposit(ctx, amount, instrumentId, positionId, networkId, vault, gas, conversion,
                                       gasSource);
            var captured := vault.testAmount == amount == gas.amountIn;
            var within := amount <= vault.maxDeposit && 0 < vault.previewDepositShares <= vault.maxMintShares;
            && (answer.Ok? <==> captured && within && Priced(gas, conversion) && fee < amount)
            && (answer == Err(DataUnavailable) <==> !captured)
            && (answer == Err(LimitExceeded) <==> captured && !within)
            && (answer.Ok? ==>
                  var r := answer.value;
                  && r.body.Deposit? && r.body.costs != []
                  && OwedFor(r.body.costs[0], ctx.scenarioId + "-vault-deposit-gas", ExecutionGas, networkId, gasSource,
                             gas, conversion)
                  && r == Receipt(ctx.scenarioId + "-vault-deposit", ctx.experimentId, ctx.scenarioId, ctx.version,
                                  ctx.observedAt, ctx.provenance,
                                  ctx.sourceHashes + ([gasSource] + if fee == 0 then [] else [vault.sourceHash]),
                                  Deposit(ctx.cashViewId, positionId, instrumentId, vault.previewDepositShares,
                                          amount - fee, vault.previewDepositShares, amount,
                                          [r.body.costs[0]]
                                          + Gap(ctx.scenarioId + "-vault-entry-fee", ProtocolFee, fee, networkId,
                                                vault.sourceHash))))
  {
    hide LeastAbove, Priced, MulDivCeil, GasCost;
    var gasId := ctx.scenarioId + "-vault-deposit-gas";
    GasIsOwed(gasId, gas, conversion, ExecutionGas, networkId, gasSource);
    if vault.testAmount == amount {
      FeeIsLeast(amount, vault.depositFeeBps, fee);
      var charge := GasCost(gasId, gas, conversion, ExecutionGas, networkId, gasSource);
      if charge.Ok? {
        var gap := Gap(ctx.scenarioId + "-vault-entry-fee", ProtocolFee, fee, networkId, vault.sourceHash);
        SourcesOfTwo(charge.value, gap);
        CostsOfTwo(charge.value, gap);
        hide SourcesOf, CostsParse;
      }
    }
  }

  // A vault redeem is handed out exactly when the gas capture is for the book value, shares and output are within the
  // limits and the exit liquidity, the output less its fee creates no value over the book, and the gas has a price. Its
  // receipt pays out that cash, withholds the rest of the book and owes the gas.
  lemma {:induction false} VaultRedeemExactly(ctx: Context, shares: int, bookValue: int, positionId: Id, networkId: Id,
      vault: Vault, gas: Gas, conversion: Conversion, gasSource: SourceHash, fee: int)
    requires VaultParses(vault) && ContextParses(ctx) && IsPositiveUInt(shares) && IsUInt(bookValue)
    requires LeastAbove(fee, vault.previewRedeemAssets * vault.redeemFeeBps, 10000)
    ensures var answer := VaultRedeem(ctx, shares, bookValue, positionId, networkId, vault, gas, conversion, gasSource);
            var cash := vault.previewRedeemAssets - fee;
            var within := shares <= vault.maxRedeemShares && vault.previewRedeemAssets <= vault.maxWithdraw;
            var liquid := vault.previewRedeemAssets <= vault.availableExit;
            && (answer.Ok? <==>
                  gas.amountIn == bookValue && within && liquid && cash <= bookValue && Priced(gas, conversion))
            && (answer == Err(DataUnavailable) <==> gas.amountIn != bookValue)
            && (answer == Err(LimitExceeded) <==> gas.amountIn == bookValue && !within)
            && (answer == Err(LiquidityUnavailable) <==> gas.amountIn == bookValue && within && !liquid)
            && (answer.Ok? ==>
                  var r := answer.value;
                  && r.body.Withdraw? && r.body.costs != []
                  && OwedFor(r.body.costs[0], ctx.scenarioId + "-vault-redeem-gas", ExecutionGas, networkId, gasSource,
                             gas, conversion)
                  && r == Receipt(ctx.scenarioId + "-vault-redeem", ctx.experimentId, ctx.scenarioId, ctx.version,
                                  ctx.observedAt, ctx.provenance,
                                  ctx.sourceHashes
                                  + ([gasSource] + if cash == bookValue then [] else [vault.sourceHash]),
                                  Withdraw(ctx.cashViewId, positionId, shares, cash,
                                           [r.body.costs[0]]
                                           + Gap(ctx.scenarioId + "-vault-exit-gap", ProtocolFee, bookValue - cash,
                                                 networkId, vault.sourceHash))))
  {
    hide LeastAbove, Priced, MulDivCeil, GasCost;
    var gasId := ctx.scenarioId + "-vault-redeem-gas";
    GasIsOwed(gasId, gas, conversion, ExecutionGas, networkId, gasSource);
    FeeIsLeast(vault.previewRedeemAssets, vault.redeemFeeBps, fee);
    var charge := GasCost(gasId, gas, conversion, ExecutionGas, networkId, gasSource);
    var cash := vault.previewRedeemAssets - fee;
    if charge.Ok? && cash <= bookValue {
      var gap := Gap(ctx.scenarioId + "-vault-exit-gap", ProtocolFee, bookValue - cash, networkId, vault.sourceHash);
      SourcesOfTwo(charge.value, gap);
      CostsOfTwo(charge.value, gap);
      hide SourcesOf, CostsParse;
    }
  }

  /******* Aave *******/

  lemma {:induction false} OneCost(gas: Cost)
    requires IsPositiveUInt(gas.amount)
    ensures CostsParse([gas]) && SourcesOf([gas]) == [gas.sourceHash]
  {
    SourcesOfTwo(gas, []);
    assert [gas] + [] == [gas];
  }

  // The header of an adapter's receipt that carries one gas cost.
  function WithGas(ctx: Context, operationId: Id, gasSource: SourceHash, body: Body): Receipt {
    Receipt(operationId, ctx.experimentId, ctx.scenarioId, ctx.version, ctx.observedAt, ctx.provenance,
            ctx.sourceHashes + [gasSource], body)
  }

  // A withdrawal is handed out exactly when the gas capture is for the book value, the reserve can pay it and the gas
  // has a price. It pays the whole book value out and owes the gas.
  lemma {:induction false} AaveWithdrawExactly(ctx: Context, positionId: Id, shares: int, bookValue: int,
      reserve: Reserve, gas: Gas, conversion: Conversion, gasSource: SourceHash)
    requires ContextParses(ctx) && IsPositiveUInt(shares) && IsUInt(bookValue)
    ensures var answer := AaveWithdraw(ctx, positionId, shares, bookValue, reserve, gas, conversion, gasSource);
            var liquid := bookValue <= reserve.availableLiquidity;
            && (answer.Ok? <==> gas.amountIn == bookValue && liquid && Priced(gas, conversion))
            && (answer == Err(DataUnavailable) <==> gas.amountIn != bookValue)
            && (answer == Err(LiquidityUnavailable) <==> gas.amountIn == bookValue && !liquid)
            && (answer.Ok? ==>
                  var r := answer.value;
                  && r.body.Withdraw? && |r.body.costs| == 1
                  && OwedFor(r.body.costs[0], ctx.scenarioId + "-aave-withdraw-gas", ExecutionGas, "ethereum-mainnet",
                             gasSource, gas, conversion)
                  && r == WithGas(ctx, ctx.scenarioId + "-aave-withdraw", gasSource,
                                  Withdraw(ctx.cashViewId, positionId, shares, bookValue, r.body.costs)))
  {
    hide LeastAbove, Priced, MulDivCeil, GasCost;
    var gasId := ctx.scenarioId + "-aave-withdraw-gas";
    GasIsOwed(gasId, gas, conversion, ExecutionGas, MAINNET, gasSource);
    var charge := GasCost(gasId, gas, conversion, ExecutionGas, MAINNET, gasSource);
    if charge.Ok? {
      OneCost(charge.value);
      hide SourcesOf, CostsParse;
    }
  }

  // An accrual is handed out exactly when the index did not move backward; it marks the position at the reserve's index
  // over the opening one and costs nothing.
  lemma {:induction false} AaveAccrueExactly(ctx: Context, positionId: Id, openingIndex: int, reserve: Reserve)
    requires ContextParses(ctx) && IsPositiveUInt(openingIndex) && IsUInt(reserve.liquidityIndex)
    ensures var answer := AaveAccrue(ctx, positionId, openingIndex, reserve);
            && (answer.Ok? <==> openingIndex <= reserve.liquidityIndex)
            && (answer.Err? ==> answer.code == AccountingInvariant)
            && (answer.Ok? ==>
                  answer.value == Receipt(ctx.scenarioId + "-aave-accrue", ctx.experimentId, ctx.scenarioId,
                                          ctx.version, ctx.observedAt, ctx.provenance, ctx.sourceHashes,
                                          Accrue(positionId, reserve.liquidityIndex, openingIndex, [])))
  {
    assert ctx.sourceHashes + SourcesOf([]) == ctx.sourceHashes;
  }

  // The reserve takes deposits, and this one within its cap.
  predicate Takes(reserve: Reserve, amount: int) {
    && reserve.active && !reserve.frozen && !reserve.paused
    && (reserve.supplyCap > 0 ==> reserve.totalSupplied + amount <= reserve.supplyCap)
  }

  function BaseOf(ctx: Context, prefix: Option<Id>): Id {
    if prefix.Some? then prefix.value else ctx.scenarioId + "-aave"
  }

  // The receipt that raises the allowance to the amount.
  predicate Approval(r: Receipt, ctx: Context, amount: int, allowanceId: Id, base: Id, reserve: Reserve, gas: Gas,
      conversion: Conversion, source: SourceHash) {
    && r.body.Approve? && |r.body.costs| == 1
    && OwedFor(r.body.costs[0], base + "-approval-gas", ApprovalGas, "ethereum-mainnet", source, gas, conversion)
    && r == WithGas(ctx, base + "-approve", source,
                    Approve(allowanceId, "ethereum-mainnet", reserve.assetId, "aave-v3-pool", amount, r.body.costs))
  }

  // The receipt that supplies the amount at par.
  predicate Supply(r: Receipt, ctx: Context, amount: int, instrumentId: Id, positionId: Id, base: Id,
      prefix: Option<Id>, gas: Gas, conversion: Conversion, source: SourceHash) {
    && r.body.Deposit? && |r.body.costs| == 1
    && OwedFor(r.body.costs[0], base + "-supply-gas", ExecutionGas, "ethereum-mainnet", source, gas, conversion)
    && r == WithGas(ctx, base + (if prefix.Some? then "-deposit" else "-supply"), source,
                    Deposit(ctx.cashViewId, positionId, instrumentId, amount, 1, 1, amount, r.body.costs))
  }

  lemma {:induction false} ApprovalHanded(ctx: Context, amount: int, allowanceId: Id, base: Id, reserve: Reserve,
      gas: Gas, conversion: Conversion, source: SourceHash, cost: Cost)
    requires ContextParses(ctx) && IsUInt(amount)
    requires GasCost(base + "-approval-gas", gas, conversion, ApprovalGas, MAINNET, source) == Ok(cost)
    ensures var r := Handed(ctx, base + "-approve",
                            Approve(allowanceId, MAINNET, reserve.assetId, "aave-v3-pool", amount, [cost]));
            r.Ok? && Approval(r.value, ctx, amount, allowanceId, base, reserve, gas, conversion, source)
  {
    hide LeastAbove, MulDivCeil, GasCost;
    GasIsOwed(base + "-approval-gas", gas, conversion, ApprovalGas, MAINNET, source);
    OneCost(cost);
    hide SourcesOf, CostsParse;
  }

  lemma {:induction false} SupplyHanded(ctx: Context, amount: int, instrumentId: Id, positionId: Id, base: Id,
      prefix: Option<Id>, gas: Gas, conversion: Conversion, source: SourceHash, cost: Cost)
    requires ctx.sourceHashes != [] && IsPositiveUInt(amount)
    requires GasCost(base + "-supply-gas", gas, conversion, ExecutionGas, MAINNET, source) == Ok(cost)
    ensures var r := Handed(ctx, base + if prefix.Some? then "-deposit" else "-supply",
                            Deposit(ctx.cashViewId, positionId, instrumentId, amount, 1, 1, amount, [cost]));
            && (r.Ok? <==> IsUInt(ctx.version))
            && (r.Err? ==> r.code == SchemaRejected)
            && (r.Ok? ==> Supply(r.value, ctx, amount, instrumentId, positionId, base, prefix, gas, conversion, source))
  {
    hide LeastAbove, MulDivCeil, GasCost;
    GasIsOwed(base + "-supply-gas", gas, conversion, ExecutionGas, MAINNET, source);
    OneCost(cost);
    hide SourcesOf, CostsParse;
  }

  // A supply is handed out exactly when both gas captures are for the amount, the reserve takes it and the gas it needs
  // has a price. It is the deposit at par, after an approval of the whole amount when the allowance does not cover it.
  lemma {:induction false} AaveSupplyExactly(ctx: Context, amount: int, instrumentId: Id, positionId: Id,
      allowanceId: Id, currentAllowance: int, prefix: Option<Id>, reserve: Reserve, approvalGas: Gas, supplyGas: Gas,
      conversion: Conversion, approvalSource: SourceHash, supplySource: SourceHash)
    requires ContextParses(ctx) && IsPositiveUInt(amount)
    ensures var answer := AaveSupply(ctx, amount, instrumentId, positionId, allowanceId, currentAllowance, prefix,
                                     reserve, approvalGas, supplyGas, conversion, approvalSource, supplySource);
            var captured := approvalGas.amountIn == amount == supplyGas.amountIn;
            var base, first := BaseOf(ctx, prefix), if currentAllowance < amount then 1 else 0;
            && (answer.Ok? <==>
                  && captured && Takes(reserve, amount) && Priced(supplyGas, conversion)
                  && (first == 1 ==> Priced(approvalGas, conversion) && IsUInt(ctx.version + 1)))
            && (answer == Err(DataUnavailable) <==> !captured)
            && (answer == Err(LimitExceeded) <==> captured && !Takes(reserve, amount))
            && (answer.Ok? ==>
                  && |answer.value| == first + 1
                  && (first == 1 ==> Approval(answer.value[0], ctx, amount, allowanceId, base, reserve, approvalGas,
                                              conversion, approvalSource))
                  && Supply(answer.value[first], ctx.(version := ctx.version + first), amount, instrumentId,
                            positionId, base, prefix, supplyGas, conversion, supplySource))
  {
    hide LeastAbove, Priced, MulDivCeil, GasCost, Handed, Approval, Supply;
    var base := BaseOf(ctx, prefix);
    GasIsOwed(base + "-approval-gas", approvalGas, conversion, ApprovalGas, MAINNET, approvalSource);
    GasIsOwed(base + "-supply-gas", supplyGas, conversion, ExecutionGas, MAINNET, supplySource);
    var approval := GasCost(base + "-approval-gas", approvalGas, conversion, ApprovalGas, MAINNET, approvalSource);
    var supply := GasCost(base + "-supply-gas", supplyGas, conversion, ExecutionGas, MAINNET, supplySource);
    if approval.Ok? {
      ApprovalHanded(ctx, amount, allowanceId, base, reserve, approvalGas, conversion, approvalSource, approval.value);
    }
    if supply.Ok? {
      var first := if currentAllowance < amount then 1 else 0;
      SupplyHanded(ctx.(version := ctx.version + first), amount, instrumentId, positionId, base, prefix, supplyGas,
                   conversion, supplySource, supply.value);
    }
  }
}
