// Two examples on an opened portfolio: a trip that meets every condition, and a second supply that is refused.
module AaveExample {
  import opened Prelude
  import opened Ledger
  import opened Conservation
  import opened Closing
  import opened Frames
  import opened Lifetimes
  import opened Redelivery
  import opened AaveRoundTrip
  import opened AaveTrip
  import A = Adapters
  import Opening

  const VIEW := View(A.MAINNET, "a", "f", 6, 6)
  const INPUT := Opening.Input("e", "s", "p", "SYNTHETIC_TEST", 100, 1, [Opening.NamedView("v", VIEW)],
                               [Opening.InitialCash("v", 100)])

  function At(version: int, time: Timestamp): A.Context {
    A.Context("e", "s", version, time, "SYNTHETIC_TEST", "v", ["h"])
  }

  const GAS := A.Gas(100, 1, 1)
  const PAR := A.Conversion(1, 1)

  function ReserveAt(index: int): A.Reserve { A.Reserve(true, false, false, 0, 0, 1000, index, "a") }

  // A supply into the given position under allowance w, whose caller states the given allowance.
  function Supplying(ctx: A.Context, amount: int, positionId: Id, allowance: int, prefix: Option<Id>): Supply {
    Supply(ctx, amount, "i", positionId, "w", allowance, prefix, ReserveAt(2), GAS.(amountIn := amount),
           GAS.(amountIn := amount), PAR, "h", "h")
  }

  const SUPPLY := Supplying(At(0, 0), 100, "x", 100, None)
  const RETURN := Return(At(1, 1), 2, ReserveAt(3), At(2, 2), 150, ReserveAt(3), GAS.(amountIn := 150), PAR, "h")

  lemma {:induction false} Opens() returns (p: Portfolio)
    ensures Opening.CreateOf(INPUT) == Ok(p) && Current(p, SUPPLY.ctx)
    ensures p.applied == [] && p.positions == map[] && p.costs == map[] && NetValue(p) == 100 && p.pnl == 0
    ensures p.allowances == map[]
    ensures p.version == 0 && CashCovers(p, "v", 100) && "v" in p.views && p.views["v"] == VIEW
    ensures "f" in p.cash && p.cash["f"].amount == 100
  {
    var views, items := INPUT.views, INPUT.initialCash;
    assert Opening.FamilyOf(views, "v") == Some("f");
    assert items[..0] == [];
    assert Opening.Funded(views, []) == Ok((Opening.Balances(views), {}));
    assert "f" in Opening.Balances(views) by { assert views[0].view.familyId == "f"; }
    Opening.ViewsListed(views);
    assert views[0].viewId == "v";
    Opening.OpensExactlyOnItsCapital(INPUT);
    p := Opening.CreateOf(INPUT).value;
    hide Valid, Opening.ViewMap, NetValue;
  }

  function GasCharge(costId: Id): (c: Cost)
    ensures c.amount == 1
  {
    Cost(costId, ExecutionGas, OnPayable, 1, A.MAINNET, None, "h")
  }

  lemma OneUnitOfGas(costId: Id, g: A.Gas)
    requires g.gasUnits == 1 && g.priceWei == 1
    ensures A.GasCost(costId, g, PAR, ExecutionGas, A.MAINNET, "h") == Ok(GasCharge(costId))
  {
  }

  lemma HandedOut(ctx: A.Context, name: Id, body: Body)
    requires ctx.sourceHashes == ["h"] && IsUInt(ctx.version) && |body.Costs()| <= 1
    requires forall i | 0 <= i < |body.Costs()| :: body.Costs()[i].amount == 1
    requires body.Approve? || body.Deposit? || body.Accrue? || body.Withdraw?
    requires body.Approve? ==> IsUInt(body.amount)
    requires body.Deposit? ==> IsPositiveUInt(body.sharesCredit) && IsPositiveUInt(body.input)
                               && IsPositiveUInt(body.indexNum) && IsPositiveUInt(body.indexDen)
    requires body.Accrue? ==> IsPositiveUInt(body.nextNum) && IsPositiveUInt(body.nextDen)
    requires body.Withdraw? ==> IsPositiveUInt(body.sharesDebit) && IsUInt(body.cashCredit)
    ensures A.Handed(ctx, name, body).Ok?
    ensures var r := A.Handed(ctx, name, body).value;
            r.operationId == name && r.body == body
  {
  }

  lemma {:induction false} Calls() returns (supply: Receipt, accrue: Receipt, withdraw: Receipt)
    ensures SUPPLY.Receipts() == Ok([supply]) && RETURN.Accrual("x") == Ok(accrue)
    ensures RETURN.Withdrawal("x", 100) == Ok(withdraw)
    ensures supply.body.Costs() == [GasCharge("s" + "-aave" + "-supply-gas")]
    ensures withdraw.body.Costs() == [GasCharge("s" + "-aave-withdraw-gas")]
  {
    var deposit := GasCharge("s" + "-aave" + "-supply-gas");
    var withdrawal := GasCharge("s" + "-aave-withdraw-gas");
    OneUnitOfGas("s" + "-aave" + "-supply-gas", GAS);
    OneUnitOfGas("s" + "-aave-withdraw-gas", GAS.(amountIn := 150));
    HandedOut(At(0, 0), "s" + "-aave" + "-supply", Deposit("v", "x", "i", 100, 1, 1, 100, [deposit]));
    HandedOut(At(1, 1), "s" + "-aave-accrue", Accrue("x", 3, 2, []));
    HandedOut(At(2, 2), "s" + "-aave-withdraw", Withdraw("v", "x", 100, 150, [withdrawal]));
    hide A.Handed, A.GasCost;
    supply := A.Handed(At(0, 0), "s" + "-aave" + "-supply", Deposit("v", "x", "i", 100, 1, 1, 100, [deposit])).value;
    assert [] + [supply] == [supply];
    assert At(0, 0).(version := At(0, 0).version + 0) == At(0, 0);
    accrue := A.Handed(At(1, 1), "s" + "-aave-accrue", Accrue("x", 3, 2, [])).value;
    withdraw := A.Handed(At(2, 2), "s" + "-aave-withdraw", Withdraw("v", "x", 100, 150, [withdrawal])).value;
  }

  lemma {:induction false} IsPlanned(p: Portfolio, supply: Receipt, accrue: Receipt, withdraw: Receipt)
    requires Current(p, SUPPLY.ctx) && p.applied == [] && p.positions == map[] && p.version == 0
    requires SUPPLY.Receipts() == Ok([supply]) && RETURN.Accrual("x") == Ok(accrue)
    requires RETURN.Withdrawal("x", 100) == Ok(withdraw)
    ensures Planned(p, SUPPLY, [supply], RETURN, accrue, withdraw)
  {
    hide Current, Supply.Receipts, Return.Accrual, Return.Withdrawal, Supplying;
    TripFigures();
    assert forall op :: !HasOperation(p.applied, op);
  }

  lemma TripFigures()
    ensures SUPPLY.ctx == At(0, 0) && SUPPLY.positionId == "x" && SUPPLY.amount == 100
  {
  }

  lemma {:induction false} IsCovered(p: Portfolio, supply: Receipt, withdraw: Receipt)
    requires p.costs == map[] && NetValue(p) == 100 && p.pnl == 0 && CashCovers(p, "v", 100)
    requires p.views["v"] == VIEW && p.cash["f"].amount == 100
    requires GasOf([supply]) == 1 && GasOf([withdraw]) == 1
    ensures Indexed(SUPPLY, RETURN) == 150
    ensures CanSupply(p, SUPPLY, [supply]) && CanReturn(p, SUPPLY, [supply], RETURN, withdraw)
  {
    hide NetValue, GasOf, CashCovers;
  }

  // A hundred minor units supplied at index 2, accrued to index 3 and withdrawn come back as a hundred and fifty.
  lemma {:induction false} HundredComesBackAsHundredAndFifty()
      returns (p: Portfolio, supply: Receipt, accrue: Receipt, withdraw: Receipt)
    ensures Opening.CreateOf(INPUT) == Ok(p) && Planned(p, SUPPLY, [supply], RETURN, accrue, withdraw)
    ensures Replay(p, [supply] + [accrue] + [withdraw]).Ok?
    ensures var q := Replay(p, [supply] + [accrue] + [withdraw]).value;
            "f" in q.cash && q.cash["f"].amount == 150 && q.pnl == 50 && "x" !in q.positions
  {
    hide *;
    p := Opens();
    supply, accrue, withdraw := Calls();
    IsPlanned(p, supply, accrue, withdraw);
    GasOfOne(supply, GasCharge("s" + "-aave" + "-supply-gas"));
    GasOfOne(withdraw, GasCharge("s" + "-aave-withdraw-gas"));
    IsCovered(p, supply, withdraw);
    WholeTripTaken(p, SUPPLY, [supply], RETURN, accrue, withdraw);
    FiftyMore(p.cash, "f");
  }

  lemma FiftyMore(cash: map<Id, Cash>, family: Id)
    requires family in cash
    ensures var later := CashAfter(cash, family, 50);
            family in later && later[family].amount == cash[family].amount + 50
    ensures SUPPLY.ctx.cashViewId == "v" && SUPPLY.amount == 100 && SUPPLY.positionId == "x" && VIEW.familyId == "f"
  {
  }

  /******* The same allowance twice *******/

  // Forty minor units with an approval, as the action worker supplies them.
  const FIRST := Supplying(At(0, 0), 40, "x", 0, Some("first"))

  // Thirty more under the same allowance, its caller stating the given allowance.
  function Second(allowance: int): Supply { Supplying(At(2, 1), 30, "y", allowance, None) }

  lemma {:induction false} SupplyingIsHandedOut(s: Supply, version: int, time: Timestamp, amount: int, positionId: Id,
      allowance: int, prefix: Option<Id>)
      returns (rs: seq<Receipt>)
    requires s == Supplying(At(version, time), amount, positionId, allowance, prefix)
    requires 0 < amount <= 100 && 0 <= version <= 2
    ensures s.Receipts() == Ok(rs) && |rs| == GasOf(rs) == if allowance < amount then 2 else 1
    ensures NamesOf(rs) == {s.DepositName()} + (if allowance < amount then {s.Base() + "-approve"} else {})
    ensures OwedBy(rs) == {s.Base() + "-supply-gas"} + (if allowance < amount then {s.Base() + "-approval-gas"} else {})
  {
    hide A.Handed, A.GasCost, GasOf, OwedBy, NamesOf;
    var approval := GasCharge(s.Base() + "-approval-gas").(category := ApprovalGas);
    var deposit := GasCharge(s.Base() + "-supply-gas");
    OneUnitOfApprovalGas(s.Base() + "-approval-gas", s.approvalGas);
    OneUnitOfGas(s.Base() + "-supply-gas", s.supplyGas);
    HandedOut(s.ctx, s.Base() + "-approve", s.ApprovalBody(approval));
    HandedOut(s.ctx, s.DepositName(), s.DepositBody(deposit));
    var later := s.ctx.(version := s.ctx.version + 1);
    HandedOut(later, s.DepositName(), s.DepositBody(deposit));
    if allowance < amount {
      var a, r := A.Handed(s.ctx, s.Base() + "-approve", s.ApprovalBody(approval)).value,
          A.Handed(later, s.DepositName(), s.DepositBody(deposit)).value;
      rs := [a] + [r];
      GasOfOne(a, approval);
      GasOfMore([a], r, deposit);
    } else {
      var r := A.Handed(s.ctx, s.DepositName(), s.DepositBody(deposit)).value;
      rs := [r];
      assert s.ctx.(version := s.ctx.version + 0) == s.ctx;
      assert [] + [r] == [r];
      GasOfOne(r, deposit);
    }
  }

  lemma OneUnitOfApprovalGas(costId: Id, g: A.Gas)
    requires g.gasUnits == 1 && g.priceWei == 1
    ensures A.GasCost(costId, g, PAR, ApprovalGas, A.MAINNET, "h")
            == Ok(GasCharge(costId).(category := ApprovalGas))
  {
  }

  lemma {:induction false} FirstIsTaken(p: Portfolio, rs: seq<Receipt>)
    requires Current(p, FIRST.ctx) && p.costs == map[] && p.allowances == map[] && NetValue(p) == 100
    requires CashCovers(p, "v", 100) && p.views["v"] == VIEW && FIRST.Receipts() == Ok(rs) && GasOf(rs) == 2
    ensures CanSupply(p, FIRST, rs)
  {
    hide Current, NetValue, GasOf, Supply.Receipts, OwedBy;
    assert HasAsset(p.views, A.MAINNET, "a");
  }

  // The names of the two supplies have different lengths or endings.
  lemma {:induction false} NamesDiffer(allowance: int)
    ensures var first := {FIRST.DepositName()} + {FIRST.Base() + "-approve"};
            var second := Second(allowance);
            second.DepositName() !in first && second.Base() + "-approve" !in first
    ensures var first := {FIRST.Base() + "-supply-gas"} + {FIRST.Base() + "-approval-gas"};
            var second := Second(allowance);
            second.Base() + "-supply-gas" !in first && second.Base() + "-approval-gas" !in first
  {
    var base := Second(allowance).Base();
    assert base == "s-aave" && FIRST.Base() == "first";
    EndsDiffer(base, "-supply", "first", "-deposit", 1);
    EndsDiffer(base, "-supply", "first", "-approve", 1);
    assert |base + "-approve"| == 14 && |"first" + "-approve"| == 13 && |"first" + "-deposit"| == 13;
    assert |base + "-supply-gas"| == 17 && |base + "-approval-gas"| == 19;
    assert |"first" + "-supply-gas"| == 16 && |"first" + "-approval-gas"| == 18;
  }

  // What the first supply leaves for the second: sixty minor units of cash, two units of gas owed and nothing at y.
  lemma {:induction false} AfterFirst(p: Portfolio, rs: seq<Receipt>, p1: Portfolio, allowance: int)
    requires Current(p, FIRST.ctx) && p.version == 0 && p.applied == [] && p.costs == map[] && p.positions == map[]
    requires NetValue(p) == 100 && "v" in p.views && p.views["v"] == VIEW
    requires "f" in p.cash && p.cash["f"].amount == 100
    requires FIRST.Receipts() == Ok(rs) && Replay(p, rs) == Ok(p1) && |rs| == GasOf(rs) == 2
    requires Reached(p, p1, 2, 0, NamesOf(rs), 2)
    requires HasSupplied(p, p1, "v", "x", 40, OwedBy(rs))
    ensures Current(p1, Second(allowance).ctx) && p1.version == 2 && NetValue(p1) == 98
    ensures CashCovers(p1, "v", 30) && p1.costs.Keys == OwedBy(rs)
    ensures forall op :: HasOperation(p1.applied, op) <==> op in NamesOf(rs)
  {
    hide Replay, NetValue, GasOf, Supply.Receipts, OwedBy, NamesOf, Valid, StartsEmpty;
  }

  lemma {:induction false} NothingElseOpens(p: Portfolio, rs: seq<Receipt>, p1: Portfolio)
    requires FIRST.Receipts() == Ok(rs) && |rs| == 2 && Replay(p, rs) == Ok(p1) && p.positions == map[]
    ensures "y" !in p1.positions
  {
    hide Replay, Supply.Receipts, A.Handed, ApplyReceipt, Effect, Admit, ReceiptParses, Kept, InHistory;
    var approval, deposit := SupplyParts(FIRST, rs);
    HandedCosts(FIRST.ctx, FIRST.Base() + "-approve", FIRST.ApprovalBody(approval), rs[0]);
    HandedCosts(FIRST.ctx.(version := 1), FIRST.DepositName(), FIRST.DepositBody(deposit), rs[1]);
    var m := ReplayTwo(p, rs, p1);
    AcceptedStep(p, rs[0], m);
    assert SameAt(p.positions, m.positions, "y");
    AcceptedStep(m, rs[1], p1);
    assert SameAt(m.positions, p1.positions, "y");
  }

  // A supply of forty with its approval is taken.  A second one of thirty under the same allowance, stated as zero by
  // its caller, is handed out with an approval and refused by the ledger, which already knows forty; with the ledger's
  // own figure it is handed out without one and taken.
  lemma {:induction false} SecondApprovalIsRefused()
      returns (p: Portfolio, rs: seq<Receipt>, p1: Portfolio, again: seq<Receipt>, alone: seq<Receipt>)
    ensures Opening.CreateOf(INPUT) == Ok(p)
    ensures FIRST.Receipts() == Ok(rs) && |rs| == 2 && Replay(p, rs) == Ok(p1)
    ensures Second(0).Receipts() == Ok(again) && |again| == 2 && Replay(p1, again).Err?
    ensures Second(40).Receipts() == Ok(alone) && |alone| == 1 && Replay(p1, alone).Ok?
  {
    hide *;
    p := Opens();
    ExampleFigures();
    rs := SupplyingIsHandedOut(FIRST, 0, 0, 40, "x", 0, Some("first"));
    NothingApplied(p, rs);
    FirstIsTaken(p, rs);
    SupplyTaken(p, FIRST, rs);
    p1 := Replay(p, rs).value;
    SuppliedState(p, FIRST, rs);
    NothingElseOpens(p, rs, p1);
    AfterFirst(p, rs, p1, 0);
    AfterFirst(p, rs, p1, 40);
    again := SupplyingIsHandedOut(Second(0), 2, 1, 30, "y", 0, None);
    SecondIsNew(p1, rs, again, 0);
    SecondSupplyTaken(p, FIRST, rs, p1, Second(0), again);
    alone := SupplyingIsHandedOut(Second(40), 2, 1, 30, "y", 40, None);
    SecondIsNew(p1, rs, alone, 40);
    SecondSupplyTaken(p, FIRST, rs, p1, Second(40), alone);
  }

  lemma NothingApplied(p: Portfolio, rs: seq<Receipt>)
    requires p.applied == []
    ensures forall i | 0 <= i < |rs| :: !HasOperation(p.applied, rs[i].operationId)
  {
  }

  lemma ExampleFigures()
    ensures FIRST == Supplying(At(0, 0), 40, "x", 0, Some("first")) && FIRST.ctx == SUPPLY.ctx
    ensures FIRST.ctx.cashViewId == "v" && FIRST.positionId == "x" && FIRST.amount == 40 && FIRST.ctx.observedAt == 0
    ensures FIRST.allowanceId == "w" && VIEW.familyId == "f" && IsUInt(2) && IsUInt(4)
    ensures forall allowance ::
              var s := Second(allowance);
              && s == Supplying(At(2, 1), 30, "y", allowance, None) && s.ctx.cashViewId == "v" && s.positionId == "y"
              && s.amount == 30 && s.currentAllowance == allowance && s.allowanceId == "w"
  {
  }

  lemma {:induction false} SecondIsNew(p1: Portfolio, rs: seq<Receipt>, again: seq<Receipt>, allowance: int)
    requires forall op :: HasOperation(p1.applied, op) <==> op in NamesOf(rs)
    requires p1.costs.Keys == OwedBy(rs)
    requires NamesOf(rs) == {FIRST.DepositName()} + {FIRST.Base() + "-approve"}
    requires OwedBy(rs) == {FIRST.Base() + "-supply-gas"} + {FIRST.Base() + "-approval-gas"}
    requires NamesOf(again) <= {Second(allowance).DepositName()} + {Second(allowance).Base() + "-approve"}
    requires OwedBy(again) <= {Second(allowance).Base() + "-supply-gas"} + {Second(allowance).Base() + "-approval-gas"}
    ensures forall i | 0 <= i < |again| :: !HasOperation(p1.applied, again[i].operationId)
    ensures forall id | id in OwedBy(again) :: id !in p1.costs
  {
    hide HasOperation, OwedBy, Supply.Base, Supply.DepositName;
    NamesDiffer(allowance);
    assert forall i | 0 <= i < |again| :: again[i].operationId in NamesOf(again);
  }
}
