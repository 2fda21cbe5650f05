// createPortfolio: the states every ledger run starts from.
module Opening {
  import opened Prelude
  import opened Ledger
  import opened Closing
  import Accounting

  datatype NamedView = NamedView(viewId: Id, view: View)

  datatype InitialCash = InitialCash(viewId: Id, amount: int)

  datatype Input = Input(
    experimentId: Id, scenarioId: Id, portfolioId: Id, provenance: string, initialValue: int,
    maxDestinationAttempts: int, views: seq<NamedView>, initialCash: seq<InitialCash>)

  // One empty balance per family, described by the family's first view.
  function Balances(views: seq<NamedView>): (cash: map<Id, Cash>)
    ensures forall i | 0 <= i < |views| :: views[i].view.familyId in cash
  {
    if views == [] then map[]
    else
      var v, earlier := views[|views| - 1].view, Balances(views[..|views| - 1]);
      if v.familyId in earlier then earlier else earlier[v.familyId := Cash(v.networkId, v.assetId, 0)]
  }

  function FindView(views: seq<NamedView>, viewId: Id): (found: Option<View>)
    ensures found.Some? ==> exists i | 0 <= i < |views| :: views[i].viewId == viewId && views[i].view == found.value
    ensures found.None? ==> forall i | 0 <= i < |views| :: views[i].viewId != viewId
  {
    if views == [] then None
    else if views[0].viewId == viewId then Some(views[0].view)
    else
      var rest := FindView(views[1..], viewId);
      assert forall i | 0 < i < |views| :: views[i] == views[1..][i - 1];
      assert forall i | 0 <= i < |views[1..]| :: views[1..][i] == views[i + 1];
      rest
  }

  function FamilyOf(views: seq<NamedView>, viewId: Id): Option<Id> {
    var v := FindView(views, viewId);
    if v.Some? then Some(v.value.familyId) else None
  }

  // Each entry funds the family of its view; the second of the pair is the set of families already funded.
  function Funded(views: seq<NamedView>, items: seq<InitialCash>): (r: Result<(map<Id, Cash>, set<Id>)>)
    ensures r.Ok? ==> r.value.0.Keys == Balances(views).Keys
  {
    if items == [] then Ok((Balances(views), {}))
    else
      var earlier :- Funded(views, items[..|items| - 1]);
      var item := items[|items| - 1];
      var family := FamilyOf(views, item.viewId);
      if family.None? then Err(AccountingInvariant)
      else if family.value in earlier.1 then Err(AccountingInvariant)
      else if !IsUInt(item.amount) then Err(AccountingInvariant)
      else Ok((earlier.0[family.value := earlier.0[family.value].(amount := item.amount)], earlier.1 + {family.value}))
  }

  function ViewMap(views: seq<NamedView>): map<Id, View> {
    if views == [] then map[]
    else ViewMap(views[..|views| - 1])[views[|views| - 1].viewId := views[|views| - 1].view]
  }

  predicate DistinctViewIds(views: seq<NamedView>) {
    forall i, j | 0 <= i < j < |views| :: views[i].viewId != views[j].viewId
  }

  function StartState(input: Input, cash: map<Id, Cash>): Portfolio {
    Portfolio(input.experimentId, input.scenarioId, input.portfolioId, input.provenance, input.initialValue,
              input.maxDestinationAttempts, 0, ViewMap(input.views), cash, map[], map[], map[], map[], map[], map[], 0,
              [], None, None, None)
  }

  ghost function CreateOf(input: Input): Result<Portfolio> {
    var funded :- Funded(input.views, input.initialCash);
    var state := StartState(input, funded.0);
    if CashTotal(state) != input.initialValue then Err(AccountingInvariant)
    else if !DistinctViewIds(input.views) || !Valid(state) then Err(AccountingInvariant)
    else Ok(state)
  }

  lemma {:induction false} RefusedFundingPersists(views: seq<NamedView>, items: seq<InitialCash>, n: nat)
    requires n <= |items| && Funded(views, items[..n]).Err?
    ensures Funded(views, items) == Err(Funded(views, items[..n]).code)
    decreases |items| - n
  {
    if n < |items| {
      assert items[..n + 1][..n] == items[..n];
      RefusedFundingPersists(views, items, n + 1);
    } else {
      assert items[..n] == items;
    }
  }

  method OpenBalances(views: seq<NamedView>) returns (cash: map<Id, Cash>)
    ensures cash == Balances(views)
  {
    cash := map[];
    for i := 0 to |views|
      invariant cash == Balances(views[..i])
    {
      assert views[..i + 1][..i] == views[..i];
      var v := views[i].view;
      if v.familyId !in cash { cash := cash[v.familyId := Cash(v.networkId, v.assetId, 0)]; }
    }
    assert views[..|views|] == views;
  }

  method FundFamilies(views: seq<NamedView>, items: seq<InitialCash>) returns (result: Result<map<Id, Cash>>)
    ensures result.Ok? ==> Funded(views, items).Ok? && result.value == Funded(views, items).value.0
    ensures result.Err? ==> Funded(views, items) == Err(result.code)
  {
    hide Balances, FindView;
    var cash := OpenBalances(views);
    var funded: set<Id> := {};
    for i := 0 to |items|
      invariant Funded(views, items[..i]) == Ok((cash, funded))
    {
      assert items[..i + 1][..i] == items[..i];
      var item := items[i];
      var family := FamilyOf(views, item.viewId);
      if family.None? || family.value in funded || !IsUInt(item.amount) {
        RefusedFundingPersists(views, items, i + 1);
        return Err(AccountingInvariant);
      }
      FamilyHasBalance(views, item.viewId);
      funded := funded + {family.value};
      cash := cash[family.value := cash[family.value].(amount := item.amount)];
    }
    assert items[..|items|] == items;
    return Ok(cash);
  }

  method CreatePortfolio(input: Input) returns (result: Result<Portfolio>)
    ensures result == CreateOf(input)
  {
    hide Valid, Sum, Funded, Balances, ViewMap;
    var cash :- FundFamilies(input.views, input.initialCash);
    var state := StartState(input, cash);
    var total := Total(cash, CashAmount);
    if total != input.initialValue { return Err(AccountingInvariant); }
    if !DistinctViewIds(input.views) { return Err(AccountingInvariant); }
    var valid := Accounting.AssertPortfolio(state);
    result := if valid then Ok(state) else Err(AccountingInvariant);
  }

  /******* When a portfolio opens *******/

  function AmountsTotal(items: seq<InitialCash>): int {
    if items == [] then 0 else AmountsTotal(items[..|items| - 1]) + items[|items| - 1].amount
  }

  // Every entry names a known view, amounts are in range and no family is funded twice.
  predicate FundsOnce(views: seq<NamedView>, items: seq<InitialCash>) {
    && (forall i | 0 <= i < |items| :: FamilyOf(views, items[i].viewId).Some? && IsUInt(items[i].amount))
    && (forall i, j | 0 <= i < j < |items| :: FamilyOf(views, items[i].viewId) != FamilyOf(views, items[j].viewId))
  }

  // Views of one family describe one asset at one scale.
  predicate FamiliesAgree(views: seq<NamedView>) {
    forall i, j | 0 <= i < |views| && 0 <= j < |views| :: Aliases(views[i].view, views[j].view)
  }

  lemma {:induction false} BalancesAreFirstViews(views: seq<NamedView>, f: Id)
    requires f in Balances(views)
    ensures Balances(views)[f].amount == 0
    ensures exists i | 0 <= i < |views| ::
              views[i].view.familyId == f
              && Balances(views)[f] == Cash(views[i].view.networkId, views[i].view.assetId, 0)
  {
    var n := |views| - 1;
    var init := views[..n];
    if f in Balances(init) {
      BalancesAreFirstViews(init, f);
      var i :| 0 <= i < n && init[i].view.familyId == f
               && Balances(init)[f] == Cash(init[i].view.networkId, init[i].view.assetId, 0);
      assert views[i] == init[i];
    } else {
      assert views[n].view.familyId == f;
    }
  }

  lemma {:induction false} NothingYet(views: seq<NamedView>)
    ensures Sum(Balances(views), CashAmount) == 0
  {
    if views != [] {
      var v, earlier := views[|views| - 1].view, Balances(views[..|views| - 1]);
      NothingYet(views[..|views| - 1]);
      SumPut(earlier, CashAmount, v.familyId, Cash(v.networkId, v.assetId, 0));
    }
  }

  lemma {:induction false} FundsOnceLast(views: seq<NamedView>, items: seq<InitialCash>)
    requires items != []
    ensures FundsOnce(views, items) <==>
              var init, last := items[..|items| - 1], items[|items| - 1];
              && FundsOnce(views, init)
              && FamilyOf(views, last.viewId).Some? && IsUInt(last.amount)
              && forall i | 0 <= i < |init| :: FamilyOf(views, init[i].viewId) != FamilyOf(views, last.viewId)
  {
    hide FamilyOf;
    var n := |items| - 1;
    assert forall i | 0 <= i < n :: items[..n][i] == items[i];
  }

  predicate FundedBy(views: seq<NamedView>, items: seq<InitialCash>, f: Id) {
    exists i | 0 <= i < |items| :: FamilyOf(views, items[i].viewId) == Some(f)
  }

  // The balances so far: each describes its family's asset, and is empty unless funded.
  predicate CashShape(cash: map<Id, Cash>, balances: map<Id, Cash>, funded: set<Id>) {
    forall f | f in cash ::
      f in balances && IsUInt(cash[f].amount) && cash[f] == balances[f].(amount := cash[f].amount)
      && (f !in funded ==> cash[f].amount == 0)
  }

  lemma {:induction false} FundedByLast(views: seq<NamedView>, items: seq<InitialCash>, f: Id)
    requires items != []
    ensures FundedBy(views, items, f) <==>
              FundedBy(views, items[..|items| - 1], f) || FamilyOf(views, items[|items| - 1].viewId) == Some(f)
  {
    hide FamilyOf;
    var n := |items| - 1;
    assert forall i | 0 <= i < n :: items[..n][i] == items[i];
    if FundedBy(views, items, f) {
      var i :| 0 <= i < |items| && FamilyOf(views, items[i].viewId) == Some(f);
      assert i < n ==> items[..n][i] == items[i];
    }
  }

  // What a family holds once funded, and what the funding adds up to.
  lemma {:induction false} FundingAddsUp(views: seq<NamedView>, items: seq<InitialCash>)
    ensures Funded(views, items).Ok? <==> FundsOnce(views, items)
    ensures Funded(views, items).Ok? ==>
              var (cash, funded) := Funded(views, items).value;
              && Sum(cash, CashAmount) == AmountsTotal(items)
              && CashShape(cash, Balances(views), funded)
              && (forall f :: f in funded <==> FundedBy(views, items, f))
  {
    hide FamilyOf, FundedBy;
    if items == [] {
      NothingYet(views);
      forall f | f in Balances(views)
        ensures Balances(views)[f].amount == 0
      {
        BalancesAreFirstViews(views, f);
      }
      forall f
        ensures !FundedBy(views, items, f)
      {
        NobodyFunded(views, f);
      }
    } else {
      var init, last := items[..|items| - 1], items[|items| - 1];
      FundingAddsUp(views, init);
      FundsOnceLast(views, items);
      if FamilyOf(views, last.viewId).Some? { NotFundedBefore(views, init, last); }
      if Funded(views, init).Ok? && Funded(views, items).Ok? {
        var (cash, funded) := Funded(views, init).value;
        var family := FamilyOf(views, last.viewId).value;
        FamilyHasBalance(views, last.viewId);
        SumPut(cash, CashAmount, family, cash[family].(amount := last.amount));
        assert cash[family].amount == 0;
        forall f
          ensures f in funded + {family} <==> FundedBy(views, items, f)
        {
          FundedByLast(views, items, f);
        }
      }
    }
  }

  lemma NobodyFunded(views: seq<NamedView>, f: Id)
    ensures !FundedBy(views, [], f)
  {
  }

  lemma {:induction false} NotFundedBefore(views: seq<NamedView>, init: seq<InitialCash>, last: InitialCash)
    requires FamilyOf(views, last.viewId).Some?
    ensures FundedBy(views, init, FamilyOf(views, last.viewId).value) <==>
              !forall i | 0 <= i < |init| :: FamilyOf(views, init[i].viewId) != FamilyOf(views, last.viewId)
  {
    hide FamilyOf;
  }

  lemma FamilyHasBalance(views: seq<NamedView>, viewId: Id)
    requires FamilyOf(views, viewId).Some?
    ensures FamilyOf(views, viewId).value in Balances(views)
  {
  }

  lemma {:induction false} ViewsListed(views: seq<NamedView>)
    requires DistinctViewIds(views)
    ensures forall i | 0 <= i < |views| ::
              views[i].viewId in ViewMap(views) && ViewMap(views)[views[i].viewId] == views[i].view
    ensures forall k | k in ViewMap(views) :: exists i | 0 <= i < |views| :: views[i].viewId == k
  {
    if views != [] {
      var n := |views| - 1;
      var init := views[..n];
      ViewsListed(init);
      forall i | 0 <= i < n
        ensures views[i].viewId in ViewMap(views) && ViewMap(views)[views[i].viewId] == views[i].view
      {
        assert init[i] == views[i];
      }
      forall k | k in ViewMap(views)
        ensures exists i | 0 <= i < |views| :: views[i].viewId == k
      {
        if k in ViewMap(init) {
          var i :| 0 <= i < |init| && init[i].viewId == k;
          assert views[i].viewId == k;
        } else {
          assert views[n].viewId == k;
        }
      }
    }
  }

  // The views and the balances agree exactly when views of one family describe one asset.
  lemma {:induction false} FamiliesHoldExactly(views: seq<NamedView>, cash: map<Id, Cash>)
    requires DistinctViewIds(views) && cash.Keys == Balances(views).Keys
    requires forall f | f in cash :: cash[f] == Balances(views)[f].(amount := cash[f].amount)
    ensures FamiliesHold(ViewMap(views), FamilyAssets(cash)) <==> FamiliesAgree(views)
  {
    hide Balances, ViewMap, Aliases;
    ViewsListed(views);
    var m := ViewMap(views);
    if FamiliesHold(m, FamilyAssets(cash)) {
      forall i, j | 0 <= i < |views| && 0 <= j < |views|
        ensures Aliases(views[i].view, views[j].view)
      {
        assert Aliases(m[views[i].viewId], m[views[j].viewId]);
      }
    }
    if FamiliesAgree(views) {
      forall v, w | v in m && w in m
        ensures Aliases(m[v], m[w])
      {
        var i :| 0 <= i < |views| && views[i].viewId == v;
        var j :| 0 <= j < |views| && views[j].viewId == w;
        assert Aliases(views[i].view, views[j].view);
      }
      forall v | v in m
        ensures m[v].familyId in cash
        ensures FamilyAssets(cash)[m[v].familyId] == FamilyAsset(m[v].networkId, m[v].assetId)
      {
        var i :| 0 <= i < |views| && views[i].viewId == v;
        OneAssetPerFamily(views, i);
      }
      forall f | f in cash
        ensures HasFamily(m, f)
      {
        BalancesAreFirstViews(views, f);
        var i :| 0 <= i < |views| && views[i].view.familyId == f;
        assert m[views[i].viewId].familyId == f;
      }
    }
  }

  lemma {:induction false} OneAssetPerFamily(views: seq<NamedView>, i: nat)
    requires FamiliesAgree(views) && i < |views|
    ensures views[i].view.familyId in Balances(views)
    ensures Balances(views)[views[i].view.familyId].networkId == views[i].view.networkId
    ensures Balances(views)[views[i].view.familyId].assetId == views[i].view.assetId
  {
    var f := views[i].view.familyId;
    BalancesAreFirstViews(views, f);
    hide Balances;
    var j :| 0 <= j < |views| && views[j].view.familyId == f
             && Balances(views)[f] == Cash(views[j].view.networkId, views[j].view.assetId, 0);
    assert Aliases(views[i].view, views[j].view);
  }

  lemma {:induction false} StartIsValidExactly(input: Input, cash: map<Id, Cash>)
    requires CashHolds(cash) && Sum(cash, CashAmount) == input.initialValue
    ensures Valid(StartState(input, cash)) <==>
              && FamiliesHold(ViewMap(input.views), FamilyAssets(cash))
              && IsPositiveUInt(input.initialValue) && IsPositiveUInt(input.maxDestinationAttempts)
    ensures NetValue(StartState(input, cash)) == input.initialValue && CostTotal(StartState(input, cash)) == 0
  {
    hide FamiliesHold, ViewMap;
  }

  // A portfolio opens exactly when the cash named in its input is its initial value, each family funded at most once
  // through a known view, views of one family agree, and the two header figures are positive. What opens is a valid
  // portfolio worth its initial value, with nothing in flight.
  lemma {:induction false} OpensExactlyOnItsCapital(input: Input)
    ensures CreateOf(input).Ok? <==>
              && FundsOnce(input.views, input.initialCash)
              && AmountsTotal(input.initialCash) == input.initialValue
              && DistinctViewIds(input.views) && FamiliesAgree(input.views)
              && IsPositiveUInt(input.initialValue) && IsPositiveUInt(input.maxDestinationAttempts)
    ensures CreateOf(input).Ok? ==>
              var p := CreateOf(input).value;
              && Valid(p) && StartsEmpty(p) && NetValue(p) == p.initialValue == input.initialValue
              && p.reservations == map[] && p.receivables == map[] && p.positions == map[] && p.payables == map[]
              && p.applied == [] && p.pnl == 0 && CostTotal(p) == 0
  {
    hide Valid, Funded, FundsOnce, AmountsTotal, Balances, FamilyOf, ViewMap, FamiliesHold, FamiliesAgree, NetValue,
        Sum;
    FundingAddsUp(input.views, input.initialCash);
    if FundsOnce(input.views, input.initialCash) {
      var cash := Funded(input.views, input.initialCash).value.0;
      if CashTotal(StartState(input, cash)) == input.initialValue && DistinctViewIds(input.views) {
        FamiliesHoldExactly(input.views, cash);
        StartIsValidExactly(input, cash);
      }
    }
  }

  // Every entry's family holds exactly that entry.
  lemma {:induction false} EachFundsItsFamily(views: seq<NamedView>, items: seq<InitialCash>)
    requires Funded(views, items).Ok?
    ensures forall i | 0 <= i < |items| ::
              && FamilyOf(views, items[i].viewId).Some?
              && FamilyOf(views, items[i].viewId).value in Funded(views, items).value.0
              && Funded(views, items).value.0[FamilyOf(views, items[i].viewId).value].amount == items[i].amount
  {
    hide FamilyOf;
    if items != [] {
      var n := |items| - 1;
      EachFundsItsFamily(views, items[..n]);
      FundingAddsUp(views, items);
      FundsOnceLast(views, items);
      assert forall i | 0 <= i < n :: items[..n][i] == items[i];
    }
  }

  lemma {:induction false} ListedViewIsFound(views: seq<NamedView>, i: nat)
    requires DistinctViewIds(views) && i < |views|
    ensures FamilyOf(views, views[i].viewId) == Some(views[i].view.familyId)
  {
  }

  // Each family's cash is what its one entry put in, or nothing, in its views' own asset.
  predicate FundedAsAsked(input: Input, cash: map<Id, Cash>) {
    && (forall i | 0 <= i < |input.views| ::
          var v := input.views[i].view;
          && v.familyId in cash && cash[v.familyId].networkId == v.networkId && cash[v.familyId].assetId == v.assetId)
    && (forall i, j | 0 <= i < |input.views| && 0 <= j < |input.initialCash|
                      && input.initialCash[j].viewId == input.views[i].viewId ::
          input.views[i].view.familyId in cash
          && cash[input.views[i].view.familyId].amount == input.initialCash[j].amount)
    && (forall f | f in cash && !FundedBy(input.views, input.initialCash, f) :: cash[f].amount == 0)
  }

  // What opens carries the input's names, figures and views, each family's cash as it was funded, no receipt and no
  // entry of any other kind.
  lemma {:induction false} OpensAsAsked(input: Input)
    requires CreateOf(input).Ok?
    ensures var p := CreateOf(input).value;
            && p.experimentId == input.experimentId && p.scenarioId == input.scenarioId
            && p.portfolioId == input.portfolioId && p.provenance == input.provenance
            && p.initialValue == input.initialValue && p.maxDestinationAttempts == input.maxDestinationAttempts
            && p.version == 0 && p.lastAppliedAt.None? && p.closedAt.None? && p.deadlineState.None?
            && p.allowances == map[] && p.costs == map[]
            && (forall i | 0 <= i < |input.views| ::
                  input.views[i].viewId in p.views && p.views[input.views[i].viewId] == input.views[i].view)
            && FundedAsAsked(input, p.cash)
  {
    hide Valid, Funded, FamilyOf, Balances, FundedBy, CashTotal;
    var views, items := input.views, input.initialCash;
    var p := CreateOf(input).value;
    FundingAddsUp(views, items);
    EachFundsItsFamily(views, items);
    ViewsListed(views);
    forall i | 0 <= i < |views|
      ensures FamilyOf(views, views[i].viewId) == Some(views[i].view.familyId)
      ensures views[i].view.familyId in p.cash
      ensures p.cash[views[i].view.familyId].networkId == views[i].view.networkId
      ensures p.cash[views[i].view.familyId].assetId == views[i].view.assetId
    {
      ListedViewIsFound(views, i);
      ViewOfFamily(p, views[i].viewId);
    }
  }

  lemma {:induction false} ViewOfFamily(p: Portfolio, viewId: Id)
    requires Valid(p) && viewId in p.views
    ensures var v := p.views[viewId];
            && v.familyId in p.cash
            && p.cash[v.familyId].networkId == v.networkId && p.cash[v.familyId].assetId == v.assetId
  {
    hide HistoryHolds, ReservationsHold, ReceivablesHold, PositionsHold, PayablesHold, CostsHold, AllowancesHold;
    hide Gross, Liabilities, Imbalance, HasFamily, Aliases;
  }
}
