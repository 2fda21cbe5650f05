// Exactly when a list of costs can be charged, read off before the first one is.
module Affordable {
  import opened Prelude
  import opened Ledger

  // What a list of costs takes out of one family's cash.
  function TakenFrom(costs: seq<Cost>, family: Id): int {
    if costs == [] then 0
    else
      var last := costs[|costs| - 1];
      TakenFrom(costs[..|costs| - 1], family)
      + (if last.funding.AvailableCash? && last.cashFamily == Some(family) then last.amount else 0)
  }

  // The cost says how it is paid, in a way its funding allows.
  predicate Addressed(cash: map<Id, Cash>, c: Cost) {
    if c.funding.AvailableCash? then
      c.cashFamily.Some? && c.cashFamily.value in cash && cash[c.cashFamily.value].networkId == c.networkId
    else c.cashFamily.None?
  }

  predicate New(recognized: map<Id, RecognizedCost>, hashes: seq<SourceHash>, c: Cost) {
    c.costId !in recognized && c.sourceHash in hashes
  }

  // Every cost is new, attested and addressed, and no family pays more than it has.
  predicate CanCharge(cash: map<Id, Cash>, recognized: map<Id, RecognizedCost>, hashes: seq<SourceHash>,
      costs: seq<Cost>) {
    && DistinctCostIds(costs)
    && (forall i | 0 <= i < |costs| :: New(recognized, hashes, costs[i]) && Addressed(cash, costs[i]))
    && (forall f | f in cash :: TakenFrom(costs, f) <= cash[f].amount)
  }

  function IdsOf(costs: seq<Cost>): set<Id> { set i | 0 <= i < |costs| :: costs[i].costId }

  predicate CashAfter(cash: map<Id, Cash>, costs: seq<Cost>, later: map<Id, Cash>) {
    && later.Keys == cash.Keys
    && (forall f | f in cash :: later[f] == cash[f].(amount := cash[f].amount - TakenFrom(costs, f)))
  }

  // What a list of costs leaves of the cash and the cost ids.
  predicate ChargedFrom(s: Portfolio, costs: seq<Cost>, t: Portfolio) {
    CashAfter(s.cash, costs, t.cash) && t.costs.Keys == s.costs.Keys + IdsOf(costs)
  }

  lemma {:induction false} CanChargeLast(cash: map<Id, Cash>, recognized: map<Id, RecognizedCost>,
      hashes: seq<SourceHash>, costs: seq<Cost>)
    requires costs != [] && CostsParse(costs)
    ensures var init, last := costs[..|costs| - 1], costs[|costs| - 1];
            CanCharge(cash, recognized, hashes, costs) <==>
              && CanCharge(cash, recognized, hashes, init) && New(recognized, hashes, last) && Addressed(cash, last)
              && (forall i | 0 <= i < |init| :: init[i].costId != last.costId)
              && (last.funding.AvailableCash? ==>
                    last.amount <= cash[last.cashFamily.value].amount - TakenFrom(init, last.cashFamily.value))
  {
    hide New;
    var init, last := costs[..|costs| - 1], costs[|costs| - 1];
    assert forall i | 0 <= i < |costs| :: costs[i] == if i < |init| then init[i] else last;
    assert forall i | 0 <= i < |init| :: init[i] == costs[i];
  }

  lemma CashLeft(cash: map<Id, Cash>, costs: seq<Cost>, mid: map<Id, Cash>, family: Id)
    requires CashAfter(cash, costs, mid)
    ensures family in mid <==> family in cash
    ensures family in cash ==>
              mid[family].networkId == cash[family].networkId
              && mid[family].amount == cash[family].amount - TakenFrom(costs, family)
  {
  }

  // One more cost, after a list that could be charged.
  lemma {:induction false} OneMoreAllowed(s: Portfolio, init: seq<Cost>, m: Portfolio, r: Receipt, last: Cost)
    requires ChargedFrom(s, init, m)
    ensures ChargeOne(m, r, last).Ok? <==>
              && New(s.costs, r.sourceHashes, last) && Addressed(s.cash, last)
              && (forall i | 0 <= i < |init| :: init[i].costId != last.costId)
              && (last.funding.AvailableCash? ==>
                    last.amount <= s.cash[last.cashFamily.value].amount - TakenFrom(init, last.cashFamily.value))
  {
    IdListed(init, last.costId);
    if last.cashFamily.Some? {
      CashLeft(s.cash, init, m.cash, last.cashFamily.value);
    }
    assert last.costId in m.costs <==> last.costId in s.costs || last.costId in IdsOf(init);
    hide TakenFrom, IdsOf, CashAfter, ChargedFrom;
    match last.funding
    case AvailableCash =>
    case OnPayable =>
    case Withheld =>
  }

  lemma {:induction false} OneMoreCharged(s: Portfolio, init: seq<Cost>, m: Portfolio, r: Receipt, last: Cost)
    requires ChargedFrom(s, init, m) && ChargeOne(m, r, last).Ok?
    ensures ChargedFrom(s, init + [last], ChargeOne(m, r, last).value)
  {
    hide TakenFrom, IdsOf, CashAfter;
    OneMoreId(init, last);
    match last.funding
    case AvailableCash => CashAfterDebit(s.cash, init, m.cash, last);
    case OnPayable => CashAfterOther(s.cash, init, m.cash, last);
    case Withheld => CashAfterOther(s.cash, init, m.cash, last);
  }

  lemma IdListed(costs: seq<Cost>, id: Id)
    ensures id in IdsOf(costs) <==> exists i | 0 <= i < |costs| :: costs[i].costId == id
  {
  }

  lemma {:induction false} OneMoreId(init: seq<Cost>, last: Cost)
    ensures IdsOf(init + [last]) == IdsOf(init) + {last.costId}
  {
    var costs := init + [last];
    forall k
      ensures k in IdsOf(costs) <==> k in IdsOf(init) || k == last.costId
    {
      assert costs[|init|] == last;
      if k in IdsOf(init) {
        var i :| 0 <= i < |init| && init[i].costId == k;
        assert costs[i].costId == k;
      }
    }
  }

  lemma {:induction false} OneMoreTaken(init: seq<Cost>, last: Cost, family: Id)
    ensures TakenFrom(init + [last], family) ==
            TakenFrom(init, family)
            + (if last.funding.AvailableCash? && last.cashFamily == Some(family) then last.amount else 0)
  {
    assert (init + [last])[..|init|] == init;
  }

  lemma {:induction false} CashAfterDebit(cash: map<Id, Cash>, init: seq<Cost>, mid: map<Id, Cash>, last: Cost)
    requires CashAfter(cash, init, mid)
    requires last.funding.AvailableCash? && last.cashFamily.Some? && last.cashFamily.value in mid
    ensures var f := last.cashFamily.value;
            CashAfter(cash, init + [last], mid[f := mid[f].(amount := mid[f].amount - last.amount)])
  {
    forall f | f in cash
      ensures TakenFrom(init + [last], f) ==
              TakenFrom(init, f) + (if last.cashFamily == Some(f) then last.amount else 0)
    {
      OneMoreTaken(init, last, f);
    }
    hide TakenFrom;
  }

  lemma {:induction false} CashAfterOther(cash: map<Id, Cash>, init: seq<Cost>, mid: map<Id, Cash>, last: Cost)
    requires CashAfter(cash, init, mid) && !last.funding.AvailableCash?
    ensures CashAfter(cash, init + [last], mid)
  {
    forall f | f in cash
      ensures TakenFrom(init + [last], f) == TakenFrom(init, f)
    {
      OneMoreTaken(init, last, f);
    }
    hide TakenFrom;
  }

  // The loop over costs succeeds exactly when the whole list can be charged, and then takes from each family
  // what the list takes.
  lemma {:induction false} ChargeAllTaken(s: Portfolio, r: Receipt, costs: seq<Cost>)
    requires CostsParse(costs) && DistinctCostIds(costs) && CashHolds(s.cash)
    ensures ChargeAll(s, r, costs).Ok? <==> CanCharge(s.cash, s.costs, r.sourceHashes, costs)
    ensures ChargeAll(s, r, costs).Ok? ==> ChargedFrom(s, costs, ChargeAll(s, r, costs).value)
  {
    hide CanCharge, ChargedFrom, New, Addressed, ChargeOne;
    if costs == [] {
      NothingToCharge(s, r);
    } else {
      var init, last := costs[..|costs| - 1], costs[|costs| - 1];
      assert forall i | 0 <= i < |init| :: init[i] == costs[i];
      ChargeAllTaken(s, r, init);
      CanChargeLast(s.cash, s.costs, r.sourceHashes, costs);
      if ChargeAll(s, r, init).Ok? {
        var m := ChargeAll(s, r, init).value;
        OneMoreAllowed(s, init, m, r, last);
        if ChargeOne(m, r, last).Ok? {
          OneMoreCharged(s, init, m, r, last);
          assert costs == init + [last];
        }
      }
    }
  }

  lemma {:induction false} NothingToCharge(s: Portfolio, r: Receipt)
    requires CashHolds(s.cash)
    ensures CanCharge(s.cash, s.costs, r.sourceHashes, []) && ChargedFrom(s, [], s)
  {
  }

  // Applying a receipt's costs with a gap to fill: exactly when they can be charged and withhold the gap.
  lemma {:induction false} CostsTaken(s: Portfolio, r: Receipt, gap: int)
    requires CostsParse(r.body.Costs()) && CashHolds(s.cash)
    ensures ApplyCosts(s, r, gap).Ok? <==>
              CanCharge(s.cash, s.costs, r.sourceHashes, r.body.Costs()) && WithheldTotal(r.body.Costs()) == gap
  {
    hide ChargeAll;
    if DistinctCostIds(r.body.Costs()) {
      ChargeAllTaken(s, r, r.body.Costs());
    }
  }
}
