// In every history of a new portfolio, every entry of the books comes from a receipt of that history.
module Provenance {
  import opened Prelude
  import opened Ledger
  import opened Frames
  import opened Redelivery
  import opened Postings
  import Opening
  import C = Conservation

  /******* Where an entry comes from *******/

  predicate CostFrom(applied: seq<Applied>, x: RecognizedCost) {
    exists i | 0 <= i < |applied| ::
      applied[i].receipt.operationId == x.operationId && x.cost in applied[i].receipt.body.Costs()
  }

  // A reservation is as its receipt made it.
  predicate ReservationFrom(applied: seq<Applied>, id: Id, x: Reservation) {
    exists i | 0 <= i < |applied| ::
      && applied[i].receipt.operationId == x.operationId && applied[i].receipt.body.Reserve?
      && applied[i].receipt.body.reservationId == id && applied[i].receipt.body.amount == x.amount
  }

  // A receivable carries the message, the network and the amount it was burned with.
  predicate ReceivableFrom(applied: seq<Applied>, id: Id, x: Receivable) {
    exists i | 0 <= i < |applied| ::
      var b := applied[i].receipt.body;
      && b.TransferBurned? && b.transferId == id && b.messageIdentity == x.messageIdentity
      && b.destinationNetworkId == x.destinationNetworkId && b.netReceivable == x.amount
      && applied[i].receipt.observedAt == x.createdAt
  }

  predicate NamesPosition(b: Body, id: Id) { (b.Deposit? || b.Withdraw? || b.Accrue?) && b.positionId == id }

  // A position was last valued by a receipt that names it, from its source and at its time.
  predicate PositionFrom(applied: seq<Applied>, id: Id, x: Position) {
    exists i | 0 <= i < |applied| ::
      var r := applied[i].receipt;
      && NamesPosition(r.body, id) && r.observedAt == x.lastObservedAt
      && r.sourceHashes != [] && r.sourceHashes[0] == x.lastSource
  }

  predicate AllowanceFrom(applied: seq<Applied>, id: Id, x: Allowance) {
    exists i | 0 <= i < |applied| ::
      var b := applied[i].receipt.body;
      && b.Approve? && b.allowanceId == id
      && x == Allowance(b.networkId, b.assetId, b.spenderId, b.amount)
  }

  predicate ClosedBy(applied: seq<Applied>, at: Timestamp) {
    exists i | 0 <= i < |applied| :: applied[i].receipt.body.Close? && applied[i].receipt.body.closedAt == at
  }

  // Receipts were applied in the order of their times, and the last one's is the portfolio's.
  predicate InTimeOrder(applied: seq<Applied>, last: Option<Timestamp>) {
    && (forall i, j | 0 <= i < j < |applied| :: applied[i].receipt.observedAt <= applied[j].receipt.observedAt)
    && last == if applied == [] then None else Some(applied[|applied| - 1].receipt.observedAt)
  }

  predicate CostsTraced(applied: seq<Applied>, costs: map<Id, RecognizedCost>) {
    forall k | k in costs :: CostFrom(applied, costs[k])
  }

  predicate ReservationsTraced(applied: seq<Applied>, reservations: map<Id, Reservation>) {
    forall k | k in reservations :: ReservationFrom(applied, k, reservations[k])
  }

  predicate ReceivablesTraced(applied: seq<Applied>, receivables: map<Id, Receivable>) {
    forall k | k in receivables :: ReceivableFrom(applied, k, receivables[k])
  }

  predicate PositionsTraced(applied: seq<Applied>, positions: map<Id, Position>) {
    forall k | k in positions :: PositionFrom(applied, k, positions[k])
  }

  predicate AllowancesTraced(applied: seq<Applied>, allowances: map<Id, Allowance>) {
    forall k | k in allowances :: AllowanceFrom(applied, k, allowances[k])
  }

  predicate Traced(p: Portfolio) {
    && CostsTraced(p.applied, p.costs) && ReservationsTraced(p.applied, p.reservations)
    && ReceivablesTraced(p.applied, p.receivables) && PositionsTraced(p.applied, p.positions)
    && AllowancesTraced(p.applied, p.allowances) && InTimeOrder(p.applied, p.lastAppliedAt)
    && (p.closedAt.Some? ==> ClosedBy(p.applied, p.closedAt.value))
  }

  /******* One receipt more *******/

  // What an entry came from is still there after one more receipt.
  lemma {:induction false} StillFrom(applied: seq<Applied>, e: Applied)
    ensures forall x | CostFrom(applied, x) :: CostFrom(applied + [e], x)
    ensures forall k, x | ReservationFrom(applied, k, x) :: ReservationFrom(applied + [e], k, x)
    ensures forall k, x | PositionFrom(applied, k, x) :: PositionFrom(applied + [e], k, x)
    ensures forall k, x | AllowanceFrom(applied, k, x) :: AllowanceFrom(applied + [e], k, x)
    ensures forall at | ClosedBy(applied, at) :: ClosedBy(applied + [e], at)
  {
    var more := applied + [e];
    assert forall i | 0 <= i < |applied| :: more[i] == applied[i];
    forall x | CostFrom(applied, x)
      ensures CostFrom(more, x)
    {
      var i :| 0 <= i < |applied| && applied[i].receipt.operationId == x.operationId
               && x.cost in applied[i].receipt.body.Costs();
      assert more[i].receipt.operationId == x.operationId;
    }
    forall k, x | ReservationFrom(applied, k, x)
      ensures ReservationFrom(more, k, x)
    {
      var i :| 0 <= i < |applied| && applied[i].receipt.operationId == x.operationId
               && applied[i].receipt.body.Reserve? && applied[i].receipt.body.reservationId == k
               && applied[i].receipt.body.amount == x.amount;
      assert more[i].receipt.operationId == x.operationId;
    }
  }

  lemma {:induction false} ReceivableStillFrom(applied: seq<Applied>, e: Applied, id: Id, x: Receivable)
    requires ReceivableFrom(applied, id, x)
    ensures ReceivableFrom(applied + [e], id, x)
  {
    var more := applied + [e];
    assert forall i | 0 <= i < |applied| :: more[i] == applied[i];
  }

  // A receivable that only moved is still the one that was burned.
  lemma {:induction false} MovedStillFrom(applied: seq<Applied>, id: Id, x: Receivable, b: Body, at: Timestamp,
      maxAttempts: int)
    requires ReceivableFrom(applied, id, x) && b.MovesReceivable()
    requires NextReceivable(x, b, at, maxAttempts).Ok? && NextReceivable(x, b, at, maxAttempts).value.Some?
    ensures ReceivableFrom(applied, id, NextReceivable(x, b, at, maxAttempts).value.value)
  {
  }

  lemma {:induction false} CostsStay(p: Portfolio, r: Receipt, q: Portfolio)
    requires CostsTraced(p.applied, p.costs) && PayablesPosted(p, r, q)
    requires q.applied == p.applied + [Applied(r, p.version + 1)]
    ensures CostsTraced(q.applied, q.costs)
  {
    StillFrom(p.applied, Applied(r, p.version + 1));
    hide CostFrom;
    if !r.body.PayableSettled? {
      var costs := r.body.Costs();
      forall k | k in q.costs
        ensures CostFrom(q.applied, q.costs[k])
      {
        if k !in p.costs {
          var i :| 0 <= i < |costs| && costs[i].costId == k;
          CarriedCost(q.applied, r, i);
        }
      }
    }
  }

  lemma CarriedCost(applied: seq<Applied>, r: Receipt, i: nat)
    requires applied != [] && applied[|applied| - 1].receipt == r && i < |r.body.Costs()|
    ensures CostFrom(applied, RecognizedCost(r.body.Costs()[i], r.operationId))
  {
  }

  lemma {:induction false} ReservationsStay(p: Portfolio, r: Receipt, q: Portfolio)
    requires ReservationsTraced(p.applied, p.reservations) && ReservationPosted(p, r, q.reservations)
    requires q.applied == p.applied + [Applied(r, p.version + 1)]
    ensures ReservationsTraced(q.applied, q.reservations)
  {
    StillFrom(p.applied, Applied(r, p.version + 1));
    if r.body.Reserve? {
      assert q.applied[|p.applied|].receipt == r;
      assert ReservationFrom(q.applied, r.body.reservationId, q.reservations[r.body.reservationId]);
    }
    hide ReservationFrom;
  }

  lemma {:induction false} ReceivablesStay(p: Portfolio, r: Receipt, q: Portfolio)
    requires ReceivablesTraced(p.applied, p.receivables) && ReceivablePosted(p, r, q.receivables)
    requires q.applied == p.applied + [Applied(r, p.version + 1)]
    ensures ReceivablesTraced(q.applied, q.receivables)
  {
    var b := r.body;
    if b.TransferBurned? {
      assert q.applied[|p.applied|].receipt == r;
      assert ReceivableFrom(q.applied, b.transferId, q.receivables[b.transferId]);
    } else if b.MovesReceivable() {
      var x := p.receivables[b.transferId];
      if NextReceivable(x, b, r.observedAt, p.maxDestinationAttempts).value.Some? {
        MovedStillFrom(p.applied, b.transferId, x, b, r.observedAt, p.maxDestinationAttempts);
      }
    }
    hide ReceivableFrom, NextReceivable;
    forall k | k in q.receivables
      ensures ReceivableFrom(q.applied, k, q.receivables[k])
    {
      if !(b.TransferBurned? && k == b.transferId) {
        ReceivableStillFrom(p.applied, Applied(r, p.version + 1), k, q.receivables[k]);
      }
    }
  }

  lemma {:induction false} PositionsStay(p: Portfolio, r: Receipt, q: Portfolio)
    requires r.sourceHashes != []
    requires PositionsTraced(p.applied, p.positions) && PositionPosted(p, r, q.positions)
    requires q.applied == p.applied + [Applied(r, p.version + 1)]
    ensures PositionsTraced(q.applied, q.positions)
  {
    StillFrom(p.applied, Applied(r, p.version + 1));
    assert q.applied[|p.applied|].receipt == r;
    assert forall k, x: Position | NamesPosition(r.body, k) && x.lastObservedAt == r.observedAt
                         && x.lastSource == r.sourceHashes[0] :: PositionFrom(q.applied, k, x);
    hide PositionFrom;
  }

  lemma {:induction false} AllowancesStay(p: Portfolio, r: Receipt, q: Portfolio)
    requires AllowancesTraced(p.applied, p.allowances) && AllowancePosted(p, r.body, q.allowances)
    requires q.applied == p.applied + [Applied(r, p.version + 1)]
    ensures AllowancesTraced(q.applied, q.allowances)
  {
    StillFrom(p.applied, Applied(r, p.version + 1));
    if r.body.Approve? {
      assert q.applied[|p.applied|].receipt == r;
      assert AllowanceFrom(q.applied, r.body.allowanceId, q.allowances[r.body.allowanceId]);
    }
    hide AllowanceFrom;
  }

  lemma {:induction false} TimesStay(p: Portfolio, r: Receipt, q: Portfolio)
    requires InTimeOrder(p.applied, p.lastAppliedAt) && HeaderPosted(p, r, q)
    requires p.lastAppliedAt.Some? ==> p.lastAppliedAt.value <= r.observedAt
    ensures InTimeOrder(q.applied, q.lastAppliedAt)
  {
    var n := |p.applied|;
    assert q.applied[n].receipt == r;
    assert forall i | 0 <= i < n :: q.applied[i] == p.applied[i];
    if n > 0 {
      assert forall i | 0 <= i < n :: p.applied[i].receipt.observedAt <= p.applied[n - 1].receipt.observedAt;
    }
  }

  lemma {:induction false} ClosingStays(p: Portfolio, r: Receipt, q: Portfolio)
    requires p.closedAt.Some? ==> ClosedBy(p.applied, p.closedAt.value)
    requires ClosingPosted(p, r, q) && (r.body.Close? ==> r.body.closedAt == r.observedAt)
    requires q.applied == p.applied + [Applied(r, p.version + 1)]
    ensures q.closedAt.Some? ==> ClosedBy(q.applied, q.closedAt.value)
  {
    StillFrom(p.applied, Applied(r, p.version + 1));
    assert q.applied[|p.applied|].receipt == r;
  }

  lemma {:induction false} ReceiptInTime(p: Portfolio, r: Receipt, q: Portfolio)
    requires ApplyReceipt(p, r) == Ok(q) && !InHistory(p, r)
    ensures p.lastAppliedAt.Some? ==> p.lastAppliedAt.value <= r.observedAt
    ensures r.body.Close? ==> r.body.closedAt == r.observedAt
  {
    hide Valid, ReceiptParses;
  }

  lemma {:induction false} StepKeepsTraces(p: Portfolio, r: Receipt, q: Portfolio)
    requires Traced(p) && ApplyReceipt(p, r) == Ok(q)
    ensures Traced(q)
  {
    hide ApplyReceipt, CostsTraced, ReservationsTraced, ReceivablesTraced, PositionsTraced, AllowancesTraced;
    hide InTimeOrder, ClosedBy, PayablesPosted, PositionPosted, ReservationPosted, ReceivablePosted, AllowancePosted;
    StepShape(p, r, q);
    if !InHistory(p, r) {
      EveryEntryIsPosted(p, r, q);
      ReceiptInTime(p, r, q);
      CostsStay(p, r, q);
      ReservationsStay(p, r, q);
      ReceivablesStay(p, r, q);
      PositionsStay(p, r, q);
      AllowancesStay(p, r, q);
      TimesStay(p, r, q);
      ClosingStays(p, r, q);
    }
  }

  lemma {:induction false} RunKeepsTraces(p: Portfolio, rs: seq<Receipt>, q: Portfolio)
    requires Traced(p) && Replay(p, rs) == Ok(q)
    ensures Traced(q) && Valid(q)
  {
    hide ApplyReceipt, Valid, Traced;
    if rs != [] {
      var n := |rs| - 1;
      var m := Replay(p, rs[..n]).value;
      RunKeepsTraces(p, rs[..n], m);
      StepKeepsTraces(m, rs[n], q);
      StepKeepsHistory(m, rs[n], q);
    }
  }

  // From a new portfolio on: every recognised cost was carried by the receipt it names, every reservation made and
  // every receivable burned by a receipt of the history as it stands, every position valued and every allowance set by
  // one that names it, the closing time that of a closing receipt, and the receipts stand in the order of their times.
  lemma {:induction false} EveryEntryComesFromAReceipt(input: Opening.Input, rs: seq<Receipt>, q: Portfolio)
    requires Opening.CreateOf(input).Ok? && Replay(Opening.CreateOf(input).value, rs) == Ok(q)
    ensures Traced(q)
    ensures (forall i | 0 <= i < |q.applied| :: q.applied[i].receipt in rs && q.applied[i].versionApplied == i + 1)
    ensures forall r | r in rs :: InHistory(q, r)
  {
    hide Valid, Traced, Replay, ApplyReceipt, Once;
    var p := Opening.CreateOf(input).value;
    NothingToTrace(input);
    RunKeepsTraces(p, rs, q);
    FirstDeliveriesAreConsecutive(p, rs, q);
    OnceMembers(p, rs);
    NumberedFromOne(q);
    forall i | 0 <= i < |q.applied|
      ensures q.applied[i].receipt in rs
    {
      assert InHistory(q, q.applied[i].receipt) && !InHistory(p, q.applied[i].receipt);
    }
  }

  lemma NumberedFromOne(q: Portfolio)
    requires Valid(q)
    ensures forall i | 0 <= i < |q.applied| :: q.applied[i].versionApplied == i + 1
  {
  }

  lemma {:induction false} NothingToTrace(input: Opening.Input)
    requires Opening.CreateOf(input).Ok?
    ensures Traced(Opening.CreateOf(input).value) && Opening.CreateOf(input).value.applied == []
  {
    hide Valid, Opening.Funded;
  }

  /******* What every run keeps *******/

  // In figures: the value is the initial one and modelled PnL less all costs, and what is held pays what is owed.
  ghost predicate AddsUp(q: Portfolio) {
    && NetValue(q) == q.initialValue + q.pnl - CostTotal(q)
    && 0 <= NetValue(q)
    && NetValue(q) == Sum(q.cash, CashAmount) + Sum(q.reservations, ReservedAmount) + Sum(q.positions, PositionBook)
                      + Sum(q.receivables, ReceivableAmount) - Sum(q.payables, PayableAmount)
  }

  // A payable is a cost still owed, and no cash balance is negative.
  predicate PayablesAreCosts(q: Portfolio) {
    && (forall k | k in q.payables ::
          k in q.costs && q.costs[k].cost.funding.OnPayable? && q.costs[k].cost.amount == q.payables[k].amount)
    && (forall f | f in q.cash :: 0 <= q.cash[f].amount)
  }

  // Capital in flight crosses networks, under one message each, within the attempts allowed.
  predicate FlightsHold(q: Portfolio) {
    && (forall k | k in q.receivables ::
          var x := q.receivables[k];
          && 0 < x.amount && x.sourceNetworkId != x.destinationNetworkId
          && 0 <= x.attempts <= q.maxDestinationAttempts && x.createdAt <= x.updatedAt
          && x.destinationFamilyId in q.cash && q.cash[x.destinationFamilyId].networkId == x.destinationNetworkId
          && (q.lastAppliedAt.Some? ==> x.updatedAt <= q.lastAppliedAt.value))
    && (forall j, k | j in q.receivables && k in q.receivables && j != k ::
          q.receivables[j].messageIdentity != q.receivables[k].messageIdentity)
  }

  // Positions are open, worth the floor of their shares at their index, and last seen no later than the last receipt.
  predicate PositionsAreWorth(q: Portfolio) {
    forall k | k in q.positions ::
      var x := q.positions[k];
      && 0 < x.shares && 0 < x.indexDen && 0 <= x.book
      && x.book == x.shares * x.indexNum / x.indexDen && x.remainder == x.shares * x.indexNum % x.indexDen
      && (q.lastAppliedAt.Some? ==> x.lastObservedAt <= q.lastAppliedAt.value)
  }

  // Views of one family are one asset on one network, at one scale, and that is what the family's cash is.
  predicate ViewsAgree(q: Portfolio) {
    forall v | v in q.views ::
      && q.views[v].familyId in q.cash
      && q.cash[q.views[v].familyId].networkId == q.views[v].networkId
      && q.cash[q.views[v].familyId].assetId == q.views[v].assetId
      && forall w | w in q.views && q.views[w].familyId == q.views[v].familyId ::
           q.views[w].canonicalDecimals == q.views[v].canonicalDecimals
  }

  predicate ClosedInTime(q: Portfolio) {
    && (q.closedAt.Some? <==> q.deadlineState.Some?)
    && (q.closedAt.Some? && q.lastAppliedAt.Some? ==> q.closedAt.value <= q.lastAppliedAt.value)
  }

  // From a new portfolio on, every accepted stream keeps all of this.
  lemma {:induction false} EveryRunIsSound(input: Opening.Input, rs: seq<Receipt>, q: Portfolio)
    requires Opening.CreateOf(input).Ok? && Replay(Opening.CreateOf(input).value, rs) == Ok(q)
    ensures q.initialValue == input.initialValue
    ensures AddsUp(q) && PayablesAreCosts(q) && FlightsHold(q) && PositionsAreWorth(q) && ViewsAgree(q)
            && ClosedInTime(q)
  {
    hide Replay, AddsUp, PayablesAreCosts, FlightsHold, PositionsAreWorth, ViewsAgree, ClosedInTime;
    hide Valid;
    RunGrowsHistory(Opening.CreateOf(input).value, rs, q);
    C.OnlyAccrualsRaiseNetValue(Opening.CreateOf(input).value, rs, q);
    SoundFigures(q);
    SoundEntries(q);
    SoundViews(q);
  }

  lemma {:induction false} SoundFigures(q: Portfolio)
    requires Valid(q)
    ensures AddsUp(q)
  {
    hide Structured, Sum;
  }

  lemma {:induction false} SoundEntries(q: Portfolio)
    requires Valid(q)
    ensures PayablesAreCosts(q) && FlightsHold(q) && PositionsAreWorth(q) && ClosedInTime(q)
  {
    hide Gross, Liabilities, Imbalance, HistoryHolds, ReceiptParses, HasOperation, HasAsset, HasFamily;
  }

  lemma {:induction false} SoundViews(q: Portfolio)
    requires Valid(q)
    ensures ViewsAgree(q)
  {
    hide Gross, Liabilities, Imbalance, HistoryHolds, ReceiptParses, HasOperation, HasAsset, HasFamily;
    hide ReceivablesHold, PositionsHold, PayablesHold, CostsHold, ReservationsHold, AllowancesHold;
    forall v, w | v in q.views && w in q.views
      ensures Aliases(q.views[v], q.views[w])
    {
    }
  }
}
