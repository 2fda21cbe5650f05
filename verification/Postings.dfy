// What an accepted receipt does to every cash family, cost, payable and position, read off the receipt and the books
// before it.
module Postings {
  import opened Prelude
  import opened Ledger
  import opened Conservation
  import opened Frames
  import opened Redelivery
  import opened Lifetimes
  import opened Affordable
  import opened Closing

  /******* Cash, family by family *******/

  // The amount, when the view is of this family.
  function Into(p: Portfolio, viewId: Id, family: Id, amount: int): int {
    if viewId in p.views && p.views[viewId].familyId == family then amount else 0
  }

  // What a receipt moves into one family, its costs aside.
  function CashMove(p: Portfolio, b: Body, family: Id): int {
    match b
    case Reserve(_, viewId, amount, _) => -Into(p, viewId, family, amount)
    case Deposit(viewId, _, _, _, _, _, input, _) => -Into(p, viewId, family, input)
    case Withdraw(viewId, _, _, credit, _) => Into(p, viewId, family, credit)
    case Swap(source, destination, debit, credit, _) =>
      Into(p, destination, family, credit) - Into(p, source, family, debit)
    case PayableSettled(id, viewId) =>
      if id in p.payables then -Into(p, viewId, family, p.payables[id].amount) else 0
    case TransferSourceFailed(id, costs) =>
      if id in p.reservations && p.reservations[id].familyId == family
      then p.reservations[id].amount - WithheldTotal(costs) else 0
    case TransferSettled(id, credit, _) =>
      if id in p.receivables && p.receivables[id].destinationFamilyId == family then credit else 0
    case _ => 0
  }

  predicate CashMoved(p: Portfolio, b: Body, cash: map<Id, Cash>) {
    && cash.Keys == p.cash.Keys
    && forall f | f in p.cash :: cash[f] == p.cash[f].(amount := p.cash[f].amount + CashMove(p, b, f))
  }

  // Each family holds what it held, moved as the receipt says, less what the costs take from it.
  predicate CashPosted(p: Portfolio, b: Body, q: Portfolio) {
    && q.cash.Keys == p.cash.Keys
    && forall f | f in p.cash ::
         q.cash[f] == p.cash[f].(amount := p.cash[f].amount + CashMove(p, b, f) - TakenFrom(b.Costs(), f))
  }

  /******* Positions *******/

  // A position of these shares at this index: its book is the floor of shares * num / den.
  function Valued(x: Position, shares: int, num: int, den: int, r: Receipt): Position
    requires 0 < den && r.sourceHashes != []
  {
    Position(x.networkId, x.instrumentId, x.assetId, shares, num, den, shares * num / den, shares * num % den,
             r.sourceHashes[0], r.observedAt)
  }

  // The position a receipt names, valued from the receipt's own source and time; every other one as it was.
  predicate PositionPosted(p: Portfolio, r: Receipt, positions: map<Id, Position>)
    requires r.sourceHashes != []
  {
    match r.body
    case Deposit(viewId, id, instrumentId, shares, num, den, _, _) =>
      && 0 < den && viewId in p.views
      && var known := id in p.positions;
      && var start := Position(p.views[viewId].networkId, instrumentId, p.views[viewId].assetId, 0, num, den, 0, 0,
                               r.sourceHashes[0], r.observedAt);
      && var held := if known then p.positions[id].shares else 0;
      && positions == p.positions[id := Valued(start, held + shares, num, den, r)]
      && (known ==> Valued(start, held, num, den, r) == Valued(p.positions[id], held, num, den, r)
                    && p.positions[id].indexNum == num && p.positions[id].indexDen == den)
    case Withdraw(viewId, id, shares, _, _) =>
      && id in p.positions && viewId in p.views
      && var x := p.positions[id];
      && 0 < x.indexDen && shares <= x.shares
      && x.networkId == p.views[viewId].networkId && x.assetId == p.views[viewId].assetId
      && positions == if shares == x.shares then p.positions - {id}
                      else p.positions[id := Valued(x, x.shares - shares, x.indexNum, x.indexDen, r)]
    case Accrue(id, num, den, _) =>
      && id in p.positions && 0 < den && p.positions[id].lastObservedAt < r.observedAt
      && positions == p.positions[id := Valued(p.positions[id], p.positions[id].shares, num, den, r)]
    case _ => positions == p.positions
  }

  /******* Costs and payables *******/

  predicate Owes(costs: seq<Cost>, id: Id) {
    exists i | 0 <= i < |costs| :: costs[i].costId == id && costs[i].funding.OnPayable?
  }

  // Every cost is recognised under its id and operation, and the ones on a payable are owed on their network.
  ghost predicate CostsPosted(s: Portfolio, r: Receipt, costs: seq<Cost>, t: Portfolio) {
    && t.costs.Keys == s.costs.Keys + IdsOf(costs)
    && (forall k | k in s.costs :: t.costs[k] == s.costs[k])
    && (forall i | 0 <= i < |costs| ::
          costs[i].costId !in s.costs && costs[i].costId in t.costs
          && t.costs[costs[i].costId] == RecognizedCost(costs[i], r.operationId))
    && (forall k :: k in t.payables <==> k in s.payables || Owes(costs, k))
    && (forall k | k in s.payables && k in s.costs :: k in t.payables && t.payables[k] == s.payables[k])
    && (forall i | 0 <= i < |costs| && costs[i].funding.OnPayable? ::
          costs[i].costId in t.payables
          && t.payables[costs[i].costId] == FeePayable(costs[i].networkId, costs[i].amount))
  }

  /******* The other entries *******/

  // A reservation is made from the receipt's view, or taken whole.
  predicate ReservationPosted(p: Portfolio, r: Receipt, reservations: map<Id, Reservation>) {
    match r.body
    case Reserve(id, viewId, amount, _) =>
      && id !in p.reservations && viewId in p.views
      && var view := p.views[viewId];
      reservations == p.reservations[id :=
        Reservation(r.operationId, view.familyId, view.networkId, view.assetId, amount)]
    case TransferSourceFailed(id, _) => id in p.reservations && reservations == p.reservations - {id}
    case TransferBurned(id, _, _, _, _, _, _) => id in p.reservations && reservations == p.reservations - {id}
    case _ => reservations == p.reservations
  }

  // A receivable is opened in transit by a burn and then follows its state machine until settlement removes it.
  predicate ReceivablePosted(p: Portfolio, r: Receipt, receivables: map<Id, Receivable>) {
    var b := r.body;
    if b.TransferBurned? then
      && b.transferId !in p.receivables && b.reservationId in p.reservations && b.destinationViewId in p.views
      && receivables == p.receivables[b.transferId :=
           Receivable(b.messageIdentity, p.reservations[b.reservationId].networkId, b.destinationNetworkId,
                      p.views[b.destinationViewId].familyId, b.netReceivable, InTransit, 0, r.observedAt, r.observedAt)]
    else if b.MovesReceivable() then
      && b.transferId in p.receivables
      && var next := NextReceivable(p.receivables[b.transferId], b, r.observedAt, p.maxDestinationAttempts);
      && next.Ok?
      && receivables == if next.value.Some? then p.receivables[b.transferId := next.value.value]
                        else p.receivables - {b.transferId}
    else receivables == p.receivables
  }

  ghost predicate PayablesPosted(p: Portfolio, r: Receipt, q: Portfolio) {
    if r.body.PayableSettled? then
      q.costs == p.costs && r.body.payableId in p.payables && q.payables == p.payables - {r.body.payableId}
    else CostsPosted(p, r, r.body.Costs(), q)
  }

  predicate AllowancePosted(p: Portfolio, b: Body, allowances: map<Id, Allowance>) {
    allowances ==
    if b.Approve? then p.allowances[b.allowanceId := Allowance(b.networkId, b.assetId, b.spenderId, b.amount)]
    else p.allowances
  }

  // Closing records its own time and the state it closed over.
  predicate ClosingPosted(p: Portfolio, r: Receipt, q: Portfolio) {
    && q.closedAt == (if r.body.Close? then Some(r.observedAt) else p.closedAt)
    && q.deadlineState == (if r.body.Close? then Some(p) else p.deadlineState)
  }

  predicate HeaderPosted(p: Portfolio, r: Receipt, q: Portfolio) {
    && q.experimentId == p.experimentId && q.scenarioId == p.scenarioId && q.portfolioId == p.portfolioId
    && q.provenance == p.provenance && q.initialValue == p.initialValue && q.views == p.views
    && q.maxDestinationAttempts == p.maxDestinationAttempts
    && q.version == p.version + 1 && q.lastAppliedAt == Some(r.observedAt)
    && q.applied == p.applied + [Applied(r, p.version + 1)]
  }

  ghost predicate MoneyPosted(p: Portfolio, r: Receipt, s: Portfolio) {
    CashPosted(p, r.body, s) && PayablesPosted(p, r, s)
  }

  predicate EntriesPosted(p: Portfolio, r: Receipt, s: Portfolio)
    requires r.sourceHashes != []
  {
    && PositionPosted(p, r, s.positions)
    && ReservationPosted(p, r, s.reservations) && ReceivablePosted(p, r, s.receivables)
    && AllowancePosted(p, r.body, s.allowances) && ClosingPosted(p, r, s)
  }

  /******* Charging *******/

  lemma {:induction false} OwesMore(init: seq<Cost>, last: Cost, id: Id)
    ensures Owes(init + [last], id) <==> Owes(init, id) || (last.costId == id && last.funding.OnPayable?)
  {
    var costs := init + [last];
    assert costs[|init|] == last;
    if Owes(init, id) {
      var i :| 0 <= i < |init| && init[i].costId == id && init[i].funding.OnPayable?;
      assert costs[i] == init[i];
    }
  }

  lemma {:induction false} OneMorePosted(s: Portfolio, r: Receipt, init: seq<Cost>, m: Portfolio, last: Cost,
      t: Portfolio)
    requires CostsPosted(s, r, init, m) && ChargeOne(m, r, last) == Ok(t)
    ensures CostsPosted(s, r, init + [last], t)
  {
    hide IdsOf, Owes;
    var costs := init + [last];
    FundCostAdds(m, last, FundCost(m, last).value);
    hide FundCost;
    OneMoreId(init, last);
    forall k
      ensures Owes(costs, k) <==> Owes(init, k) || (last.costId == k && last.funding.OnPayable?)
    {
      OwesMore(init, last, k);
    }
    forall i | 0 <= i < |costs|
      ensures costs[i] == if i < |init| then init[i] else last
    {
    }
  }

  lemma {:induction false} NothingPosted(s: Portfolio, r: Receipt)
    ensures CostsPosted(s, r, [], s) && CashAfter(s.cash, [], s.cash)
  {
    assert IdsOf([]) == {};
  }

  lemma {:induction false} CashAfterOneMore(s: Portfolio, r: Receipt, init: seq<Cost>, m: Portfolio, last: Cost,
      t: Portfolio)
    requires CashAfter(s.cash, init, m.cash) && ChargeOne(m, r, last) == Ok(t)
    ensures CashAfter(s.cash, init + [last], t.cash)
  {
    hide CashAfter, TakenFrom;
    match last.funding
    case AvailableCash => CashAfterDebit(s.cash, init, m.cash, last);
    case OnPayable => CashAfterOther(s.cash, init, m.cash, last);
    case Withheld => CashAfterOther(s.cash, init, m.cash, last);
  }

  lemma {:induction false} ChargeAllPosts(s: Portfolio, r: Receipt, costs: seq<Cost>, t: Portfolio)
    requires ChargeAll(s, r, costs) == Ok(t)
    ensures CostsPosted(s, r, costs, t) && CashAfter(s.cash, costs, t.cash)
  {
    hide CostsPosted, CashAfter, ChargeOne;
    if costs == [] {
      NothingPosted(s, r);
    } else {
      var init, last := costs[..|costs| - 1], costs[|costs| - 1];
      var m := ChargeAll(s, r, init).value;
      ChargeAllPosts(s, r, init, m);
      OneMorePosted(s, r, init, m, last, t);
      CashAfterOneMore(s, r, init, m, last, t);
      assert costs == init + [last];
    }
  }

  // A branch that moves cash as the receipt says and then applies the costs.
  lemma {:induction false} MovedThenCharged(s: Portfolio, r: Receipt, u: Portfolio, gap: int, t: Portfolio)
    requires ApplyCosts(u, r, gap) == Ok(t) && CashMoved(s, r.body, u.cash)
    requires u.costs == s.costs && u.payables == s.payables
    ensures CashPosted(s, r.body, t) && CostsPosted(s, r, r.body.Costs(), t) && OnlyCostsMoved(u, t)
  {
    hide ChargeAll, CostsPosted, CashMove;
    ChargeAllPosts(u, r, r.body.Costs(), t);
    SameBooksPosted(u, s, r, r.body.Costs(), t);
    ApplyCostsAdds(u, r, gap, t);
  }

  lemma {:induction false} SameBooksAfter(s: Portfolio, r: Receipt, u: Portfolio, t: Portfolio)
    requires CashPosted(s, r.body, u) && CostsPosted(s, r, r.body.Costs(), u)
    requires t.cash == u.cash && t.costs == u.costs && t.payables == u.payables
    ensures CashPosted(s, r.body, t) && CostsPosted(s, r, r.body.Costs(), t)
  {
    hide CashMove, TakenFrom, IdsOf, Owes;
  }

  lemma SameBooksPosted(u: Portfolio, s: Portfolio, r: Receipt, costs: seq<Cost>, t: Portfolio)
    requires CostsPosted(u, r, costs, t) && u.costs == s.costs && u.payables == s.payables
    ensures CostsPosted(s, r, costs, t)
  {
  }

  /******* Money, branch by branch *******/

  // The receipt moves this amount into this one family.
  predicate MovesOnly(s: Portfolio, b: Body, family: Id, amount: int) {
    forall f | f in s.cash :: CashMove(s, b, f) == if f == family then amount else 0
  }

  predicate MovesNothing(s: Portfolio, b: Body) {
    forall f | f in s.cash :: CashMove(s, b, f) == 0
  }

  lemma {:induction false} DebitMoves(s: Portfolio, b: Body, family: Id, amount: int, t: Portfolio)
    requires DebitCash(s, family, amount) == Ok(t) && MovesOnly(s, b, family, -amount)
    ensures t == s.(cash := t.cash) && CashMoved(s, b, t.cash)
  {
    hide CashMove;
  }

  lemma {:induction false} CreditMoves(s: Portfolio, u: Portfolio, b: Body, family: Id, amount: int, t: Portfolio)
    requires CreditCash(u, family, amount) == Ok(t) && u.cash == s.cash && MovesOnly(s, b, family, amount)
    ensures t == u.(cash := t.cash) && CashMoved(s, b, t.cash)
  {
    hide CashMove;
  }

  lemma {:induction false} NothingMoves(s: Portfolio, b: Body)
    requires MovesNothing(s, b)
    ensures CashMoved(s, b, s.cash)
  {
    hide CashMove;
  }

  lemma {:induction false} SwapMoves(s: Portfolio, b: Body, debited: Portfolio, t: Portfolio)
    requires b.Swap? && b.sourceViewId in s.views && b.destinationViewId in s.views
    requires DebitCash(s, s.views[b.sourceViewId].familyId, b.sourceDebit) == Ok(debited)
    requires CreditCash(debited, s.views[b.destinationViewId].familyId, b.destinationCredit) == Ok(t)
    ensures t == s.(cash := t.cash) && CashMoved(s, b, t.cash)
  {
  }

  // A branch without costs, and one without any money.
  lemma {:induction false} MovedUncharged(s: Portfolio, r: Receipt, t: Portfolio)
    requires CashMoved(s, r.body, t.cash) && r.body.Costs() == []
    ensures CashPosted(s, r.body, t)
    ensures t.costs == s.costs && t.payables == s.payables ==> CostsPosted(s, r, [], t)
  {
    hide CashMove;
    assert IdsOf([]) == {};
  }

  // The state a deposit's costs are applied to: cash debited, the position revalued, the rest of the input a gap.
  lemma {:induction false} DepositBooks(s: Portfolio, r: Receipt, t: Portfolio)
      returns (debited: Portfolio, u: Portfolio, gap: int)
    requires r.body.Deposit? && ReceiptParses(r) && DepositEffect(s, r) == Ok(t)
    ensures r.body.cashViewId in s.views && 0 < r.body.indexDen
    ensures DebitCash(s, s.views[r.body.cashViewId].familyId, r.body.input) == Ok(debited)
    ensures u == debited.(positions := u.positions) && ApplyCosts(u, r, gap) == Ok(t)
    ensures PositionPosted(s, r, u.positions)
  {
    var b := r.body;
    var view := s.views[b.cashViewId];
    debited := DebitCash(s, view.familyId, b.input).value;
    var start := if b.positionId in s.positions then s.positions[b.positionId]
                 else Position(view.networkId, b.instrumentId, view.assetId, 0, b.indexNum, b.indexDen, 0, 0,
                               r.sourceHashes[0], r.observedAt);
    var x := Revalue(start, start.shares + b.sharesCredit, b.indexNum, b.indexDen, r.sourceHashes[0], r.observedAt);
    gap := b.input - (x.book - start.book);
    u := debited.(positions := s.positions[b.positionId := x]);
    hide ApplyCosts, DebitCash;
  }

  lemma {:induction false} WithdrawBooks(s: Portfolio, r: Receipt, t: Portfolio)
      returns (u: Portfolio, credited: Portfolio, gap: int)
    requires r.body.Withdraw? && ReceiptParses(r) && IndexesPositive(s.positions) && WithdrawEffect(s, r) == Ok(t)
    ensures r.body.cashViewId in s.views && u == s.(positions := u.positions)
    ensures CreditCash(u, s.views[r.body.cashViewId].familyId, r.body.cashCredit) == Ok(credited)
    ensures ApplyCosts(credited, r, gap) == Ok(t)
    ensures PositionPosted(s, r, u.positions)
  {
    var b := r.body;
    var x := s.positions[b.positionId];
    var left := x.shares - b.sharesDebit;
    var next := Revalue(x, left, x.indexNum, x.indexDen, r.sourceHashes[0], r.observedAt);
    u := s.(positions := if left == 0 then s.positions - {b.positionId} else s.positions[b.positionId := next]);
    credited := CreditCash(u, s.views[b.cashViewId].familyId, b.cashCredit).value;
    gap := x.book - (if left == 0 then 0 else next.book) - b.cashCredit;
    hide ApplyCosts, CreditCash;
  }

  lemma {:induction false} ReserveMoney(s: Portfolio, r: Receipt, t: Portfolio)
    requires r.body.Reserve? && ReserveEffect(s, r) == Ok(t)
    ensures MoneyPosted(s, r, t)
  {
    var from := s.views[r.body.cashViewId].familyId;
    assert MovesOnly(s, r.body, from, -r.body.amount);
    hide CashMove, CashMoved, CashPosted, CostsPosted, MovesOnly;
    DebitMoves(s, r.body, from, r.body.amount, DebitCash(s, from, r.body.amount).value);
    hide DebitCash;
    MovedUncharged(s, r, t);
  }

  lemma {:induction false} ApproveMoney(s: Portfolio, r: Receipt, t: Portfolio)
    requires r.body.Approve? && ApproveEffect(s, r) == Ok(t)
    ensures MoneyPosted(s, r, t)
  {
    assert MovesNothing(s, r.body);
    hide CashMove, CashMoved, CashPosted, CostsPosted, MovesNothing, ApplyCosts;
    NothingMoves(s, r.body);
    if r.body.allowanceId in s.allowances && s.allowances[r.body.allowanceId].amount >= r.body.amount {
      MovedUncharged(s, r, t);
    } else {
      var charged := ApplyCosts(s, r, 0).value;
      MovedThenCharged(s, r, s, 0, charged);
      SameBooksAfter(s, r, charged, t);
    }
  }

  lemma {:induction false} DepositMoney(s: Portfolio, r: Receipt, t: Portfolio)
    requires r.body.Deposit? && ReceiptParses(r) && DepositEffect(s, r) == Ok(t)
    ensures MoneyPosted(s, r, t)
  {
    var debited, u, gap := DepositBooks(s, r, t);
    assert MovesOnly(s, r.body, s.views[r.body.cashViewId].familyId, -r.body.input);
    hide CashMove, CashMoved, CashPosted, CostsPosted, MovesOnly, ApplyCosts, DepositEffect;
    DebitMoves(s, r.body, s.views[r.body.cashViewId].familyId, r.body.input, debited);
    hide DebitCash;
    MovedThenCharged(s, r, u, gap, t);
  }

  lemma {:induction false} WithdrawMoney(s: Portfolio, r: Receipt, t: Portfolio)
    requires r.body.Withdraw? && ReceiptParses(r) && IndexesPositive(s.positions) && WithdrawEffect(s, r) == Ok(t)
    ensures MoneyPosted(s, r, t)
  {
    var u, credited, gap := WithdrawBooks(s, r, t);
    assert MovesOnly(s, r.body, s.views[r.body.cashViewId].familyId, r.body.cashCredit);
    hide CashMove, CashMoved, CashPosted, CostsPosted, MovesOnly, ApplyCosts, WithdrawEffect;
    CreditMoves(s, u, r.body, s.views[r.body.cashViewId].familyId, r.body.cashCredit, credited);
    hide CreditCash;
    MovedThenCharged(s, r, credited, gap, t);
  }

  lemma {:induction false} SwapMoney(s: Portfolio, r: Receipt, t: Portfolio)
    requires r.body.Swap? && SwapEffect(s, r) == Ok(t)
    ensures MoneyPosted(s, r, t)
  {
    var b := r.body;
    var source, destination := s.views[b.sourceViewId].familyId, s.views[b.destinationViewId].familyId;
    var debited := DebitCash(s, source, b.sourceDebit).value;
    var credited := CreditCash(debited, destination, b.destinationCredit).value;
    hide CashMove, CashMoved, CashPosted, CostsPosted, ApplyCosts;
    SwapMoves(s, b, debited, credited);
    hide DebitCash, CreditCash;
    MovedThenCharged(s, r, credited, b.sourceDebit - b.destinationCredit, t);
  }

  lemma {:induction false} PayableSettledMoney(s: Portfolio, r: Receipt, t: Portfolio)
    requires r.body.PayableSettled? && PayableSettledEffect(s, r) == Ok(t)
    ensures MoneyPosted(s, r, t)
  {
    var from, amount := s.views[r.body.cashViewId].familyId, s.payables[r.body.payableId].amount;
    assert MovesOnly(s, r.body, from, -amount);
    hide CashMove, CashMoved, CashPosted, CostsPosted, MovesOnly;
    DebitMoves(s, r.body, from, amount, DebitCash(s, from, amount).value);
    hide DebitCash;
    MovedUncharged(s, r, t);
  }

  lemma {:induction false} SourceFailedMoney(s: Portfolio, r: Receipt, t: Portfolio)
    requires r.body.TransferSourceFailed? && SourceFailedEffect(s, r) == Ok(t)
    ensures MoneyPosted(s, r, t)
  {
    var id := r.body.reservationId;
    var x, withheld := s.reservations[id], WithheldTotal(r.body.costs);
    var released := s.(reservations := s.reservations - {id});
    var credited := CreditCash(released, x.familyId, x.amount - withheld).value;
    assert MovesOnly(s, r.body, x.familyId, x.amount - withheld);
    hide CashMove, CashMoved, CashPosted, CostsPosted, MovesOnly, ApplyCosts, WithheldTotal;
    CreditMoves(s, released, r.body, x.familyId, x.amount - withheld, credited);
    hide CreditCash;
    MovedThenCharged(s, r, credited, withheld, t);
  }

  lemma {:induction false} BurnMoney(s: Portfolio, r: Receipt, t: Portfolio)
    requires r.body.TransferBurned? && BurnedEffect(s, r) == Ok(t)
    ensures MoneyPosted(s, r, t)
  {
    assert MovesNothing(s, r.body);
    hide CashMove, CashMoved, CashPosted, CostsPosted, MovesNothing, ApplyCosts;
    NothingMoves(s, r.body);
    var b, x := r.body, s.reservations[r.body.reservationId];
    var receivable := Receivable(b.messageIdentity, x.networkId, b.destinationNetworkId,
                                 s.views[b.destinationViewId].familyId, b.netReceivable, InTransit, 0,
                                 r.observedAt, r.observedAt);
    MovedThenCharged(s, r, s.(reservations := s.reservations - {b.reservationId},
                              receivables := s.receivables[b.transferId := receivable]),
                     x.amount - b.netReceivable, t);
  }

  lemma {:induction false} StateChangeShape(s: Portfolio, r: Receipt, t: Portfolio)
    requires r.body.MovesReceivable() && !r.body.TransferSettled? && ReceivableEffect(s, r) == Ok(t)
    ensures ApplyCosts(s, r, 0).Ok? && t == ApplyCosts(s, r, 0).value.(receivables := t.receivables)
  {
    hide ApplyCosts;
  }

  lemma {:induction false} SettlementShape(s: Portfolio, r: Receipt, t: Portfolio) returns (credited: Portfolio)
    requires r.body.TransferSettled? && ReceivableEffect(s, r) == Ok(t)
    ensures r.body.transferId in s.receivables
    ensures var x := s.receivables[r.body.transferId];
            && CreditCash(s, x.destinationFamilyId, r.body.destinationCredit) == Ok(credited)
            && ApplyCosts(credited.(receivables := credited.receivables - {r.body.transferId}), r,
                          x.amount - r.body.destinationCredit) == Ok(t)
  {
    hide ApplyCosts, CreditCash;
    credited := CreditCash(s, s.receivables[r.body.transferId].destinationFamilyId, r.body.destinationCredit).value;
  }

  lemma {:induction false} ReceivableMoney(s: Portfolio, r: Receipt, t: Portfolio)
    requires r.body.MovesReceivable() && ReceivableEffect(s, r) == Ok(t)
    ensures MoneyPosted(s, r, t)
  {
    hide CashMoved, CashPosted, CostsPosted, ApplyCosts, CreditCash, ReceivableEffect;
    if r.body.TransferSettled? {
      var credited := SettlementShape(s, r, t);
      var x := s.receivables[r.body.transferId];
      assert MovesOnly(s, r.body, x.destinationFamilyId, r.body.destinationCredit);
      hide CashMove, MovesOnly;
      CreditMoves(s, s, r.body, x.destinationFamilyId, r.body.destinationCredit, credited);
      MovedThenCharged(s, r, credited.(receivables := credited.receivables - {r.body.transferId}),
                       x.amount - r.body.destinationCredit, t);
    } else {
      StateChangeShape(s, r, t);
      NothingMoves(s, r.body);
      hide CashMove;
      MovedThenCharged(s, r, s, 0, ApplyCosts(s, r, 0).value);
      SameBooksAfter(s, r, ApplyCosts(s, r, 0).value, t);
    }
  }

  lemma {:induction false} AccrueMoney(s: Portfolio, r: Receipt, t: Portfolio)
    requires r.body.Accrue? && ReceiptParses(r) && AccrueEffect(s, r) == Ok(t)
    ensures MoneyPosted(s, r, t)
  {
    assert MovesNothing(s, r.body);
    hide CashMove, CashMoved, CashPosted, CostsPosted, MovesNothing;
    NothingMoves(s, r.body);
    MovedUncharged(s, r, t);
  }

  lemma {:induction false} CostOnlyMoney(s: Portfolio, r: Receipt, t: Portfolio)
    requires r.body.CostOnly? && ApplyCosts(s, r, 0) == Ok(t)
    ensures MoneyPosted(s, r, t)
  {
    assert MovesNothing(s, r.body);
    hide CashMove, CashMoved, CashPosted, CostsPosted, MovesNothing, ApplyCosts;
    NothingMoves(s, r.body);
    MovedThenCharged(s, r, s, 0, t);
  }

  lemma {:induction false} NoAttemptMoney(s: Portfolio, r: Receipt, t: Portfolio)
    requires r.body.NoEffect? || r.body.Close?
    requires ReceiptParses(r) && IndexesPositive(s.positions) && Effect(s, r) == Ok(t)
    ensures MoneyPosted(s, r, t)
  {
    assert MovesNothing(s, r.body);
    hide CashMove, CashMoved, CashPosted, CostsPosted, MovesNothing;
    NothingMoves(s, r.body);
    MovedUncharged(s, r, t);
  }

  /******* The other entries, branch by branch *******/

  lemma ReserveEntries(s: Portfolio, r: Receipt, t: Portfolio)
    requires r.body.Reserve? && r.sourceHashes != [] && ReserveEffect(s, r) == Ok(t)
    ensures EntriesPosted(s, r, t)
  {
  }

  lemma {:induction false} ApproveEntries(s: Portfolio, r: Receipt, t: Portfolio)
    requires r.body.Approve? && r.sourceHashes != [] && ApproveEffect(s, r) == Ok(t)
    ensures EntriesPosted(s, r, t)
  {
    hide ApplyCosts;
    if !(r.body.allowanceId in s.allowances && s.allowances[r.body.allowanceId].amount >= r.body.amount) {
      ApplyCostsAdds(s, r, 0, ApplyCosts(s, r, 0).value);
    }
  }

  lemma {:induction false} DepositEntries(s: Portfolio, r: Receipt, t: Portfolio)
    requires r.body.Deposit? && ReceiptParses(r) && DepositEffect(s, r) == Ok(t)
    ensures EntriesPosted(s, r, t)
  {
    var debited, u, gap := DepositBooks(s, r, t);
    hide ApplyCosts, PositionPosted, DepositEffect;
    ApplyCostsAdds(u, r, gap, t);
  }

  lemma {:induction false} WithdrawEntries(s: Portfolio, r: Receipt, t: Portfolio)
    requires r.body.Withdraw? && ReceiptParses(r) && IndexesPositive(s.positions) && WithdrawEffect(s, r) == Ok(t)
    ensures EntriesPosted(s, r, t)
  {
    var u, credited, gap := WithdrawBooks(s, r, t);
    hide ApplyCosts, PositionPosted, WithdrawEffect;
    ApplyCostsAdds(credited, r, gap, t);
  }

  lemma {:induction false} SwapEntries(s: Portfolio, r: Receipt, t: Portfolio)
    requires r.body.Swap? && r.sourceHashes != [] && SwapEffect(s, r) == Ok(t)
    ensures EntriesPosted(s, r, t)
  {
    hide ApplyCosts;
    var b := r.body;
    var debited := DebitCash(s, s.views[b.sourceViewId].familyId, b.sourceDebit).value;
    var credited := CreditCash(debited, s.views[b.destinationViewId].familyId, b.destinationCredit).value;
    ApplyCostsAdds(credited, r, b.sourceDebit - b.destinationCredit, t);
  }

  lemma PayableSettledEntries(s: Portfolio, r: Receipt, t: Portfolio)
    requires r.body.PayableSettled? && r.sourceHashes != [] && PayableSettledEffect(s, r) == Ok(t)
    ensures EntriesPosted(s, r, t)
  {
  }

  lemma {:induction false} SourceFailedEntries(s: Portfolio, r: Receipt, t: Portfolio)
    requires r.body.TransferSourceFailed? && r.sourceHashes != [] && SourceFailedEffect(s, r) == Ok(t)
    ensures EntriesPosted(s, r, t)
  {
    hide ApplyCosts, WithheldTotal;
    var id := r.body.reservationId;
    var x, withheld := s.reservations[id], WithheldTotal(r.body.costs);
    var credited := CreditCash(s.(reservations := s.reservations - {id}), x.familyId, x.amount - withheld).value;
    ApplyCostsAdds(credited, r, withheld, t);
  }

  lemma {:induction false} BurnEntries(s: Portfolio, r: Receipt, t: Portfolio)
    requires r.body.TransferBurned? && r.sourceHashes != [] && BurnedEffect(s, r) == Ok(t)
    ensures EntriesPosted(s, r, t)
  {
    hide ApplyCosts;
    var b, x := r.body, s.reservations[r.body.reservationId];
    var receivable := Receivable(b.messageIdentity, x.networkId, b.destinationNetworkId,
                                 s.views[b.destinationViewId].familyId, b.netReceivable, InTransit, 0,
                                 r.observedAt, r.observedAt);
    ApplyCostsAdds(s.(reservations := s.reservations - {b.reservationId},
                      receivables := s.receivables[b.transferId := receivable]), r, x.amount - b.netReceivable, t);
  }

  lemma {:induction false} ReceivableEntries(s: Portfolio, r: Receipt, t: Portfolio)
    requires r.body.MovesReceivable() && r.sourceHashes != [] && ReceivableEffect(s, r) == Ok(t)
    ensures EntriesPosted(s, r, t)
  {
    hide ReceivablePosted, ReceivableEffect;
    ReceivableFollows(s, r, t);
    OnlyReceivablesMove(s, r, t);
  }

  lemma {:induction false} OnlyReceivablesMove(s: Portfolio, r: Receipt, t: Portfolio)
    requires r.body.MovesReceivable() && ReceivableEffect(s, r) == Ok(t)
    ensures t == s.(cash := t.cash, payables := t.payables, costs := t.costs, receivables := t.receivables)
  {
    hide ApplyCosts, CreditCash, ReceivableEffect;
    if r.body.TransferSettled? {
      var credited := SettlementShape(s, r, t);
      var x := s.receivables[r.body.transferId];
      CreditKeeps(s, x.destinationFamilyId, r.body.destinationCredit, credited);
      ApplyCostsAdds(credited.(receivables := credited.receivables - {r.body.transferId}), r,
                     x.amount - r.body.destinationCredit, t);
    } else {
      StateChangeShape(s, r, t);
      ApplyCostsAdds(s, r, 0, ApplyCosts(s, r, 0).value);
    }
  }

  lemma {:induction false} ReceivableFollows(s: Portfolio, r: Receipt, t: Portfolio)
    requires r.body.MovesReceivable() && ReceivableEffect(s, r) == Ok(t)
    ensures ReceivablePosted(s, r, t.receivables)
  {
    hide NextReceivable, Framed, ReceivableEffect;
    ReceivableMoves(s, r, t);
  }

  lemma CreditKeeps(s: Portfolio, family: Id, amount: int, t: Portfolio)
    requires CreditCash(s, family, amount) == Ok(t)
    ensures t == s.(cash := t.cash)
  {
  }

  lemma AccrueEntries(s: Portfolio, r: Receipt, t: Portfolio)
    requires r.body.Accrue? && ReceiptParses(r) && AccrueEffect(s, r) == Ok(t)
    ensures EntriesPosted(s, r, t)
  {
  }

  lemma {:induction false} CostOnlyEntries(s: Portfolio, r: Receipt, t: Portfolio)
    requires r.body.CostOnly? && r.sourceHashes != [] && ApplyCosts(s, r, 0) == Ok(t)
    ensures EntriesPosted(s, r, t)
  {
    hide ApplyCosts;
    ApplyCostsAdds(s, r, 0, t);
  }

  lemma NoAttemptEntries(s: Portfolio, r: Receipt, t: Portfolio)
    requires r.body.NoEffect? || r.body.Close?
    requires ReceiptParses(r) && IndexesPositive(s.positions) && Effect(s, r) == Ok(t)
    ensures EntriesPosted(s, r, t)
  {
  }

  lemma {:induction false} EffectPosts(s: Portfolio, r: Receipt, t: Portfolio)
    requires ReceiptParses(r) && IndexesPositive(s.positions) && Effect(s, r) == Ok(t)
    ensures r.sourceHashes != [] && MoneyPosted(s, r, t) && EntriesPosted(s, r, t)
  {
    hide MoneyPosted, EntriesPosted, Effect;
    EffectBranch(s, r);
    match r.body
    case NoEffect => NoAttemptMoney(s, r, t); NoAttemptEntries(s, r, t);
    case Reserve(_, _, _, _) => ReserveMoney(s, r, t); ReserveEntries(s, r, t);
    case CostOnly(_) => CostOnlyMoney(s, r, t); CostOnlyEntries(s, r, t);
    case Approve(_, _, _, _, _, _) => ApproveMoney(s, r, t); ApproveEntries(s, r, t);
    case Deposit(_, _, _, _, _, _, _, _) => DepositMoney(s, r, t); DepositEntries(s, r, t);
    case Withdraw(_, _, _, _, _) => WithdrawMoney(s, r, t); WithdrawEntries(s, r, t);
    case Swap(_, _, _, _, _) => SwapMoney(s, r, t); SwapEntries(s, r, t);
    case PayableSettled(_, _) => PayableSettledMoney(s, r, t); PayableSettledEntries(s, r, t);
    case TransferSourceFailed(_, _) => SourceFailedMoney(s, r, t); SourceFailedEntries(s, r, t);
    case TransferBurned(_, _, _, _, _, _, _) => BurnMoney(s, r, t); BurnEntries(s, r, t);
    case TransferReady(_, _) => ReceivableMoney(s, r, t); ReceivableEntries(s, r, t);
    case TransferDelayed(_, _) => ReceivableMoney(s, r, t); ReceivableEntries(s, r, t);
    case TransferRetry(_, _) => ReceivableMoney(s, r, t); ReceivableEntries(s, r, t);
    case TransferSettled(_, _, _) => ReceivableMoney(s, r, t); ReceivableEntries(s, r, t);
    case Accrue(_, _, _, _) => AccrueMoney(s, r, t); AccrueEntries(s, r, t);
    case Close(_) => NoAttemptMoney(s, r, t); NoAttemptEntries(s, r, t);
  }

  // A new receipt that is accepted leaves every part of the portfolio as the receipt and the books before it say: what
  // each family holds, which costs are recognised and owed, and every entry the receipt names.  Nothing is left open.
  lemma {:induction false} EveryEntryIsPosted(p: Portfolio, r: Receipt, q: Portfolio)
    requires ApplyReceipt(p, r) == Ok(q) && !InHistory(p, r)
    ensures r.sourceHashes != []
    ensures MoneyPosted(p, r, q) && EntriesPosted(p, r, q) && HeaderPosted(p, r, q)
    ensures q.pnl == p.pnl + PnlChange(p, r)
  {
    hide ApplyReceipt, Effect, MoneyPosted, EntriesPosted, Valid, PnlChange;
    AcceptedStep(p, r, q);
    var s := Effect(p, r).value;
    EffectPosts(p, r, s);
    PnlMoves(p, r, s);
    StampPosts(p, r, s);
    StampHeads(p, r, s);
  }

  lemma {:induction false} StampPosts(p: Portfolio, r: Receipt, s: Portfolio)
    requires r.sourceHashes != [] && MoneyPosted(p, r, s) && EntriesPosted(p, r, s)
    ensures MoneyPosted(p, r, Stamp(s, r)) && EntriesPosted(p, r, Stamp(s, r))
  {
    hide CashMove, Owes, IdsOf, TakenFrom, PositionPosted, ReservationPosted, ReceivablePosted;
  }

  lemma {:induction false} StampHeads(p: Portfolio, r: Receipt, s: Portfolio)
    requires Kept(p, r, s)
    ensures HeaderPosted(p, r, Stamp(s, r))
  {
  }

  // What happens to one family, in figures.
  lemma {:induction false} FamilyCash(p: Portfolio, r: Receipt, q: Portfolio, family: Id)
    requires ApplyReceipt(p, r) == Ok(q) && !InHistory(p, r) && family in p.cash
    ensures family in q.cash
    ensures q.cash[family].amount
            == p.cash[family].amount + CashMove(p, r.body, family) - TakenFrom(r.body.Costs(), family)
  {
    hide ApplyReceipt, CashMove, TakenFrom, PayablesPosted, PositionPosted, ReservationPosted, ReceivablePosted;
    EveryEntryIsPosted(p, r, q);
  }
}
