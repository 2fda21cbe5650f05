// What the ledger answers when it refuses a receipt.
module Refusals {
  import opened Prelude
  import opened Ledger
  import opened Affordable
  import opened Postings

  // Some family would be left with less than nothing by what the receipt moves and charges.
  predicate Short(p: Portfolio, r: Receipt) {
    exists f | f in p.cash :: p.cash[f].amount + CashMove(p, r.body, f) < TakenFrom(r.body.Costs(), f)
  }

  predicate ShortOf(cash: map<Id, Cash>, costs: seq<Cost>) {
    exists f | f in cash :: cash[f].amount < TakenFrom(costs, f)
  }

  // The codes of the branches and of the costs.
  predicate BranchCode(code: ErrorCode) {
    || code.AccountingInvariant? || code.InvalidTransition? || code.OperationConflict? || code.PayableNotFound?
    || code.InsufficientAvailableBalance?
  }

  predicate CostCode(code: ErrorCode) {
    code.AccountingInvariant? || code.OperationConflict? || code.InsufficientAvailableBalance?
  }

  // A branch's code, and what the two telling ones tell.
  predicate Told(p: Portfolio, r: Receipt, code: ErrorCode) {
    && BranchCode(code)
    && (code.InsufficientAvailableBalance? ==> Short(p, r))
    && (code.PayableNotFound? <==> r.body.PayableSettled? && r.body.cashViewId in p.views
                                   && r.body.payableId !in p.payables)
  }

  /******* Costs *******/

  lemma {:induction false} TakenIsNatural(costs: seq<Cost>, family: Id)
    requires CostsParse(costs)
    ensures 0 <= TakenFrom(costs, family)
  {
    if costs != [] {
      TakenIsNatural(costs[..|costs| - 1], family);
    }
  }

  // Costs are refused for want of cash only when the whole list takes more than a family has.
  lemma {:induction false} CostRefusals(s: Portfolio, r: Receipt, costs: seq<Cost>)
    requires CostsParse(costs)
    ensures var told := ChargeAll(s, r, costs);
            told.Err? ==> CostCode(told.code) && (told.code.InsufficientAvailableBalance? ==> ShortOf(s.cash, costs))
  {
    hide ChargeOne, CashAfter;
    if costs != [] {
      var init, last := costs[..|costs| - 1], costs[|costs| - 1];
      CostRefusals(s, r, init);
      if ChargeAll(s, r, init).Err? {
        if ShortOf(s.cash, init) {
          var f :| f in s.cash && s.cash[f].amount < TakenFrom(init, f);
          assert s.cash[f].amount < TakenFrom(costs, f);
        }
      } else {
        var m := ChargeAll(s, r, init).value;
        ChargeAllPosts(s, r, init, m);
        OneRefusal(s, r, costs, m);
      }
    }
  }

  lemma {:induction false} OneRefusal(s: Portfolio, r: Receipt, costs: seq<Cost>, m: Portfolio)
    requires costs != [] && CashAfter(s.cash, costs[..|costs| - 1], m.cash)
    ensures var told := ChargeOne(m, r, costs[|costs| - 1]);
            told.Err? ==> CostCode(told.code) && (told.code.InsufficientAvailableBalance? ==> ShortOf(s.cash, costs))
  {
    var init, last := costs[..|costs| - 1], costs[|costs| - 1];
    if ChargeOne(m, r, last) == Err(InsufficientAvailableBalance) {
      var f := last.cashFamily.value;
      CashLeft(s.cash, init, m.cash, f);
      assert s.cash[f].amount < TakenFrom(costs, f);
    }
  }

  // A branch that has moved its cash and is refused at its costs.
  lemma {:induction false} ChargedRefusals(s: Portfolio, r: Receipt, u: Portfolio, gap: int)
    requires CostsParse(r.body.Costs()) && CashMoved(s, r.body, u.cash)
    ensures var told := ApplyCosts(u, r, gap);
            told.Err? ==> CostCode(told.code) && (told.code.InsufficientAvailableBalance? ==> Short(s, r))
  {
    hide ChargeAll, CashMove, TakenFrom;
    CostRefusals(u, r, r.body.Costs());
    if ShortOf(u.cash, r.body.Costs()) {
      var f :| f in u.cash && u.cash[f].amount < TakenFrom(r.body.Costs(), f);
      assert s.cash[f].amount + CashMove(s, r.body, f) < TakenFrom(r.body.Costs(), f);
    }
  }

  // A debit the family cannot pay.
  lemma {:induction false} DebitRefusals(s: Portfolio, r: Receipt, family: Id, amount: int)
    requires CostsParse(r.body.Costs()) && (family in s.cash ==> CashMove(s, r.body, family) <= -amount)
    ensures var told := DebitCash(s, family, amount);
            told.Err? ==> CostCode(told.code) && (told.code.InsufficientAvailableBalance? ==> Short(s, r))
  {
    hide CashMove, TakenFrom;
    TakenIsNatural(r.body.Costs(), family);
  }

  /******* Branches *******/

  lemma {:induction false} ReserveTold(s: Portfolio, r: Receipt)
    requires r.body.Reserve? && CostsParse(r.body.Costs()) && ReserveEffect(s, r).Err?
    ensures Told(s, r, ReserveEffect(s, r).code)
  {
    if r.body.cashViewId in s.views {
      DebitRefusals(s, r, s.views[r.body.cashViewId].familyId, r.body.amount);
    }
    hide DebitCash, Short;
  }

  lemma {:induction false} ApproveTold(s: Portfolio, r: Receipt)
    requires r.body.Approve? && CostsParse(r.body.Costs()) && ApproveEffect(s, r).Err?
    ensures Told(s, r, ApproveEffect(s, r).code)
  {
    assert MovesNothing(s, r.body);
    hide ApplyCosts, Short, CashMove, CashMoved, MovesNothing;
    NothingMoves(s, r.body);
    ChargedRefusals(s, r, s, 0);
  }

  // A deposit is refused at its debit, on its figures, or at its costs.
  lemma {:induction false} DepositRefusals(s: Portfolio, r: Receipt) returns (u: Portfolio, gap: int)
    requires r.body.Deposit? && ReceiptParses(r) && DepositEffect(s, r).Err?
    ensures r.body.cashViewId in s.views ==>
              var debited, code := DebitCash(s, s.views[r.body.cashViewId].familyId, r.body.input),
                                   DepositEffect(s, r).code;
              if debited.Err? then debited.code == code
              else code.AccountingInvariant? || (u.cash == debited.value.cash && ApplyCosts(u, r, gap) == Err(code))
    ensures r.body.cashViewId !in s.views ==> DepositEffect(s, r).code.AccountingInvariant?
  {
    var b := r.body;
    u, gap := s, 0;
    if b.cashViewId in s.views && DebitCash(s, s.views[b.cashViewId].familyId, b.input).Ok? {
      var view, debited := s.views[b.cashViewId], DebitCash(s, s.views[b.cashViewId].familyId, b.input).value;
      var start := if b.positionId in s.positions then s.positions[b.positionId]
                   else Position(view.networkId, b.instrumentId, view.assetId, 0, b.indexNum, b.indexDen, 0, 0,
                                 r.sourceHashes[0], r.observedAt);
      var x := Revalue(start, start.shares + b.sharesCredit, b.indexNum, b.indexDen, r.sourceHashes[0], r.observedAt);
      gap := b.input - (x.book - start.book);
      u := debited.(positions := debited.positions[b.positionId := x]);
    }
    hide ApplyCosts, DebitCash, BookOf, RemainderOf;
  }

  lemma {:induction false} DepositTold(s: Portfolio, r: Receipt)
    requires r.body.Deposit? && ReceiptParses(r) && DepositEffect(s, r).Err?
    ensures Told(s, r, DepositEffect(s, r).code)
  {
    var u, gap := DepositRefusals(s, r);
    assert CostsParse(r.body.Costs());
    hide DepositEffect, ReceiptParses, CostsParse, ApplyCosts, DebitCash, Short;
    if r.body.cashViewId in s.views {
      DepositedTold(s, r, u, gap);
    }
  }

  lemma {:induction false} DepositedTold(s: Portfolio, r: Receipt, u: Portfolio, gap: int)
    requires r.body.Deposit? && r.body.cashViewId in s.views && CostsParse(r.body.Costs())
    ensures var debited := DebitCash(s, s.views[r.body.cashViewId].familyId, r.body.input);
            && (debited.Err? ==> Told(s, r, debited.code))
            && (debited.Ok? && u.cash == debited.value.cash && ApplyCosts(u, r, gap).Err? ==>
                  Told(s, r, ApplyCosts(u, r, gap).code))
  {
    hide ApplyCosts, Short, CostsParse;
    var family := s.views[r.body.cashViewId].familyId;
    var debited := DebitCash(s, family, r.body.input);
    DebitRefusals(s, r, family, r.body.input);
    assert MovesOnly(s, r.body, family, -r.body.input);
    hide CashMove, CashMoved, MovesOnly;
    if debited.Ok? {
      DebitMoves(s, r.body, family, r.body.input, debited.value);
      if u.cash == debited.value.cash {
        ChargedRefusals(s, r, u, gap);
      }
    }
  }

  // A withdrawal is refused on its figures or at its costs.
  lemma {:induction false} WithdrawRefusals(s: Portfolio, r: Receipt) returns (u: Portfolio, gap: int)
    requires r.body.Withdraw? && ReceiptParses(r) && IndexesPositive(s.positions) && WithdrawEffect(s, r).Err?
    ensures var code := WithdrawEffect(s, r).code;
            || code.AccountingInvariant? || code.InvalidTransition?
            || (&& r.body.cashViewId in s.views && u == s.(positions := u.positions)
                && var credited := CreditCash(u, s.views[r.body.cashViewId].familyId, r.body.cashCredit);
                && credited.Ok? && ApplyCosts(credited.value, r, gap) == Err(code))
  {
    var b := r.body;
    u, gap := s, 0;
    if b.cashViewId in s.views && b.positionId in s.positions {
      var x := s.positions[b.positionId];
      var left := x.shares - b.sharesDebit;
      var next := Revalue(x, left, x.indexNum, x.indexDen, r.sourceHashes[0], r.observedAt);
      u := s.(positions := if left == 0 then s.positions - {b.positionId} else s.positions[b.positionId := next]);
      gap := x.book - (if left == 0 then 0 else next.book) - b.cashCredit;
    }
    hide ApplyCosts, BookOf, RemainderOf;
  }

  lemma {:induction false} WithdrawTold(s: Portfolio, r: Receipt)
    requires r.body.Withdraw? && ReceiptParses(r) && IndexesPositive(s.positions) && WithdrawEffect(s, r).Err?
    ensures Told(s, r, WithdrawEffect(s, r).code)
  {
    var u, gap := WithdrawRefusals(s, r);
    assert CostsParse(r.body.Costs());
    hide WithdrawEffect, ReceiptParses, CostsParse, ApplyCosts, Short, IndexesPositive;
    if r.body.cashViewId in s.views && u == s.(positions := u.positions) {
      WithdrawnTold(s, r, u, gap);
    }
  }

  lemma {:induction false} WithdrawnTold(s: Portfolio, r: Receipt, u: Portfolio, gap: int)
    requires r.body.Withdraw? && r.body.cashViewId in s.views && u == s.(positions := u.positions)
    requires CostsParse(r.body.Costs())
    ensures var credited := CreditCash(u, s.views[r.body.cashViewId].familyId, r.body.cashCredit);
            && (credited.Ok? && ApplyCosts(credited.value, r, gap).Err? ==>
                  Told(s, r, ApplyCosts(credited.value, r, gap).code))
  {
    hide ApplyCosts, Short, CostsParse;
    var family := s.views[r.body.cashViewId].familyId;
    var credited := CreditCash(u, family, r.body.cashCredit);
    assert MovesOnly(s, r.body, family, r.body.cashCredit);
    hide CashMove, CashMoved, MovesOnly;
    if credited.Ok? {
      CreditMoves(s, u, r.body, family, r.body.cashCredit, credited.value);
      ChargedRefusals(s, r, credited.value, gap);
    }
  }

  lemma {:induction false} SwapTold(s: Portfolio, r: Receipt)
    requires r.body.Swap? && CostsParse(r.body.Costs()) && SwapEffect(s, r).Err?
    ensures Told(s, r, SwapEffect(s, r).code)
  {
    var b := r.body;
    if b.sourceViewId in s.views && b.destinationViewId in s.views {
      var source, destination := s.views[b.sourceViewId].familyId, s.views[b.destinationViewId].familyId;
      if source != destination {
        DebitRefusals(s, r, source, b.sourceDebit);
        var debited := DebitCash(s, source, b.sourceDebit);
        if debited.Ok? && CreditCash(debited.value, destination, b.destinationCredit).Ok? {
          var credited := CreditCash(debited.value, destination, b.destinationCredit).value;
          SwapMoves(s, b, debited.value, credited);
          hide CashMove, CashMoved, Short, ApplyCosts;
          ChargedRefusals(s, r, credited, b.sourceDebit - b.destinationCredit);
        }
      }
    }
    hide ApplyCosts, Short;
  }

  lemma {:induction false} PayableTold(s: Portfolio, r: Receipt)
    requires r.body.PayableSettled? && CostsParse(r.body.Costs()) && PayableSettledEffect(s, r).Err?
    ensures Told(s, r, PayableSettledEffect(s, r).code)
  {
    if r.body.cashViewId in s.views && r.body.payableId in s.payables {
      DebitRefusals(s, r, s.views[r.body.cashViewId].familyId, s.payables[r.body.payableId].amount);
    }
    hide DebitCash, Short;
  }

  lemma {:induction false} SourceFailedTold(s: Portfolio, r: Receipt)
    requires r.body.TransferSourceFailed? && CostsParse(r.body.Costs()) && SourceFailedEffect(s, r).Err?
    ensures Told(s, r, SourceFailedEffect(s, r).code)
  {
    var id := r.body.reservationId;
    if id in s.reservations {
      var x, withheld := s.reservations[id], WithheldTotal(r.body.costs);
      var released := s.(reservations := s.reservations - {id});
      var credited := CreditCash(released, x.familyId, x.amount - withheld);
      assert MovesOnly(s, r.body, x.familyId, x.amount - withheld);
      hide CashMove, CashMoved, MovesOnly, ApplyCosts, WithheldTotal, Short;
      if credited.Ok? {
        CreditMoves(s, released, r.body, x.familyId, x.amount - withheld, credited.value);
        ChargedRefusals(s, r, credited.value, withheld);
      }
    }
  }

  lemma {:induction false} BurnTold(s: Portfolio, r: Receipt)
    requires r.body.TransferBurned? && CostsParse(r.body.Costs()) && BurnedEffect(s, r).Err?
    ensures Told(s, r, BurnedEffect(s, r).code)
  {
    assert MovesNothing(s, r.body);
    hide CashMove, CashMoved, MovesNothing, ApplyCosts, Short;
    NothingMoves(s, r.body);
    var b := r.body;
    if b.reservationId in s.reservations && b.destinationViewId in s.views {
      var x := s.reservations[b.reservationId];
      var receivable := Receivable(b.messageIdentity, x.networkId, b.destinationNetworkId,
                                   s.views[b.destinationViewId].familyId, b.netReceivable, InTransit, 0,
                                   r.observedAt, r.observedAt);
      ChargedRefusals(s, r, s.(reservations := s.reservations - {b.reservationId},
                               receivables := s.receivables[b.transferId := receivable]), x.amount - b.netReceivable);
    }
  }

  lemma {:induction false} ReceivableTold(s: Portfolio, r: Receipt)
    requires r.body.MovesReceivable() && CostsParse(r.body.Costs()) && ReceivableEffect(s, r).Err?
    ensures Told(s, r, ReceivableEffect(s, r).code)
  {
    if r.body.TransferSettled? {
      SettledTold(s, r);
    } else {
      assert MovesNothing(s, r.body);
      hide CashMove, CashMoved, MovesNothing, ApplyCosts, Short;
      NothingMoves(s, r.body);
      ChargedRefusals(s, r, s, 0);
    }
  }

  lemma {:induction false} SettledTold(s: Portfolio, r: Receipt)
    requires r.body.TransferSettled? && CostsParse(r.body.Costs()) && ReceivableEffect(s, r).Err?
    ensures Told(s, r, ReceivableEffect(s, r).code)
  {
    var id, credit := r.body.transferId, r.body.destinationCredit;
    if id in s.receivables {
      var x := s.receivables[id];
      var credited := CreditCash(s, x.destinationFamilyId, credit);
      assert MovesOnly(s, r.body, x.destinationFamilyId, credit);
      hide CashMove, CashMoved, MovesOnly, ApplyCosts, Short;
      if credited.Ok? {
        CreditMoves(s, s, r.body, x.destinationFamilyId, credit, credited.value);
        ChargedRefusals(s, r, credited.value.(receivables := credited.value.receivables - {id}), x.amount - credit);
      }
    }
  }

  lemma {:induction false} CostOnlyTold(s: Portfolio, r: Receipt)
    requires r.body.CostOnly? && CostsParse(r.body.Costs()) && ApplyCosts(s, r, 0).Err?
    ensures Told(s, r, ApplyCosts(s, r, 0).code)
  {
    assert MovesNothing(s, r.body);
    hide CashMove, CashMoved, MovesNothing, ApplyCosts, Short;
    NothingMoves(s, r.body);
    ChargedRefusals(s, r, s, 0);
  }

  lemma {:induction false} BranchTold(p: Portfolio, r: Receipt)
    requires ReceiptParses(r) && IndexesPositive(p.positions) && Effect(p, r).Err?
    ensures Told(p, r, Effect(p, r).code)
  {
    hide ReserveEffect, ApproveEffect, DepositEffect, WithdrawEffect, SwapEffect, PayableSettledEffect, ApplyCosts,
         SourceFailedEffect, BurnedEffect, ReceivableEffect, Short;
    match r.body
    case Reserve(_, _, _, _) => ReserveTold(p, r);
    case CostOnly(_) => CostOnlyTold(p, r);
    case Approve(_, _, _, _, _, _) => ApproveTold(p, r);
    case Deposit(_, _, _, _, _, _, _, _) => DepositTold(p, r);
    case Withdraw(_, _, _, _, _) => WithdrawTold(p, r);
    case Swap(_, _, _, _, _) => SwapTold(p, r);
    case PayableSettled(_, _) => PayableTold(p, r);
    case TransferSourceFailed(_, _) => SourceFailedTold(p, r);
    case TransferBurned(_, _, _, _, _, _, _) => BurnTold(p, r);
    case TransferReady(_, _) => ReceivableTold(p, r);
    case TransferDelayed(_, _) => ReceivableTold(p, r);
    case TransferRetry(_, _) => ReceivableTold(p, r);
    case TransferSettled(_, _, _) => ReceivableTold(p, r);
    case _ =>
  }

  /******* Ranges *******/

  function TwoTo(n: nat): int { if n == 0 then 1 else 2 * TwoTo(n - 1) }

  lemma {:induction false} TwoToAdds(n: nat, m: nat)
    ensures TwoTo(n + m) == TwoTo(n) * TwoTo(m)
    decreases m
  {
    if m > 0 {
      TwoToAdds(n, m - 1);
      assert TwoTo(n) * (2 * TwoTo(m - 1)) == 2 * (TwoTo(n) * TwoTo(m - 1));
    }
  }

  lemma {:induction false} SixteenBits()
    ensures TwoTo(16) == 0x1_0000 && TwoTo(15) == 0x8000
  {
    assert TwoTo(4) == 16;
    TwoToAdds(4, 4);
    TwoToAdds(8, 4);
    TwoToAdds(12, 3);
    assert TwoTo(3) == 8;
    TwoToAdds(12, 4);
  }

  // Amounts have 256 bits, modelled PnL 256 with a sign.
  lemma {:induction false} RangesAreTwoTo256()
    ensures UINT256_LIMIT == TwoTo(256) && INT256_LIMIT == TwoTo(255)
  {
    hide TwoTo;
    SixteenBits();
    TwoToAdds(16, 16);
    TwoToAdds(32, 32);
    TwoToAdds(64, 64);
    TwoToAdds(128, 64);
    TwoToAdds(192, 32);
    TwoToAdds(224, 16);
    TwoToAdds(240, 15);
    TwoToAdds(240, 16);
  }

  // The figures of a receipt that must be positive, and those that may be zero.
  function Positives(b: Body): set<int> {
    match b
    case Reserve(_, _, amount, _) => {amount}
    case Deposit(_, _, _, shares, num, den, input, _) => {shares, num, den, input}
    case Withdraw(_, _, shares, _, _) => {shares}
    case Swap(_, _, debit, _, _) => {debit}
    case TransferBurned(_, _, _, _, _, net, _) => {net}
    case Accrue(_, num, den, _) => {num, den}
    case _ => {}
  }

  function Naturals(b: Body): set<int> {
    match b
    case Approve(_, _, _, _, amount, _) => {amount}
    case Withdraw(_, _, _, cash, _) => {cash}
    case Swap(_, _, _, credit, _) => {credit}
    case TransferSettled(_, credit, _) => {credit}
    case _ => {}
  }

  // A receipt parses exactly when it names a source and a version, all its costs and quantities are positive, its
  // credits and allowance are natural, and everything has 256 bits.
  lemma {:induction false} ParsesExactly(r: Receipt)
    ensures ReceiptParses(r) <==>
              && r.sourceHashes != [] && 0 <= r.expectedVersion < UINT256_LIMIT
              && (forall c | c in r.body.Costs() :: 0 < c.amount < UINT256_LIMIT)
              && (forall x | x in Positives(r.body) :: 0 < x < UINT256_LIMIT)
              && (forall x | x in Naturals(r.body) :: 0 <= x < UINT256_LIMIT)
  {
    var costs := r.body.Costs();
    assert CostsParse(costs) <==> forall c | c in costs :: IsPositiveUInt(c.amount);
    hide CostsParse;
    var ps, ns := Positives(r.body), Naturals(r.body);
    match r.body
    case Reserve(_, _, amount, _) => assert amount in ps;
    case Deposit(_, _, _, shares, num, den, input, _) => assert shares in ps && num in ps && den in ps && input in ps;
    case Withdraw(_, _, shares, cash, _) => assert shares in ps && cash in ns;
    case Swap(_, _, debit, credit, _) => assert debit in ps && credit in ns;
    case TransferBurned(_, _, _, _, _, net, _) => assert net in ps;
    case Accrue(_, num, den, _) => assert num in ps && den in ps;
    case Approve(_, _, _, _, amount, _) => assert amount in ns;
    case TransferSettled(_, credit, _) => assert credit in ns;
    case _ =>
  }

  /******* What each code means *******/

  // The receipt is about this portfolio's scenario and under a new operation id.
  predicate Addresses(p: Portfolio, r: Receipt) {
    && ReceiptParses(r) && !HasOperation(p.applied, r.operationId)
    && r.experimentId == p.experimentId && r.scenarioId == p.scenarioId && r.provenance == p.provenance
  }

  predicate InTime(p: Portfolio, r: Receipt) { p.lastAppliedAt.Some? ==> p.lastAppliedAt.value <= r.observedAt }

  predicate StillOpen(p: Portfolio, r: Receipt) {
    p.closedAt.Some? ==>
      r.body.TransferReady? || r.body.TransferDelayed? || r.body.TransferRetry? || r.body.TransferSettled?
  }

  // On valid books each of these answers is given exactly for its reason; and a missing balance is answered only when
  // some family would be left with less than nothing.
  lemma {:induction false} RefusalsTellTheReason(p: Portfolio, r: Receipt)
    requires Valid(p)
    ensures var told := ApplyReceipt(p, r);
            && (told == Err(SchemaRejected) <==> !ReceiptParses(r))
            && (told == Err(StalePortfolio) <==> Addresses(p, r) && r.expectedVersion != p.version)
            && (told == Err(ClosedPortfolio) <==>
                  Addresses(p, r) && r.expectedVersion == p.version && InTime(p, r) && !StillOpen(p, r))
            && (told == Err(PayableNotFound) <==>
                  && Addresses(p, r) && r.expectedVersion == p.version && InTime(p, r) && StillOpen(p, r)
                  && r.body.PayableSettled? && r.body.cashViewId in p.views && r.body.payableId !in p.payables)
            && (told == Err(InsufficientAvailableBalance) ==>
                  && Addresses(p, r) && r.expectedVersion == p.version && InTime(p, r) && StillOpen(p, r)
                  && Short(p, r))
  {
    hide Valid, ReceiptParses, Effect, Short;
    if Addresses(p, r) && Admit(p, r).Ok? {
      assert IndexesPositive(p.positions) by { PositiveIndexes(p); }
      if Effect(p, r).Err? {
        BranchTold(p, r);
      } else {
        KnownPayable(p, r);
      }
    }
  }

  lemma PositiveIndexes(p: Portfolio)
    requires Valid(p)
    ensures IndexesPositive(p.positions)
  {
  }

  lemma {:induction false} KnownPayable(p: Portfolio, r: Receipt)
    requires ReceiptParses(r) && IndexesPositive(p.positions) && Effect(p, r).Ok?
    ensures r.body.PayableSettled? ==> r.body.payableId in p.payables
  {
    hide DebitCash;
  }

  // The ledger answers with no other code than these.
  lemma {:induction false} EveryRefusalIsKnown(p: Portfolio, r: Receipt)
    ensures var told := ApplyReceipt(p, r);
            told.Err? ==> || BranchCode(told.code) || told.code.SchemaRejected? || told.code.StalePortfolio?
                          || told.code.ClosedPortfolio?
  {
    hide Valid, ReceiptParses, Effect, Short;
    if Valid(p) && Addresses(p, r) && Admit(p, r).Ok? {
      assert IndexesPositive(p.positions) by { PositiveIndexes(p); }
      if Effect(p, r).Err? {
        BranchTold(p, r);
      }
    }
  }

  /******* A missing balance *******/

  // The costs before this one can be charged, this one is new, attested and addressed, and its family lacks the cash.
  predicate FirstShort(cash: map<Id, Cash>, recognized: map<Id, RecognizedCost>, hashes: seq<SourceHash>,
      costs: seq<Cost>, i: nat)
    requires i < |costs|
  {
    var c := costs[i];
    && CanCharge(cash, recognized, hashes, costs[..i])
    && New(recognized, hashes, c) && (forall j | 0 <= j < i :: costs[j].costId != c.costId)
    && c.funding.AvailableCash? && Addressed(cash, c)
    && cash[c.cashFamily.value].amount - TakenFrom(costs[..i], c.cashFamily.value) < c.amount
  }

  // Charging a list of costs is refused for a missing balance if and only if the first cost it stops at is short.
  lemma {:induction false} CostsShortExactly(s: Portfolio, r: Receipt, costs: seq<Cost>)
    requires CostsParse(costs) && DistinctCostIds(costs) && CashHolds(s.cash)
    ensures ChargeAll(s, r, costs) == Err(InsufficientAvailableBalance) <==>
              exists i: nat | i < |costs| :: FirstShort(s.cash, s.costs, r.sourceHashes, costs, i)
  {
    hide ChargeOne, CanCharge, New, Addressed, TakenFrom, CashHolds, FirstShort;
    if costs != [] {
      var n := |costs| - 1;
      var init := costs[..n];
      assert forall i | 0 <= i < n :: init[i] == costs[i];
      CostsShortExactly(s, r, init);
      ChargeAllTaken(s, r, init);
      forall i: nat | i < n
        ensures FirstShort(s.cash, s.costs, r.sourceHashes, costs, i) <==>
                  FirstShort(s.cash, s.costs, r.sourceHashes, init, i)
      {
        ShortInPrefix(s, r, costs, n, i);
      }
      if ChargeAll(s, r, init).Ok? {
        LastShort(s, r, costs, ChargeAll(s, r, init).value);
        forall i: nat | i < n
          ensures !FirstShort(s.cash, s.costs, r.sourceHashes, init, i)
        {
        }
      } else {
        NotChargedYet(s, r, costs);
      }
    }
  }

  lemma {:induction false} ShortInPrefix(s: Portfolio, r: Receipt, costs: seq<Cost>, n: nat, i: nat)
    requires i < n <= |costs|
    ensures FirstShort(s.cash, s.costs, r.sourceHashes, costs, i) <==>
              FirstShort(s.cash, s.costs, r.sourceHashes, costs[..n], i)
  {
    hide CanCharge, New, Addressed, TakenFrom;
    assert costs[..n][..i] == costs[..i] && costs[..n][i] == costs[i];
    assert forall j | 0 <= j < i :: costs[..n][j] == costs[j];
  }

  lemma {:induction false} LastShort(s: Portfolio, r: Receipt, costs: seq<Cost>, m: Portfolio)
    requires costs != [] && DistinctCostIds(costs) && CanCharge(s.cash, s.costs, r.sourceHashes, costs[..|costs| - 1])
    requires ChargedFrom(s, costs[..|costs| - 1], m)
    ensures ChargeOne(m, r, costs[|costs| - 1]) == Err(InsufficientAvailableBalance) <==>
              FirstShort(s.cash, s.costs, r.sourceHashes, costs, |costs| - 1)
  {
    hide CanCharge, TakenFrom, IdsOf, DistinctCostIds;
    var init, last := costs[..|costs| - 1], costs[|costs| - 1];
    IdListed(init, last.costId);
    if last.cashFamily.Some? {
      CashLeft(s.cash, init, m.cash, last.cashFamily.value);
    }
    assert last.costId in m.costs <==> last.costId in s.costs || last.costId in IdsOf(init);
    hide CashAfter, ChargedFrom;
    assert forall i | 0 <= i < |init| :: init[i] == costs[i];
  }

  lemma NotChargedYet(s: Portfolio, r: Receipt, costs: seq<Cost>)
    requires costs != [] && !CanCharge(s.cash, s.costs, r.sourceHashes, costs[..|costs| - 1])
    ensures !FirstShort(s.cash, s.costs, r.sourceHashes, costs, |costs| - 1)
  {
  }

  predicate Lacks(p: Portfolio, viewId: Id, amount: int) {
    viewId in p.views && p.views[viewId].familyId in p.cash && p.cash[p.views[viewId].familyId].amount < amount
  }

  // A swap between two families of one network, for no more than it gives.
  predicate Exchanges(p: Portfolio, b: Body)
    requires b.Swap?
  {
    && b.sourceViewId in p.views && b.destinationViewId in p.views && b.destinationCredit <= b.sourceDebit
    && p.views[b.sourceViewId].familyId != p.views[b.destinationViewId].familyId
    && p.views[b.sourceViewId].networkId == p.views[b.destinationViewId].networkId
  }

  // What a receipt takes before its costs is answered as a missing balance as soon as the view's family lacks it, and
  // the kind's own conditions hold.
  lemma {:induction false} MissingBalanceIsTold(p: Portfolio, r: Receipt)
    requires Valid(p) && Addresses(p, r) && r.expectedVersion == p.version && InTime(p, r) && StillOpen(p, r)
    ensures var told, b := ApplyReceipt(p, r), r.body;
            var missing := told == Err(InsufficientAvailableBalance);
            && (b.Reserve? ==>
                  (missing <==> && b.costs == [] && b.reservationId !in p.reservations
                                && Lacks(p, b.cashViewId, b.amount)))
            && (b.PayableSettled? ==>
                  (missing <==> && b.payableId in p.payables && b.cashViewId in p.views
                                && p.payables[b.payableId].networkId == p.views[b.cashViewId].networkId
                                && Lacks(p, b.cashViewId, p.payables[b.payableId].amount)))
            && (b.Deposit? && Lacks(p, b.cashViewId, b.input) ==> missing)
            && (b.Swap? && Exchanges(p, b) && Lacks(p, b.sourceViewId, b.sourceDebit) ==> missing)
  {
    hide Valid, ApplyCosts, CostsParse, HasOperation;
    assert IndexesPositive(p.positions) by { PositiveIndexes(p); }
  }
}
