// The book of an indexed position over whole runs: where its value came from, and that the route does not matter.
module Positions {
  import opened Prelude
  import opened Ledger
  import opened Rounding
  import opened Conservation
  import opened Frames
  import opened Redelivery
  import opened Lifetimes

  function SharesIn(positions: map<Id, Position>, id: Id): int {
    if id in positions then positions[id].shares else 0
  }

  function BookIn(positions: map<Id, Position>, id: Id): int {
    if id in positions then positions[id].book else 0
  }

  // What a receipt says it moves, in its own figures.
  function SharesDelta(b: Body, id: Id): int {
    if b.Deposit? && b.positionId == id then b.sharesCredit
    else if b.Withdraw? && b.positionId == id then -b.sharesDebit
    else 0
  }

  // A deposit credits what was paid in less what was withheld.
  function Credited(b: Body, id: Id): int {
    if b.Deposit? && b.positionId == id then b.input - WithheldTotal(b.costs) else 0
  }

  // A withdrawal debits what was paid out and what was withheld.
  function Debited(b: Body, id: Id): int {
    if b.Withdraw? && b.positionId == id then b.cashCredit + WithheldTotal(b.costs) else 0
  }

  function Gained(b: Body, id: Id, pnlChange: int): int {
    if b.Accrue? && b.positionId == id then pnlChange else 0
  }

  predicate AtIndex(positions: map<Id, Position>, id: Id, num: int, den: int) {
    id in positions ==> positions[id].indexNum == num && positions[id].indexDen == den
  }

  /******* One receipt *******/

  lemma {:induction false} GapIsWithheld(s: Portfolio, r: Receipt, gap: int, t: Portfolio)
    requires ApplyCosts(s, r, gap) == Ok(t)
    ensures WithheldTotal(r.body.Costs()) == gap
    ensures t.positions == s.positions && t.pnl == s.pnl
  {
    hide ChargeAll;
    ChargeAllAdds(s, r, r.body.Costs(), ChargeAll(s, r, r.body.Costs()).value);
  }

  lemma {:induction false} DepositMoves(s: Portfolio, r: Receipt, t: Portfolio)
    requires r.body.Deposit? && ReceiptParses(r) && DepositEffect(s, r) == Ok(t)
    ensures var id := r.body.positionId;
            && id in t.positions
            && SharesIn(t.positions, id) == SharesIn(s.positions, id) + r.body.sharesCredit
            && BookIn(t.positions, id) == BookIn(s.positions, id) + Credited(r.body, id)
            && AtIndex(t.positions, id, r.body.indexNum, r.body.indexDen)
            && t.pnl == s.pnl
            && (id in s.positions ==> AtIndex(s.positions, id, r.body.indexNum, r.body.indexDen))
  {
    hide ApplyCosts, DebitCash, BookOf, RemainderOf;
    var b := r.body;
    var view := ViewOf(s, b.cashViewId).value;
    var debited := DebitCash(s, view.familyId, b.input).value;
    assert debited.positions == s.positions && debited.pnl == s.pnl by {
      DebitMoves(s, view.familyId, b.input, debited);
    }
    var start := if b.positionId in s.positions then s.positions[b.positionId]
                 else Position(view.networkId, b.instrumentId, view.assetId, 0, b.indexNum, b.indexDen, 0, 0,
                               r.sourceHashes[0], r.observedAt);
    var next := Revalue(start, start.shares + b.sharesCredit, b.indexNum, b.indexDen, r.sourceHashes[0], r.observedAt);
    var u := debited.(positions := debited.positions[b.positionId := next]);
    GapIsWithheld(u, r, b.input - (next.book - start.book), t);
  }

  // An accepted withdrawal, step by step: the position reduced or closed, the cash credited, the gap charged.
  lemma {:induction false} WithdrawSteps(s: Portfolio, r: Receipt, t: Portfolio)
    returns (reduced: Portfolio, family: Id, credited: Portfolio, next: Position)
    requires r.body.Withdraw? && ReceiptParses(r) && IndexesPositive(s.positions) && WithdrawEffect(s, r) == Ok(t)
    ensures r.body.positionId in s.positions
    ensures var x := s.positions[r.body.positionId];
            var left := x.shares - r.body.sharesDebit;
            && next.shares == left && next.indexNum == x.indexNum && next.indexDen == x.indexDen
            && reduced == s.(positions :=
                 if left == 0 then s.positions - {r.body.positionId} else s.positions[r.body.positionId := next])
            && CreditCash(reduced, family, r.body.cashCredit) == Ok(credited)
            && ApplyCosts(credited, r, x.book - (if left == 0 then 0 else next.book) - r.body.cashCredit) == Ok(t)
  {
    hide ApplyCosts, CreditCash, BookOf, RemainderOf;
    var b := r.body;
    var x := s.positions[b.positionId];
    var left := x.shares - b.sharesDebit;
    family := s.views[b.cashViewId].familyId;
    next := Revalue(x, left, x.indexNum, x.indexDen, r.sourceHashes[0], r.observedAt);
    reduced := s.(positions := if left == 0 then s.positions - {b.positionId} else s.positions[b.positionId := next]);
    credited := CreditCash(reduced, family, b.cashCredit).value;
  }

  lemma {:induction false} WithdrawMoves(s: Portfolio, r: Receipt, t: Portfolio)
    requires r.body.Withdraw? && ReceiptParses(r) && IndexesPositive(s.positions) && WithdrawEffect(s, r) == Ok(t)
    ensures var id := r.body.positionId;
            && id in s.positions
            && SharesIn(t.positions, id) == SharesIn(s.positions, id) - r.body.sharesDebit
            && BookIn(t.positions, id) == BookIn(s.positions, id) - Debited(r.body, id)
            && AtIndex(t.positions, id, s.positions[id].indexNum, s.positions[id].indexDen)
            && t.pnl == s.pnl
            && (id in t.positions <==> r.body.sharesDebit != s.positions[id].shares)
  {
    hide ApplyCosts, CreditCash, WithdrawEffect, ReceiptParses, WithheldTotal;
    var reduced, family, credited, next := WithdrawSteps(s, r, t);
    var x := s.positions[r.body.positionId];
    CreditMoves(reduced, family, r.body.cashCredit, credited);
    GapIsWithheld(credited, r, x.book - (if next.shares == 0 then 0 else next.book) - r.body.cashCredit, t);
  }

  lemma AccrueMoves(s: Portfolio, r: Receipt, t: Portfolio)
    requires r.body.Accrue? && ReceiptParses(r) && AccrueEffect(s, r) == Ok(t)
    ensures var id := r.body.positionId;
            && id in s.positions && id in t.positions
            && SharesIn(t.positions, id) == SharesIn(s.positions, id)
            && BookIn(t.positions, id) == BookIn(s.positions, id) + (t.pnl - s.pnl)
            && AtIndex(t.positions, id, r.body.nextNum, r.body.nextDen)
  {
  }

  // One accepted receipt moves a position by exactly what it says.
  lemma {:induction false} PositionStep(p: Portfolio, r: Receipt, q: Portfolio, id: Id)
    requires ApplyReceipt(p, r) == Ok(q) && !InHistory(p, r)
    ensures SharesIn(q.positions, id) == SharesIn(p.positions, id) + SharesDelta(r.body, id)
    ensures BookIn(q.positions, id) == BookIn(p.positions, id) + Credited(r.body, id) - Debited(r.body, id)
                                       + Gained(r.body, id, q.pnl - p.pnl)
    ensures !NamesPosition(r.body, id) ==> SameAt(p.positions, q.positions, id)
    ensures r.body.Deposit? && r.body.positionId == id ==> AtIndex(q.positions, id, r.body.indexNum, r.body.indexDen)
    ensures r.body.Withdraw? && r.body.positionId == id ==>
              id in p.positions && AtIndex(q.positions, id, p.positions[id].indexNum, p.positions[id].indexDen)
    ensures r.body.Accrue? && r.body.positionId == id ==>
              id in p.positions && id in q.positions && AtIndex(q.positions, id, r.body.nextNum, r.body.nextDen)
  {
    hide Valid, Admit, CostsAdded, Kept, DepositEffect, WithdrawEffect, AccrueEffect, WithheldTotal, ReceiptParses;
    AcceptedStep(p, r, q);
    var s := Effect(p, r).value;
    if NamesPosition(r.body, id) {
      match r.body
      case Deposit(_, _, _, _, _, _, _, _) => DepositMoves(p, r, s);
      case Withdraw(_, _, _, _, _) => WithdrawMoves(p, r, s);
      case Accrue(_, _, _, _) => AccrueMoves(p, r, s);
    } else {
      assert SameAt(p.positions, q.positions, id);
    }
  }

  /******* Runs *******/

  datatype Flows = Flows(shares: int, credits: int, debits: int, gains: int)

  // What one delivery adds; a repeated delivery adds nothing.
  ghost function FlowsAt(p: Portfolio, r: Receipt, id: Id): Flows {
    if InHistory(p, r) || ApplyReceipt(p, r).Err? then Flows(0, 0, 0, 0)
    else Flows(SharesDelta(r.body, id), Credited(r.body, id), Debited(r.body, id),
               Gained(r.body, id, ApplyReceipt(p, r).value.pnl - p.pnl))
  }

  ghost function FlowsOver(p: Portfolio, rs: seq<Receipt>, id: Id): Flows {
    if rs == [] then Flows(0, 0, 0, 0)
    else
      var f := FlowsOver(p, rs[..|rs| - 1], id);
      var earlier := Replay(p, rs[..|rs| - 1]);
      if earlier.Err? then f
      else
        var g := FlowsAt(earlier.value, rs[|rs| - 1], id);
        Flows(f.shares + g.shares, f.credits + g.credits, f.debits + g.debits, f.gains + g.gains)
  }

  // Over any accepted run a position's book is what it was, plus what deposits credited and accruals gained, less
  // what withdrawals debited.
  lemma {:induction false} BookIsWhatFlowed(p: Portfolio, rs: seq<Receipt>, q: Portfolio, id: Id)
    requires Replay(p, rs) == Ok(q)
    ensures var f := FlowsOver(p, rs, id);
            && SharesIn(q.positions, id) == SharesIn(p.positions, id) + f.shares
            && BookIn(q.positions, id) == BookIn(p.positions, id) + f.credits - f.debits + f.gains
  {
    hide ApplyReceipt, Valid, SharesIn, BookIn, SharesDelta, Credited, Debited, Gained, InHistory;
    if rs != [] {
      var n := |rs| - 1;
      var earlier := Replay(p, rs[..n]).value;
      BookIsWhatFlowed(p, rs[..n], earlier, id);
      if InHistory(earlier, rs[n]) {
        StepShape(earlier, rs[n], q);
      } else {
        PositionStep(earlier, rs[n], q, id);
      }
    }
  }

  // A position opened and run to zero pays out and withholds exactly what was credited to it plus its accrual PnL.
  lemma {:induction false} RunToZero(p: Portfolio, rs: seq<Receipt>, q: Portfolio, id: Id)
    requires Replay(p, rs) == Ok(q) && id !in p.positions && id !in q.positions
    ensures FlowsOver(p, rs, id).debits == FlowsOver(p, rs, id).credits + FlowsOver(p, rs, id).gains
    ensures FlowsOver(p, rs, id).shares == 0
  {
    hide Replay, FlowsOver;
    BookIsWhatFlowed(p, rs, q, id);
  }

  /******* One index: how it was split does not matter *******/

  // The receipts neither accrue the position nor deposit into it at another index.
  predicate AtOneIndex(rs: seq<Receipt>, id: Id, num: int, den: int) {
    forall i | 0 <= i < |rs| ::
      && !(rs[i].body.Accrue? && rs[i].body.positionId == id)
      && (rs[i].body.Deposit? && rs[i].body.positionId == id ==>
            rs[i].body.indexNum == num && rs[i].body.indexDen == den)
  }

  lemma {:induction false} StaysAtIndex(p: Portfolio, rs: seq<Receipt>, q: Portfolio, id: Id, num: int, den: int)
    requires Replay(p, rs) == Ok(q) && AtOneIndex(rs, id, num, den) && AtIndex(p.positions, id, num, den)
    ensures AtIndex(q.positions, id, num, den)
  {
    hide ApplyReceipt, Valid;
    if rs != [] {
      var n := |rs| - 1;
      var earlier := Replay(p, rs[..n]).value;
      StaysAtIndex(p, rs[..n], earlier, id, num, den);
      if InHistory(earlier, rs[n]) {
        StepShape(earlier, rs[n], q);
      } else {
        PositionStep(earlier, rs[n], q, id);
      }
    }
  }

  // The book and remainder a position carries are what mulDiv gives with FLOOR rounding.
  lemma BookIsFloorOfProduct(shares: int, num: int, den: int)
    requires IsUInt(shares) && IsUInt(num) && IsPositiveUInt(den)
    ensures MulDiv(shares, num, den, Down).Ok? <==> IsUInt(BookOf(shares, num, den))
    ensures MulDiv(shares, num, den, Down).Ok? ==>
              && MulDiv(shares, num, den, Down).value.value == BookOf(shares, num, den)
              && MulDiv(shares, num, den, Down).value.remainder == RemainderOf(shares, num, den)
  {
  }

  lemma BookOfNothing(num: int, den: int)
    requires 0 < den
    ensures BookOf(0, num, den) == 0
  {
  }

  lemma {:induction false} ValidBook(p: Portfolio, id: Id, num: int, den: int)
    requires Valid(p) && AtIndex(p.positions, id, num, den) && 0 < den
    ensures BookIn(p.positions, id) == BookOf(SharesIn(p.positions, id), num, den)
    ensures id in p.positions ==> p.positions[id].remainder == RemainderOf(p.positions[id].shares, num, den)
                                  && 0 < p.positions[id].shares
  {
    hide BookOf, RemainderOf, HistoryHolds, FamiliesHold, ReservationsHold, ReceivablesHold, Sum;
    BookOfNothing(num, den);
    if id in p.positions { assert IndexDerived(p.positions[id]); }
  }

  // Any two accepted splits of the same net shares at one index end in the same shares, book and remainder.
  lemma {:induction false} AnySplitSameBook(p: Portfolio, rs: seq<Receipt>, q: Portfolio, rs': seq<Receipt>,
      q': Portfolio, id: Id, num: int, den: int)
    requires 0 < den && AtIndex(p.positions, id, num, den)
    requires Replay(p, rs) == Ok(q) && AtOneIndex(rs, id, num, den)
    requires Replay(p, rs') == Ok(q') && AtOneIndex(rs', id, num, den)
    requires FlowsOver(p, rs, id).shares == FlowsOver(p, rs', id).shares
    ensures SharesIn(q.positions, id) == SharesIn(q'.positions, id)
    ensures BookIn(q.positions, id) == BookIn(q'.positions, id) == BookOf(SharesIn(q.positions, id), num, den)
    ensures id in q.positions <==> id in q'.positions
    ensures id in q.positions ==> q.positions[id].remainder == q'.positions[id].remainder
  {
    hide Replay, FlowsOver, Valid, AtOneIndex, BookOf, RemainderOf;
    BookIsWhatFlowed(p, rs, q, id);
    BookIsWhatFlowed(p, rs', q', id);
    StaysAtIndex(p, rs, q, id, num, den);
    StaysAtIndex(p, rs', q', id, num, den);
    RunGrowsHistory(p, rs, q);
    RunGrowsHistory(p, rs', q');
    ValidBook(q, id, num, den);
    ValidBook(q', id, num, den);
  }

  /******* Accruals: only the last index matters *******/

  predicate OnlyAccrues(rs: seq<Receipt>, id: Id) {
    forall i | 0 <= i < |rs| :: NamesPosition(rs[i].body, id) ==> rs[i].body.Accrue?
  }

  lemma {:induction false} AccrualsKeepShares(p: Portfolio, rs: seq<Receipt>, q: Portfolio, id: Id)
    requires Replay(p, rs) == Ok(q) && OnlyAccrues(rs, id) && id in p.positions
    ensures id in q.positions && q.positions[id].shares == p.positions[id].shares
    ensures FlowsOver(p, rs, id).credits == 0 && FlowsOver(p, rs, id).debits == 0
  {
    hide ApplyReceipt, Valid;
    if rs != [] {
      var n := |rs| - 1;
      var earlier := Replay(p, rs[..n]).value;
      AccrualsKeepShares(p, rs[..n], earlier, id);
      if InHistory(earlier, rs[n]) {
        StepShape(earlier, rs[n], q);
      } else {
        PositionStep(earlier, rs[n], q, id);
      }
    }
  }

  // Accruing through any indices leaves the book the last index gives alone, and the PnL it gained on the way is
  // the difference of the two books.
  lemma {:induction false} OnlyTheLastIndexMatters(p: Portfolio, rs: seq<Receipt>, q: Portfolio, id: Id)
    requires Replay(p, rs) == Ok(q) && OnlyAccrues(rs, id) && id in p.positions
    ensures id in q.positions && 0 < q.positions[id].indexDen
    ensures q.positions[id].book == BookOf(p.positions[id].shares, q.positions[id].indexNum, q.positions[id].indexDen)
    ensures FlowsOver(p, rs, id).gains == q.positions[id].book - p.positions[id].book
  {
    hide Replay, FlowsOver, Valid, OnlyAccrues, BookOf;
    AccrualsKeepShares(p, rs, q, id);
    BookIsWhatFlowed(p, rs, q, id);
    RunGrowsHistory(p, rs, q);
    DerivedPosition(q, id);
    ValidBook(q, id, q.positions[id].indexNum, q.positions[id].indexDen);
  }

  lemma {:induction false} DerivedPosition(p: Portfolio, id: Id)
    requires Valid(p) && id in p.positions
    ensures IndexDerived(p.positions[id])
  {
    hide HistoryHolds, FamiliesHold, ReservationsHold, ReceivablesHold, Sum, IndexDerived;
  }

  // The pair a position's value is a multiple of.
  datatype Index = Index(num: int, den: int)

  function IndexIn(positions: map<Id, Position>, id: Id): Index
    requires id in positions
  {
    Index(positions[id].indexNum, positions[id].indexDen)
  }

  // The index of the last accrual of a position in a stream, or the given one if there is none.
  function LastAccrued(rs: seq<Receipt>, id: Id, before: Index): Index {
    if rs == [] then before
    else
      var last := rs[|rs| - 1].body;
      if last.Accrue? && last.positionId == id then Index(last.nextNum, last.nextDen)
      else LastAccrued(rs[..|rs| - 1], id, before)
  }

  // The index a run should leave a position at: that of the last accrual it delivered for the first time.
  function LastIndex(p: Portfolio, rs: seq<Receipt>, id: Id): Index
    requires id in p.positions
  {
    LastAccrued(Once(p, rs), id, IndexIn(p.positions, id))
  }

  lemma {:induction false} RunEndsAtLastIndex(p: Portfolio, rs: seq<Receipt>, q: Portfolio, id: Id)
    requires Replay(p, rs) == Ok(q) && OnlyAccrues(rs, id) && id in p.positions
    ensures id in q.positions && IndexIn(q.positions, id) == LastIndex(p, rs, id)
  {
    hide ApplyReceipt, Valid, SharesIn, BookIn, Credited, Debited, SharesDelta, Gained;
    AccrualsKeepShares(p, rs, q, id);
    if rs != [] {
      var n := |rs| - 1;
      var m := Replay(p, rs[..n]).value;
      AccrualsKeepShares(p, rs[..n], m, id);
      RunEndsAtLastIndex(p, rs[..n], m, id);
      FirstDeliveriesAreConsecutive(p, rs[..n], m);
      var earlier := Once(p, rs[..n]);
      assert InHistory(m, rs[n]) <==> InHistory(p, rs[n]) || rs[n] in earlier;
      if InHistory(m, rs[n]) {
        StepShape(m, rs[n], q);
      } else {
        PositionStep(m, rs[n], q, id);
        assert (earlier + [rs[n]])[..|earlier|] == earlier;
      }
    }
  }

  // Two accrual-only runs whose last delivered indices agree leave the same book and remainder and gained the same.
  lemma {:induction false} SameLastIndexSameBook(p: Portfolio, rs: seq<Receipt>, q: Portfolio, rs': seq<Receipt>,
      q': Portfolio, id: Id)
    requires id in p.positions && LastIndex(p, rs, id) == LastIndex(p, rs', id)
    requires Replay(p, rs) == Ok(q) && OnlyAccrues(rs, id)
    requires Replay(p, rs') == Ok(q') && OnlyAccrues(rs', id)
    ensures id in q.positions && id in q'.positions
    ensures q.positions[id].book == q'.positions[id].book && q.positions[id].remainder == q'.positions[id].remainder
    ensures FlowsOver(p, rs, id).gains == FlowsOver(p, rs', id).gains
  {
    hide Replay, FlowsOver, Valid, OnlyAccrues, BookOf, RemainderOf, LastIndex;
    RunEndsAtLastIndex(p, rs, q, id);
    RunEndsAtLastIndex(p, rs', q', id);
    OnlyTheLastIndexMatters(p, rs, q, id);
    OnlyTheLastIndexMatters(p, rs', q', id);
    AccrualsKeepShares(p, rs, q, id);
    AccrualsKeepShares(p, rs', q', id);
    RunGrowsHistory(p, rs, q);
    RunGrowsHistory(p, rs', q');
    ValidBook(q, id, q.positions[id].indexNum, q.positions[id].indexDen);
    ValidBook(q', id, q'.positions[id].indexNum, q'.positions[id].indexDen);
  }

  // In particular the run might as well have been its last accrual alone.
  lemma {:induction false} OneAccrualInstead(p: Portfolio, rs: seq<Receipt>, q: Portfolio, one: Receipt, q': Portfolio,
      id: Id)
    requires Replay(p, rs) == Ok(q) && OnlyAccrues(rs, id) && id in p.positions
    requires ApplyReceipt(p, one) == Ok(q') && !InHistory(p, one)
    requires one.body.Accrue? && one.body.positionId == id
    requires LastIndex(p, rs, id) == Index(one.body.nextNum, one.body.nextDen)
    ensures id in q.positions && id in q'.positions
    ensures q.positions[id].book == q'.positions[id].book && q.positions[id].remainder == q'.positions[id].remainder
    ensures FlowsOver(p, rs, id).gains == q'.pnl - p.pnl
  {
    hide ApplyReceipt, Valid, SharesIn, BookIn;
    RunGrowsHistory(p, rs, q);
    assert [one][..0] == [] && Replay(p, []) == Ok(p);
    assert Once(p, []) == [] && Once(p, [one]) == [one];
    SameLastIndexSameBook(p, rs, q, [one], q', id);
    assert FlowsOver(p, [one], id) == FlowsAt(p, one, id);
  }
}
