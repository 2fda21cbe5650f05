// The ledger as the source runs it: a cloned portfolio edited in place, one receipt at a time.
module Accounting {
  import opened Prelude
  import L = Ledger
  import Conserved = Conservation

  // A step of the in-place code reached what the specification says: the new state, or the error it threw.
  ghost predicate Reached(spec: Result<L.Portfolio>, state: L.Portfolio, error: Option<ErrorCode>) {
    spec == if error.None? then Ok(state) else Err(error.value)
  }

  // A refused cost refuses every longer list of costs in the same way.
  lemma {:induction false} RefusalPersists(s: L.Portfolio, r: L.Receipt, costs: seq<L.Cost>, n: nat)
    requires n <= |costs| && L.ChargeAll(s, r, costs[..n]).Err?
    ensures L.ChargeAll(s, r, costs) == L.ChargeAll(s, r, costs[..n])
    decreases |costs| - n
  {
    hide L.ChargeOne;
    if n < |costs| {
      assert costs[..n + 1][..n] == costs[..n];
      RefusalPersists(s, r, costs, n + 1);
    } else {
      assert costs[..n] == costs;
    }
  }

  // structuredClone(original), with the helpers that write to it.
  class WorkingCopy {
    var state: L.Portfolio

    constructor (original: L.Portfolio)
      ensures state == original
    {
      state := original;
    }

    method DebitCash(family: Id, amount: int) returns (error: Option<ErrorCode>)
      modifies this
      ensures Reached(L.DebitCash(old(state), family, amount), state, error)
      ensures error.Some? ==> state == old(state)
    {
      if family !in state.cash { return Some(AccountingInvariant); }
      var available := state.cash[family].amount;
      if available < amount { return Some(InsufficientAvailableBalance); }
      state := state.(cash := state.cash[family := state.cash[family].(amount := available - amount)]);
      error := None;
    }

    method CreditCash(family: Id, amount: int) returns (error: Option<ErrorCode>)
      modifies this
      ensures Reached(L.CreditCash(old(state), family, amount), state, error)
      ensures error.Some? ==> state == old(state)
    {
      if family !in state.cash { return Some(AccountingInvariant); }
      var next := state.cash[family].amount + amount;
      if !IsUInt(next) { return Some(AccountingInvariant); }
      state := state.(cash := state.cash[family := state.cash[family].(amount := next)]);
      error := None;
    }

    method ChargeOne(r: L.Receipt, c: L.Cost) returns (error: Option<ErrorCode>)
      modifies this
      ensures Reached(L.ChargeOne(old(state), r, c), state, error)
    {
      if c.sourceHash !in r.sourceHashes { return Some(AccountingInvariant); }
      if c.costId in state.costs { return Some(OperationConflict); }
      match c.funding {
        case AvailableCash =>
          if c.cashFamily.None? { return Some(AccountingInvariant); }
          if c.cashFamily.value !in state.cash { return Some(AccountingInvariant); }
          if state.cash[c.cashFamily.value].networkId != c.networkId { return Some(AccountingInvariant); }
          error := DebitCash(c.cashFamily.value, c.amount);
          if error.Some? { return; }
        case OnPayable =>
          if c.cashFamily.Some? { return Some(AccountingInvariant); }
          state := state.(payables := state.payables[c.costId := L.FeePayable(c.networkId, c.amount)]);
        case Withheld =>
          if c.cashFamily.Some? { return Some(AccountingInvariant); }
      }
      state := state.(costs := state.costs[c.costId := L.RecognizedCost(c, r.operationId)]);
      error := None;
    }

    method ApplyCosts(r: L.Receipt, expectedWithheld: int) returns (error: Option<ErrorCode>)
      modifies this
      ensures Reached(L.ApplyCosts(old(state), r, expectedWithheld), state, error)
    {
      hide L.ChargeOne;
      var costs := r.body.Costs();
      if !L.DistinctCostIds(costs) { return Some(AccountingInvariant); }
      var withheld, i := 0, 0;
      while i < |costs|
        invariant 0 <= i <= |costs|
        invariant L.ChargeAll(old(state), r, costs[..i]) == Ok(state)
        invariant withheld == L.WithheldTotal(costs[..i])
      {
        assert costs[..i + 1][..i] == costs[..i];
        error := ChargeOne(r, costs[i]);
        if error.Some? {
          RefusalPersists(old(state), r, costs, i + 1);
          return;
        }
        if costs[i].funding.Withheld? {
          withheld := withheld + costs[i].amount;
        }
        i := i + 1;
      }
      assert costs[..i] == costs;
      error := if withheld != expectedWithheld then Some(AccountingInvariant) else None;
    }

    method Reserve(r: L.Receipt) returns (error: Option<ErrorCode>)
      requires r.body.Reserve?
      modifies this
      ensures Reached(L.ReserveEffect(old(state), r), state, error)
    {
      var b := r.body;
      if b.costs != [] { return Some(AccountingInvariant); }
      if b.reservationId in state.reservations { return Some(AccountingInvariant); }
      if b.cashViewId !in state.views { return Some(AccountingInvariant); }
      var view := state.views[b.cashViewId];
      error := DebitCash(view.familyId, b.amount);
      if error.Some? { return; }
      state := state.(reservations := state.reservations[b.reservationId :=
        L.Reservation(r.operationId, view.familyId, view.networkId, view.assetId, b.amount)]);
    }

    method Approve(r: L.Receipt) returns (error: Option<ErrorCode>)
      requires r.body.Approve?
      modifies this
      ensures Reached(L.ApproveEffect(old(state), r), state, error)
    {
      hide L.ApplyCosts;
      var b := r.body;
      var allowances := state.allowances;
      var known := b.allowanceId in allowances;
      if known && allowances[b.allowanceId].amount >= b.amount {
        if b.costs != [] { return Some(AccountingInvariant); }
      } else {
        error := ApplyCosts(r, 0);
        if error.Some? { return; }
      }
      if known && (allowances[b.allowanceId].networkId != b.networkId
                   || allowances[b.allowanceId].assetId != b.assetId
                   || allowances[b.allowanceId].spenderId != b.spenderId) {
        return Some(AccountingInvariant);
      }
      state := state.(allowances := state.allowances[b.allowanceId :=
        L.Allowance(b.networkId, b.assetId, b.spenderId, b.amount)]);
      error := None;
    }

    method Deposit(r: L.Receipt) returns (error: Option<ErrorCode>)
      requires r.body.Deposit? && L.ReceiptParses(r)
      modifies this
      ensures Reached(L.DepositEffect(old(state), r), state, error)
    {
      hide L.ApplyCosts, L.BookOf, L.RemainderOf;
      var b := r.body;
      if b.cashViewId !in state.views { return Some(AccountingInvariant); }
      var view := state.views[b.cashViewId];
      error := DebitCash(view.familyId, b.input);
      if error.Some? { return; }
      var position: L.Position;
      if b.positionId in state.positions {
        position := state.positions[b.positionId];
        if position.networkId != view.networkId || position.instrumentId != b.instrumentId
           || position.assetId != view.assetId || position.indexNum != b.indexNum || position.indexDen != b.indexDen {
          return Some(AccountingInvariant);
        }
      } else {
        position := L.Position(view.networkId, b.instrumentId, view.assetId, 0, b.indexNum, b.indexDen, 0, 0,
                               r.sourceHashes[0], r.observedAt);
      }
      var beforeBook := position.book;
      var shares := position.shares + b.sharesCredit;
      if !IsUInt(shares) { return Some(AccountingInvariant); }
      position := L.Revalue(position, shares, b.indexNum, b.indexDen, r.sourceHashes[0], r.observedAt);
      if !IsUInt(position.book) { return Some(AccountingInvariant); }
      var credit := position.book - beforeBook;
      if credit > b.input { return Some(AccountingInvariant); }
      state := state.(positions := state.positions[b.positionId := position]);
      error := ApplyCosts(r, b.input - credit);
    }

    method Withdraw(r: L.Receipt) returns (error: Option<ErrorCode>)
      requires r.body.Withdraw? && L.ReceiptParses(r) && L.IndexesPositive(state.positions)
      modifies this
      ensures Reached(L.WithdrawEffect(old(state), r), state, error)
    {
      hide L.ApplyCosts, L.BookOf, L.RemainderOf, L.CreditCash;
      var b := r.body;
      if b.cashViewId !in state.views { return Some(AccountingInvariant); }
      var view := state.views[b.cashViewId];
      if b.positionId !in state.positions { return Some(InvalidTransition); }
      var position := state.positions[b.positionId];
      if position.networkId != view.networkId || position.assetId != view.assetId { return Some(AccountingInvariant); }
      if b.sharesDebit > position.shares { return Some(InvalidTransition); }
      var beforeBook, left, afterBook := position.book, position.shares - b.sharesDebit, 0;
      if left == 0 {
        state := state.(positions := state.positions - {b.positionId});
      } else {
        position := L.Revalue(position, left, position.indexNum, position.indexDen, r.sourceHashes[0], r.observedAt);
        if !IsUInt(position.book) { return Some(AccountingInvariant); }
        afterBook := position.book;
        state := state.(positions := state.positions[b.positionId := position]);
      }
      var bookDebit := beforeBook - afterBook;
      if b.cashCredit > bookDebit { return Some(AccountingInvariant); }
      error := CreditCash(view.familyId, b.cashCredit);
      if error.Some? { return; }
      error := ApplyCosts(r, bookDebit - b.cashCredit);
    }

    method Swap(r: L.Receipt) returns (error: Option<ErrorCode>)
      requires r.body.Swap?
      modifies this
      ensures Reached(L.SwapEffect(old(state), r), state, error)
    {
      hide L.ApplyCosts, L.CreditCash, L.DebitCash;
      var b := r.body;
      if b.sourceViewId !in state.views || b.destinationViewId !in state.views { return Some(AccountingInvariant); }
      var source, destination := state.views[b.sourceViewId], state.views[b.destinationViewId];
      if source.familyId == destination.familyId || source.networkId != destination.networkId
         || b.destinationCredit > b.sourceDebit {
        return Some(AccountingInvariant);
      }
      error := DebitCash(source.familyId, b.sourceDebit);
      if error.Some? { return; }
      error := CreditCash(destination.familyId, b.destinationCredit);
      if error.Some? { return; }
      error := ApplyCosts(r, b.sourceDebit - b.destinationCredit);
    }

    method SettlePayable(r: L.Receipt) returns (error: Option<ErrorCode>)
      requires r.body.PayableSettled?
      modifies this
      ensures Reached(L.PayableSettledEffect(old(state), r), state, error)
    {
      var b := r.body;
      if b.cashViewId !in state.views { return Some(AccountingInvariant); }
      var view := state.views[b.cashViewId];
      if b.payableId !in state.payables { return Some(PayableNotFound); }
      var payable := state.payables[b.payableId];
      if payable.networkId != view.networkId { return Some(AccountingInvariant); }
      error := DebitCash(view.familyId, payable.amount);
      if error.Some? { return; }
      state := state.(payables := state.payables - {b.payableId});
    }

    method FailSource(r: L.Receipt) returns (error: Option<ErrorCode>)
      requires r.body.TransferSourceFailed?
      modifies this
      ensures Reached(L.SourceFailedEffect(old(state), r), state, error)
    {
      hide L.ApplyCosts, L.CreditCash;
      var id := r.body.reservationId;
      if id !in state.reservations { return Some(InvalidTransition); }
      var reservation := state.reservations[id];
      var withheld := L.WithheldTotal(r.body.costs);
      if withheld > reservation.amount { return Some(AccountingInvariant); }
      state := state.(reservations := state.reservations - {id});
      error := CreditCash(reservation.familyId, reservation.amount - withheld);
      if error.Some? { return; }
      error := ApplyCosts(r, withheld);
    }

    method Burn(r: L.Receipt) returns (error: Option<ErrorCode>)
      requires r.body.TransferBurned?
      modifies this
      ensures Reached(L.BurnedEffect(old(state), r), state, error)
    {
      hide L.ApplyCosts;
      var b := r.body;
      if b.reservationId !in state.reservations { return Some(InvalidTransition); }
      if b.transferId in state.receivables
         || exists k | k in state.receivables :: state.receivables[k].messageIdentity == b.messageIdentity {
        return Some(AccountingInvariant);
      }
      var reservation := state.reservations[b.reservationId];
      if b.destinationViewId !in state.views { return Some(AccountingInvariant); }
      var destination := state.views[b.destinationViewId];
      if destination.networkId != b.destinationNetworkId || reservation.networkId == destination.networkId
         || b.netReceivable > reservation.amount {
        return Some(AccountingInvariant);
      }
      state := state.(reservations := state.reservations - {b.reservationId});
      state := state.(receivables := state.receivables[b.transferId :=
        L.Receivable(b.messageIdentity, reservation.networkId, b.destinationNetworkId, destination.familyId,
                     b.netReceivable, L.InTransit, 0, r.observedAt, r.observedAt)]);
      error := ApplyCosts(r, reservation.amount - b.netReceivable);
    }

    // applyCosts, then the receivable's new state and update time.
    method Move(r: L.Receipt, id: Id, x: L.Receivable) returns (error: Option<ErrorCode>)
      modifies this
      ensures Reached(L.MoveReceivable(old(state), r, id, x), state, error)
    {
      hide L.ApplyCosts;
      error := ApplyCosts(r, 0);
      if error.Some? { return; }
      state := state.(receivables := state.receivables[id := x.(updatedAt := r.observedAt)]);
    }

    method MoveReceivable(r: L.Receipt) returns (error: Option<ErrorCode>)
      requires r.body.MovesReceivable()
      modifies this
      ensures Reached(L.ReceivableEffect(old(state), r), state, error)
    {
      hide L.ApplyCosts, L.CreditCash, L.MoveReceivable;
      var id := r.body.transferId;
      if id !in state.receivables { return Some(InvalidTransition); }
      var x := state.receivables[id];
      if r.observedAt < x.updatedAt { return Some(InvalidTransition); }
      match r.body {
        case TransferReady(_, _) =>
          if x.state.ReadyToReceive? { return Some(InvalidTransition); }
          if x.state.DestinationRetry? && x.attempts >= state.maxDestinationAttempts { return Some(InvalidTransition); }
          error := Move(r, id, x.(state := L.ReadyToReceive));
        case TransferDelayed(_, _) =>
          if !x.state.InTransit? { return Some(InvalidTransition); }
          error := Move(r, id, x.(state := L.Delayed));
        case TransferRetry(_, _) =>
          if !x.state.ReadyToReceive? || x.attempts >= state.maxDestinationAttempts { return Some(InvalidTransition); }
          if !IsUInt(x.attempts + 1) { return Some(AccountingInvariant); }
          error := Move(r, id, x.(state := L.DestinationRetry, attempts := x.attempts + 1));
        case TransferSettled(_, credit, _) =>
          if !x.state.ReadyToReceive? { return Some(InvalidTransition); }
          if credit > x.amount { return Some(AccountingInvariant); }
          error := CreditCash(x.destinationFamilyId, credit);
          if error.Some? { return; }
          state := state.(receivables := state.receivables - {id});
          error := ApplyCosts(r, x.amount - credit);
      }
    }

    method Accrue(r: L.Receipt) returns (error: Option<ErrorCode>)
      requires r.body.Accrue? && L.ReceiptParses(r)
      modifies this
      ensures Reached(L.AccrueEffect(old(state), r), state, error)
    {
      hide L.BookOf, L.RemainderOf;
      var b := r.body;
      if b.costs != [] { return Some(AccountingInvariant); }
      if b.positionId !in state.positions { return Some(InvalidTransition); }
      var position := state.positions[b.positionId];
      if r.observedAt <= position.lastObservedAt { return Some(InvalidTransition); }
      var before := position.book;
      position := L.Revalue(position, position.shares, b.nextNum, b.nextDen, r.sourceHashes[0], r.observedAt);
      if !IsUInt(position.book) { return Some(AccountingInvariant); }
      state := state.(positions := state.positions[b.positionId := position]);
      state := state.(pnl := state.pnl + (position.book - before));
      error := None;
    }

    method Close(r: L.Receipt) returns (error: Option<ErrorCode>)
      requires r.body.Close?
      modifies this
      ensures Reached(L.CloseEffect(old(state), r), state, error)
    {
      if r.body.closedAt != r.observedAt { return Some(AccountingInvariant); }
      var original := state;
      state := state.(closedAt := Some(r.body.closedAt));
      state := state.(deadlineState := Some(original));
      error := None;
    }

    method ApplyEffect(r: L.Receipt) returns (error: Option<ErrorCode>)
      requires L.ReceiptParses(r) && L.IndexesPositive(state.positions)
      modifies this
      ensures Reached(L.Effect(old(state), r), state, error)
    {
      hide L.ReserveEffect, L.ApplyCosts, L.ApproveEffect, L.DepositEffect, L.WithdrawEffect, L.SwapEffect;
      hide L.PayableSettledEffect, L.SourceFailedEffect, L.BurnedEffect, L.ReceivableEffect, L.AccrueEffect,
          L.CloseEffect;
      match r.body {
        case NoEffect => error := None;
        case Reserve(_, _, _, _) => error := Reserve(r);
        case CostOnly(_) => error := ApplyCosts(r, 0);
        case Approve(_, _, _, _, _, _) => error := Approve(r);
        case Deposit(_, _, _, _, _, _, _, _) => error := Deposit(r);
        case Withdraw(_, _, _, _, _) => error := Withdraw(r);
        case Swap(_, _, _, _, _) => error := Swap(r);
        case PayableSettled(_, _) => error := SettlePayable(r);
        case TransferSourceFailed(_, _) => error := FailSource(r);
        case TransferBurned(_, _, _, _, _, _, _) => error := Burn(r);
        case TransferReady(_, _) => error := MoveReceivable(r);
        case TransferDelayed(_, _) => error := MoveReceivable(r);
        case TransferRetry(_, _) => error := MoveReceivable(r);
        case TransferSettled(_, _, _) => error := MoveReceivable(r);
        case Accrue(_, _, _, _) => error := Accrue(r);
        case Close(_) => error := Close(r);
      }
    }
  }

  // assertPortfolio, with its totals accumulated by loops.
  method AssertPortfolio(p: L.Portfolio) returns (valid: bool)
    ensures valid == L.Valid(p)
  {
    hide L.Structured;
    var cash := Total(p.cash, L.CashAmount);
    var reserved := Total(p.reservations, L.ReservedAmount);
    var positions := Total(p.positions, L.PositionBook);
    var receivables := Total(p.receivables, L.ReceivableAmount);
    var liabilities := Total(p.payables, L.PayableAmount);
    var costs := Total(p.costs, L.CostAmount);
    var gross := cash + reserved + positions + receivables;
    valid := L.Structured(p) && liabilities <= gross && gross - liabilities == p.initialValue + p.pnl - costs;
  }

  method ApplyReceipt(original: L.Portfolio, r: L.Receipt) returns (result: Result<L.Portfolio>)
    ensures result == L.ApplyReceipt(original, r)
  {
    hide L.Effect, L.Valid, L.Coherent, L.ReceiptParses;
    var valid := AssertPortfolio(original);
    if !valid { return Err(AccountingInvariant); }
    if !L.ReceiptParses(r) { return Err(SchemaRejected); }
    var prior := L.FindApplied(original.applied, r.operationId);
    if prior.Some? {
      return if prior.value != r then Err(OperationConflict) else Ok(original);
    }
    var admitted := L.Admit(original, r);
    if admitted.Err? { return Err(admitted.code); }
    ValidIndexes(original);
    var copy := new WorkingCopy(original);
    var error := copy.ApplyEffect(r);
    if error.Some? { return Err(error.value); }
    var version := original.version + 1;
    SameVersion(original, r, copy.state);
    copy.state := copy.state.(version := version);
    copy.state := copy.state.(lastAppliedAt := Some(r.observedAt));
    copy.state := copy.state.(applied := copy.state.applied + [L.Applied(r, version)]);
    valid := AssertPortfolio(copy.state);
    result := if valid then Ok(copy.state) else Err(AccountingInvariant);
  }

  lemma {:induction false} ValidIndexes(p: L.Portfolio)
    requires L.Valid(p)
    ensures L.IndexesPositive(p.positions)
  {
    hide L.Imbalance, L.Gross, L.HistoryHolds, L.FamiliesHold;
  }

  lemma {:induction false} SameVersion(p: L.Portfolio, r: L.Receipt, s: L.Portfolio)
    requires L.Valid(p) && L.ReceiptParses(r) && L.IndexesPositive(p.positions) && L.Effect(p, r) == Ok(s)
    ensures s.version == p.version
  {
    hide L.Effect, L.Imbalance;
    Backed(p);
    Conserved.EffectBalances(p, r, s);
  }

  lemma {:induction false} Backed(p: L.Portfolio)
    requires L.Valid(p)
    ensures Conserved.PayablesBacked(p)
  {
    hide L.Imbalance, L.Gross, L.HistoryHolds, L.FamiliesHold;
  }

  method Replay(initial: L.Portfolio, receipts: seq<L.Receipt>) returns (result: Result<L.Portfolio>)
    ensures result == L.Replay(initial, receipts)
  {
    hide L.ApplyReceipt, L.Valid;
    var valid := AssertPortfolio(initial);
    if !valid {
      ReplayRefusalPersists(initial, receipts, 0);
      return Err(AccountingInvariant);
    }
    var state, i := initial, 0;
    while i < |receipts|
      invariant 0 <= i <= |receipts|
      invariant L.Replay(initial, receipts[..i]) == Ok(state)
    {
      assert receipts[..i + 1][..i] == receipts[..i];
      var next := ApplyReceipt(state, receipts[i]);
      if next.Err? {
        ReplayRefusalPersists(initial, receipts, i + 1);
        return next;
      }
      state := next.value;
      i := i + 1;
    }
    assert receipts[..i] == receipts;
    result := Ok(state);
  }

  // A stream that has been refused stays refused with the same code.
  lemma {:induction false} ReplayRefusalPersists(p: L.Portfolio, rs: seq<L.Receipt>, n: nat)
    requires n <= |rs| && L.Replay(p, rs[..n]).Err?
    ensures L.Replay(p, rs) == Err(L.Replay(p, rs[..n]).code)
    decreases |rs| - n
  {
    hide L.ApplyReceipt, L.Valid;
    if n < |rs| {
      assert rs[..n + 1][..n] == rs[..n];
      ReplayRefusalPersists(p, rs, n + 1);
    } else {
      assert rs[..n] == rs;
    }
  }
}
