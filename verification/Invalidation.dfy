// An invalidated transfer's capital stays where it was, whatever any writer does afterwards.
module Invalidation {
  import opened Prelude
  import opened Transfers
  import opened TransferStore
  import opened Joint
  import opened JointRuns
  import L = Ledger
  import F = Frames

  /******* The invariant needs no flow of its own *******/

  // Wherever a linked transfer's capital is, some flow of it fits.
  lemma {:induction false} FittingFlow(t: Transfer, p: L.Portfolio) returns (f: Flow)
    requires Linked(t, p) && 0 <= t.amount
    ensures FlowFits(t, p, f)
  {
    f := if HasReservation(t, p) then Flow(t.amount, 0, 0)
         else if HasReceivable(t, p) then Flow(t.amount, 0, t.amount - t.netReceivable)
         else if t.state.Settled? then Flow(t.amount, t.netReceivable, t.amount - t.netReceivable)
         else if t.state.SourceFailed? then Flow(t.amount, t.amount, 0)
         else Flow(0, 0, 0);
  }

  lemma {:induction false} EventsParseTheirTransfer(t: Transfer, e: Event)
    requires ApplyTransferEvent(t, e).Ok?
    ensures 0 <= t.amount
  {
    hide VerifyEvidence, NextState;
  }

  lemma {:induction false} StepKeepsInv(st: Store, step: Step)
    requires Inv(st) && DistinctReservations(After(st, step))
    ensures Inv(After(st, step))
  {
    hide AppendEvent, Create, L.ApplyReceipt, Owned, Linked, FlowFits, ApplyTransferEvent;
    StepKeepsIdentities(st, step);
    if Attempt(st, step).Ok? {
      match step
      case CreateStep(d) =>
        DistinctIsOffBooks(st, d);
        CreateKeeps(st, d, "", Flow(0, 0, 0));
      case LocalStep(key, r) => LocalKeeps(st, key, r, "", Flow(0, 0, 0));
      case AppendStep(at, e, costs) =>
        var f := Flow(0, 0, 0);
        if e.eventId !in st.events && at in st.transfers {
          AppendShape(st, at, e, costs, Attempt(st, step).value);
          EventsParseTheirTransfer(st.transfers[at], e);
          f := FittingFlow(st.transfers[at], st.scenarios[KeyOf(st.transfers[at])]);
        }
        AppendKeeps(st, at, e, costs, at, f, f);
    }
  }

  /******* One step *******/

  // The lifecycle leaves no way out of invalidation, and what it still takes moves no money.
  lemma {:induction false} InvalidationIsFinal(t: Transfer, e: Event, after: Transfer)
    requires t.state.Invalidated? && ApplyTransferEvent(t, e) == Ok(after)
    ensures after.state.Invalidated? && (e.kind.DependencyInvalidated? || e.kind.ClosureRecorded?)
  {
    hide VerifyEvidence, TransferParses;
  }

  // From one store to a later one: the transfer is still invalidated and its entries on its scenario's
  // books are exactly what they were.
  ghost predicate CapitalFrozen(st: Store, later: Store, id: Id) {
    && id in st.transfers && KeyOf(st.transfers[id]) in st.scenarios
    && id in later.transfers && later.transfers[id].state.Invalidated?
    && KeyOf(later.transfers[id]) == KeyOf(st.transfers[id])
    && later.transfers[id].reservationId == st.transfers[id].reservationId
    && KeyOf(later.transfers[id]) in later.scenarios
    && var p, q := st.scenarios[KeyOf(st.transfers[id])], later.scenarios[KeyOf(st.transfers[id])];
    && F.SameAt(p.reservations, q.reservations, st.transfers[id].reservationId)
    && F.SameAt(p.receivables, q.receivables, id)
  }

  lemma {:induction false} OwnEventFreezes(st: Store, id: Id, e: Event, costs: seq<L.Cost>, f: Flow)
    requires Inv(st) && id in st.transfers && st.transfers[id].state.Invalidated?
    requires AppendEvent(st, id, e, costs).Ok?
    ensures CapitalFrozen(st, AppendEvent(st, id, e, costs).value, id)
    ensures FlowOfStep(st, AppendStep(id, e, costs), id, f) == f
  {
    hide ApplyTransferEvent, Linked, Owned, L.ApplyReceipt, AppendEvent;
    var st' := AppendEvent(st, id, e, costs).value;
    RepeatMovesNothing(st, id, id, f);
    if e.eventId in st.events {
      RepeatChangesNothing(st, id, e, costs);
    } else {
      AppendShape(st, id, e, costs, st');
      var t := st.transfers[id];
      var after := ApplyTransferEvent(t, e).value;
      IdentityKept(t, e, after);
      InvalidationIsFinal(t, e, after);
      assert st'.scenarios == st.scenarios;
    }
  }

  lemma {:induction false} RepeatChangesNothing(st: Store, id: Id, e: Event, costs: seq<L.Cost>)
    requires e.eventId in st.events && AppendEvent(st, id, e, costs).Ok?
    ensures AppendEvent(st, id, e, costs).value == st
  {
    hide ApplyTransferEvent, ReceiptFor, PostReceipt;
  }

  lemma {:induction false} OtherEventFreezes(st: Store, at: Id, e: Event, costs: seq<L.Cost>, id: Id)
    requires Inv(st) && DistinctReservations(st) && id in st.transfers && st.transfers[id].state.Invalidated?
    requires at != id && AppendEvent(st, at, e, costs).Ok?
    ensures CapitalFrozen(st, AppendEvent(st, at, e, costs).value, id)
  {
    hide ApplyTransferEvent, Linked, Owned, L.ApplyReceipt, AppendEvent, ReceiptFor;
    var st' := AppendEvent(st, at, e, costs).value;
    if e.eventId in st.events {
      RepeatChangesNothing(st, at, e, costs);
    } else {
      AppendShape(st, at, e, costs, st');
      var t, key := st.transfers[at], KeyOf(st.transfers[at]);
      var p := st.scenarios[key];
      var after := ApplyTransferEvent(t, e).value;
      var receipt := ReceiptFor(t, after, e, p.version, costs).value;
      IdentityKept(t, e, after);
      if receipt.Some? {
        ReceiptNames(t, after, e, p.version, costs, receipt.value);
      }
      if key == KeyOf(st.transfers[id]) {
        OthersUntouched(p, receipt, PostReceipt(p, receipt).value, t, st.transfers[id]);
      }
    }
  }

  lemma {:induction false} LocalFreezes(st: Store, key: ScenarioKey, r: L.Receipt, id: Id)
    requires Inv(st) && id in st.transfers && st.transfers[id].state.Invalidated?
    requires Attempt(st, LocalStep(key, r)).Ok?
    ensures CapitalFrozen(st, Attempt(st, LocalStep(key, r)).value, id)
  {
    hide L.ApplyReceipt, Linked, Owned;
    LocalTouchesNoTransfer(st.scenarios[key], r, L.ApplyReceipt(st.scenarios[key], r).value);
  }

  lemma {:induction false} RefusedStepsFreeze(st: Store, id: Id)
    requires Inv(st) && id in st.transfers && st.transfers[id].state.Invalidated?
    ensures CapitalFrozen(st, st, id)
  {
    hide Linked, Owned;
  }

  lemma {:induction false} CreateFreezes(st: Store, d: Draft, id: Id)
    requires Inv(st) && id in st.transfers && st.transfers[id].state.Invalidated?
    requires Create(st, d).Ok?
    ensures CapitalFrozen(st, Create(st, d).value, id)
  {
    hide Linked, Owned, CreateTransfer;
  }

  lemma {:induction false} StepFreezes(st: Store, step: Step, id: Id, f: Flow)
    requires Inv(st) && DistinctReservations(After(st, step))
    requires id in st.transfers && st.transfers[id].state.Invalidated?
    ensures CapitalFrozen(st, After(st, step), id)
    ensures FlowOfStep(st, step, id, f) == f
  {
    hide AppendEvent, L.ApplyReceipt, Owned, Linked, AddMove, F.SameAt;
    RefusedStepsFreeze(st, id);
    StepKeepsIdentities(st, step);
    if Attempt(st, step).Ok? {
      match step
      case CreateStep(d) => CreateFreezes(st, d, id);
      case LocalStep(key, r) => LocalFreezes(st, key, r, id);
      case AppendStep(at, e, costs) =>
        if at == id {
          OwnEventFreezes(st, id, e, costs, f);
        } else {
          OtherEventFreezes(st, at, e, costs, id);
        }
    }
  }

  /******* Whole runs *******/

  // Once a transfer is invalidated, no later run of creations, events, redeliveries and other writers'
  // receipts takes it out of that state, touches its reservation or its receivable, or moves any of its
  // money.
  lemma {:induction false} InvalidatedCapitalIsFrozen(st: Store, more: seq<Step>, id: Id)
    requires Inv(st) && DistinctReservations(Run(st, more))
    requires id in st.transfers && st.transfers[id].state.Invalidated?
    ensures Inv(Run(st, more))
    ensures CapitalFrozen(st, Run(st, more), id)
    ensures FlowOf(st, more, id) == Flow(0, 0, 0)
  {
    hide After, FlowOfStep, Owned, Linked;
    if more != [] {
      var n := |more| - 1;
      var before := Run(st, more[..n]);
      StepKeepsIdentities(before, more[n]);
      InvalidatedCapitalIsFrozen(st, more[..n], id);
      StepKeepsInv(before, more[n]);
      StepFreezes(before, more[n], id, Flow(0, 0, 0));
    }
  }

  lemma {:induction false} RunContinues(st: Store, steps: seq<Step>, more: seq<Step>)
    ensures Run(st, steps + more) == Run(Run(st, steps), more)
  {
    hide After;
    if more == [] {
      assert steps + more == steps;
    } else {
      var n := |more| - 1;
      assert (steps + more)[..|steps| + n] == steps + more[..n];
      RunContinues(st, steps, more[..n]);
    }
  }

  // The same from the start of a scenario: an invalidated transfer's flow is final.
  lemma {:induction false} FlowEndsAtInvalidation(st: Store, steps: seq<Step>, more: seq<Step>, id: Id)
    requires Fresh(st) && DistinctReservations(Run(st, steps + more))
    requires id in Run(st, steps).transfers && Run(st, steps).transfers[id].state.Invalidated?
    ensures CapitalFrozen(Run(st, steps), Run(st, steps + more), id)
    ensures FlowOf(st, steps + more, id) == FlowOf(st, steps, id)
  {
    hide After, FlowOfStep, Owned, Linked, Fits;
    RunContinues(st, steps, more);
    if more == [] {
      assert steps + more == steps;
      LifecycleAndLedgerStayInStep(st, steps, id);
      InvalidatedCapitalIsFrozen(Run(st, steps), [], id);
    } else {
      var n := |more| - 1;
      var before := Run(st, steps + more[..n]);
      assert (steps + more)[..|steps| + n] == steps + more[..n];
      StepKeepsIdentities(before, more[n]);
      FlowEndsAtInvalidation(st, steps, more[..n], id);
      LifecycleAndLedgerStayInStep(st, steps + more[..n], id);
      StepFreezes(before, more[n], id, FlowOf(st, steps, id));
    }
  }
}
