// The joint invariant over every run of creations, lifecycle events and other writers' receipts.
module JointRuns {
  import opened Prelude
  import opened Transfers
  import opened TransferStore
  import opened Joint
  import L = Ledger
  import F = Frames
  import R = Redelivery
  import Lifetimes

  // No two transfers of one scenario share a reservation id.
  predicate DistinctReservations(st: Store) {
    forall j, k | j in st.transfers && k in st.transfers && j != k
                  && KeyOf(st.transfers[j]) == KeyOf(st.transfers[k]) ::
      st.transfers[j].reservationId != st.transfers[k].reservationId
  }

  // The events whose receipts make or take a reservation.
  predicate MovesReservation(kind: EventKind) {
    kind.ReservationMade? || kind.SourceFailure? || kind.BurnConfirmed?
  }

  // Another transfer of the scenario names the same reservation.
  predicate NamedElsewhere(st: Store, id: Id)
    requires id in st.transfers
  {
    exists k | k in st.transfers && k != id ::
      && KeyOf(st.transfers[k]) == KeyOf(st.transfers[id])
      && st.transfers[k].reservationId == st.transfers[id].reservationId
  }

  // A new transfer's reservation id is not on its scenario's books.
  predicate OffBooks(st: Store, d: Draft) {
    var key := ScenarioKey(d.experimentId, d.scenarioId);
    key in st.scenarios ==> d.reservationId !in st.scenarios[key].reservations
  }

  predicate OwnsReservation(transfers: map<Id, Transfer>, id: Id, key: ScenarioKey, reservationId: Id) {
    id in transfers && KeyOf(transfers[id]) == key && transfers[id].reservationId == reservationId
  }

  predicate OwnsReceivable(transfers: map<Id, Transfer>, id: Id, key: ScenarioKey) {
    id in transfers && KeyOf(transfers[id]) == key
  }

  // Nothing on a scenario's books without a transfer that owns it, and no transfer receipt without
  // its recorded event.
  ghost predicate Owned(transfers: map<Id, Transfer>, events: map<Id, Event>, key: ScenarioKey, p: L.Portfolio) {
    && (forall rid | rid in p.reservations :: exists id :: OwnsReservation(transfers, id, key, rid))
    && (forall tid | tid in p.receivables :: OwnsReceivable(transfers, tid, key))
    && (forall i | 0 <= i < |p.applied| && !IsLocal(p.applied[i].receipt.body) ::
          p.applied[i].receipt.operationId in events)
  }

  predicate TransfersLinked(st: Store) {
    forall id | id in st.transfers ::
      && st.transfers[id].transferId == id
      && KeyOf(st.transfers[id]) in st.scenarios
      && Linked(st.transfers[id], st.scenarios[KeyOf(st.transfers[id])])
  }

  ghost predicate Inv(st: Store) {
    && TransfersLinked(st)
    && forall key | key in st.scenarios :: Owned(st.transfers, st.events, key, st.scenarios[key])
  }

  // A store with no transfers yet, whose portfolios hold no reservation, receivable or transfer receipt.
  ghost predicate Fresh(st: Store) {
    && st.transfers == map[] && st.events == map[]
    && forall key | key in st.scenarios ::
         var p := st.scenarios[key];
         && p.reservations == map[] && p.receivables == map[]
         && forall i | 0 <= i < |p.applied| :: IsLocal(p.applied[i].receipt.body)
  }

  /******* Flows along a run *******/

  ghost function FlowOfStep(st: Store, step: Step, id: Id, f: Flow): Flow {
    if step.AppendStep? && step.transferId == id && Attempt(st, step).Ok? && id in st.transfers
       && KeyOf(st.transfers[id]) in st.scenarios && KeyOf(st.transfers[id]) in After(st, step).scenarios
    then AddMove(f, st.scenarios[KeyOf(st.transfers[id])], After(st, step).scenarios[KeyOf(st.transfers[id])])
    else f
  }

  ghost function FlowOf(st: Store, steps: seq<Step>, id: Id): Flow {
    if steps == [] then Flow(0, 0, 0)
    else
      var n := |steps| - 1;
      FlowOfStep(Run(st, steps[..n]), steps[n], id, FlowOf(st, steps[..n], id))
  }

  // The flow of one transfer fits what its scenario holds; a transfer not created yet has none.
  ghost predicate Fits(st: Store, id: Id, f: Flow) {
    if id in st.transfers then
      KeyOf(st.transfers[id]) in st.scenarios && FlowFits(st.transfers[id], st.scenarios[KeyOf(st.transfers[id])], f)
    else f == Flow(0, 0, 0)
  }

  /******* Steps *******/

  // The committed effect of one lifecycle event.
  lemma {:induction false} AppendShape(st: Store, id: Id, e: Event, costs: seq<L.Cost>, st': Store)
    requires AppendEvent(st, id, e, costs) == Ok(st') && e.eventId !in st.events
    ensures id in st.transfers && KeyOf(st.transfers[id]) in st.scenarios
    ensures var before, key := st.transfers[id], KeyOf(st.transfers[id]);
            var p := st.scenarios[key];
            var after := ApplyTransferEvent(before, e);
            && after.Ok?
            && var receipt := ReceiptFor(before, after.value, e, p.version, costs);
            && receipt.Ok?
            && PostReceipt(p, receipt.value).Ok?
            && st' == Store(st.transfers[id := after.value], st.events[e.eventId := e],
                            st.scenarios[key := PostReceipt(p, receipt.value).value])
  {
    hide L.ApplyReceipt, ApplyTransferEvent;
  }

  lemma {:induction false} IdentityKept(t: Transfer, e: Event, after: Transfer)
    requires ApplyTransferEvent(t, e) == Ok(after)
    ensures after.transferId == t.transferId && KeyOf(after) == KeyOf(t) && after.reservationId == t.reservationId
    ensures after.amount == t.amount && after.netReceivable == t.netReceivable && after.routeId == t.routeId
  {
    hide VerifyEvidence, TransferParses;
  }

  lemma ReceiptIsFresh(st: Store, key: ScenarioKey, p: L.Portfolio, r: L.Receipt)
    requires Owned(st.transfers, st.events, key, p) && r.operationId !in st.events && !IsLocal(r.body)
    ensures !R.InHistory(p, r)
  {
  }

  // The receipt of an event names only the event's own transfer.
  lemma ReceiptNames(t: Transfer, after: Transfer, e: Event, version: int, costs: seq<L.Cost>, r: L.Receipt)
    requires ReceiptFor(t, after, e, version, costs) == Ok(Some(r))
    ensures r.operationId == e.eventId && !IsLocal(r.body)
    ensures forall rid | F.NamesReservation(r.body, rid) :: rid == t.reservationId && MovesReservation(e.kind)
    ensures forall tid | F.NamesTransfer(r.body, tid) :: tid == t.transferId
  {
  }

  // One committed event keeps its own transfer linked and its flow fitting.
  lemma {:induction false} AppendAdvances(st: Store, t: Transfer, e: Event, after: Transfer, p: L.Portfolio,
      costs: seq<L.Cost>, receipt: Option<L.Receipt>, q: L.Portfolio, f: Flow)
    requires Linked(t, p) && FlowFits(t, p, f) && ApplyTransferEvent(t, e) == Ok(after)
    requires ReceiptFor(t, after, e, p.version, costs) == Ok(receipt) && PostReceipt(p, receipt) == Ok(q)
    requires receipt.Some? ==> !R.InHistory(p, receipt.value)
    ensures Advances(t, p, after, q, f)
  {
    hide L.ApplyReceipt, Linked, FlowFits, ApplyTransferEvent, Advances, R.InHistory;
    match e.kind
    case ReservationMade => ReservationAdvances(t, e, after, p, receipt.value, q, f);
    case SourceFailure => SourceFailureAdvances(t, e, after, p, receipt.value, q, f);
    case BurnConfirmed => BurnAdvances(t, e, after, p, receipt.value, q, f);
    case AttestationObserved => ReceivableAdvances(t, e, after, p, receipt.value, q, f);
    case AttestationDelayed => ReceivableAdvances(t, e, after, p, receipt.value, q, f);
    case DestinationFailed => ReceivableAdvances(t, e, after, p, receipt.value, q, f);
    case DestinationConfirmed => ReceivableAdvances(t, e, after, p, receipt.value, q, f);
    case DependencyInvalidated => NoReceiptAdvances(t, e, after, p, f);
    case ClosureRecorded => NoReceiptAdvances(t, e, after, p, f);
  }

  // A portfolio step that names none of a transfer's entries leaves its link and flow alone.
  lemma UntouchedStaysLinked(t: Transfer, p: L.Portfolio, q: L.Portfolio, f: Flow)
    requires F.SameAt(p.reservations, q.reservations, t.reservationId)
    requires F.SameAt(p.receivables, q.receivables, t.transferId)
    ensures Linked(t, p) ==> Linked(t, q)
    ensures FlowFits(t, p, f) ==> FlowFits(t, q, f)
  {
  }

  // What an accepted receipt adds to the books and the history.
  lemma {:induction false} PostKeepsOwners(p: L.Portfolio, r: L.Receipt, q: L.Portfolio)
    requires L.ApplyReceipt(p, r) == Ok(q)
    ensures q == p || F.Framed(p, r, q)
    ensures forall i | 0 <= i < |q.applied| :: q.applied[i] in p.applied || q.applied[i].receipt == r
  {
    hide L.Valid, L.Effect, L.ApplyReceipt, F.Framed;
    Lifetimes.AcceptedStep(p, r, q);
    R.StepShape(p, r, q);
  }

  // Ownership survives when transfers keep their identity and events only grow.
  lemma {:induction false} OwnershipSurvives(transfers: map<Id, Transfer>, events: map<Id, Event>,
      transfers': map<Id, Transfer>, events': map<Id, Event>, key: ScenarioKey, p: L.Portfolio)
    requires Owned(transfers, events, key, p) && events.Keys <= events'.Keys
    requires forall id | id in transfers ::
               id in transfers' && KeyOf(transfers'[id]) == KeyOf(transfers[id])
               && transfers'[id].reservationId == transfers[id].reservationId
    ensures Owned(transfers', events', key, p)
  {
    forall rid | rid in p.reservations
      ensures exists id :: OwnsReservation(transfers', id, key, rid)
    {
      var id :| OwnsReservation(transfers, id, key, rid);
      assert OwnsReservation(transfers', id, key, rid);
    }
    assert forall tid | OwnsReceivable(transfers, tid, key) :: OwnsReceivable(transfers', tid, key);
  }

  // Posting a receipt keeps ownership when every new entry is the one transfer's and a transfer
  // receipt is recorded.
  lemma {:induction false} PostingKeepsOwned(transfers: map<Id, Transfer>, events: map<Id, Event>, key: ScenarioKey,
      p: L.Portfolio, r: L.Receipt, q: L.Portfolio, owner: Id)
    requires Owned(transfers, events, key, p) && L.ApplyReceipt(p, r) == Ok(q)
    requires IsLocal(r.body) || (r.operationId in events && owner in transfers && KeyOf(transfers[owner]) == key)
    requires forall rid | F.NamesReservation(r.body, rid) :: OwnsReservation(transfers, owner, key, rid)
    requires forall tid | F.NamesTransfer(r.body, tid) :: tid == owner
    ensures Owned(transfers, events, key, q)
  {
    hide L.ApplyReceipt, L.Valid;
    PostKeepsOwners(p, r, q);
    forall rid | rid in q.reservations
      ensures exists id :: OwnsReservation(transfers, id, key, rid)
    {
      if F.NamesReservation(r.body, rid) {
        assert OwnsReservation(transfers, owner, key, rid);
      } else {
        assert F.SameAt(p.reservations, q.reservations, rid);
        assert rid in p.reservations;
      }
    }
    forall tid | tid in q.receivables
      ensures OwnsReceivable(transfers, tid, key)
    {
      if !F.NamesTransfer(r.body, tid) {
        assert F.SameAt(p.receivables, q.receivables, tid);
        assert tid in p.receivables;
      }
    }
  }

  /******* Every step keeps the invariant *******/

  // A new transfer is linked unless the books hold another amount under its reservation id.
  lemma {:induction false} CreateKeepsInv(st: Store, d: Draft)
    requires Inv(st) && Create(st, d).Ok?
    requires var t := CreateTransfer(d).value;
             var p := st.scenarios[KeyOf(t)];
             HasReservation(t, p) ==> p.reservations[t.reservationId].amount == t.amount
    ensures Inv(Create(st, d).value)
    ensures var t := CreateTransfer(d).value;
            !HasReceivable(t, st.scenarios[KeyOf(t)])
  {
    hide TransferParses, Owned;
    var st' := Create(st, d).value;
    var t := CreateTransfer(d).value;
    var p := st.scenarios[KeyOf(t)];
    NoReceivableYet(st, t, p);
    assert Linked(t, p);
    forall key | key in st'.scenarios
      ensures Owned(st'.transfers, st'.events, key, st'.scenarios[key])
    {
      OwnershipSurvives(st.transfers, st.events, st'.transfers, st'.events, key, st.scenarios[key]);
    }
  }

  lemma NoReceivableYet(st: Store, t: Transfer, p: L.Portfolio)
    requires Owned(st.transfers, st.events, KeyOf(t), p) && t.transferId !in st.transfers
    ensures !HasReceivable(t, p)
  {
  }

  lemma {:induction false} CreateKeeps(st: Store, d: Draft, id: Id, f: Flow)
    requires Inv(st) && Create(st, d).Ok? && OffBooks(st, d)
    ensures Inv(Create(st, d).value)
    ensures Fits(st, id, f) ==> Fits(Create(st, d).value, id, f)
  {
    CreateKeepsInv(st, d);
    hide TransferParses, Inv;
  }

  lemma {:induction false} DistinctIsOffBooks(st: Store, d: Draft)
    requires Inv(st) && Create(st, d).Ok? && DistinctReservations(Create(st, d).value)
    ensures OffBooks(st, d)
  {
    hide TransferParses, Linked;
    var t := CreateTransfer(d).value;
    NewTransferOwnsNothing(st, Create(st, d).value, t, st.scenarios[KeyOf(t)]);
  }

  lemma {:induction false} NewTransferOwnsNothing(st: Store, st': Store, t: Transfer, p: L.Portfolio)
    requires KeyOf(t) in st.scenarios && p == st.scenarios[KeyOf(t)]
    requires Owned(st.transfers, st.events, KeyOf(t), p) && t.transferId !in st.transfers
    requires st' == st.(transfers := st.transfers[t.transferId := t]) && DistinctReservations(st')
    ensures !HasReservation(t, p)
  {
    assert st'.transfers[t.transferId] == t;
    forall k
      ensures !OwnsReservation(st.transfers, k, KeyOf(t), t.reservationId)
    {
      if k in st.transfers {
        assert st'.transfers[k] == st.transfers[k];
      }
    }
  }

  lemma {:induction false} LocalKeeps(st: Store, key: ScenarioKey, r: L.Receipt, id: Id, f: Flow)
    requires Inv(st) && Attempt(st, LocalStep(key, r)).Ok?
    ensures Inv(Attempt(st, LocalStep(key, r)).value)
    ensures Fits(st, id, f) ==> Fits(Attempt(st, LocalStep(key, r)).value, id, f)
  {
    hide L.ApplyReceipt, Linked, FlowFits, Owned, F.Framed;
    var p := st.scenarios[key];
    var q := L.ApplyReceipt(p, r).value;
    var st' := st.(scenarios := st.scenarios[key := q]);
    LocalTouchesNoTransfer(p, r, q);
    PostingKeepsOwned(st.transfers, st.events, key, p, r, q, "");
    forall k | k in st.transfers
      ensures Linked(st'.transfers[k], st'.scenarios[KeyOf(st'.transfers[k])])
    {
      UntouchedStaysLinked(st.transfers[k], p, q, f);
    }
    if id in st.transfers {
      UntouchedStaysLinked(st.transfers[id], p, q, f);
    }
  }

  lemma {:induction false} LocalTouchesNoTransfer(p: L.Portfolio, r: L.Receipt, q: L.Portfolio)
    requires L.ApplyReceipt(p, r) == Ok(q) && IsLocal(r.body)
    ensures forall rid :: F.SameAt(p.reservations, q.reservations, rid)
    ensures forall tid :: F.SameAt(p.receivables, q.receivables, tid)
  {
    hide L.ApplyReceipt, L.Valid;
    PostKeepsOwners(p, r, q);
  }

  // Posting the receipt of a transfer's event touches no other transfer of its scenario.
  lemma {:induction false} OthersUntouched(p: L.Portfolio, receipt: Option<L.Receipt>, q: L.Portfolio, t: Transfer,
      other: Transfer)
    requires PostReceipt(p, receipt) == Ok(q)
    requires other.transferId != t.transferId
    requires receipt.Some? ==> !F.NamesReservation(receipt.value.body, other.reservationId)
    requires receipt.Some? ==> forall tid | F.NamesTransfer(receipt.value.body, tid) :: tid == t.transferId
    ensures F.SameAt(p.reservations, q.reservations, other.reservationId)
    ensures F.SameAt(p.receivables, q.receivables, other.transferId)
  {
    hide L.ApplyReceipt, L.Valid;
    if receipt.Some? {
      PostKeepsOwners(p, receipt.value, q);
    }
  }

  lemma {:induction false} AppendKeeps(st: Store, at: Id, e: Event, costs: seq<L.Cost>, id: Id, f: Flow, g: Flow)
    requires Inv(st) && AppendEvent(st, at, e, costs).Ok?
    requires e.eventId !in st.events && at in st.transfers ==> Fits(st, at, g)
    requires e.eventId !in st.events && at in st.transfers && MovesReservation(e.kind) ==> !NamedElsewhere(st, at)
    requires at == id ==> f == g
    ensures var st' := AppendEvent(st, at, e, costs).value;
            Inv(st') && (Fits(st, id, f) ==> Fits(st', id, FlowOfStep(st, AppendStep(at, e, costs), id, f)))
  {
    hide L.ApplyReceipt, Linked, FlowFits, Owned, ApplyTransferEvent, ReceiptFor;
    var st' := AppendEvent(st, at, e, costs).value;
    if e.eventId in st.events {
      RepeatMovesNothing(st, at, id, f);
    } else {
      AppendShape(st, at, e, costs, st');
      var t, key := st.transfers[at], KeyOf(st.transfers[at]);
      var p := st.scenarios[key];
      var after := ApplyTransferEvent(t, e).value;
      var receipt := ReceiptFor(t, after, e, p.version, costs).value;
      var q := PostReceipt(p, receipt).value;
      IdentityKept(t, e, after);
      if receipt.Some? {
        ReceiptNames(t, after, e, p.version, costs, receipt.value);
        ReceiptIsFresh(st, key, p, receipt.value);
      }
      AppendAdvances(st, t, e, after, p, costs, receipt, q, g);
      forall k | k in st'.transfers
        ensures st'.transfers[k].transferId == k && KeyOf(st'.transfers[k]) in st'.scenarios
        ensures Linked(st'.transfers[k], st'.scenarios[KeyOf(st'.transfers[k])])
        ensures k != at && FlowFits(st.transfers[k], st.scenarios[KeyOf(st.transfers[k])], f) ==>
                  FlowFits(st'.transfers[k], st'.scenarios[KeyOf(st'.transfers[k])], f)
      {
        if k != at && KeyOf(st.transfers[k]) == key {
          OthersUntouched(p, receipt, q, t, st.transfers[k]);
          UntouchedStaysLinked(st.transfers[k], p, q, f);
        }
      }
      AppendKeepsOwners(st, at, e, after, p, receipt, q);
    }
  }

  lemma RepeatMovesNothing(st: Store, at: Id, id: Id, f: Flow)
    ensures forall p :: AddMove(f, p, p) == f
  {
  }

  lemma {:induction false} AppendKeepsOwners(st: Store, at: Id, e: Event, after: Transfer, p: L.Portfolio,
      receipt: Option<L.Receipt>, q: L.Portfolio)
    requires Inv(st) && at in st.transfers && p == st.scenarios[KeyOf(st.transfers[at])]
    requires KeyOf(after) == KeyOf(st.transfers[at]) && after.reservationId == st.transfers[at].reservationId
    requires PostReceipt(p, receipt) == Ok(q)
    requires receipt.Some? ==>
               && receipt.value.operationId == e.eventId
               && (forall rid | F.NamesReservation(receipt.value.body, rid) :: rid == after.reservationId)
               && (forall tid | F.NamesTransfer(receipt.value.body, tid) :: tid == at)
    ensures forall key | key in st.scenarios ::
              Owned(st.transfers[at := after], st.events[e.eventId := e], key,
                    if key == KeyOf(after) then q else st.scenarios[key])
  {
    hide L.ApplyReceipt, Linked;
    var transfers, events := st.transfers[at := after], st.events[e.eventId := e];
    forall key | key in st.scenarios
      ensures Owned(transfers, events, key, if key == KeyOf(after) then q else st.scenarios[key])
    {
      OwnershipSurvives(st.transfers, st.events, transfers, events, key, st.scenarios[key]);
      if key == KeyOf(after) && receipt.Some? {
        PostingKeepsOwned(transfers, events, key, p, receipt.value, q, at);
      }
    }
  }

  lemma {:induction false} StepKeeps(st: Store, step: Step, id: Id, f: Flow, g: Flow)
    requires Inv(st) && DistinctReservations(st) && DistinctReservations(After(st, step))
    requires Fits(st, id, f)
    requires step.AppendStep? && step.transferId in st.transfers ==> Fits(st, step.transferId, g)
    requires step.AppendStep? && step.transferId == id ==> f == g
    ensures Inv(After(st, step)) && Fits(After(st, step), id, FlowOfStep(st, step, id, f))
  {
    hide Inv, Fits, AppendEvent, Create, L.ApplyReceipt;
    if Attempt(st, step).Ok? {
      match step
      case CreateStep(d) =>
        DistinctIsOffBooks(st, d);
        CreateKeeps(st, d, id, f);
      case AppendStep(at, e, costs) => AppendKeeps(st, at, e, costs, id, f, g);
      case LocalStep(key, r) => LocalKeeps(st, key, r, id, f);
    }
  }

  /******* Whole runs *******/

  // Transfers are never removed and never change their identity.
  lemma {:induction false} StepKeepsIdentities(st: Store, step: Step)
    ensures forall id | id in st.transfers ::
              id in After(st, step).transfers
              && KeyOf(After(st, step).transfers[id]) == KeyOf(st.transfers[id])
              && After(st, step).transfers[id].reservationId == st.transfers[id].reservationId
              && After(st, step).transfers[id].amount == st.transfers[id].amount
              && After(st, step).transfers[id].netReceivable == st.transfers[id].netReceivable
    ensures DistinctReservations(After(st, step)) ==> DistinctReservations(st)
  {
    hide L.ApplyReceipt, ApplyTransferEvent, ReceiptFor, CreateTransfer, PostReceipt;
    if step.AppendStep? && Attempt(st, step).Ok? && step.event.eventId !in st.events {
      AppendShape(st, step.transferId, step.event, step.costs, Attempt(st, step).value);
      IdentityKept(st.transfers[step.transferId], step.event, After(st, step).transfers[step.transferId]);
    }
  }

  // In every run, over transfers with distinct reservation ids, lifecycle and ledger stay in step
  // and each transfer's money moves at most once, whatever steps were refused along the way.
  lemma {:induction false} LifecycleAndLedgerStayInStep(st: Store, steps: seq<Step>, id: Id)
    requires Fresh(st) && DistinctReservations(Run(st, steps))
    ensures Inv(Run(st, steps)) && Fits(Run(st, steps), id, FlowOf(st, steps, id))
    decreases |steps|, 0
  {
    hide After, FlowOfStep, Inv, Fits;
    if steps == [] {
      FreshHasInv(st, id);
    } else {
      var n := |steps| - 1;
      var before := Run(st, steps[..n]);
      StepKeepsIdentities(before, steps[n]);
      LifecycleAndLedgerStayInStep(st, steps[..n], id);
      if steps[n].AppendStep? {
        LifecycleAndLedgerStayInStep(st, steps[..n], steps[n].transferId);
        StepKeeps(before, steps[n], id, FlowOf(st, steps[..n], id), FlowOf(st, steps[..n], steps[n].transferId));
      } else {
        StepKeeps(before, steps[n], id, FlowOf(st, steps[..n], id), Flow(0, 0, 0));
      }
    }
  }

  lemma {:induction false} FreshHasInv(st: Store, id: Id)
    requires Fresh(st)
    ensures Inv(st) && DistinctReservations(st) && Fits(st, id, Flow(0, 0, 0))
  {
    assert st.transfers.Keys == {};
  }

  // What the invariant says of one transfer: debited at most once and by its amount, credited at most once and by its
  // net receivable, and the difference recognised as cost.
  predicate MovedOnce(t: Transfer, p: L.Portfolio, f: Flow) {
    var held := (if HasReservation(t, p) then t.amount else 0) + (if HasReceivable(t, p) then t.netReceivable else 0);
    && (f.debited == 0 || f.debited == t.amount)
    && f.debited == f.credited + f.withheld + held
    && (t.state.Settled? ==> f == Flow(t.amount, t.netReceivable, t.amount - t.netReceivable) && held == 0)
    && (t.state.SourceFailed? ==> f.debited == t.amount && f.credited + f.withheld == t.amount && held == 0)
    && (!t.state.Settled? && !t.state.SourceFailed? ==> f.credited == 0)
  }

  lemma LinkedFlow(t: Transfer, p: L.Portfolio, f: Flow)
    requires Linked(t, p) && FlowFits(t, p, f)
    ensures InStep(t, p) && MovedOnce(t, p, f)
  {
  }

  lemma {:induction false} MoneyMovesOnce(st: Store, steps: seq<Step>, id: Id)
    requires Fresh(st) && DistinctReservations(Run(st, steps)) && id in Run(st, steps).transfers
    ensures var end := Run(st, steps);
            var t := end.transfers[id];
            && KeyOf(t) in end.scenarios && InStep(t, end.scenarios[KeyOf(t)])
            && MovedOnce(t, end.scenarios[KeyOf(t)], FlowOf(st, steps, id))
  {
    LifecycleAndLedgerStayInStep(st, steps, id);
    hide FlowOf, Run, Owned;
    var end := Run(st, steps);
    LinkedFlow(end.transfers[id], end.scenarios[KeyOf(end.transfers[id])], FlowOf(st, steps, id));
  }
}
