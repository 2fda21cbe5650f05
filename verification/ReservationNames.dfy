// Exactly when lifecycle, ledger and flows stay in step: while a reservation id is taken up by one transfer at a time.
module ReservationNames {
  import opened Prelude
  import opened Transfers
  import opened TransferStore
  import opened Joint
  import opened JointRuns
  import opened Commits
  import opened Rollbacks
  import L = Ledger
  import F = Frames
  import Invalidation

  // A reservation on a scenario's books is named by no second transfer.
  predicate SoleNames(st: Store) {
    forall id | id in st.transfers && KeyOf(st.transfers[id]) in st.scenarios
                && HasReservation(st.transfers[id], st.scenarios[KeyOf(st.transfers[id])]) ::
      !NamedElsewhere(st, id)
  }

  // A committed creation takes an id that is not on the books, and a committed reservation one that no other transfer
  // of the scenario names.
  ghost predicate NamesFreshly(st: Store, step: Step) {
    Attempt(st, step).Ok? ==>
      match step
      case CreateStep(d) => OffBooks(st, d)
      case AppendStep(id, e, _) =>
        e.eventId !in st.events && e.kind.ReservationMade? && id in st.transfers ==> !NamedElsewhere(st, id)
      case LocalStep(_, _) => true
  }

  /******* Fresh names keep everything in step *******/

  // A committed source failure or burn takes a reservation that is on the books.
  lemma {:induction false} TakesWhatIsThere(st: Store, at: Id, e: Event, costs: seq<L.Cost>)
    requires Inv(st) && AppendEvent(st, at, e, costs).Ok? && e.eventId !in st.events
    requires e.kind.SourceFailure? || e.kind.BurnConfirmed?
    ensures at in st.transfers && KeyOf(st.transfers[at]) in st.scenarios
    ensures HasReservation(st.transfers[at], st.scenarios[KeyOf(st.transfers[at])])
  {
    hide L.ApplyReceipt, ApplyTransferEvent, ReceiptFor, Owned, Linked, AppendEvent, HasReservation;
    AppendShape(st, at, e, costs, AppendEvent(st, at, e, costs).value);
    var t := st.transfers[at];
    var p, after := st.scenarios[KeyOf(t)], ApplyTransferEvent(t, e).value;
    ReceiptOrNone(t, after, e, p.version, costs);
    var r := ReceiptFor(t, after, e, p.version, costs).value.value;
    ReceiptNames(t, after, e, p.version, costs, r);
    ReceiptIsFresh(st, KeyOf(t), p, r);
    TakenReservation(t, after, e, costs, p, r, L.ApplyReceipt(p, r).value);
  }

  lemma {:induction false} TakenReservation(t: Transfer, after: Transfer, e: Event, costs: seq<L.Cost>, p: L.Portfolio,
      r: L.Receipt, q: L.Portfolio)
    requires ReceiptFor(t, after, e, p.version, costs) == Ok(Some(r)) && Posted(p, r, q)
    requires e.kind.SourceFailure? || e.kind.BurnConfirmed?
    ensures HasReservation(t, p)
  {
    hide Posted, MovesMoney, DistinctHashes, HashesOf;
    if e.kind.SourceFailure? {
      SourceFailedPosts(p, r, q);
    } else {
      BurnPosts(p, r, q);
    }
  }

  lemma {:induction false} FreshStepFits(st: Store, step: Step, id: Id, f: Flow, g: Flow)
    requires Inv(st) && SoleNames(st) && NamesFreshly(st, step) && Fits(st, id, f)
    requires step.AppendStep? && step.transferId in st.transfers ==> Fits(st, step.transferId, g)
    requires step.AppendStep? && step.transferId == id ==> f == g
    ensures Inv(After(st, step)) && Fits(After(st, step), id, FlowOfStep(st, step, id, f))
  {
    hide Inv, Fits, AppendEvent, Create, L.ApplyReceipt, HasReservation;
    if Attempt(st, step).Ok? {
      match step
      case CreateStep(d) => CreateKeeps(st, d, id, f);
      case LocalStep(key, r) => LocalKeeps(st, key, r, id, f);
      case AppendStep(at, e, costs) =>
        if e.eventId !in st.events && (e.kind.SourceFailure? || e.kind.BurnConfirmed?) {
          TakesWhatIsThere(st, at, e, costs);
        }
        AppendKeeps(st, at, e, costs, id, f, g);
    }
  }

  // The books gain no reservation but the one a committed reservation event names.
  lemma {:induction false} NewOnTheBooks(st: Store, at: Id, e: Event, costs: seq<L.Cost>, key: ScenarioKey, rid: Id)
    requires Inv(st) && AppendEvent(st, at, e, costs).Ok? && e.eventId !in st.events
    requires key in st.scenarios && rid !in st.scenarios[key].reservations
    ensures var later := AppendEvent(st, at, e, costs).value;
            && at in st.transfers && key in later.scenarios
            && (rid in later.scenarios[key].reservations ==>
                  KeyOf(st.transfers[at]) == key && st.transfers[at].reservationId == rid && e.kind.ReservationMade?)
  {
    hide L.ApplyReceipt, ApplyTransferEvent, ReceiptFor, Owned, Linked, AppendEvent;
    AppendShape(st, at, e, costs, AppendEvent(st, at, e, costs).value);
    var t := st.transfers[at];
    var p, after := st.scenarios[KeyOf(t)], ApplyTransferEvent(t, e).value;
    var receipt := ReceiptFor(t, after, e, p.version, costs).value;
    if receipt.Some? && KeyOf(t) == key {
      var q := L.ApplyReceipt(p, receipt.value).value;
      ReceiptNames(t, after, e, p.version, costs, receipt.value);
      PostKeepsOwners(p, receipt.value, q);
      if rid in q.reservations {
        assert F.NamesReservation(receipt.value.body, rid) by { NamedOrThere(p, receipt.value, q, rid); }
        if e.kind.SourceFailure? || e.kind.BurnConfirmed? {
          TakesWhatIsThere(st, at, e, costs);
        }
      }
    }
  }

  lemma NamedOrThere(p: L.Portfolio, r: L.Receipt, q: L.Portfolio, rid: Id)
    requires q == p || F.Framed(p, r, q)
    requires rid in q.reservations && rid !in p.reservations
    ensures F.NamesReservation(r.body, rid)
  {
  }

  lemma {:induction false} FreshStepKeepsSoleNames(st: Store, step: Step)
    requires Inv(st) && SoleNames(st) && NamesFreshly(st, step)
    ensures SoleNames(After(st, step))
  {
    hide AppendEvent, Create, L.ApplyReceipt, Inv;
    if Attempt(st, step).Ok? {
      match step
      case CreateStep(d) => CreateKeepsSoleNames(st, d);
      case LocalStep(key, r) => LocalKeepsSoleNames(st, key, r);
      case AppendStep(at, e, costs) =>
        if e.eventId in st.events {
          Invalidation.RepeatChangesNothing(st, at, e, costs);
        } else {
          AppendKeepsSoleNames(st, at, e, costs);
        }
    }
  }

  lemma {:induction false} CreateKeepsSoleNames(st: Store, d: Draft)
    requires SoleNames(st) && Create(st, d).Ok? && OffBooks(st, d)
    ensures SoleNames(Create(st, d).value)
  {
    hide TransferParses;
    var later := Create(st, d).value;
    var t := CreateTransfer(d).value;
    forall id | id in later.transfers && KeyOf(later.transfers[id]) in later.scenarios
                && HasReservation(later.transfers[id], later.scenarios[KeyOf(later.transfers[id])])
      ensures !NamedElsewhere(later, id)
    {
      assert id != t.transferId;
      assert !NamedElsewhere(st, id);
    }
  }

  lemma {:induction false} LocalKeepsSoleNames(st: Store, key: ScenarioKey, r: L.Receipt)
    requires Inv(st) && SoleNames(st) && Attempt(st, LocalStep(key, r)).Ok?
    ensures SoleNames(Attempt(st, LocalStep(key, r)).value)
  {
    hide L.ApplyReceipt, Inv;
    var later := Attempt(st, LocalStep(key, r)).value;
    LocalTouchesNoTransfer(st.scenarios[key], r, later.scenarios[key]);
    forall id | id in later.transfers && KeyOf(later.transfers[id]) in later.scenarios
                && HasReservation(later.transfers[id], later.scenarios[KeyOf(later.transfers[id])])
      ensures !NamedElsewhere(later, id)
    {
      var rid := later.transfers[id].reservationId;
      assert F.SameAt(st.scenarios[key].reservations, later.scenarios[key].reservations, rid);
      assert !NamedElsewhere(st, id);
    }
  }

  lemma {:induction false} AppendKeepsSoleNames(st: Store, at: Id, e: Event, costs: seq<L.Cost>)
    requires Inv(st) && SoleNames(st) && AppendEvent(st, at, e, costs).Ok? && e.eventId !in st.events
    requires e.kind.ReservationMade? && at in st.transfers ==> !NamedElsewhere(st, at)
    ensures SoleNames(AppendEvent(st, at, e, costs).value)
  {
    hide L.ApplyReceipt, ApplyTransferEvent, ReceiptFor, Inv, AppendEvent;
    var later := AppendEvent(st, at, e, costs).value;
    AppendShape(st, at, e, costs, later);
    IdentityKept(st.transfers[at], e, later.transfers[at]);
    forall id | id in later.transfers && KeyOf(later.transfers[id]) in later.scenarios
                && HasReservation(later.transfers[id], later.scenarios[KeyOf(later.transfers[id])])
      ensures !NamedElsewhere(later, id)
    {
      var key, rid := KeyOf(st.transfers[id]), st.transfers[id].reservationId;
      if rid !in st.scenarios[key].reservations {
        NewOnTheBooks(st, at, e, costs, key, rid);
      }
      assert !NamedElsewhere(st, id);
    }
  }

  /******* A name in use breaks the step *******/

  lemma {:induction false} ReservedIsPositive(p: L.Portfolio, rid: Id)
    requires L.Valid(p) && rid in p.reservations
    ensures 0 < p.reservations[rid].amount
  {
    hide L.FamiliesHold, L.ReceivablesHold, L.PositionsHold, L.AllowancesHold, L.CostsHold, L.PayablesHold;
    hide L.HistoryHolds, L.Gross, L.Liabilities, L.Imbalance, L.CashHolds, L.HasOperation;
  }

  // A creation under an id on the books: what is held there is not the new transfer's own.
  lemma {:induction false} CreationOnBooks(st: Store, d: Draft, p: L.Portfolio)
    requires Create(st, d).Ok? && !OffBooks(st, d) && L.Valid(p)
    requires p == st.scenarios[ScenarioKey(d.experimentId, d.scenarioId)]
    ensures d.transferId !in st.transfers
    ensures !(Inv(Create(st, d).value) && Fits(Create(st, d).value, d.transferId, Flow(0, 0, 0)))
  {
    ReservedIsPositive(p, d.reservationId);
    hide L.Valid, TransferParses, Owned;
    var later := Create(st, d).value;
    assert later.transfers[d.transferId] == CreateTransfer(d).value;
  }

  // A reservation under an id that another transfer names: the books show it as that one's capital too.
  lemma {:induction false} ReservationElsewhere(st: Store, at: Id, e: Event, costs: seq<L.Cost>, k: Id, f: Flow)
    requires Inv(st) && AppendEvent(st, at, e, costs).Ok? && e.eventId !in st.events && e.kind.ReservationMade?
    requires at in st.transfers && k in st.transfers && k != at && Fits(st, k, f)
    requires KeyOf(st.transfers[k]) == KeyOf(st.transfers[at])
    requires st.transfers[k].reservationId == st.transfers[at].reservationId
    ensures !(Inv(AppendEvent(st, at, e, costs).value) && Fits(AppendEvent(st, at, e, costs).value, k, f))
  {
    hide L.ApplyReceipt, ApplyTransferEvent, ReceiptFor, Owned, AppendEvent, InStep, FlowFits;
    var later := AppendEvent(st, at, e, costs).value;
    AppendShape(st, at, e, costs, later);
    var t, key := st.transfers[at], KeyOf(st.transfers[at]);
    var p, after := st.scenarios[key], ApplyTransferEvent(t, e).value;
    var q := later.scenarios[key];
    IdentityKept(t, e, after);
    ReceiptOrNone(t, after, e, p.version, costs);
    var r := ReceiptFor(t, after, e, p.version, costs).value.value;
    ReceiptNames(t, after, e, p.version, costs, r);
    ReceiptIsFresh(st, key, p, r);
    ReservationShown(t, after, e, costs, p, r, q);
    HeldTwice(st.transfers[k], p, q, f);
  }

  lemma {:induction false} ReservationShown(t: Transfer, after: Transfer, e: Event, costs: seq<L.Cost>, p: L.Portfolio,
      r: L.Receipt, q: L.Portfolio)
    requires ReceiptFor(t, after, e, p.version, costs) == Ok(Some(r)) && Posted(p, r, q) && e.kind.ReservationMade?
    ensures t.reservationId !in p.reservations && t.reservationId in q.reservations
    ensures q.reservations[t.reservationId].amount > 0 && q.receivables == p.receivables
  {
    hide Posted, MovesMoney, DistinctHashes, HashesOf;
    ReservePosts(p, r, q);
  }

  // No transfer stays linked with a fitting flow when a reservation of its name appears that it did not make.
  lemma HeldTwice(t: Transfer, p: L.Portfolio, q: L.Portfolio, f: Flow)
    requires Linked(t, p) && FlowFits(t, p, f) && !HasReservation(t, p) && HasReservation(t, q)
    requires q.receivables == p.receivables && 0 < q.reservations[t.reservationId].amount
    ensures !(Linked(t, q) && FlowFits(t, q, f))
  {
  }

  /******* Whole runs *******/

  // After these steps lifecycle and ledger are in step and every transfer's flow fits.
  ghost predicate RunFits(st: Store, steps: seq<Step>) {
    Inv(Run(st, steps)) && forall id :: Fits(Run(st, steps), id, FlowOf(st, steps, id))
  }

  lemma {:induction false} OneStepMore(st: Store, steps: seq<Step>, step: Step, id: Id)
    ensures Run(st, steps + [step]) == After(Run(st, steps), step)
    ensures FlowOf(st, steps + [step], id) == FlowOfStep(Run(st, steps), step, id, FlowOf(st, steps, id))
  {
    hide After, FlowOfStep;
    assert (steps + [step])[..|steps|] == steps;
  }

  lemma {:induction false} FreshStepKeepsFits(st: Store, steps: seq<Step>, step: Step)
    requires RunFits(st, steps) && SoleNames(Run(st, steps)) && NamesFreshly(Run(st, steps), step)
    ensures RunFits(st, steps + [step]) && SoleNames(Run(st, steps + [step]))
  {
    hide Inv, Fits, SoleNames, NamesFreshly, After, FlowOfStep, Run, FlowOf;
    var before := Run(st, steps);
    var g := if step.AppendStep? then FlowOf(st, steps, step.transferId) else Flow(0, 0, 0);
    FreshStepKeepsSoleNames(before, step);
    forall id
      ensures Inv(Run(st, steps + [step])) && Fits(Run(st, steps + [step]), id, FlowOf(st, steps + [step], id))
    {
      OneStepMore(st, steps, step, id);
      FreshStepFits(before, step, id, FlowOf(st, steps, id), g);
    }
    OneStepMore(st, steps, step, "");
  }

  // A committed step that takes a name in use leaves some transfer's flow fitting nothing.
  lemma {:induction false} TakenNameBreaksFits(st: Store, steps: seq<Step>, step: Step)
    requires RunFits(st, steps) && Healthy(Run(st, steps)) && !NamesFreshly(Run(st, steps), step)
    ensures !RunFits(st, steps + [step])
  {
    hide Inv, Fits, Run, FlowOf, AppendEvent, Create, Healthy, OffBooks;
    var before := Run(st, steps);
    match step
    case LocalStep(_, _) =>
    case CreateStep(d) =>
      OneStepMore(st, steps, step, d.transferId);
      CreationBreaks(before, d, FlowOf(st, steps, d.transferId));
    case AppendStep(at, e, costs) =>
      var k :| k in before.transfers && k != at && KeyOf(before.transfers[k]) == KeyOf(before.transfers[at])
               && before.transfers[k].reservationId == before.transfers[at].reservationId;
      OneStepMore(st, steps, step, k);
      ReservationElsewhere(before, at, e, costs, k, FlowOf(st, steps, k));
  }

  lemma {:induction false} CreationBreaks(st: Store, d: Draft, f: Flow)
    requires Create(st, d).Ok? && !OffBooks(st, d) && Healthy(st) && Fits(st, d.transferId, f)
    ensures !(Inv(Create(st, d).value) && Fits(Create(st, d).value, d.transferId, f))
  {
    hide Inv, Create, Sound;
    var key := ScenarioKey(d.experimentId, d.scenarioId);
    SoundIsValid(st.scenarios[key]);
    CreationOnBooks(st, d, st.scenarios[key]);
  }

  // One step from a state where everything fits: everything fits afterwards exactly when the step, if it commits, takes
  // no reservation id in use.
  lemma {:induction false} StepFitsExactly(start: Store, steps: seq<Step>, step: Step)
    requires Opened(start) && RunFits(start, steps) && SoleNames(Run(start, steps))
    ensures RunFits(start, steps + [step]) <==> NamesFreshly(Run(start, steps), step)
    ensures RunFits(start, steps + [step]) ==> SoleNames(Run(start, steps + [step]))
  {
    hide *;
    if NamesFreshly(Run(start, steps), step) {
      FreshStepKeepsFits(start, steps, step);
    } else {
      RunKeepsHealthy(start, steps);
      TakenNameBreaksFits(start, steps, step);
    }
  }

  ghost predicate FitsThroughout(start: Store, steps: seq<Step>) {
    forall n | 0 <= n <= |steps| :: RunFits(start, steps[..n])
  }

  ghost predicate FreshThroughout(start: Store, steps: seq<Step>) {
    forall n | 0 <= n < |steps| :: NamesFreshly(Run(start, steps[..n]), steps[n])
  }

  // In every run from opened portfolios: lifecycle, ledger and flows are in step at every point of it exactly when no
  // committed creation takes an id on the books and no committed reservation one that another transfer names.
  lemma {:induction false} InStepExactlyWhileNamesAreFresh(start: Store, steps: seq<Step>)
    requires Opened(start)
    ensures FitsThroughout(start, steps) <==> FreshThroughout(start, steps)
    ensures FitsThroughout(start, steps) ==> SoleNames(Run(start, steps))
    decreases |steps|
  {
    hide RunFits, NamesFreshly, Run, SoleNames, Opened;
    assert steps[..|steps|] == steps;
    if steps == [] {
      NothingYet(start);
    } else {
      var n := |steps| - 1;
      var earlier, last := steps[..n], steps[n];
      assert steps == earlier + [last];
      assert forall i | 0 <= i <= n :: earlier[..i] == steps[..i];
      InStepExactlyWhileNamesAreFresh(start, earlier);
      if FitsThroughout(start, earlier) {
        assert earlier[..n] == earlier;
        StepFitsExactly(start, earlier, last);
      }
      Split(start, steps, n);
    }
  }

  lemma {:induction false} Split(start: Store, steps: seq<Step>, n: nat)
    requires |steps| == n + 1
    ensures FitsThroughout(start, steps) <==> FitsThroughout(start, steps[..n]) && RunFits(start, steps)
    ensures FreshThroughout(start, steps) <==>
            FreshThroughout(start, steps[..n]) && NamesFreshly(Run(start, steps[..n]), steps[n])
  {
    hide RunFits, NamesFreshly, Run;
    var earlier := steps[..n];
    assert forall i | 0 <= i <= n :: earlier[..i] == steps[..i];
    assert steps[..n + 1] == steps;
    if FitsThroughout(start, steps) {
      forall i | 0 <= i <= n
        ensures RunFits(start, earlier[..i])
      {
        assert RunFits(start, steps[..i]);
      }
    }
    if FreshThroughout(start, steps) {
      forall i | 0 <= i < n
        ensures NamesFreshly(Run(start, earlier[..i]), earlier[i])
      {
        assert NamesFreshly(Run(start, steps[..i]), steps[i]);
      }
    }
    if FitsThroughout(start, earlier) && RunFits(start, steps) {
      forall i | 0 <= i <= n + 1
        ensures RunFits(start, steps[..i])
      {
        if i <= n {
          assert RunFits(start, earlier[..i]);
        }
      }
    }
    if FreshThroughout(start, earlier) && NamesFreshly(Run(start, earlier), steps[n]) {
      forall i | 0 <= i < n + 1
        ensures NamesFreshly(Run(start, steps[..i]), steps[i])
      {
        if i < n {
          assert NamesFreshly(Run(start, earlier[..i]), earlier[i]);
        }
      }
    }
  }

  lemma {:induction false} NothingYet(start: Store)
    requires Opened(start)
    ensures RunFits(start, []) && SoleNames(Run(start, []))
  {
    hide Inv, Fits;
    OpenedIsFresh(start);
    forall id
      ensures Inv(start) && Fits(start, id, Flow(0, 0, 0))
    {
      FreshHasInv(start, id);
    }
    FreshHasInv(start, "");
    assert start.transfers.Keys == {};
  }

  // Distinct reservation ids are more than enough: a run that ends with them has taken fresh names all along.
  lemma {:induction false} DistinctRunsAreFresh(start: Store, steps: seq<Step>)
    requires Opened(start) && DistinctReservations(Run(start, steps))
    ensures FreshThroughout(start, steps) && FitsThroughout(start, steps)
    decreases |steps|
  {
    hide RunFits, NamesFreshly, Opened, DistinctReservations, After;
    if steps != [] {
      var n := |steps| - 1;
      StepKeepsIdentities(Run(start, steps[..n]), steps[n]);
      DistinctRunsAreFresh(start, steps[..n]);
      assert steps[..n][..n] == steps[..n];
      assert RunFits(start, steps[..n]);
      DistinctIsFresh(start, steps[..n], steps[n]);
      Split(start, steps, n);
    }
    InStepExactlyWhileNamesAreFresh(start, steps);
  }

  lemma {:induction false} DistinctIsFresh(start: Store, steps: seq<Step>, step: Step)
    requires RunFits(start, steps)
    requires DistinctReservations(Run(start, steps)) && DistinctReservations(After(Run(start, steps), step))
    ensures NamesFreshly(Run(start, steps), step)
  {
    hide Inv, Fits, AppendEvent, Create, OffBooks;
    if step.CreateStep? && Attempt(Run(start, steps), step).Ok? {
      DistinctIsOffBooks(Run(start, steps), step.draft);
    }
  }

  // While names are fresh each transfer's money moves once, shared reservation ids or not.
  lemma {:induction false} FreshNamesMoveMoneyOnce(start: Store, steps: seq<Step>, id: Id)
    requires Opened(start) && FreshThroughout(start, steps) && id in Run(start, steps).transfers
    ensures var end := Run(start, steps);
            var t := end.transfers[id];
            && KeyOf(t) in end.scenarios && InStep(t, end.scenarios[KeyOf(t)])
            && MovedOnce(t, end.scenarios[KeyOf(t)], FlowOf(start, steps, id))
  {
    hide FlowOf, Run, Owned, Opened, FreshThroughout, InStep;
    InStepExactlyWhileNamesAreFresh(start, steps);
    assert steps[..|steps|] == steps;
    var end := Run(start, steps);
    assert Fits(end, id, FlowOf(start, steps, id));
    LinkedFlow(end.transfers[id], end.scenarios[KeyOf(end.transfers[id])], FlowOf(start, steps, id));
  }
}
