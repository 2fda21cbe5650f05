// What happens under a shared reservation id, which nothing in the code stops two transfers from naming.
module SharedReservations {
  import opened Prelude
  import opened Transfers
  import opened TransferStore
  import opened Joint
  import opened JointRuns
  import opened Commits
  import opened Rollbacks
  import opened RollbackRuns
  import opened ReservationNames
  import L = Ledger
  import Invalidation
  import Opening
  import P = Principal
  import Redelivery

  // Two waiting transfers of one scenario under one reservation id, with that reservation on the books.
  predicate Share(st: Store, j: Id, k: Id, t: Transfer, p: L.Portfolio) {
    && j in st.transfers && k in st.transfers && j != k && st.transfers[k] == t
    && KeyOf(st.transfers[j]) == KeyOf(t) && st.transfers[j].reservationId == t.reservationId
    && st.transfers[j].state.Reserved? && t.state.Reserved?
    && KeyOf(t) in st.scenarios && st.scenarios[KeyOf(t)] == p && HasReservation(t, p)
  }

  // A source failure that is in order and whose credit fits.
  predicate Ripe(t: Transfer, p: L.Portfolio, e: Event) {
    && e.kind.SourceFailure? && InOrder(p, t, e) && p.closedAt.None? && HasReservation(t, p)
    && CanCredit(p.cash, p.reservations[t.reservationId].familyId, t.amount)
  }

  // k has failed with its amount paid out, and j waits for a reservation that is gone.
  predicate PaidOut(st: Store, later: Store, j: Id, k: Id, t: Transfer) {
    && k in later.transfers && later.transfers[k].state.SourceFailed?
    && j in st.transfers && j in later.transfers && later.transfers[j] == st.transfers[j]
    && KeyOf(t) in later.scenarios && !HasReservation(st.transfers[j], later.scenarios[KeyOf(t)])
  }

  lemma {:induction false} RipeIsTaken(t: Transfer, p: L.Portfolio, e: Event)
    requires Ripe(t, p, e) && 0 <= t.amount && L.CashHolds(p.cash) && 0 <= L.NetValue(p)
    ensures LedgerTakes(p, t, e, [])
  {
    hide L.NetValue, L.CashHolds, InOrder, CanCredit;
    FreeCreditFits(p, p.reservations[t.reservationId].familyId, t.amount);
  }

  lemma {:induction false} RipeCommits(st: Store, k: Id, e: Event, t: Transfer, p: L.Portfolio)
    requires Inv(st) && Healthy(st) && k in st.transfers && st.transfers[k] == t && e.eventId !in st.events
    requires KeyOf(t) in st.scenarios && st.scenarios[KeyOf(t)] == p && Ripe(t, p, e) && ApplyTransferEvent(t, e).Ok?
    ensures AppendEvent(st, k, e, []).Ok?
  {
    assert Sound(p);
    hide *;
    SoundIsValid(p);
    SoundFacts(p);
    Invalidation.EventsParseTheirTransfer(t, e);
    RipeIsTaken(t, p, e);
    RipeKind(t, p, e);
    CommitsExactlyWhenTheLedgerTakesIt(st, k, e, []);
  }

  lemma RipeKind(t: Transfer, p: L.Portfolio, e: Event)
    requires Ripe(t, p, e)
    ensures !e.kind.BurnConfirmed?
  {
  }

  lemma {:induction false} FailureShape(st: Store, t: Transfer, e: Event, after: Transfer, p: L.Portfolio, r: L.Receipt)
    requires ApplyTransferEvent(t, e) == Ok(after) && e.kind.SourceFailure?
    requires Owned(st.transfers, st.events, KeyOf(t), p) && e.eventId !in st.events
    requires ReceiptFor(t, after, e, p.version, []) == Ok(Some(r))
    ensures after.state.SourceFailed? && KeyOf(after) == KeyOf(t)
    ensures r.body == L.TransferSourceFailed(t.reservationId, []) && L.WithheldTotal(r.body.costs) == 0
    ensures !Redelivery.InHistory(p, r)
  {
    hide VerifyEvidence, TransferParses, DistinctHashes, HashesOf;
    ReceiptNames(t, after, e, p.version, [], r);
    ReceiptIsFresh(st, KeyOf(t), p, r);
  }

  lemma {:induction false} FailureMoves(t: Transfer, p: L.Portfolio, r: L.Receipt, q: L.Portfolio)
    requires HasReservation(t, p) && p.reservations[t.reservationId].amount == t.amount
    requires L.ApplyReceipt(p, r) == Ok(q) && !Redelivery.InHistory(p, r)
    requires r.body == L.TransferSourceFailed(t.reservationId, []) && L.WithheldTotal(r.body.costs) == 0
    ensures !HasReservation(t, q) && 0 <= t.amount && q.receivables == p.receivables
    ensures AddMove(Flow(0, 0, 0), p, q) == Flow(0, t.amount, 0)
  {
    hide L.ApplyReceipt, P.Principal, P.WithheldCosts, L.WithheldTotal;
    SourceFailedPosts(p, r, q);
  }

  // What the committed failure did to the books and to k's flow.
  lemma {:induction false} FailurePosts(st: Store, k: Id, e: Event, t: Transfer, p: L.Portfolio, later: Store)
      returns (q: L.Portfolio)
    requires Inv(st) && k in st.transfers && st.transfers[k] == t && e.eventId !in st.events
    requires KeyOf(t) in st.scenarios && st.scenarios[KeyOf(t)] == p && HasReservation(t, p)
    requires e.kind.SourceFailure? && AppendEvent(st, k, e, []) == Ok(later)
    ensures KeyOf(t) in later.scenarios && later.scenarios[KeyOf(t)] == q && !HasReservation(t, q)
    ensures q.receivables == p.receivables
    ensures k in later.transfers && later.transfers == st.transfers[k := later.transfers[k]]
    ensures later.transfers[k].state.SourceFailed? && KeyOf(later.transfers[k]) == KeyOf(t)
    ensures AddMove(Flow(0, 0, 0), p, q) == Flow(0, t.amount, 0)
  {
    hide AppendEvent, L.ApplyReceipt, ReceiptFor, ApplyTransferEvent, InStep, Owned, AddMove, HasReservation;
    AppendShape(st, k, e, [], later);
    var after := ApplyTransferEvent(t, e).value;
    ReceiptOrNone(t, after, e, p.version, []);
    var r := ReceiptFor(t, after, e, p.version, []).value.value;
    q := later.scenarios[KeyOf(t)];
    FailureShape(st, t, e, after, p, r);
    FailureMoves(t, p, r, q);
  }

  // In a run where j has reserved and k has not, under one reservation id: k's source failure commits and pays j's
  // reservation out to k, which never put anything in, and leaves j waiting for capital that is gone.  Neither flow
  // fits its transfer any more.  ReservationNames shows exactly which runs stay clear of this.
  lemma {:induction false} OnePaysOutTheOther(start: Store, steps: seq<Step>, j: Id, k: Id, e: Event, t: Transfer,
      p: L.Portfolio) returns (later: Store)
    requires Opened(start) && Inv(Run(start, steps)) && Share(Run(start, steps), j, k, t, p)
    requires e.eventId !in Run(start, steps).events && Ripe(t, p, e) && ApplyTransferEvent(t, e).Ok?
    requires FlowOf(start, steps, j) == Flow(t.amount, 0, 0) && FlowOf(start, steps, k) == Flow(0, 0, 0)
    ensures 0 < t.amount
    ensures AppendEvent(Run(start, steps), k, e, []) == Ok(later) && PaidOut(Run(start, steps), later, j, k, t)
    ensures var run := steps + [AppendStep(k, e, [])];
            && Run(start, run) == later
            && FlowOf(start, run, k) == Flow(0, t.amount, 0) && FlowOf(start, run, j) == Flow(t.amount, 0, 0)
            && !Fits(later, k, FlowOf(start, run, k)) && !Fits(later, j, FlowOf(start, run, j))
  {
    hide Opened, Inv, Healthy, AppendEvent, ApplyTransferEvent, InOrder, CanCredit, AddMove, Run, FlowOf;
    var st, step := Run(start, steps), AppendStep(k, e, []);
    RunKeepsHealthy(start, steps);
    HeldIsPositive(st, k, t, p);
    RipeCommits(st, k, e, t, p);
    later := AppendEvent(st, k, e, []).value;
    var q := FailurePosts(st, k, e, t, p, later);
    assert After(st, step) == later;
    OneStepMore(start, steps, step, j);
    OneStepMore(start, steps, step, k);
    StrandedAt(st, j, p, q);
  }

  // A reserved transfer whose reservation is gone has a flow that fits nothing.
  lemma {:induction false} StrandedAt(st: Store, j: Id, p: L.Portfolio, q: L.Portfolio)
    requires Inv(st) && j in st.transfers && st.transfers[j].state.Reserved?
    requires KeyOf(st.transfers[j]) in st.scenarios && st.scenarios[KeyOf(st.transfers[j])] == p
    requires HasReservation(st.transfers[j], p) && !HasReservation(st.transfers[j], q) && q.receivables == p.receivables
    ensures var amount := p.reservations[st.transfers[j].reservationId].amount;
            0 < amount ==> !FlowFits(st.transfers[j], q, Flow(amount, 0, 0))
  {
    hide Owned;
    assert Linked(st.transfers[j], p);
  }

  lemma {:induction false} HeldIsPositive(st: Store, k: Id, t: Transfer, p: L.Portfolio)
    requires Inv(st) && Healthy(st) && k in st.transfers && st.transfers[k] == t
    requires KeyOf(t) in st.scenarios && st.scenarios[KeyOf(t)] == p && HasReservation(t, p)
    ensures 0 < t.amount == p.reservations[t.reservationId].amount
  {
    hide Owned, Sound, InStep;
    SoundIsValid(p);
    ReservedIsPositive(p, t.reservationId);
  }

  /******* A run that gets there *******/

  // A second draft of the same amount under the same reservation id, and the failure of its source.
  const SECOND: Id := "u"
  const SECOND_DRAFT := DRAFT.(transferId := SECOND)

  function SecondFails(): Event { Happens(1, SourceFailure).(transferId := SECOND, sequence := 0) }

  function ToSecond(): seq<Step> { ToReservation() + [CreateStep(SECOND_DRAFT)] }

  lemma {:induction false} SecondIsCreated(st: Store, t: Transfer, p: L.Portfolio) returns (u: Transfer)
    requires Stage(st, 1, t, p) && t.state.Reserved?
    ensures Create(st, SECOND_DRAFT) == Ok(st.(transfers := map[TRANSFER := t, SECOND := u]))
    ensures KeyOf(u) == KEY && u.reservationId == RESERVATION && u.state.Reserved?
    ensures u.amount == t.amount == 100 && u.provenance == "SYNTHETIC_TEST"
    ensures ApplyTransferEvent(u, SecondFails()).Ok?
  {
    hide Inv, Healthy, Header;
    u := CreateTransfer(SECOND_DRAFT).value;
  }

  lemma {:induction false} StageFlows(start: Store, steps: seq<Step>, t: Transfer, p: L.Portfolio)
    requires Opened(start) && Stage(Run(start, steps), 1, t, p) && t.state.Reserved? && RESERVATION in p.reservations
    ensures FlowOf(start, steps, TRANSFER) == Flow(100, 0, 0) && FlowOf(start, steps, SECOND) == Flow(0, 0, 0)
    ensures p.reservations[RESERVATION].amount == 100
  {
    hide Inv, Healthy, Header, Run, FlowOf, DistinctReservations;
    OpenedIsFresh(start);
    OneTransfer(Run(start, steps));
    LifecycleAndLedgerStayInStep(start, steps, TRANSFER);
    LifecycleAndLedgerStayInStep(start, steps, SECOND);
    assert Linked(t, p) by { StageIsLinked(Run(start, steps), t, p); }
  }

  lemma {:induction false} StageIsLinked(st: Store, t: Transfer, p: L.Portfolio)
    requires Stage(st, 1, t, p)
    ensures Linked(t, p)
  {
    hide Healthy, Header, Linked, Owned;
    assert Linked(st.transfers[TRANSFER], st.scenarios[KEY]);
  }

  lemma {:induction false} SecondIsRipe(u: Transfer, p: L.Portfolio)
    requires Header(p, 1) && u.provenance == "SYNTHETIC_TEST" && KeyOf(u) == KEY && u.reservationId == RESERVATION
    requires u.amount == 100 && RESERVATION in p.reservations
    requires CanCredit(p.cash, p.reservations[RESERVATION].familyId, 100)
    ensures Ripe(u, p, SecondFails())
  {
    hide CanCredit, Opening.ViewMap;
  }

  // Create t, reserve it, create u under the same reservation id, fail u's source: u is paid t's hundred.
  lemma {:induction false} SharedReservationIsPaidOut()
    ensures Opening.CreateOf(INPUT).Ok?
    ensures var start := StoreOf(Opening.CreateOf(INPUT).value);
            var run := ToSecond() + [AppendStep(SECOND, SecondFails(), [])];
            && Opened(start)
            && AppendEvent(Run(start, ToSecond()), SECOND, SecondFails(), []).Ok?
            && FlowOf(start, run, TRANSFER) == Flow(100, 0, 0) && !Fits(Run(start, run), TRANSFER, Flow(100, 0, 0))
            && FlowOf(start, run, SECOND) == Flow(0, 100, 0) && !Fits(Run(start, run), SECOND, Flow(0, 100, 0))
  {
    hide *;
    InputOpens();
    var start := Opening.CreateOf(INPUT).value;
    StoreOpens(start);
    var st1, t, p := ReservationIsReached(start);
    StageHeader(st1, 1, t, p);
    StageFlows(StoreOf(start), ToReservation(), t, p);
    var st2, u := SecondShares(StoreOf(start), st1, t, p);
    SecondIsRipe(u, p);
    var later := OnePaysOutTheOther(StoreOf(start), ToSecond(), TRANSFER, SECOND, SecondFails(), u, p);
  }

  // The second transfer is created, the books stay as they are, and both flows with them.
  lemma {:induction false} SecondShares(start: Store, st: Store, t: Transfer, p: L.Portfolio)
      returns (st': Store, u: Transfer)
    requires Run(start, ToReservation()) == st && Stage(st, 1, t, p) && t.state.Reserved?
    requires RESERVATION in p.reservations && p.reservations[RESERVATION].amount == 100
    requires FlowOf(start, ToReservation(), TRANSFER) == Flow(100, 0, 0)
    requires FlowOf(start, ToReservation(), SECOND) == Flow(0, 0, 0)
    ensures Run(start, ToSecond()) == st' && Inv(st') && Share(st', TRANSFER, SECOND, u, p)
    ensures u.provenance == "SYNTHETIC_TEST" && KeyOf(u) == KEY && u.reservationId == RESERVATION && u.amount == 100
    ensures SecondFails().eventId !in st'.events && ApplyTransferEvent(u, SecondFails()).Ok?
    ensures FlowOf(start, ToSecond(), TRANSFER) == Flow(100, 0, 0) && FlowOf(start, ToSecond(), SECOND) == Flow(0, 0, 0)
  {
    hide Inv, Healthy, Header, Run, FlowOf, FlowOfStep, ToReservation, ApplyTransferEvent, Create, Stage, Share;
    hide Happens;
    u := SecondIsCreated(st, t, p);
    st' := Create(st, SECOND_DRAFT).value;
    SecondIsLinked(st, t, p, u);
    OneStepMore(start, ToReservation(), CreateStep(SECOND_DRAFT), TRANSFER);
    OneStepMore(start, ToReservation(), CreateStep(SECOND_DRAFT), SECOND);
    CreationMovesNothing(st, SECOND_DRAFT, TRANSFER, Flow(100, 0, 0));
    CreationMovesNothing(st, SECOND_DRAFT, SECOND, Flow(0, 0, 0));
  }

  lemma CreationMovesNothing(st: Store, d: Draft, id: Id, f: Flow)
    ensures FlowOfStep(st, CreateStep(d), id, f) == f
  {
  }

  lemma {:induction false} SecondIsLinked(st: Store, t: Transfer, p: L.Portfolio, u: Transfer)
    requires Stage(st, 1, t, p) && t.state.Reserved?
    requires RESERVATION in p.reservations && p.reservations[RESERVATION].amount == 100
    requires Create(st, SECOND_DRAFT) == Ok(st.(transfers := map[TRANSFER := t, SECOND := u]))
    requires KeyOf(u) == KEY && u.reservationId == RESERVATION && u.state.Reserved? && u.amount == 100
    ensures Inv(Create(st, SECOND_DRAFT).value) && Share(Create(st, SECOND_DRAFT).value, TRANSFER, SECOND, u, p)
    ensures SecondFails().eventId !in Create(st, SECOND_DRAFT).value.events
  {
    hide Inv, Healthy, Header;
    CreateKeepsInv(st, SECOND_DRAFT);
  }
}
