// Two runs from an opened portfolio whose last event passes the lifecycle and is rolled back by the ledger.
module RollbackRuns {
  import opened Prelude
  import opened Transfers
  import opened TransferStore
  import opened Joint
  import opened JointRuns
  import opened Commits
  import opened Rollbacks
  import L = Ledger
  import F = Frames
  import R = Redelivery
  import Closing
  import Invalidation
  import Lifetimes
  import Opening

  const SEPOLIA: Id := "ethereum-sepolia"
  const ARC: Id := "arc-testnet"
  const TRANSFER: Id := "t"
  const RESERVATION: Id := "r"
  const KEY := ScenarioKey("e", "s")

  const SOURCE_VIEW := L.View(SEPOLIA, "usdc", "sepolia-usdc", 6, 6)
  const DESTINATION_VIEW := L.View(ARC, "usdc", "arc-usdc", 6, 6)

  // One hundred minor units on Sepolia, and one destination attempt.
  const INPUT := Opening.Input(
    "e", "s", "p", "SYNTHETIC_TEST", 100, 1,
    [Opening.NamedView("from", SOURCE_VIEW), Opening.NamedView("to-view", DESTINATION_VIEW)],
    [Opening.InitialCash("from", 100)])

  // A transfer of all of it whose lifecycle allows two attempts.
  const DRAFT := Draft(TRANSFER, "e", "s", "cctp-sepolia-to-arc-testnet", RESERVATION, "from", "to-view", 100, 100,
                       false, "SYNTHETIC_TEST", 2, 0)

  // Event ids of different lengths are different.
  function EventId(n: nat): Id { seq(n + 1, i => 'e') }

  // The event of the given kind as the n-th of the transfer.
  function Happens(n: nat, kind: EventKind): Event {
    Event(EventId(n), TRANSFER, n, kind, Some("m"), "h", n, None, None, Some("r"))
  }

  // The transfer after n events, up to what the events change.
  predicate TransferAt(t: Transfer, n: nat) {
    && t == Transfer(TRANSFER, "e", "s", DRAFT.routeId, RESERVATION, "from", "to-view", 100, 100, t.state, false,
                     "SYNTHETIC_TEST", t.messageIdentity, n, t.attempts, 2, 0, t.updatedAt, None, None, None)
    && t.updatedAt <= n && 0 <= t.attempts <= 2
  }

  // The scenario's books after n events, up to what the events move.
  predicate Header(p: L.Portfolio, n: nat) {
    && p.experimentId == "e" && p.scenarioId == "s" && p.provenance == "SYNTHETIC_TEST" && p.version == n
    && p.maxDestinationAttempts == 1 && p.closedAt.None?
    && p.views == Opening.ViewMap(INPUT.views)
    && (p.lastAppliedAt.Some? ==> p.lastAppliedAt.value <= n)
    && forall i | 0 <= i < |p.applied| :: |p.applied[i].receipt.operationId| <= n
  }

  // One transfer and one scenario after n events, with everything the next event's header needs.
  ghost predicate Stage(st: Store, n: nat, t: Transfer, p: L.Portfolio) {
    && Inv(st) && Healthy(st)
    && st.transfers == map[TRANSFER := t] && st.scenarios == map[KEY := p]
    && (forall k | k in st.events :: |k| <= n)
    && TransferAt(t, n) && Header(p, n)
  }

  /******* The opening *******/

  ghost predicate OpenedPortfolio(p: L.Portfolio) {
    && L.Valid(p) && Closing.StartsEmpty(p) && Header(p, 0)
    && p.reservations == map[] && p.receivables == map[] && p.applied == []
    && "sepolia-usdc" in p.cash && p.cash["sepolia-usdc"].amount == 100
  }

  lemma {:induction false} InputOpens()
    ensures Opening.CreateOf(INPUT).Ok? && OpenedPortfolio(Opening.CreateOf(INPUT).value)
  {
    var views, items := INPUT.views, INPUT.initialCash;
    assert Opening.FamilyOf(views, "from") == Some("sepolia-usdc");
    assert items[..0] == [];
    assert Opening.Funded(views, []) == Ok((Opening.Balances(views), {}));
    assert "sepolia-usdc" in Opening.Balances(views) by { assert views[0].view.familyId == "sepolia-usdc"; }
    Opening.OpensExactlyOnItsCapital(INPUT);
    hide L.Valid, Closing.StartsEmpty, Opening.ViewMap;
  }

  ghost function StoreOf(p: L.Portfolio): Store {
    Store(map[], map[], map[KEY := p])
  }

  lemma {:induction false} StoreOpens(p: L.Portfolio)
    requires OpenedPortfolio(p)
    ensures Opened(StoreOf(p)) && Fresh(StoreOf(p))
  {
    hide L.Valid, Closing.StartsEmpty, Header;
  }

  lemma OneTransfer(st: Store)
    requires st.transfers.Keys == {TRANSFER}
    ensures DistinctReservations(st)
  {
  }

  lemma {:induction false} DraftIsCreated(p: L.Portfolio) returns (t: Transfer)
    ensures Create(StoreOf(p), DRAFT) == Ok(Store(map[TRANSFER := t], map[], map[KEY := p]))
    ensures TransferAt(t, 0) && t.state.Reserved?
  {
    t := CreateTransfer(DRAFT).value;
  }

  lemma {:induction false} FirstTransfer(p: L.Portfolio) returns (st: Store, t: Transfer)
    requires OpenedPortfolio(p)
    ensures Opened(StoreOf(p)) && Create(StoreOf(p), DRAFT) == Ok(st)
    ensures Stage(st, 0, t, p) && t.state.Reserved?
  {
    hide Inv, Healthy, L.Valid, Closing.StartsEmpty, Header, Create, Opened, Fresh, TransferAt, DistinctReservations,
        Fits;
    StoreOpens(p);
    t := DraftIsCreated(p);
    st := Create(StoreOf(p), DRAFT).value;
    OneTransfer(st);
    FreshHasInv(StoreOf(p), TRANSFER);
    assert OffBooks(StoreOf(p), DRAFT);
    CreateKeeps(StoreOf(p), DRAFT, TRANSFER, Flow(0, 0, 0));
    RunKeepsHealthy(StoreOf(p), []);
    StepKeepsHealthy(StoreOf(p), CreateStep(DRAFT));
  }

  /******* One more event *******/

  lemma {:induction false} LifecycleTakes(t: Transfer, n: nat, kind: EventKind)
    requires TransferAt(t, n) && n < 10 && NextState(t, Happens(n, kind)).Ok?
    ensures ApplyTransferEvent(t, Happens(n, kind)) ==
            Ok(NextState(t, Happens(n, kind)).value.(nextSequence := n + 1, updatedAt := n))
  {
  }

  lemma {:induction false} HeaderInOrder(t: Transfer, p: L.Portfolio, n: nat, kind: EventKind)
    requires TransferAt(t, n) && Header(p, n) && n < 10
    ensures InOrder(p, t, Happens(n, kind))
  {
  }

  lemma {:induction false} HeaderMoves(p: L.Portfolio, r: L.Receipt, q: L.Portfolio, n: nat)
    requires Header(p, n) && Posted(p, r, q) && !r.body.Close?
    requires r.operationId == EventId(n) && r.observedAt == n
    ensures Header(q, n + 1)
  {
    hide L.Valid, L.Effect, F.Framed, L.ApplyReceipt, Opening.ViewMap;
    Lifetimes.AcceptedStep(p, r, q);
    forall i | 0 <= i < |q.applied|
      ensures |q.applied[i].receipt.operationId| <= n + 1
    {
      if i < |p.applied| {
        assert q.applied[i] == p.applied[i];
      }
    }
  }

  function Moved(t: Transfer, n: nat, kind: EventKind): Transfer
    requires NextState(t, Happens(n, kind)).Ok?
  {
    NextState(t, Happens(n, kind)).value.(nextSequence := n + 1, updatedAt := n)
  }

  lemma {:induction false} MovedAt(t: Transfer, n: nat, kind: EventKind)
    requires TransferAt(t, n) && NextState(t, Happens(n, kind)).Ok? && !kind.DependencyInvalidated?
    requires !kind.ClosureRecorded?
    ensures TransferAt(Moved(t, n, kind), n + 1)
  {
  }

  lemma NewOperation(p: L.Portfolio, r: L.Receipt, n: nat)
    requires Header(p, n) && r.operationId == EventId(n)
    ensures !R.InHistory(p, r)
  {
  }

  predicate HasReceipt(kind: EventKind) { !kind.DependencyInvalidated? && !kind.ClosureRecorded? }

  lemma MovesMoneyKinds()
    ensures forall kind :: HasReceipt(kind) <==> !kind.DependencyInvalidated? && !kind.ClosureRecorded?
  {
  }

  lemma {:induction false} StageCommits(st: Store, n: nat, t: Transfer, p: L.Portfolio, kind: EventKind)
    requires Stage(st, n, t, p) && n < 10 && HasReceipt(kind)
    requires NextState(t, Happens(n, kind)).Ok? && LedgerTakes(p, t, Happens(n, kind), [])
    ensures Happens(n, kind).eventId !in st.events
    ensures ApplyTransferEvent(t, Happens(n, kind)) == Ok(Moved(t, n, kind))
    ensures AppendEvent(st, TRANSFER, Happens(n, kind), []).Ok?
  {
    hide Inv, Healthy, AppendEvent, NextState, LedgerTakes, ApplyTransferEvent, Header, TransferAt;
    LifecycleTakes(t, n, kind);
    CommitsExactlyWhenTheLedgerTakesIt(st, TRANSFER, Happens(n, kind), []);
  }

  lemma {:induction false} ReceiptMovesHeader(t: Transfer, after: Transfer, n: nat, kind: EventKind, p: L.Portfolio,
      r: L.Receipt, q: L.Portfolio)
    requires Header(p, n) && ReceiptFor(t, after, Happens(n, kind), n, []) == Ok(Some(r))
    requires L.ApplyReceipt(p, r) == Ok(q)
    ensures ReceiptOf(t, after, Happens(n, kind), n, [], r) && Posted(p, r, q) && Header(q, n + 1)
  {
    hide ReceiptFor, L.ApplyReceipt, Header;
    ReceiptFields(t, after, Happens(n, kind), n, [], r);
    NewOperation(p, r, n);
    ReceiptNames(t, after, Happens(n, kind), n, [], r);
    HeaderMoves(p, r, q, n);
  }

  lemma KeyAndVersion(t: Transfer, p: L.Portfolio, n: nat, kind: EventKind)
    requires TransferAt(t, n) && Header(p, n)
    ensures KeyOf(t) == KEY && p.version == n
    ensures Happens(n, kind).eventId == EventId(n) && Happens(n, kind).kind == kind
  {
  }

  lemma {:induction false} StagePosts(st: Store, n: nat, t: Transfer, p: L.Portfolio, kind: EventKind)
      returns (st': Store, q: L.Portfolio, r: L.Receipt)
    requires st.transfers == map[TRANSFER := t] && st.scenarios == map[KEY := p] && TransferAt(t, n) && Header(p, n)
    requires Happens(n, kind).eventId !in st.events && NextState(t, Happens(n, kind)).Ok? && HasReceipt(kind)
    requires ApplyTransferEvent(t, Happens(n, kind)) == Ok(Moved(t, n, kind))
    requires AppendEvent(st, TRANSFER, Happens(n, kind), []).Ok?
    ensures AppendEvent(st, TRANSFER, Happens(n, kind), []) == Ok(st')
    ensures st' == Store(map[TRANSFER := Moved(t, n, kind)], st.events[EventId(n) := Happens(n, kind)], map[KEY := q])
    ensures ReceiptOf(t, Moved(t, n, kind), Happens(n, kind), n, [], r) && Posted(p, r, q)
    ensures Header(q, n + 1)
  {
    hide AppendEvent, ReceiptFor, L.ApplyReceipt, NextState, Moved, ApplyTransferEvent, TransferAt, Header, Happens;
    var e, after := Happens(n, kind), Moved(t, n, kind);
    KeyAndVersion(t, p, n, kind);
    st' := AppendEvent(st, TRANSFER, e, []).value;
    AppendShape(st, TRANSFER, e, [], st');
    ReceiptOrNone(t, after, e, n, []);
    r := ReceiptFor(t, after, e, n, []).value.value;
    q := L.ApplyReceipt(p, r).value;
    hide *;
    ReceiptMovesHeader(t, after, n, kind, p, r, q);
  }

  // At a stage, an event that both sides take leads to the next stage.
  lemma {:induction false} NextStage(st: Store, n: nat, t: Transfer, p: L.Portfolio, kind: EventKind)
      returns (st': Store, q: L.Portfolio, r: L.Receipt)
    requires Stage(st, n, t, p) && n < 10 && HasReceipt(kind)
    requires NextState(t, Happens(n, kind)).Ok? && LedgerTakes(p, t, Happens(n, kind), [])
    ensures AppendEvent(st, TRANSFER, Happens(n, kind), []) == Ok(st')
    ensures Stage(st', n + 1, Moved(t, n, kind), q)
    ensures ReceiptOf(t, Moved(t, n, kind), Happens(n, kind), n, [], r) && Posted(p, r, q)
  {
    hide Inv, Healthy, AppendEvent, NextState, LedgerTakes, Moved, ApplyTransferEvent, Header, TransferAt, Posted,
        ReceiptOf;
    StageCommits(st, n, t, p, kind);
    st', q, r := StagePosts(st, n, t, p, kind);
    MovedAt(t, n, kind);
    StageIsKept(st, n, kind, st');
  }

  lemma {:induction false} StageIsKept(st: Store, n: nat, kind: EventKind, st': Store)
    requires Inv(st) && Healthy(st) && AppendEvent(st, TRANSFER, Happens(n, kind), []) == Ok(st')
    requires st'.transfers.Keys == {TRANSFER}
    ensures Inv(st') && Healthy(st')
  {
    hide Inv, Healthy, AppendEvent, DistinctReservations;
    OneTransfer(st');
    Invalidation.StepKeepsInv(st, AppendStep(TRANSFER, Happens(n, kind), []));
    StepKeepsHealthy(st, AppendStep(TRANSFER, Happens(n, kind), []));
  }

  /******* Up to the burn *******/

  lemma {:induction false} ViewsOfInput()
    ensures var views := Opening.ViewMap(INPUT.views);
            && "from" in views && views["from"] == SOURCE_VIEW
            && "to-view" in views && views["to-view"] == DESTINATION_VIEW
  {
    Opening.ViewsListed(INPUT.views);
    assert INPUT.views[0].viewId == "from" && INPUT.views[1].viewId == "to-view";
    hide Opening.ViewMap;
  }

  // A stage's portfolio can pay nothing.
  lemma {:induction false} NothingIsPayable(st: Store, n: nat, t: Transfer, p: L.Portfolio)
    requires Stage(st, n, t, p)
    ensures CostsFit(p, p.cash, [], 0)
  {
    assert Sound(st.scenarios[KEY]);
    hide *;
    SoundIsValid(p);
    SoundFacts(p);
    NothingToPay(p, p.cash);
  }

  lemma {:induction false} ReservationPlaced(n: nat, p: L.Portfolio, r: L.Receipt, q: L.Portfolio)
    requires Header(p, n) && Posted(p, r, q) && r.body == L.Reserve(RESERVATION, "from", 100, [])
    requires "sepolia-usdc" in p.cash && p.cash["sepolia-usdc"].amount == 100
    ensures RESERVATION in q.reservations && q.reservations[RESERVATION].networkId == SEPOLIA
    ensures CanCredit(q.cash, q.reservations[RESERVATION].familyId, 100)
  {
    hide Posted, L.ReserveEffect, F.Framed, Opening.ViewMap;
    ViewsOfInput();
    PostedEffect(p, r, q);
    F.ReserveMoves(p, r, L.Effect(p, r).value);
    CashIsReserved(p, r, L.Effect(p, r).value);
  }

  lemma CashIsReserved(p: L.Portfolio, r: L.Receipt, s: L.Portfolio)
    requires r.body == L.Reserve(RESERVATION, "from", 100, []) && L.ReserveEffect(p, r) == Ok(s)
    requires "from" in p.views && p.views["from"] == SOURCE_VIEW
    requires "sepolia-usdc" in p.cash && p.cash["sepolia-usdc"].amount == 100
    ensures "sepolia-usdc" in s.cash && s.cash["sepolia-usdc"].amount == 0
  {
  }

  lemma {:induction false} ReserveIsTaken(t: Transfer, p: L.Portfolio)
    requires TransferAt(t, 0) && t.state.Reserved? && OpenedPortfolio(p)
    ensures NextState(t, Happens(0, ReservationMade)).Ok? && LedgerTakes(p, t, Happens(0, ReservationMade), [])
    ensures Moved(t, 0, ReservationMade).state.Reserved?
  {
    hide L.Valid, Closing.StartsEmpty, Opening.ViewMap;
    ViewsOfInput();
    HeaderInOrder(t, p, 0, ReservationMade);
    hide InOrder;
  }

  lemma {:induction false} ReserveBody(t: Transfer, after: Transfer, r: L.Receipt)
    requires TransferAt(t, 0) && ReceiptOf(t, after, Happens(0, ReservationMade), 0, [], r)
    ensures r.body == L.Reserve(RESERVATION, "from", 100, [])
  {
    hide DistinctHashes, HashesOf;
  }

  lemma {:induction false} StageHeader(st: Store, n: nat, t: Transfer, p: L.Portfolio)
    requires Stage(st, n, t, p)
    ensures TransferAt(t, n) && Header(p, n)
  {
    hide Inv, Healthy, TransferAt, Header;
  }

  lemma OpenedCash(p: L.Portfolio)
    requires OpenedPortfolio(p)
    ensures "sepolia-usdc" in p.cash && p.cash["sepolia-usdc"].amount == 100
  {
  }

  lemma {:induction false} Reserves(st: Store, t: Transfer, p: L.Portfolio)
      returns (st': Store, t': Transfer, q: L.Portfolio)
    requires Stage(st, 0, t, p) && t.state.Reserved? && OpenedPortfolio(p)
    ensures AppendEvent(st, TRANSFER, Happens(0, ReservationMade), []) == Ok(st') && Stage(st', 1, t', q)
    ensures t'.state.Reserved?
    ensures RESERVATION in q.reservations && q.reservations[RESERVATION].networkId == SEPOLIA
    ensures CanCredit(q.cash, q.reservations[RESERVATION].familyId, 100)
  {
    hide *;
    MovesMoneyKinds();
    StageHeader(st, 0, t, p);
    OpenedCash(p);
    ReserveIsTaken(t, p);
    var r;
    st', q, r := NextStage(st, 0, t, p, ReservationMade);
    t' := Moved(t, 0, ReservationMade);
    ReserveBody(t, t', r);
    ReservationPlaced(0, p, r, q);
  }

  lemma {:induction false} BurnIsTaken(t: Transfer, p: L.Portfolio)
    requires TransferAt(t, 1) && t.state.Reserved? && Header(p, 1) && CostsFit(p, p.cash, [], 0)
    requires RESERVATION in p.reservations && p.reservations[RESERVATION].networkId == SEPOLIA
    ensures NextState(t, Happens(1, BurnConfirmed)).Ok? && LedgerTakes(p, t, Happens(1, BurnConfirmed), [])
    ensures Moved(t, 1, BurnConfirmed).state.AttestationPending?
    ensures Moved(t, 1, BurnConfirmed).messageIdentity == Some("m")
  {
    hide Opening.ViewMap, CostsFit;
    ViewsOfInput();
    HeaderInOrder(t, p, 1, BurnConfirmed);
    hide InOrder;
  }

  lemma {:induction false} BurnBody(t: Transfer, after: Transfer, r: L.Receipt)
    requires TransferAt(t, 1) && ReceiptOf(t, after, Happens(1, BurnConfirmed), 1, [], r)
    ensures r.body.TransferBurned? && r.body.transferId == TRANSFER
  {
    hide DistinctHashes, HashesOf;
  }

  lemma {:induction false} Burns(st: Store, t: Transfer, p: L.Portfolio)
      returns (st': Store, t': Transfer, q: L.Portfolio)
    requires Stage(st, 1, t, p) && t.state.Reserved?
    requires RESERVATION in p.reservations && p.reservations[RESERVATION].networkId == SEPOLIA
    ensures AppendEvent(st, TRANSFER, Happens(1, BurnConfirmed), []) == Ok(st') && Stage(st', 2, t', q)
    ensures t'.state.AttestationPending? && t'.messageIdentity == Some("m")
    ensures TRANSFER in q.receivables && q.receivables[TRANSFER].state.InTransit?
  {
    hide *;
    MovesMoneyKinds();
    StageHeader(st, 1, t, p);
    NothingIsPayable(st, 1, t, p);
    BurnIsTaken(t, p);
    var r;
    st', q, r := NextStage(st, 1, t, p, BurnConfirmed);
    t' := Moved(t, 1, BurnConfirmed);
    BurnBody(t, t', r);
    BurnPosts(p, r, q);
  }

  /******* The two runs *******/

  function Appends(n: nat, kind: EventKind): Step { AppendStep(TRANSFER, Happens(n, kind), []) }

  function ToReservation(): seq<Step> { [CreateStep(DRAFT)] + [Appends(0, ReservationMade)] }

  function ToBurn(): seq<Step> { ToReservation() + [Appends(1, BurnConfirmed)] }

  lemma {:induction false} RunOneMore(st: Store, steps: seq<Step>, step: Step)
    ensures Run(st, steps + [step]) == After(Run(st, steps), step)
  {
    hide After;
    assert (steps + [step])[..|steps|] == steps;
  }

  lemma {:induction false} RunCommitted(st: Store, steps: seq<Step>, step: Step, st': Store)
    requires Attempt(Run(st, steps), step) == Ok(st')
    ensures Run(st, steps + [step]) == st'
  {
    hide Attempt, Run;
    RunOneMore(st, steps, step);
  }

  // A stage's transfer waits for its attestation with its receivable in the given state.
  ghost predicate Pending(t: Transfer, p: L.Portfolio, state: L.ReceivableState) {
    && t.state.AttestationPending? && t.messageIdentity == Some("m")
    && TRANSFER in p.receivables && p.receivables[TRANSFER].state == state
  }

  // The joint invariant: no attempt is counted before the first readiness.
  lemma {:induction false} PendingHasNoAttempts(st: Store, t: Transfer, p: L.Portfolio)
    requires Stage(st, 2, t, p) && t.state.AttestationPending?
    ensures t.attempts == 0
  {
    assert Linked(st.transfers[TRANSFER], p);
    hide Healthy, Header, TransferAt;
  }

  lemma {:induction false} ReservationIsReached(start: L.Portfolio) returns (st: Store, t: Transfer, p: L.Portfolio)
    requires OpenedPortfolio(start)
    ensures Run(StoreOf(start), ToReservation()) == st && Stage(st, 1, t, p) && t.state.Reserved?
    ensures RESERVATION in p.reservations && p.reservations[RESERVATION].networkId == SEPOLIA
    ensures CanCredit(p.cash, p.reservations[RESERVATION].familyId, 100)
  {
    var steps := [CreateStep(DRAFT)];
    hide OpenedPortfolio, Create, AppendEvent, Happens, Run, StoreOf, Stage, CanCredit;
    var st0, t0 := FirstTransfer(start);
    assert Run(StoreOf(start), []) == StoreOf(start) by { RunOfNone(StoreOf(start)); }
    assert [] + [CreateStep(DRAFT)] == steps;
    RunCommitted(StoreOf(start), [], CreateStep(DRAFT), st0);
    st, t, p := Reserves(st0, t0, start);
    RunCommitted(StoreOf(start), steps, Appends(0, ReservationMade), st);
  }

  lemma {:induction false} BurnIsReached(start: L.Portfolio) returns (st: Store, t: Transfer, p: L.Portfolio)
    requires OpenedPortfolio(start)
    ensures Run(StoreOf(start), ToBurn()) == st && Stage(st, 2, t, p)
    ensures Pending(t, p, L.InTransit) && t.attempts == 0
  {
    hide OpenedPortfolio, Create, AppendEvent, Happens, Run, StoreOf, Stage, CanCredit;
    var st1, t1, p1 := ReservationIsReached(start);
    st, t, p := Burns(st1, t1, p1);
    PendingHasNoAttempts(st, t, p);
    RunCommitted(StoreOf(start), ToReservation(), Appends(1, BurnConfirmed), st);
  }

  lemma RunOfNone(st: Store)
    ensures Run(st, []) == st
  {
  }

  // The event passes the lifecycle of the transfer as the store holds it, and the transaction refuses it.
  ghost predicate RolledBack(st: Store, e: Event) {
    && TRANSFER in st.transfers && e.eventId !in st.events
    && ApplyTransferEvent(st.transfers[TRANSFER], e).Ok? && AppendEvent(st, TRANSFER, e, []).Err?
  }

  lemma {:induction false} PendingStep(t: Transfer, p: L.Portfolio, n: nat, kind: EventKind)
    requires TransferAt(t, n) && Header(p, n) && n < 10 && Pending(t, p, L.InTransit) && CostsFit(p, p.cash, [], 0)
    requires kind.AttestationDelayed? || kind.AttestationObserved?
    ensures NextState(t, Happens(n, kind)).Ok? && LedgerTakes(p, t, Happens(n, kind), []) && HasReceipt(kind)
    ensures Moved(t, n, kind).messageIdentity == Some("m") && Moved(t, n, kind).attempts == t.attempts
    ensures Moved(t, n, kind).state == if kind.AttestationDelayed? then AttestationPending else ReadyToReceive
  {
    HeaderInOrder(t, p, n, kind);
    hide Opening.ViewMap, CostsFit, Header, InOrder;
  }

  lemma {:induction false} DelayBody(t: Transfer, after: Transfer, n: nat, r: L.Receipt)
    requires TransferAt(t, n) && ReceiptOf(t, after, Happens(n, AttestationDelayed), n, [], r)
    ensures r.body.MovesReceivable() && r.body.TransferDelayed? && r.body.transferId == TRANSFER
  {
    hide DistinctHashes, HashesOf;
  }

  // After the ledger delays a receivable it is delayed.
  lemma {:induction false} DelayIsSeen(p: L.Portfolio, r: L.Receipt, q: L.Portfolio)
    requires Posted(p, r, q) && r.body.TransferDelayed? && r.body.MovesReceivable()
    ensures r.body.transferId in q.receivables && q.receivables[r.body.transferId].state.Delayed?
  {
    hide Posted, MovesMoney;
    ReceivablePosts(p, r, q);
  }

  lemma {:induction false} DelayedStage(st: Store, t: Transfer, p: L.Portfolio)
      returns (st': Store, t': Transfer, q: L.Portfolio)
    requires Stage(st, 2, t, p) && Pending(t, p, L.InTransit)
    ensures AppendEvent(st, TRANSFER, Happens(2, AttestationDelayed), []) == Ok(st')
    ensures Stage(st', 3, t', q) && Pending(t', q, L.Delayed)
  {
    hide *;
    StageHeader(st, 2, t, p);
    NothingIsPayable(st, 2, t, p);
    PendingStep(t, p, 2, AttestationDelayed);
    var r;
    st', q, r := NextStage(st, 2, t, p, AttestationDelayed);
    t' := Moved(t, 2, AttestationDelayed);
    DelayBody(t, t', 2, r);
    DelayIsSeen(p, r, q);
    PendingIs(t', q, L.Delayed);
  }

  lemma PendingIs(t: Transfer, p: L.Portfolio, state: L.ReceivableState)
    ensures Pending(t, p, state) <==>
              && t.state.AttestationPending? && t.messageIdentity == Some("m")
              && TRANSFER in p.receivables && p.receivables[TRANSFER].state == state
  {
  }

  lemma {:induction false} StageShape(st: Store, n: nat, t: Transfer, p: L.Portfolio, kind: EventKind)
    requires Stage(st, n, t, p)
    ensures Inv(st) && Healthy(st) && TRANSFER in st.transfers && st.transfers[TRANSFER] == t
    ensures KeyOf(t) in st.scenarios && st.scenarios[KeyOf(t)] == p && Happens(n, kind).eventId !in st.events
  {
    hide Inv, Healthy, Header;
  }

  lemma Refused(st: Store, n: nat, t: Transfer, p: L.Portfolio, kind: EventKind)
    requires TRANSFER in st.transfers && st.transfers[TRANSFER] == t && Happens(n, kind).eventId !in st.events
    requires ApplyTransferEvent(t, Happens(n, kind)).Ok?
    requires FreeVerdict(p, t, Happens(n, kind), AppendEvent(st, TRANSFER, Happens(n, kind), []).Ok?)
    requires !FreeVerdict(p, t, Happens(n, kind), true)
    ensures RolledBack(st, Happens(n, kind))
  {
  }

  // At a stage, an event that the lifecycle takes and the exact condition refuses.
  lemma {:induction false} StageVerdict(st: Store, n: nat, t: Transfer, p: L.Portfolio, kind: EventKind)
    requires Stage(st, n, t, p) && n < 10 && NextState(t, Happens(n, kind)).Ok?
    requires !FreeVerdict(p, t, Happens(n, kind), true)
    ensures RolledBack(st, Happens(n, kind))
  {
    hide *;
    StageHeader(st, n, t, p);
    StageShape(st, n, t, p, kind);
    LifecycleTakes(t, n, kind);
    HeaderInOrder(t, p, n, kind);
    FreeEventsCommit(st, TRANSFER, Happens(n, kind));
    Refused(st, n, t, p, kind);
  }

  // Create, reserve, burn, delay, delay: the last event passes the lifecycle and is rolled back.
  lemma {:induction false} SecondDelayIsReached()
    ensures Opening.CreateOf(INPUT).Ok?
    ensures var start := StoreOf(Opening.CreateOf(INPUT).value);
            && Opened(start)
            && RolledBack(Run(start, ToBurn() + [Appends(2, AttestationDelayed)]), Happens(3, AttestationDelayed))
  {
    hide *;
    InputOpens();
    var start := Opening.CreateOf(INPUT).value;
    StoreOpens(start);
    var st2, t2, p2 := BurnIsReached(start);
    var st3, t3, p3 := DelayedStage(st2, t2, p2);
    AppendIs(st2, 2, AttestationDelayed);
    RunCommitted(StoreOf(start), ToBurn(), Appends(2, AttestationDelayed), st3);
    StageHeader(st3, 3, t3, p3);
    SecondDelayFails(t3, p3);
    StageVerdict(st3, 3, t3, p3, AttestationDelayed);
  }

  lemma AppendIs(st: Store, n: nat, kind: EventKind)
    ensures Attempt(st, Appends(n, kind)) == AppendEvent(st, TRANSFER, Happens(n, kind), [])
  {
  }

  lemma {:induction false} SecondDelayFails(t: Transfer, p: L.Portfolio)
    requires TransferAt(t, 3) && Pending(t, p, L.Delayed)
    ensures NextState(t, Happens(3, AttestationDelayed)).Ok?
    ensures !FreeVerdict(p, t, Happens(3, AttestationDelayed), true)
  {
  }

  lemma {:induction false} ObservedStage(st: Store, t: Transfer, p: L.Portfolio)
      returns (st': Store, t': Transfer, q: L.Portfolio)
    requires Stage(st, 2, t, p) && Pending(t, p, L.InTransit) && t.attempts == 0
    ensures AppendEvent(st, TRANSFER, Happens(2, AttestationObserved), []) == Ok(st')
    ensures Stage(st', 3, t', q) && t'.state.ReadyToReceive? && t'.messageIdentity == Some("m") && t'.attempts == 0
  {
    hide *;
    StageHeader(st, 2, t, p);
    NothingIsPayable(st, 2, t, p);
    PendingStep(t, p, 2, AttestationObserved);
    var r;
    st', q, r := NextStage(st, 2, t, p, AttestationObserved);
    t' := Moved(t, 2, AttestationObserved);
  }

  lemma {:induction false} FailureStep(t: Transfer, p: L.Portfolio)
    requires TransferAt(t, 3) && Header(p, 3) && t.state.ReadyToReceive? && t.messageIdentity == Some("m")
    requires t.attempts == 0 && CostsFit(p, p.cash, [], 0)
    ensures NextState(t, Happens(3, DestinationFailed)).Ok? && LedgerTakes(p, t, Happens(3, DestinationFailed), [])
    ensures var t' := Moved(t, 3, DestinationFailed);
            t'.state.DestinationRetry? && t'.attempts == 1 && t'.messageIdentity == Some("m")
  {
    HeaderInOrder(t, p, 3, DestinationFailed);
    hide Opening.ViewMap, CostsFit, Header, InOrder;
  }

  lemma {:induction false} FailedStage(st: Store, t: Transfer, p: L.Portfolio)
      returns (st': Store, t': Transfer, q: L.Portfolio)
    requires Stage(st, 3, t, p) && t.state.ReadyToReceive? && t.messageIdentity == Some("m") && t.attempts == 0
    ensures AppendEvent(st, TRANSFER, Happens(3, DestinationFailed), []) == Ok(st')
    ensures Stage(st', 4, t', q) && t'.state.DestinationRetry? && t'.attempts == 1 && t'.messageIdentity == Some("m")
  {
    hide *;
    MovesMoneyKinds();
    StageHeader(st, 3, t, p);
    NothingIsPayable(st, 3, t, p);
    FailureStep(t, p);
    var r;
    st', q, r := NextStage(st, 3, t, p, DestinationFailed);
    t' := Moved(t, 3, DestinationFailed);
  }

  lemma {:induction false} SpentObservationFails(t: Transfer, p: L.Portfolio)
    requires TransferAt(t, 4) && Header(p, 4) && t.state.DestinationRetry? && t.attempts == 1
    requires t.messageIdentity == Some("m")
    ensures NextState(t, Happens(4, AttestationObserved)).Ok?
    ensures !FreeVerdict(p, t, Happens(4, AttestationObserved), true)
  {
    hide Opening.ViewMap;
  }

  // Create, reserve, burn, observe, fail, observe: the lifecycle still has an attempt and the ledger has none.
  lemma {:induction false} SpentObservationIsReached()
    ensures Opening.CreateOf(INPUT).Ok?
    ensures var start := StoreOf(Opening.CreateOf(INPUT).value);
            && Opened(start)
            && RolledBack(Run(start, ToBurn() + [Appends(2, AttestationObserved)] + [Appends(3, DestinationFailed)]),
                          Happens(4, AttestationObserved))
  {
    hide *;
    InputOpens();
    var start := Opening.CreateOf(INPUT).value;
    StoreOpens(start);
    var st2, t2, p2 := BurnIsReached(start);
    var st3, t3, p3 := ObservedStage(st2, t2, p2);
    AppendIs(st2, 2, AttestationObserved);
    RunCommitted(StoreOf(start), ToBurn(), Appends(2, AttestationObserved), st3);
    var st4, t4, p4 := FailedStage(st3, t3, p3);
    AppendIs(st3, 3, DestinationFailed);
    RunCommitted(StoreOf(start), ToBurn() + [Appends(2, AttestationObserved)], Appends(3, DestinationFailed), st4);
    StageHeader(st4, 4, t4, p4);
    SpentObservationFails(t4, p4);
    StageVerdict(st4, 4, t4, p4, AttestationObserved);
  }
}
