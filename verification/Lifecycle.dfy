// Exactly which events a transfer takes, what each leaves of it, and that a whole run is about one message.
module Lifecycle {
  import opened Prelude
  import opened Transfers
  import opened TransferStore
  import opened Joint
  import opened JointRuns
  import opened Commits
  import Invalidation
  import L = Ledger

  /******* The conditions *******/

  // The event carries the message its transfer was burned with.
  predicate CarriesMessage(t: Transfer, e: Event) {
    t.messageIdentity.Some? && e.messageIdentity == t.messageIdentity
  }

  predicate Finalised(e: Event, success: bool) {
    e.chainReceipt.Some? && e.chainReceipt.value.success == success && e.chainReceipt.value.finality.Finalized?
  }

  // A synthetic transfer's events carry no evidence. A live one's burn and confirmation need a successful finalized
  // receipt, its failures at most a failed finalized one and nothing else any; exactly the observation is attested.
  predicate EvidenceFits(t: Transfer, e: Event) {
    if t.live then
      && (e.attestationHash.Some? <==> e.kind.AttestationObserved?)
      && match e.kind
         case BurnConfirmed => Finalised(e, true)
         case DestinationConfirmed => Finalised(e, true)
         case SourceFailure => e.chainReceipt.Some? ==> Finalised(e, false)
         case DestinationFailed => e.chainReceipt.Some? ==> Finalised(e, false)
         case _ => e.chainReceipt.None?
    else e.chainReceipt.None? && e.attestationHash.None?
  }

  // What each kind needs of the transfer's state and of the event's own fields.
  predicate KindFits(t: Transfer, e: Event) {
    match e.kind
    case ReservationMade => t.state.Reserved? && e.sequence == 0
    case SourceFailure => t.state.Reserved? && e.reasonCode.Some?
    case BurnConfirmed => t.state.Reserved? && e.messageIdentity.Some?
    case AttestationObserved =>
      CarriesMessage(t, e)
      && (t.state.AttestationPending? || (t.state.DestinationRetry? && t.attempts < t.maxAttempts))
    case AttestationDelayed => CarriesMessage(t, e) && t.state.AttestationPending? && e.reasonCode.Some?
    case DestinationFailed =>
      CarriesMessage(t, e) && t.state.ReadyToReceive? && e.reasonCode.Some? && t.attempts < t.maxAttempts
    case DestinationConfirmed => CarriesMessage(t, e) && t.state.ReadyToReceive?
    case DependencyInvalidated => !t.state.SourceFailed? && !t.state.Settled? && e.reasonCode.Some?
    case ClosureRecorded => e.reasonCode.Some?
  }

  predicate RangesFit(t: Transfer, e: Event) {
    && IsUInt(t.amount) && IsUInt(t.netReceivable) && IsUInt(t.attempts) && IsUInt(t.maxAttempts)
    && 0 <= t.nextSequence && IsUInt(t.nextSequence + 1) && e.reasonCode != Some("")
  }

  // An event is taken if and only if it is the transfer's next one, not earlier than the last, with the evidence its
  // kind and mode ask for, in a state its kind allows, about the transfer's own message.
  lemma {:induction false} TakenExactly(t: Transfer, e: Event)
    ensures ApplyTransferEvent(t, e).Ok? <==>
              && e.transferId == t.transferId && e.sequence == t.nextSequence && t.updatedAt <= e.occurredAt
              && RangesFit(t, e) && EvidenceFits(t, e) && KindFits(t, e)
  {
  }

  /******* What an event leaves *******/

  function StateAfter(t: Transfer, kind: EventKind): LifecycleState {
    match kind
    case SourceFailure => SourceFailed
    case BurnConfirmed => AttestationPending
    case AttestationObserved => ReadyToReceive
    case DestinationFailed => DestinationRetry
    case DestinationConfirmed => Settled
    case DependencyInvalidated => Invalidated
    case _ => t.state
  }

  // The whole transfer after an event: its state by kind, the burn's message, one more attempt after a failed one, the
  // first closure with the transfer as it was then, the invalidated source, and one more event behind it.
  function Outcome(t: Transfer, e: Event): Transfer {
    var closes := e.kind.ClosureRecorded? && t.closedAt.None?;
    Transfer(t.transferId, t.experimentId, t.scenarioId, t.routeId, t.reservationId, t.sourceViewId,
             t.destinationViewId, t.amount, t.netReceivable, StateAfter(t, e.kind), t.live, t.provenance,
             if e.kind.BurnConfirmed? then e.messageIdentity else t.messageIdentity,
             t.nextSequence + 1, t.attempts + (if e.kind.DestinationFailed? then 1 else 0), t.maxAttempts, t.createdAt,
             e.occurredAt, if closes then Some(e.occurredAt) else t.closedAt,
             if closes then Some(t) else t.deadlineState,
             if e.kind.DependencyInvalidated? then Some(e.sourceHash) else t.invalidatedDependency)
  }

  lemma {:induction false} LeavesExactly(t: Transfer, e: Event)
    requires ApplyTransferEvent(t, e).Ok?
    ensures ApplyTransferEvent(t, e) == Ok(Outcome(t, e))
  {
    hide VerifyEvidence, TransferParses;
  }

  // A draft becomes a transfer exactly when its provenance fits its mode and its figures are in range; the transfer
  // starts reserved, with no message, no events and no attempts.
  lemma CreatedExactly(d: Draft)
    ensures CreateTransfer(d).Ok? <==>
              && d.provenance == (if d.live then "CROSS_CHAIN_TESTNET" else "SYNTHETIC_TEST")
              && IsUInt(d.amount) && IsUInt(d.netReceivable) && IsUInt(d.maxAttempts)
    ensures CreateTransfer(d).Ok? ==>
              CreateTransfer(d).value
              == Transfer(d.transferId, d.experimentId, d.scenarioId, d.routeId, d.reservationId, d.sourceViewId,
                          d.destinationViewId, d.amount, d.netReceivable, Reserved, d.live, d.provenance, None, 0, 0,
                          d.maxAttempts, d.createdAt, d.createdAt, None, None, None)
  {
  }

  /******* The repository's verdict *******/

  predicate Takes(t: Transfer, e: Event) {
    && e.transferId == t.transferId && e.sequence == t.nextSequence && t.updatedAt <= e.occurredAt
    && RangesFit(t, e) && EvidenceFits(t, e) && KindFits(t, e)
  }

  // Every event is decided by what a caller can read before the call: a known id by whether it is the same event, a new
  // event by its transfer's lifecycle, its ledger and, for a burn, whether its message is unused.
  lemma {:induction false} EveryEventIsDecided(st: Store, id: Id, e: Event, costs: seq<L.Cost>)
    requires Inv(st) && Healthy(st) && id in st.transfers
    ensures KeyOf(st.transfers[id]) in st.scenarios
    ensures e.eventId in st.events ==>
              && (AppendEvent(st, id, e, costs).Ok? <==> EventParses(e) && st.events[e.eventId] == e)
              && (AppendEvent(st, id, e, costs).Ok? ==> AppendEvent(st, id, e, costs) == Ok(st))
    ensures var t := st.transfers[id];
            e.eventId !in st.events ==>
              (AppendEvent(st, id, e, costs).Ok? <==>
                 && Takes(t, e) && LedgerTakes(st.scenarios[KeyOf(t)], t, e, costs)
                 && (e.kind.BurnConfirmed? ==> !MessageTaken(st, id, e.messageIdentity)))
  {
    hide ApplyTransferEvent, ReceiptFor, PostReceipt, LedgerTakes, Healthy, Owned, Linked, MessageTaken, Takes;
    TakenIsTakes(st.transfers[id], e);
    if e.eventId !in st.events && Takes(st.transfers[id], e) {
      hide AppendEvent;
      CommitsExactlyWhenTheLedgerTakesIt(st, id, e, costs);
    }
  }

  lemma {:induction false} TakenIsTakes(t: Transfer, e: Event)
    ensures ApplyTransferEvent(t, e).Ok? <==> Takes(t, e)
  {
    hide ApplyTransferEvent, RangesFit, EvidenceFits, KindFits;
    TakenExactly(t, e);
  }

  /******* One message per transfer *******/

  predicate IsBurnOf(events: map<Id, Event>, k: Id, id: Id) {
    k in events && events[k].transferId == id && events[k].kind.BurnConfirmed?
  }

  predicate AboutMessage(kind: EventKind) {
    kind.AttestationObserved? || kind.AttestationDelayed? || kind.DestinationFailed? || kind.DestinationConfirmed?
  }

  // A transfer's events are numbered below its next sequence, each number once.
  predicate Numbered(events: map<Id, Event>, id: Id, next: int) {
    && 0 <= next
    && (forall k | k in events && events[k].transferId == id :: 0 <= events[k].sequence < next)
    && (forall j, k | j in events && k in events && events[j].transferId == id == events[k].transferId
                      && events[j].sequence == events[k].sequence :: j == k)
  }

  ghost predicate AfterBurn(events: map<Id, Event>, e: Event) {
    exists b :: IsBurnOf(events, b, e.transferId) && events[b].sequence < e.sequence
  }

  // Its message is the one of its burn.
  ghost predicate BurnedOnce(events: map<Id, Event>, t: Transfer) {
    && (t.state.Reserved? ==> t.messageIdentity.None?)
    && (t.messageIdentity.Some? ==> exists k :: IsBurnOf(events, k, t.transferId))
    && (forall k | IsBurnOf(events, k, t.transferId) ::
          events[k].messageIdentity.Some? && t.messageIdentity == events[k].messageIdentity)
  }

  // Every event about a message comes after the burn and is about that one.
  ghost predicate AllAbout(events: map<Id, Event>, t: Transfer) {
    forall k | k in events && events[k].transferId == t.transferId && AboutMessage(events[k].kind) ::
      t.messageIdentity.Some? && events[k].messageIdentity == t.messageIdentity && AfterBurn(events, events[k])
  }

  // Every event carried the evidence its kind and the transfer's mode ask for.
  predicate Evidenced(events: map<Id, Event>, t: Transfer) {
    forall k | k in events && events[k].transferId == t.transferId :: EvidenceFits(t, events[k])
  }

  ghost predicate TransferTold(events: map<Id, Event>, t: Transfer) {
    && Numbered(events, t.transferId, t.nextSequence) && BurnedOnce(events, t) && AllAbout(events, t)
    && Evidenced(events, t)
  }

  ghost predicate TransfersTold(transfers: map<Id, Transfer>, events: map<Id, Event>) {
    forall id | id in transfers :: transfers[id].transferId == id && TransferTold(events, transfers[id])
  }

  predicate EventsOwned(transfers: map<Id, Transfer>, events: map<Id, Event>) {
    forall k | k in events :: events[k].transferId in transfers
  }

  predicate MessagesDistinct(transfers: map<Id, Transfer>) {
    forall j, k | j in transfers && k in transfers && j != k && transfers[j].messageIdentity.Some? ::
      transfers[j].messageIdentity != transfers[k].messageIdentity
  }

  ghost predicate AllTold(st: Store) {
    && TransfersTold(st.transfers, st.events) && EventsOwned(st.transfers, st.events) && MessagesDistinct(st.transfers)
  }

  lemma {:induction false} OneMoreNumbered(events: map<Id, Event>, id: Id, next: int, e: Event)
    requires Numbered(events, id, next) && e.eventId !in events && e.transferId == id && e.sequence == next
    ensures Numbered(events[e.eventId := e], id, next + 1)
  {
  }

  lemma {:induction false} BurnsStay(events: map<Id, Event>, e: Event)
    requires e.eventId !in events
    ensures forall k, id | IsBurnOf(events, k, id) :: IsBurnOf(events[e.eventId := e], k, id)
    ensures forall k | k in events :: AfterBurn(events, events[k]) ==> AfterBurn(events[e.eventId := e], events[k])
  {
    var more := events[e.eventId := e];
    forall k | k in events && AfterBurn(events, events[k])
      ensures AfterBurn(more, events[k])
    {
      var b :| IsBurnOf(events, b, events[k].transferId) && events[b].sequence < events[k].sequence;
      assert IsBurnOf(more, b, events[k].transferId);
    }
  }

  // What an event the transfer takes does to its message.
  predicate Follows(t: Transfer, e: Event, after: Transfer) {
    && e.transferId == t.transferId == after.transferId && e.sequence == t.nextSequence
    && after.nextSequence == t.nextSequence + 1 && after.live == t.live && EvidenceFits(t, e)
    && after.messageIdentity == (if e.kind.BurnConfirmed? then e.messageIdentity else t.messageIdentity)
    && (e.kind.BurnConfirmed? ==> t.state.Reserved? && e.messageIdentity.Some? && !after.state.Reserved?)
    && (after.state.Reserved? ==> t.state.Reserved?)
    && (AboutMessage(e.kind) ==> CarriesMessage(t, e))
  }

  lemma {:induction false} TakenFollows(t: Transfer, e: Event)
    requires Takes(t, e)
    ensures Follows(t, e, Outcome(t, e))
  {
    hide RangesFit, EvidenceFits;
  }

  lemma {:induction false} OneMoreEvidenced(events: map<Id, Event>, t: Transfer, e: Event, after: Transfer)
    requires Evidenced(events, t) && e.eventId !in events && Follows(t, e, after)
    ensures Evidenced(events[e.eventId := e], after)
  {
    var more := events[e.eventId := e];
    forall k | k in more && more[k].transferId == t.transferId
      ensures EvidenceFits(after, more[k])
    {
      SameMode(t, after, if k == e.eventId then e else events[k]);
    }
  }

  lemma SameMode(t: Transfer, after: Transfer, e: Event)
    requires after.live == t.live
    ensures EvidenceFits(after, e) == EvidenceFits(t, e)
  {
  }

  // One more event of the transfer.
  lemma {:induction false} OneMoreBurned(events: map<Id, Event>, t: Transfer, e: Event, after: Transfer)
    requires BurnedOnce(events, t) && e.eventId !in events && Follows(t, e, after)
    ensures BurnedOnce(events[e.eventId := e], after)
  {
    var more := events[e.eventId := e];
    if e.kind.BurnConfirmed? {
      assert IsBurnOf(more, e.eventId, t.transferId);
    }
    if t.messageIdentity.Some? {
      var b :| IsBurnOf(events, b, t.transferId);
      assert IsBurnOf(more, b, t.transferId);
    }
    assert forall k | IsBurnOf(more, k, t.transferId) :: k == e.eventId || IsBurnOf(events, k, t.transferId);
  }

  lemma {:induction false} OneMoreAbout(events: map<Id, Event>, t: Transfer, e: Event, after: Transfer)
    requires AllAbout(events, t) && BurnedOnce(events, t) && Numbered(events, t.transferId, t.nextSequence)
    requires e.eventId !in events && Follows(t, e, after)
    ensures AllAbout(events[e.eventId := e], after)
  {
    var more := events[e.eventId := e];
    BurnsStay(events, e);
    if AboutMessage(e.kind) {
      var b :| IsBurnOf(events, b, t.transferId);
      assert IsBurnOf(more, b, t.transferId);
      assert AfterBurn(more, e);
    }
    hide AfterBurn, IsBurnOf, Numbered;
    forall k | k in more && more[k].transferId == t.transferId && AboutMessage(more[k].kind)
      ensures after.messageIdentity.Some? && more[k].messageIdentity == after.messageIdentity
      ensures AfterBurn(more, more[k])
    {
      if k != e.eventId {
        assert events[k] == more[k];
      }
    }
  }

  lemma {:induction false} OneMoreTold(events: map<Id, Event>, t: Transfer, e: Event, after: Transfer)
    requires TransferTold(events, t) && e.eventId !in events && Follows(t, e, after)
    ensures TransferTold(events[e.eventId := e], after)
  {
    hide Numbered, BurnedOnce, AllAbout, Evidenced;
    OneMoreEvidenced(events, t, e, after);
    OneMoreNumbered(events, t.transferId, t.nextSequence, e);
    OneMoreBurned(events, t, e, after);
    OneMoreAbout(events, t, e, after);
  }

  // An event of another transfer.
  lemma {:induction false} OthersNumbered(events: map<Id, Event>, id: Id, next: int, e: Event)
    requires Numbered(events, id, next) && e.eventId !in events && e.transferId != id
    ensures Numbered(events[e.eventId := e], id, next)
  {
  }

  lemma {:induction false} OthersBurned(events: map<Id, Event>, t: Transfer, e: Event)
    requires BurnedOnce(events, t) && e.eventId !in events && e.transferId != t.transferId
    ensures BurnedOnce(events[e.eventId := e], t)
  {
    var more := events[e.eventId := e];
    if t.messageIdentity.Some? {
      var b :| IsBurnOf(events, b, t.transferId);
      assert IsBurnOf(more, b, t.transferId);
    }
    assert forall k | IsBurnOf(more, k, t.transferId) :: IsBurnOf(events, k, t.transferId);
  }

  lemma {:induction false} OthersAbout(events: map<Id, Event>, t: Transfer, e: Event)
    requires AllAbout(events, t) && e.eventId !in events && e.transferId != t.transferId
    ensures AllAbout(events[e.eventId := e], t)
  {
    hide AfterBurn;
    BurnsStay(events, e);
    hide IsBurnOf, AboutMessage;
  }

  lemma {:induction false} OthersTold(events: map<Id, Event>, t: Transfer, e: Event)
    requires TransferTold(events, t) && e.eventId !in events && e.transferId != t.transferId
    ensures TransferTold(events[e.eventId := e], t)
  {
    hide Numbered, BurnedOnce, AllAbout, EvidenceFits;
    OthersNumbered(events, t.transferId, t.nextSequence, e);
    OthersBurned(events, t, e);
    OthersAbout(events, t, e);
  }

  /******* Whole runs *******/

  lemma {:induction false} NothingTold(events: map<Id, Event>, t: Transfer)
    requires t.nextSequence == 0 && t.messageIdentity.None?
    requires forall k | k in events :: events[k].transferId != t.transferId
    ensures TransferTold(events, t)
  {
  }

  lemma {:induction false} CreationKeepsTold(st: Store, d: Draft)
    requires AllTold(st) && Create(st, d).Ok?
    ensures AllTold(Create(st, d).value)
  {
    CreatedExactly(d);
    var t := CreateTransfer(d).value;
    hide CreateTransfer, TransferTold;
    NothingTold(st.events, t);
  }

  lemma {:induction false} OneMoreTells(transfers: map<Id, Transfer>, events: map<Id, Event>, id: Id, e: Event,
      after: Transfer)
    requires id in transfers && TransfersTold(transfers, events) && EventsOwned(transfers, events)
    requires e.eventId !in events && Follows(transfers[id], e, after)
    ensures TransfersTold(transfers[id := after], events[e.eventId := e])
    ensures EventsOwned(transfers[id := after], events[e.eventId := e])
  {
    hide TransferTold, Follows;
    var t := transfers[id];
    FollowsOwn(t, e, after);
    OneMoreTold(events, t, e, after);
    forall k | k in transfers && k != id
      ensures TransferTold(events[e.eventId := e], transfers[k])
    {
      OthersTold(events, transfers[k], e);
    }
  }

  lemma {:induction false} AppendKeepsTold(st: Store, id: Id, e: Event, costs: seq<L.Cost>)
    requires AllTold(st) && AppendEvent(st, id, e, costs).Ok? && e.eventId !in st.events
    ensures AllTold(AppendEvent(st, id, e, costs).value)
  {
    hide AppendEvent, TransfersTold, EventsOwned, MessagesDistinct, Takes, Outcome, Follows, MessageTaken;
    var later := AppendEvent(st, id, e, costs).value;
    AppendFacts(st, id, e, costs, later);
    TakenFollows(st.transfers[id], e);
    OneMoreTells(st.transfers, st.events, id, e, later.transfers[id]);
    NewMessage(st, id, later.transfers[id], later);
  }

  lemma FollowsOwn(t: Transfer, e: Event, after: Transfer)
    requires Follows(t, e, after)
    ensures e.transferId == t.transferId == after.transferId
  {
  }

  // The unique index on messages.
  lemma {:induction false} NewMessage(st: Store, id: Id, after: Transfer, later: Store)
    requires MessagesDistinct(st.transfers) && later.transfers == st.transfers[id := after]
    requires !MessageTaken(st, id, after.messageIdentity)
    ensures MessagesDistinct(later.transfers)
  {
  }

  lemma {:induction false} AppendFacts(st: Store, id: Id, e: Event, costs: seq<L.Cost>, later: Store)
    requires AppendEvent(st, id, e, costs) == Ok(later) && e.eventId !in st.events
    ensures id in st.transfers && Takes(st.transfers[id], e) && id in later.transfers
    ensures later.transfers == st.transfers[id := Outcome(st.transfers[id], e)]
    ensures later.events == st.events[e.eventId := e]
    ensures !MessageTaken(st, id, later.transfers[id].messageIdentity)
  {
    hide ApplyTransferEvent, ReceiptFor, PostReceipt, Takes, Outcome;
    TakenIsTakes(st.transfers[id], e);
    LeavesExactly(st.transfers[id], e);
  }

  lemma {:induction false} StepKeepsTold(st: Store, step: Step)
    requires AllTold(st)
    ensures AllTold(After(st, step))
  {
    hide AllTold, AppendEvent, Create, L.ApplyReceipt;
    if Attempt(st, step).Ok? {
      match step
      case CreateStep(d) => CreationKeepsTold(st, d);
      case LocalStep(key, r) => SameTransfersTold(st, After(st, step));
      case AppendStep(id, e, costs) =>
        if e.eventId in st.events {
          Invalidation.RepeatChangesNothing(st, id, e, costs);
        } else {
          AppendKeepsTold(st, id, e, costs);
        }
    }
  }

  lemma SameTransfersTold(st: Store, later: Store)
    requires AllTold(st) && later.transfers == st.transfers && later.events == st.events
    ensures AllTold(later)
  {
  }

  lemma {:induction false} RunIsTold(start: Store, steps: seq<Step>)
    requires Fresh(start)
    ensures AllTold(Run(start, steps))
  {
    hide After;
    if steps == [] {
      assert start.transfers.Keys == {} && start.events.Keys == {};
    } else {
      hide AllTold;
      RunIsTold(start, steps[..|steps| - 1]);
      StepKeepsTold(Run(start, steps[..|steps| - 1]), steps[|steps| - 1]);
    }
  }

  // In every run: an attestation, delay, failure or confirmation that was committed for a transfer names the message of
  // a burn committed before it, and of every burn of that transfer; no other transfer carries that message.
  lemma {:induction false} EveryEventNamesTheBurnedMessage(start: Store, steps: seq<Step>, k: Id)
    requires Fresh(start) && k in Run(start, steps).events && AboutMessage(Run(start, steps).events[k].kind)
    ensures var st := Run(start, steps);
            var e := st.events[k];
            && e.messageIdentity.Some? && e.transferId in st.transfers
            && (exists b :: IsBurnOf(st.events, b, e.transferId) && st.events[b].sequence < e.sequence)
            && (forall b | IsBurnOf(st.events, b, e.transferId) :: st.events[b].messageIdentity == e.messageIdentity)
            && (forall j | j in st.transfers && st.transfers[j].messageIdentity == e.messageIdentity ::
                  j == e.transferId)
  {
    hide Run;
    RunIsTold(start, steps);
    var st := Run(start, steps);
    hide Numbered;
    assert TransferTold(st.events, st.transfers[st.events[k].transferId]);
    assert AfterBurn(st.events, st.events[k]);
  }

  // In every run a transfer's committed events carry different sequence numbers below its next one.
  lemma {:induction false} EventsAreNumberedOnce(start: Store, steps: seq<Step>, j: Id, k: Id)
    requires Fresh(start) && j in Run(start, steps).events && k in Run(start, steps).events && j != k
    ensures var st := Run(start, steps);
            && st.events[j].transferId in st.transfers
            && 0 <= st.events[j].sequence < st.transfers[st.events[j].transferId].nextSequence
            && (st.events[j].transferId == st.events[k].transferId ==> st.events[j].sequence != st.events[k].sequence)
  {
    hide Run, BurnedOnce, AllAbout;
    RunIsTold(start, steps);
    var st := Run(start, steps);
    assert TransferTold(st.events, st.transfers[st.events[j].transferId]);
    assert Numbered(st.events, st.events[j].transferId, st.transfers[st.events[j].transferId].nextSequence);
  }

  // In every run every committed event of a transfer carried the evidence asked for: a live burn or confirmation a
  // successful finalized receipt, a synthetic event none.
  lemma {:induction false} EveryEventIsEvidenced(start: Store, steps: seq<Step>, k: Id)
    requires Fresh(start) && k in Run(start, steps).events
    ensures var st := Run(start, steps);
            st.events[k].transferId in st.transfers && EvidenceFits(st.transfers[st.events[k].transferId], st.events[k])
  {
    hide Run, BurnedOnce, AllAbout, Numbered, EvidenceFits;
    RunIsTold(start, steps);
    var st := Run(start, steps);
    assert TransferTold(st.events, st.transfers[st.events[k].transferId]);
  }
}
