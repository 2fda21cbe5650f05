// Which cost-free events roll back, over every run.
module Rollbacks {
  import opened Prelude
  import opened Transfers
  import opened TransferStore
  import opened Joint
  import opened JointRuns
  import opened Commits
  import L = Ledger
  import C = Conservation
  import R = Redelivery
  import Closing
  import Lifetimes

  /******* Every run keeps what the exact condition needs *******/

  lemma {:induction false} PostingKeepsSound(p: L.Portfolio, r: L.Receipt, q: L.Portfolio)
    requires Sound(p) && L.ApplyReceipt(p, r) == Ok(q)
    ensures Sound(q)
  {
    hide L.Structured, L.Effect, Lifetimes.AttemptsFit, L.ApplyReceipt, L.Valid;
    C.AcceptedSteps(p, r, q);
    Lifetimes.StepKeepsAttemptsFit(p, r, q);
    R.StepShape(p, r, q);
    SoundFacts(p);
  }

  lemma {:induction false} StepKeepsHealthy(st: Store, step: Step)
    requires Healthy(st)
    ensures Healthy(After(st, step))
  {
    hide Sound, L.ApplyReceipt, ApplyTransferEvent, ReceiptFor;
    if Attempt(st, step).Ok? {
      match step
      case CreateStep(d) =>
      case LocalStep(key, r) => PostingKeepsSound(st.scenarios[key], r, L.ApplyReceipt(st.scenarios[key], r).value);
      case AppendStep(id, e, costs) =>
        if e.eventId !in st.events {
          var st' := Attempt(st, step).value;
          AppendShape(st, id, e, costs, st');
          var p := st.scenarios[KeyOf(st.transfers[id])];
          var receipt := ReceiptFor(st.transfers[id], st'.transfers[id], e, p.version, costs).value;
          if receipt.Some? {
            PostingKeepsSound(p, receipt.value, PostReceipt(p, receipt).value);
          }
        }
    }
  }

  // A store of portfolios as createPortfolio opens them, before the first transfer.
  ghost predicate Opened(st: Store) {
    && Fresh(st)
    && forall key | key in st.scenarios :: L.Valid(st.scenarios[key]) && Closing.StartsEmpty(st.scenarios[key])
  }

  lemma {:induction false} RunKeepsHealthy(st: Store, steps: seq<Step>)
    requires Opened(st)
    ensures Healthy(Run(st, steps))
  {
    hide After, L.Valid, Closing.StartsEmpty;
    if steps == [] {
      assert st.transfers.Keys == {};
    } else {
      RunKeepsHealthy(st, steps[..|steps| - 1]);
      StepKeepsHealthy(Run(st, steps[..|steps| - 1]), steps[|steps| - 1]);
    }
  }

  // In every run: an event that its lifecycle takes commits exactly when the ledger's condition holds.
  lemma {:induction false} CommitsExactlyInEveryRun(st: Store, steps: seq<Step>, id: Id, e: Event, costs: seq<L.Cost>)
    requires Opened(st) && DistinctReservations(Run(st, steps)) && id in Run(st, steps).transfers
    requires e.eventId !in Run(st, steps).events && ApplyTransferEvent(Run(st, steps).transfers[id], e).Ok?
    ensures var end := Run(st, steps);
            && KeyOf(end.transfers[id]) in end.scenarios
            && (AppendEvent(end, id, e, costs).Ok? <==>
                  && LedgerTakes(end.scenarios[KeyOf(end.transfers[id])], end.transfers[id], e, costs)
                  && (e.kind.BurnConfirmed? ==> !MessageTaken(end, id, e.messageIdentity)))
  {
    hide *;
    RunKeepsHealthy(st, steps);
    OpenedIsFresh(st);
    LifecycleAndLedgerStayInStep(st, steps, id);
    CommitsExactlyWhenTheLedgerTakesIt(Run(st, steps), id, e, costs);
  }

  lemma OpenedIsFresh(st: Store)
    requires Opened(st)
    ensures Fresh(st)
  {
  }

  /******* Events without costs *******/

  lemma {:induction false} NothingToPay(p: L.Portfolio, cash: map<Id, L.Cash>)
    requires L.CashHolds(cash) && 0 <= L.NetValue(p)
    ensures CostsFit(p, cash, [], 0)
  {
    hide L.NetValue;
  }

  lemma {:induction false} AttemptsWithinBound(p: L.Portfolio, id: Id)
    requires L.Valid(p)
    ensures id in p.receivables ==> p.receivables[id].attempts <= p.maxDestinationAttempts
  {
    hide L.FamiliesHold, L.ReservationsHold, L.PositionsHold, L.AllowancesHold, L.CostsHold, L.PayablesHold;
    hide L.HistoryHolds, L.Gross, L.Liabilities, L.Imbalance, L.CashHolds;
  }

  lemma {:induction false} FreeCreditFits(p: L.Portfolio, family: Id, amount: int)
    requires L.CashHolds(p.cash) && 0 <= L.NetValue(p) && CanCredit(p.cash, family, amount)
    ensures CostsFit(p, Credited(p.cash, family, amount), [], 0)
  {
    hide L.NetValue, CostsFit;
    CreditKeepsRanges(p.cash, family, amount);
    NothingToPay(p, Credited(p.cash, family, amount));
  }

  // What the ledger answers to a cost-free event after a burn.
  predicate FreeVerdict(p: L.Portfolio, t: Transfer, e: Event, taken: bool) {
    match e.kind
    case AttestationDelayed => HasReceivable(t, p) && (taken <==> !p.receivables[t.transferId].state.Delayed?)
    case AttestationObserved =>
      && (taken <==> !(t.state.DestinationRetry? && t.attempts == p.maxDestinationAttempts))
      && (t.maxAttempts <= p.maxDestinationAttempts ==> taken)
    case DestinationFailed => taken
    case DestinationConfirmed =>
      && HasReceivable(t, p)
      && (taken <==> CanCredit(p.cash, p.receivables[t.transferId].destinationFamilyId, t.netReceivable))
    case DependencyInvalidated => taken
    case ClosureRecorded => taken
    case _ => true
  }

  lemma {:induction false} FreeEventTaken(p: L.Portfolio, t: Transfer, e: Event)
    requires Linked(t, p) && ApplyTransferEvent(t, e).Ok? && InOrder(p, t, e)
    requires L.CashHolds(p.cash) && 0 <= L.NetValue(p)
    requires HasReceivable(t, p) ==> p.receivables[t.transferId].attempts <= p.maxDestinationAttempts
    ensures FreeVerdict(p, t, e, LedgerTakes(p, t, e, []))
  {
    NothingToPay(p, p.cash);
    if HasReceivable(t, p) && CanCredit(p.cash, p.receivables[t.transferId].destinationFamilyId, t.netReceivable) {
      FreeCreditFits(p, p.receivables[t.transferId].destinationFamilyId, t.netReceivable);
    }
    hide VerifyEvidence, InOrder, CostsFit, L.CashHolds, L.NetValue, TransferParses, CanCredit, Credited;
  }

  // Of the cost-free events after a burn that are in order, the ledger refuses exactly three: a delay of a
  // receivable that is already delayed, an observation after its last attempt, and a confirmation whose credit
  // leaves uint256.  A transfer whose own bound is at most the ledger's never meets the second.
  lemma {:induction false} FreeEventsCommit(st: Store, id: Id, e: Event)
    requires Inv(st) && Healthy(st) && id in st.transfers && e.eventId !in st.events
    requires ApplyTransferEvent(st.transfers[id], e).Ok?
    requires KeyOf(st.transfers[id]) in st.scenarios
    requires InOrder(st.scenarios[KeyOf(st.transfers[id])], st.transfers[id], e)
    ensures FreeVerdict(st.scenarios[KeyOf(st.transfers[id])], st.transfers[id], e, AppendEvent(st, id, e, []).Ok?)
  {
    var t := st.transfers[id];
    var p := st.scenarios[KeyOf(t)];
    assert t.transferId == id && Sound(p) && Linked(t, p);
    SoundIsValid(p);
    hide *;
    CommitsExactlyWhenTheLedgerTakesIt(st, id, e, []);
    SoundFacts(p);
    ReceivableWithinBound(t, p);
    FreeEventTaken(p, t, e);
    VerdictOnly(p, t, e, LedgerTakes(p, t, e, []), AppendEvent(st, id, e, []).Ok?);
  }

  lemma {:induction false} ReceivableWithinBound(t: Transfer, p: L.Portfolio)
    requires L.Valid(p)
    ensures HasReceivable(t, p) ==> p.receivables[t.transferId].attempts <= p.maxDestinationAttempts
  {
    hide L.Valid;
    AttemptsWithinBound(p, t.transferId);
  }

  lemma VerdictOnly(p: L.Portfolio, t: Transfer, e: Event, taken: bool, commits: bool)
    requires FreeVerdict(p, t, e, taken) && (!e.kind.BurnConfirmed? ==> (commits <==> taken))
    ensures FreeVerdict(p, t, e, commits)
  {
  }
}
