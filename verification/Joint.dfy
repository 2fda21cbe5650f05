// Lifecycle and ledger never drift apart, and each transfer's money moves exactly once.
module Joint {
  import opened Prelude
  import opened Transfers
  import opened TransferStore
  import L = Ledger
  import C = Conservation
  import F = Frames
  import R = Redelivery
  import Lifetimes
  import P = Principal

  /******* The relation between one transfer and its scenario's portfolio *******/

  predicate HasReservation(t: Transfer, p: L.Portfolio) { t.reservationId in p.reservations }

  predicate HasReceivable(t: Transfer, p: L.Portfolio) { t.transferId in p.receivables }

  predicate ReceivableIs(t: Transfer, p: L.Portfolio, inState: set<L.ReceivableState>) {
    && !HasReservation(t, p) && HasReceivable(t, p)
    && p.receivables[t.transferId].state in inState
  }

  // The lifecycle state says where the transfer's capital is on the ledger. An invalidated transfer's is in one place
  // at most, wherever it was; Invalidation shows that it stays there.
  predicate InStep(t: Transfer, p: L.Portfolio) {
    match t.state
    case Reserved => !HasReceivable(t, p) && t.attempts == 0 && t.messageIdentity.None?
    case SourceFailed => !HasReceivable(t, p) && !HasReservation(t, p)
    case AttestationPending => ReceivableIs(t, p, {L.InTransit, L.Delayed}) && t.attempts == 0
    case ReadyToReceive => ReceivableIs(t, p, {L.ReadyToReceive})
    case DestinationRetry => ReceivableIs(t, p, {L.DestinationRetry})
    case Settled => !HasReceivable(t, p) && !HasReservation(t, p)
    case Invalidated => !(HasReceivable(t, p) && HasReservation(t, p))
  }

  // Whatever the ledger holds for a transfer carries the transfer's own figures.
  predicate Linked(t: Transfer, p: L.Portfolio) {
    && InStep(t, p)
    && (HasReservation(t, p) ==> p.reservations[t.reservationId].amount == t.amount)
    && (HasReceivable(t, p) ==>
          var x := p.receivables[t.transferId];
          x.amount == t.netReceivable && x.attempts == t.attempts && t.messageIdentity == Some(x.messageIdentity))
  }

  /******* Money, as the portfolio shows it *******/

  // What the committed steps of one transfer took out of, put back into and withheld from a portfolio.
  datatype Flow = Flow(debited: int, credited: int, withheld: int)

  ghost function AddMove(f: Flow, p: L.Portfolio, q: L.Portfolio): Flow {
    var moved := P.Principal(q) - P.Principal(p);
    Flow(f.debited + (if moved < 0 then -moved else 0),
         f.credited + (if moved > 0 then moved else 0),
         f.withheld + P.WithheldCosts(q) - P.WithheldCosts(p))
  }

  // Debited at most once, credited at most once, and every minor unit accounted for.
  predicate FlowFits(t: Transfer, p: L.Portfolio, f: Flow) {
    if HasReservation(t, p) then f == Flow(t.amount, 0, 0)
    else if HasReceivable(t, p) then f == Flow(t.amount, 0, t.amount - t.netReceivable)
    else match t.state
      case Settled => f == Flow(t.amount, t.netReceivable, t.amount - t.netReceivable)
      case SourceFailed =>
        f.debited == t.amount && f.credited + f.withheld == t.amount && 0 <= f.credited && 0 <= f.withheld
      case _ => f == Flow(0, 0, 0)
  }

  /******* One committed event *******/

  // The part of a receipt-bearing step that concerns the ledger alone.
  ghost predicate Posted(p: L.Portfolio, r: L.Receipt, q: L.Portfolio) {
    L.ApplyReceipt(p, r) == Ok(q) && !R.InHistory(p, r)
  }

  lemma {:induction false} PostedEffect(p: L.Portfolio, r: L.Receipt, q: L.Portfolio)
    requires Posted(p, r, q)
    ensures L.ReceiptParses(r) && L.IndexesPositive(p.positions) && C.PayablesBacked(p)
    ensures L.Effect(p, r).Ok? && q == L.Stamp(L.Effect(p, r).value, r)
    ensures F.Framed(p, r, q)
    ensures P.Principal(q) == P.Principal(L.Effect(p, r).value)
    ensures P.WithheldCosts(q) == P.WithheldCosts(L.Effect(p, r).value)
  {
    hide L.Effect, L.Valid;
    Lifetimes.AcceptedStep(p, r, q);
  }

  /******* What each transfer receipt does to a portfolio *******/

  ghost predicate MovesMoney(p: L.Portfolio, q: L.Portfolio, principal: int, withheld: int) {
    P.Principal(q) == P.Principal(p) + principal && P.WithheldCosts(q) == P.WithheldCosts(p) + withheld
  }

  lemma {:induction false} ReservePosts(p: L.Portfolio, r: L.Receipt, q: L.Portfolio)
    requires Posted(p, r, q) && r.body.Reserve?
    ensures r.body.reservationId !in p.reservations && r.body.reservationId in q.reservations
    ensures q.reservations[r.body.reservationId].amount == r.body.amount
    ensures q.receivables == p.receivables
    ensures 0 < r.body.amount && MovesMoney(p, q, -r.body.amount, 0)
  {
    hide Posted, L.ReserveEffect, P.Principal, P.WithheldCosts, F.Framed;
    PostedEffect(p, r, q);
    var s := L.Effect(p, r).value;
    F.ReserveMoves(p, r, s);
    P.ReservePrincipal(p, r, s);
  }

  lemma {:induction false} SourceFailedPosts(p: L.Portfolio, r: L.Receipt, q: L.Portfolio)
    requires Posted(p, r, q) && r.body.TransferSourceFailed?
    ensures r.body.reservationId in p.reservations && q.reservations == p.reservations - {r.body.reservationId}
    ensures q.receivables == p.receivables
    ensures var amount, withheld := p.reservations[r.body.reservationId].amount, L.WithheldTotal(r.body.costs);
            0 <= withheld <= amount && MovesMoney(p, q, amount - withheld, withheld)
  {
    hide Posted, L.SourceFailedEffect, P.Principal, P.WithheldCosts, F.Framed;
    PostedEffect(p, r, q);
    var s := L.Effect(p, r).value;
    F.SourceFailedMoves(p, r, s);
    P.SourceFailedPrincipal(p, r, s);
    C.CostsAreNonNegative(r.body.costs);
  }

  lemma {:induction false} BurnPosts(p: L.Portfolio, r: L.Receipt, q: L.Portfolio)
    requires Posted(p, r, q) && r.body.TransferBurned?
    ensures var b := r.body;
            && b.reservationId in p.reservations && b.transferId !in p.receivables
            && q.reservations == p.reservations - {b.reservationId}
            && b.transferId in q.receivables
            && q.receivables == p.receivables[b.transferId := q.receivables[b.transferId]]
            && var x := q.receivables[b.transferId];
            && x.messageIdentity == b.messageIdentity && x.amount == b.netReceivable
            && x.state.InTransit? && x.attempts == 0
            && MovesMoney(p, q, 0, p.reservations[b.reservationId].amount - b.netReceivable)
  {
    hide Posted, L.BurnedEffect, P.Principal, P.WithheldCosts, F.Framed;
    PostedEffect(p, r, q);
    var s := L.Effect(p, r).value;
    F.BurnMoves(p, r, s);
    P.BurnPrincipal(p, r, s);
  }

  lemma {:induction false} ReceivablePosts(p: L.Portfolio, r: L.Receipt, q: L.Portfolio)
    requires Posted(p, r, q) && r.body.MovesReceivable()
    ensures F.ReceivableMoved(p, r, q)
    ensures var credit := if r.body.TransferSettled? then r.body.destinationCredit else 0;
            var released := if r.body.TransferSettled? then p.receivables[r.body.transferId].amount else 0;
            0 <= credit && MovesMoney(p, q, credit, released - credit)
  {
    hide Posted, L.ReceivableEffect, P.Principal, P.WithheldCosts, F.Framed;
    PostedEffect(p, r, q);
    Lifetimes.ReceivableKinds(p, r);
    var s := L.Effect(p, r).value;
    F.ReceivableMoves(p, r, s);
    P.ReceivablePrincipal(p, r, s);
  }

  // What posting the receipt of an event means for the transfer it belongs to.
  ghost predicate Advances(before: Transfer, p: L.Portfolio, after: Transfer, q: L.Portfolio, f: Flow) {
    && Linked(after, q)
    && FlowFits(after, q, AddMove(f, p, q))
  }

  lemma {:induction false} ReservationAdvances(t: Transfer, e: Event, after: Transfer, p: L.Portfolio, r: L.Receipt,
      q: L.Portfolio, f: Flow)
    requires Linked(t, p) && FlowFits(t, p, f) && e.kind.ReservationMade? && ApplyTransferEvent(t, e) == Ok(after)
    requires r.body.Reserve? && r.body.reservationId == t.reservationId && r.body.amount == t.amount
    requires Posted(p, r, q)
    ensures Advances(t, p, after, q, f)
  {
    hide Posted, P.Principal, P.WithheldCosts, VerifyEvidence, TransferParses;
    ReservePosts(p, r, q);
  }

  lemma {:induction false} SourceFailureAdvances(t: Transfer, e: Event, after: Transfer, p: L.Portfolio, r: L.Receipt,
      q: L.Portfolio, f: Flow)
    requires Linked(t, p) && FlowFits(t, p, f) && e.kind.SourceFailure? && ApplyTransferEvent(t, e) == Ok(after)
    requires r.body.TransferSourceFailed? && r.body.reservationId == t.reservationId
    requires Posted(p, r, q)
    ensures Advances(t, p, after, q, f)
  {
    hide Posted, P.Principal, P.WithheldCosts, VerifyEvidence, TransferParses;
    SourceFailedPosts(p, r, q);
  }

  lemma {:induction false} BurnAdvances(t: Transfer, e: Event, after: Transfer, p: L.Portfolio, r: L.Receipt,
      q: L.Portfolio, f: Flow)
    requires Linked(t, p) && FlowFits(t, p, f) && e.kind.BurnConfirmed? && ApplyTransferEvent(t, e) == Ok(after)
    requires r.body.TransferBurned? && r.body.reservationId == t.reservationId && r.body.transferId == t.transferId
    requires r.body.netReceivable == t.netReceivable && Some(r.body.messageIdentity) == after.messageIdentity
    requires Posted(p, r, q)
    ensures Advances(t, p, after, q, f)
  {
    hide Posted, P.Principal, P.WithheldCosts, VerifyEvidence, TransferParses;
    BurnPosts(p, r, q);
  }

  predicate MatchesReceivableEvent(t: Transfer, e: Event, b: L.Body) {
    && b.MovesReceivable() && b.transferId == t.transferId
    && match e.kind
       case AttestationObserved => b.TransferReady?
       case AttestationDelayed => b.TransferDelayed?
       case DestinationFailed => b.TransferRetry?
       case DestinationConfirmed => b.TransferSettled? && b.destinationCredit == t.netReceivable
       case _ => false
  }

  lemma {:induction false} ReceivableAdvances(t: Transfer, e: Event, after: Transfer, p: L.Portfolio, r: L.Receipt,
      q: L.Portfolio, f: Flow)
    requires Linked(t, p) && FlowFits(t, p, f) && ApplyTransferEvent(t, e) == Ok(after)
    requires MatchesReceivableEvent(t, e, r.body)
    requires Posted(p, r, q)
    ensures Advances(t, p, after, q, f)
  {
    hide Posted, P.Principal, P.WithheldCosts, VerifyEvidence, TransferParses;
    ReceivablePosts(p, r, q);
  }

  // An event without a receipt leaves the money where it was.
  lemma NoReceiptAdvances(t: Transfer, e: Event, after: Transfer, p: L.Portfolio, f: Flow)
    requires Linked(t, p) && FlowFits(t, p, f) && ApplyTransferEvent(t, e) == Ok(after)
    requires e.kind.DependencyInvalidated? || e.kind.ClosureRecorded?
    ensures Advances(t, p, after, p, f)
  {
  }

  // The lifecycle would take a second delay of a pending transfer; the ledger refuses to delay a receivable that is
  // already delayed, so the transaction commits neither.
  lemma {:induction false} SecondDelayIsRolledBack(st: Store, id: Id, e: Event, costs: seq<L.Cost>)
    requires id in st.transfers && KeyOf(st.transfers[id]) in st.scenarios && st.transfers[id].transferId == id
    requires e.kind.AttestationDelayed? && ApplyTransferEvent(st.transfers[id], e).Ok? && e.eventId !in st.events
    requires var p := st.scenarios[KeyOf(st.transfers[id])];
             id in p.receivables && p.receivables[id].state.Delayed? && !L.HasOperation(p.applied, e.eventId)
    ensures AppendEvent(st, id, e, costs).Err?
  {
    hide L.Valid, L.ReceiptParses;
    var t, p := st.transfers[id], st.scenarios[KeyOf(st.transfers[id])];
    var after := ApplyTransferEvent(t, e).value;
    var receipt := ReceiptFor(t, after, e, p.version, costs).value.value;
    assert receipt.body == L.TransferDelayed(id, costs);
    assert L.FindApplied(p.applied, receipt.operationId).None?;
    DelayedTwice(p, receipt);
  }

  lemma {:induction false} DelayedTwice(p: L.Portfolio, r: L.Receipt)
    requires r.body.TransferDelayed? && r.body.transferId in p.receivables
    requires p.receivables[r.body.transferId].state.Delayed? && L.FindApplied(p.applied, r.operationId).None?
    ensures L.ApplyReceipt(p, r).Err?
  {
    hide L.Structured, L.ReceiptParses;
  }
}
