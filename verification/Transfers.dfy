// The cross-chain transfer lifecycle and the ledger receipt each lifecycle event stands for.
module Transfers {
  import opened Prelude
  import L = Ledger

  datatype LifecycleState =
    | Reserved | SourceFailed | AttestationPending | ReadyToReceive | DestinationRetry | Settled | Invalidated

  datatype EventKind =
    | ReservationMade | SourceFailure | BurnConfirmed | AttestationObserved | AttestationDelayed
    | DestinationFailed | DestinationConfirmed | DependencyInvalidated | ClosureRecorded

  datatype Finality = Provisional | Finalized | ChainInvalidated

  datatype ChainReceipt = ChainReceipt(success: bool, finality: Finality)

  datatype Event = Event(
    eventId: Id, transferId: Id, sequence: int, kind: EventKind, messageIdentity: Option<Id>,
    sourceHash: SourceHash, occurredAt: Timestamp, chainReceipt: Option<ChainReceipt>,
    attestationHash: Option<SourceHash>, reasonCode: Option<string>)

  datatype Transfer = Transfer(
    transferId: Id, experimentId: Id, scenarioId: Id, routeId: Id, reservationId: Id,
    sourceViewId: Id, destinationViewId: Id, amount: int, netReceivable: int,
    state: LifecycleState, live: bool, provenance: string, messageIdentity: Option<Id>,
    nextSequence: int, attempts: int, maxAttempts: int, createdAt: Timestamp, updatedAt: Timestamp,
    closedAt: Option<Timestamp>, deadlineState: Option<Transfer>, invalidatedDependency: Option<SourceHash>)

  predicate TransferParses(t: Transfer) {
    IsUInt(t.amount) && IsUInt(t.netReceivable) && IsUInt(t.nextSequence) && IsUInt(t.attempts) && IsUInt(t.maxAttempts)
  }

  predicate EventParses(e: Event) {
    IsUInt(e.sequence) && (e.reasonCode.Some? ==> e.reasonCode.value != "")
  }

  // What createTransfer is given; everything else starts from fixed values.
  datatype Draft = Draft(
    transferId: Id, experimentId: Id, scenarioId: Id, routeId: Id, reservationId: Id,
    sourceViewId: Id, destinationViewId: Id, amount: int, netReceivable: int,
    live: bool, provenance: string, maxAttempts: int, createdAt: Timestamp)

  function CreateTransfer(d: Draft): Result<Transfer> {
    if d.live && d.provenance != "CROSS_CHAIN_TESTNET" then Err(AccountingInvariant)
    else if !d.live && d.provenance != "SYNTHETIC_TEST" then Err(AccountingInvariant)
    else
      var t := Transfer(d.transferId, d.experimentId, d.scenarioId, d.routeId, d.reservationId,
                        d.sourceViewId, d.destinationViewId, d.amount, d.netReceivable,
                        Reserved, d.live, d.provenance, None, 0, 0, d.maxAttempts, d.createdAt, d.createdAt,
                        None, None, None);
      if TransferParses(t) then Ok(t) else Err(SchemaRejected)
  }

  function VerifyEvidence(t: Transfer, e: Event): Result<()> {
    if t.live then
      var confirmed := e.kind.BurnConfirmed? || e.kind.DestinationConfirmed?;
      var failed := e.kind.SourceFailure? || e.kind.DestinationFailed?;
      if confirmed
         && !(e.chainReceipt.Some? && e.chainReceipt.value.success && e.chainReceipt.value.finality.Finalized?)
      then Err(DataUnavailable)
      else if failed && e.chainReceipt.Some?
              && !(!e.chainReceipt.value.success && e.chainReceipt.value.finality.Finalized?)
      then Err(DataUnavailable)
      else if !confirmed && !failed && e.chainReceipt.Some? then Err(AccountingInvariant)
      else if e.kind.AttestationObserved? && e.attestationHash.None? then Err(DataUnavailable)
      else if !e.kind.AttestationObserved? && e.attestationHash.Some? then Err(AccountingInvariant)
      else Ok(())
    else if e.chainReceipt.Some? || e.attestationHash.Some? then Err(AccountingInvariant)
    else Ok(())
  }

  predicate SameMessage(t: Transfer, e: Event) {
    t.messageIdentity.Some? && e.messageIdentity == t.messageIdentity
  }

  // The state change of one event kind, before the sequence number and update time move on.
  function NextState(t: Transfer, e: Event): Result<Transfer> {
    match e.kind
    case ReservationMade =>
      if !t.state.Reserved? || e.sequence != 0 then Err(InvalidTransition) else Ok(t)
    case SourceFailure =>
      if !t.state.Reserved? then Err(InvalidTransition)
      else if e.reasonCode.None? then Err(DataUnavailable)
      else Ok(t.(state := SourceFailed))
    case BurnConfirmed =>
      if !t.state.Reserved? then Err(InvalidTransition)
      else if e.messageIdentity.None? then Err(DataUnavailable)
      else Ok(t.(state := AttestationPending, messageIdentity := e.messageIdentity))
    case AttestationObserved =>
      if !t.state.AttestationPending? && !t.state.DestinationRetry? then Err(InvalidTransition)
      else if t.state.DestinationRetry? && t.attempts >= t.maxAttempts then Err(InvalidTransition)
      else if !SameMessage(t, e) then Err(InvalidTransition)
      else Ok(t.(state := ReadyToReceive))
    case AttestationDelayed =>
      if !t.state.AttestationPending? then Err(InvalidTransition)
      else if !SameMessage(t, e) then Err(InvalidTransition)
      else if e.reasonCode.None? then Err(DataUnavailable)
      else Ok(t)
    case DestinationFailed =>
      if !t.state.ReadyToReceive? then Err(InvalidTransition)
      else if !SameMessage(t, e) then Err(InvalidTransition)
      else if e.reasonCode.None? then Err(DataUnavailable)
      else if t.attempts >= t.maxAttempts then Err(InvalidTransition)
      else Ok(t.(attempts := t.attempts + 1, state := DestinationRetry))
    case DestinationConfirmed =>
      if !t.state.ReadyToReceive? then Err(InvalidTransition)
      else if !SameMessage(t, e) then Err(InvalidTransition)
      else Ok(t.(state := Settled))
    case DependencyInvalidated =>
      if t.state.SourceFailed? || t.state.Settled? then Err(InvalidTransition)
      else if e.reasonCode.None? then Err(DataUnavailable)
      else Ok(t.(state := Invalidated, invalidatedDependency := Some(e.sourceHash)))
    case ClosureRecorded =>
      if e.reasonCode.None? then Err(DataUnavailable)
      else if t.closedAt.Some? then Ok(t)
      else Ok(t.(closedAt := Some(e.occurredAt), deadlineState := Some(t)))
  }

  function ApplyTransferEvent(t: Transfer, e: Event): Result<Transfer> {
    if !TransferParses(t) || !EventParses(e) then Err(SchemaRejected)
    else if e.transferId != t.transferId then Err(AccountingInvariant)
    else if e.sequence != t.nextSequence then Err(InvalidTransition)
    else if e.occurredAt < t.updatedAt then Err(InvalidTransition)
    else
      var _ :- VerifyEvidence(t, e);
      var moved :- NextState(t, e);
      var next := moved.(nextSequence := t.nextSequence + 1, updatedAt := e.occurredAt);
      if TransferParses(next) then Ok(next) else Err(SchemaRejected)
  }

  function RouteDestination(routeId: Id): Result<Id> {
    if routeId == "cctp-sepolia-to-arc-testnet" then Ok("arc-testnet")
    else if routeId == "cctp-arc-testnet-to-sepolia" then Ok("ethereum-sepolia")
    else Err(AccountingInvariant)
  }

  // Distinct source hashes in first-occurrence order.
  function DistinctHashes(hashes: seq<SourceHash>): seq<SourceHash> {
    if hashes == [] then []
    else
      var earlier := DistinctHashes(hashes[..|hashes| - 1]);
      if hashes[|hashes| - 1] in earlier then earlier else earlier + [hashes[|hashes| - 1]]
  }

  function HashesOf(costs: seq<L.Cost>): seq<SourceHash> {
    seq(|costs|, i requires 0 <= i < |costs| => costs[i].sourceHash)
  }

  // accountingReceiptForTransferEvent: None for the two events that move no money.
  function ReceiptFor(before: Transfer, after: Transfer, e: Event, version: int, costs: seq<L.Cost>)
    : Result<Option<L.Receipt>>
  {
    var base := (body: L.Body) =>
      L.Receipt(e.eventId, before.experimentId, before.scenarioId, version, e.occurredAt, before.provenance,
                DistinctHashes([e.sourceHash] + HashesOf(costs)), body);
    match e.kind
    case ReservationMade => Ok(Some(base(L.Reserve(before.reservationId, before.sourceViewId, before.amount, []))))
    case SourceFailure => Ok(Some(base(L.TransferSourceFailed(before.reservationId, costs))))
    case BurnConfirmed =>
      var destination :- RouteDestination(after.routeId);
      if after.messageIdentity.None? then Err(SchemaRejected)
      else Ok(Some(base(L.TransferBurned(before.reservationId, before.transferId, after.messageIdentity.value,
                                         destination, before.destinationViewId, before.netReceivable, costs))))
    case AttestationObserved => Ok(Some(base(L.TransferReady(before.transferId, costs))))
    case AttestationDelayed => Ok(Some(base(L.TransferDelayed(before.transferId, costs))))
    case DestinationFailed => Ok(Some(base(L.TransferRetry(before.transferId, costs))))
    case DestinationConfirmed =>
      Ok(Some(base(L.TransferSettled(before.transferId, before.netReceivable, costs))))
    case DependencyInvalidated => Ok(None)
    case ClosureRecorded => Ok(None)
  }
}
