// The one receipt an event posts, read off the event, its transfer and the costs.
module TransferReceipts {
  import opened Prelude
  import opened Transfers
  import opened TransferStore
  import L = Ledger

  // No two places hold the same hash.
  predicate NoneTwice(hashes: seq<SourceHash>) {
    forall i, j | 0 <= i < j < |hashes| :: hashes[i] != hashes[j]
  }

  // The event's own evidence first, then every cost's, each once.
  predicate Sources(hashes: seq<SourceHash>, e: Event, costs: seq<L.Cost>) {
    && hashes != [] && hashes[0] == e.sourceHash && NoneTwice(hashes)
    && (forall i | 0 <= i < |costs| :: costs[i].sourceHash in hashes)
    && (forall h | h in hashes :: h == e.sourceHash || exists i | 0 <= i < |costs| :: costs[i].sourceHash == h)
  }

  // The network a route leads to.
  predicate LeadsTo(routeId: Id, network: Id) {
    || (routeId == "cctp-sepolia-to-arc-testnet" && network == "arc-testnet")
    || (routeId == "cctp-arc-testnet-to-sepolia" && network == "ethereum-sepolia")
  }

  // What the receipt says of the transfer: its own reservation, views and amounts, never figures of the event.
  predicate Speaks(body: L.Body, t: Transfer, e: Event, costs: seq<L.Cost>) {
    match e.kind
    case ReservationMade =>
      body.Reserve? && body.reservationId == t.reservationId && body.cashViewId == t.sourceViewId
      && body.amount == t.amount && body.costs == []
    case SourceFailure =>
      body.TransferSourceFailed? && body.reservationId == t.reservationId && body.costs == costs
    case BurnConfirmed =>
      body.TransferBurned? && body.reservationId == t.reservationId && body.transferId == t.transferId
      && Some(body.messageIdentity) == e.messageIdentity && LeadsTo(t.routeId, body.destinationNetworkId)
      && body.destinationViewId == t.destinationViewId && body.netReceivable == t.netReceivable && body.costs == costs
    case AttestationObserved => body == L.TransferReady(t.transferId, costs)
    case AttestationDelayed => body == L.TransferDelayed(t.transferId, costs)
    case DestinationFailed => body == L.TransferRetry(t.transferId, costs)
    case DestinationConfirmed =>
      body.TransferSettled? && body.transferId == t.transferId && body.destinationCredit == t.netReceivable
      && body.costs == costs
    case _ => false
  }

  predicate PostsNothing(kind: EventKind) { kind.DependencyInvalidated? || kind.ClosureRecorded? }

  // The receipt of an event at a version of its transfer's scenario.
  predicate IsReceiptOf(r: L.Receipt, t: Transfer, e: Event, version: int, costs: seq<L.Cost>) {
    && r.operationId == e.eventId && r.experimentId == t.experimentId && r.scenarioId == t.scenarioId
    && r.expectedVersion == version && r.observedAt == e.occurredAt && r.provenance == t.provenance
    && Sources(r.sourceHashes, e, costs) && Speaks(r.body, t, e, costs)
  }

  lemma {:induction false} DistinctKeepsFirsts(hashes: seq<SourceHash>)
    ensures var d := DistinctHashes(hashes);
            && NoneTwice(d) && (forall h :: h in d <==> h in hashes)
            && (hashes != [] ==> d != [] && d[0] == hashes[0])
  {
    if hashes != [] {
      var n := |hashes| - 1;
      DistinctKeepsFirsts(hashes[..n]);
      assert hashes == hashes[..n] + [hashes[n]];
    }
  }

  lemma {:induction false} SourcesOfEvent(e: Event, costs: seq<L.Cost>)
    ensures Sources(DistinctHashes([e.sourceHash] + HashesOf(costs)), e, costs)
  {
    hide DistinctHashes;
    var all := [e.sourceHash] + HashesOf(costs);
    DistinctKeepsFirsts(all);
    forall i | 0 <= i < |costs|
      ensures costs[i].sourceHash in all
    {
      assert all[i + 1] == costs[i].sourceHash;
    }
    forall h | h in all
      ensures h == e.sourceHash || exists i | 0 <= i < |costs| :: costs[i].sourceHash == h
    {
      var k :| 0 <= k < |all| && all[k] == h;
      if k > 0 { assert costs[k - 1].sourceHash == h; }
    }
  }

  lemma {:induction false} ReceiptSaysSo(t: Transfer, e: Event, after: Transfer, version: int, costs: seq<L.Cost>)
    requires ApplyTransferEvent(t, e) == Ok(after)
    ensures var made := ReceiptFor(t, after, e, version, costs);
            && (made.Err? ==> e.kind.BurnConfirmed? && forall network :: !LeadsTo(t.routeId, network))
            && (made.Ok? ==> if PostsNothing(e.kind) then made.value.None?
                             else made.value.Some? && IsReceiptOf(made.value.value, t, e, version, costs))
  {
    hide Sources, DistinctHashes, TransferParses, EventParses, VerifyEvidence;
    SourcesOfEvent(e, costs);
    if e.kind.BurnConfirmed? && RouteDestination(after.routeId).Ok? {
      assert LeadsTo(t.routeId, RouteDestination(after.routeId).value);
    }
  }

  // A committed new event changes the books of its transfer's scenario by exactly its one receipt, at the version they
  // are at, and every other scenario not at all; an invalidation or a closing changes no books.
  lemma {:induction false} EveryEventPostsItsReceipt(st: Store, id: Id, e: Event, costs: seq<L.Cost>, later: Store)
    requires AppendEvent(st, id, e, costs) == Ok(later) && e.eventId !in st.events
    ensures id in st.transfers && KeyOf(st.transfers[id]) in st.scenarios
    ensures var t := st.transfers[id];
            var p := st.scenarios[KeyOf(t)];
            if PostsNothing(e.kind) then later.scenarios == st.scenarios
            else exists r, q ::
              IsReceiptOf(r, t, e, p.version, costs) && L.ApplyReceipt(p, r) == Ok(q)
              && later.scenarios == st.scenarios[KeyOf(t) := q]
  {
    hide ApplyTransferEvent, ReceiptFor, IsReceiptOf, L.ApplyReceipt, MessageTaken, EventParses;
    var t := st.transfers[id];
    var p := st.scenarios[KeyOf(t)];
    var after := ApplyTransferEvent(t, e).value;
    ReceiptSaysSo(t, e, after, p.version, costs);
    var made := ReceiptFor(t, after, e, p.version, costs).value;
    if made.Some? {
      assert IsReceiptOf(made.value, t, e, p.version, costs) && L.ApplyReceipt(p, made.value).Ok?;
    } else {
      assert st.scenarios[KeyOf(t) := p] == st.scenarios;
    }
  }
}
