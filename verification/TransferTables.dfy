// The transfer tables as the repository updates them, one transaction per method.
module TransferTables {
  import opened Prelude
  import opened Transfers
  import opened TransferStore
  import L = Ledger
  import Accounting

  class TransferRepository {
    var transfers: map<Id, Transfer>
    var events: map<Id, Event>
    var scenarios: map<ScenarioKey, L.Portfolio>

    ghost function Contents(): Store
      reads this
    {
      Store(transfers, events, scenarios)
    }

    constructor (scenarios: map<ScenarioKey, L.Portfolio>)
      ensures Contents() == Store(map[], map[], scenarios)
    {
      transfers, events := map[], map[];
      this.scenarios := scenarios;
    }

    method Create(d: Draft) returns (result: Result<Transfer>)
      modifies this
      ensures result.Ok? ==> TransferStore.Create(old(Contents()), d) == Ok(Contents()) && CreateTransfer(d) == result
      ensures result.Err? ==>
                TransferStore.Create(old(Contents()), d) == Err(result.code) && Contents() == old(Contents())
    {
      var t :- CreateTransfer(d);
      if t.transferId in transfers { return Err(UniqueViolation); }
      if KeyOf(t) !in scenarios { return Err(UniqueViolation); }
      transfers := transfers[t.transferId := t];
      result := Ok(t);
    }

    // Returns the transfer as it now stands: moved on, or as it was when the event is a repeat.
    method AppendEvent(transferId: Id, e: Event, costs: seq<L.Cost>) returns (result: Result<Transfer>)
      modifies this
      ensures result.Ok? ==> TransferStore.AppendEvent(old(Contents()), transferId, e, costs) == Ok(Contents())
                             && transferId in transfers && result.value == transfers[transferId]
      ensures result.Err? ==> TransferStore.AppendEvent(old(Contents()), transferId, e, costs) == Err(result.code)
                              && Contents() == old(Contents())
    {
      hide L.ApplyReceipt, ApplyTransferEvent, ReceiptFor;
      if !EventParses(e) { return Err(SchemaRejected); }
      if transferId !in transfers { return Err(DataUnavailable); }
      var before := transfers[transferId];
      if e.eventId in events {
        return if events[e.eventId] != e then Err(OperationConflict) else Ok(before);
      }
      var after :- ApplyTransferEvent(before, e);
      if KeyOf(before) !in scenarios { return Err(DataUnavailable); }
      var portfolio := scenarios[KeyOf(before)];
      var receipt :- ReceiptFor(before, after, e, portfolio.version, costs);
      if receipt.Some? {
        var next := Accounting.ApplyReceipt(portfolio, receipt.value);
        if next.Err? { return Err(next.code); }
        portfolio := next.value;
      }
      var message := after.messageIdentity;
      if message.Some? && exists k | k in transfers :: k != transferId && transfers[k].messageIdentity == message {
        return Err(UniqueViolation);
      }
      scenarios := scenarios[KeyOf(before) := portfolio];
      events := events[e.eventId := e];
      transfers := transfers[transferId := after];
      result := Ok(after);
    }
  }

  // replayTransfer: a lifecycle replayed from its start.
  method ReplayTransfer(initial: Transfer, events: seq<Event>) returns (result: Result<Transfer>)
    ensures result == ReplayOf(initial, events)
  {
    if !TransferParses(initial) {
      RefusalPersists(initial, events, 0);
      return Err(SchemaRejected);
    }
    var transfer, i := initial, 0;
    while i < |events|
      invariant 0 <= i <= |events|
      invariant ReplayOf(initial, events[..i]) == Ok(transfer)
    {
      assert events[..i + 1][..i] == events[..i];
      var next := ApplyTransferEvent(transfer, events[i]);
      if next.Err? {
        RefusalPersists(initial, events, i + 1);
        return next;
      }
      transfer := next.value;
      i := i + 1;
    }
    assert events[..i] == events;
    result := Ok(transfer);
  }

  function ReplayOf(initial: Transfer, events: seq<Event>): Result<Transfer> {
    if events == [] then (if TransferParses(initial) then Ok(initial) else Err(SchemaRejected))
    else
      var earlier :- ReplayOf(initial, events[..|events| - 1]);
      ApplyTransferEvent(earlier, events[|events| - 1])
  }

  lemma {:induction false} RefusalPersists(initial: Transfer, events: seq<Event>, n: nat)
    requires n <= |events| && ReplayOf(initial, events[..n]).Err?
    ensures ReplayOf(initial, events) == ReplayOf(initial, events[..n])
    decreases |events| - n
  {
    hide ApplyTransferEvent;
    if n < |events| {
      assert events[..n + 1][..n] == events[..n];
      RefusalPersists(initial, events, n + 1);
    } else {
      assert events[..n] == events;
    }
  }
}
