// TransferRepository: lifecycle and ledger committed in one atomic step, over many transfers.
module TransferStore {
  import opened Prelude
  import opened Transfers
  import L = Ledger

  datatype ScenarioKey = ScenarioKey(experimentId: Id, scenarioId: Id)

  datatype Store = Store(
    transfers: map<Id, Transfer>, events: map<Id, Event>, scenarios: map<ScenarioKey, L.Portfolio>)

  function KeyOf(t: Transfer): ScenarioKey { ScenarioKey(t.experimentId, t.scenarioId) }

  // create(): the transfer id is a primary key and the scenario a foreign key.
  function Create(st: Store, d: Draft): Result<Store> {
    var t :- CreateTransfer(d);
    if t.transferId in st.transfers then Err(UniqueViolation)
    else if KeyOf(t) !in st.scenarios then Err(UniqueViolation)
    else Ok(st.(transfers := st.transfers[t.transferId := t]))
  }

  // The unique index on message_identity.
  predicate MessageTaken(st: Store, transferId: Id, message: Option<Id>) {
    message.Some? && exists k | k in st.transfers :: k != transferId && st.transfers[k].messageIdentity == message
  }

  ghost function PostReceipt(p: L.Portfolio, receipt: Option<L.Receipt>): Result<L.Portfolio> {
    if receipt.None? then Ok(p) else L.ApplyReceipt(p, receipt.value)
  }

  // appendEvent: either everything below is committed or nothing is.
  ghost function AppendEvent(st: Store, transferId: Id, e: Event, costs: seq<L.Cost>): Result<Store> {
    if !EventParses(e) then Err(SchemaRejected)
    else if transferId !in st.transfers then Err(DataUnavailable)
    else
      var before := st.transfers[transferId];
      if e.eventId in st.events then
        if st.events[e.eventId] != e then Err(OperationConflict) else Ok(st)
      else
        var after :- ApplyTransferEvent(before, e);
        if KeyOf(before) !in st.scenarios then Err(DataUnavailable)
        else
          var p := st.scenarios[KeyOf(before)];
          var receipt :- ReceiptFor(before, after, e, p.version, costs);
          var q :- PostReceipt(p, receipt);
          if MessageTaken(st, transferId, after.messageIdentity) then Err(UniqueViolation)
          else Ok(Store(st.transfers[transferId := after], st.events[e.eventId := e], st.scenarios[KeyOf(before) := q]))
  }

  // The receipts other writers of a scenario post: anything that touches no reservation or receivable.
  predicate IsLocal(b: L.Body) {
    !b.Reserve? && !b.TransferSourceFailed? && !b.TransferBurned? && !b.MovesReceivable()
  }

  datatype Step =
    | CreateStep(draft: Draft)
    | AppendStep(transferId: Id, event: Event, costs: seq<L.Cost>)
    | LocalStep(key: ScenarioKey, receipt: L.Receipt)

  ghost function Attempt(st: Store, step: Step): Result<Store> {
    match step
    case CreateStep(d) => Create(st, d)
    case AppendStep(id, e, costs) => AppendEvent(st, id, e, costs)
    case LocalStep(key, r) =>
      if key !in st.scenarios || !IsLocal(r.body) then Err(DataUnavailable)
      else
        var q :- L.ApplyReceipt(st.scenarios[key], r);
        Ok(st.(scenarios := st.scenarios[key := q]))
  }

  // A refused step rolls back.
  ghost function After(st: Store, step: Step): Store {
    if Attempt(st, step).Ok? then Attempt(st, step).value else st
  }

  ghost function Run(st: Store, steps: seq<Step>): Store {
    if steps == [] then st else After(Run(st, steps[..|steps| - 1]), steps[|steps| - 1])
  }
}
