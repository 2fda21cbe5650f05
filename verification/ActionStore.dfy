// The action and job tables of one experiment, each repository method as one atomic step.
module ActionStore {
  import opened Prelude
  import opened Keyed
  import L = Ledger

  datatype ActionStatus = Accepted | InProgress | Succeeded | PartiallySucceeded | Failed | Expired {
    predicate Terminal() { Succeeded? || PartiallySucceeded? || Failed? || Expired? }
  }

  // The plan document and the archived inputs it was made from; the worker reads the receipts.
  datatype Plan = Plan(document: string, receipts: seq<L.Receipt>)

  // A signed request: the fields acceptance looks at, and the rest of its content.
  datatype Envelope = Envelope(idempotencyKey: Id, scenarioId: Id, expectedVersion: int, content: string)

  // An action row with its plan row and its receipt rows in insertion order.  The before and after
  // portfolio hashes are the portfolios themselves.
  datatype Action = Action(
    request: Envelope, scenarioId: Id, status: ActionStatus, plan: Option<Plan>, receipts: seq<L.Receipt>,
    before: Option<L.Portfolio>, after: Option<L.Portfolio>)

  datatype JobState = JobReady | JobRunning | JobRetry | JobCompleted | JobFailed {
    predicate Finished() { JobCompleted? || JobFailed? }
  }

  datatype Job = Job(state: JobState, attempt: int, maxAttempts: int)

  datatype Scenario = Scenario(portfolio: L.Portfolio, active: Option<Id>)

  // The row a stop records: why, when, and the portfolio of every scenario, which stands for its hash.
  datatype StopRow = StopRow(reason: Text, stoppedAt: Timestamp, portfolios: map<Id, L.Portfolio>)

  // keys is the index on idempotency keys; jobs is keyed by the financial identity, which is the action id.
  datatype Db = Db(
    started: bool, scenarios: map<Id, Scenario>, actions: map<Id, Action>, keys: map<Id, Id>, jobs: map<Id, Job>,
    stop: Option<StopRow>)

  // acceptAction, with the action it answers: a known key first, then everything else. The signature, policy, quota
  // and allocation checks say yes or no.
  function AcceptAction(db: Db, e: Envelope, actionId: Id, maxAttempts: int, admitted: bool): Result<(Db, Id)> {
    if e.idempotencyKey in db.keys then
      var prior := db.keys[e.idempotencyKey];
      if prior !in db.actions then Err(DataUnavailable)
      else if db.actions[prior].request != e then Err(IdempotencyConflict)
      else Ok((db, prior))
    else if !db.started then Err(ExperimentNotStarted)
    else if e.scenarioId !in db.scenarios then Err(PolicyViolation)
    else if db.scenarios[e.scenarioId].portfolio.version != e.expectedVersion then Err(StalePortfolio)
    else if db.scenarios[e.scenarioId].active.Some? then Err(ScenarioBusy)
    else if !admitted then Err(PolicyViolation)
    else if actionId in db.actions || actionId in db.jobs || maxAttempts < 1 then Err(UniqueViolation)
    else Ok((db.(
      actions := db.actions[actionId := Action(e, e.scenarioId, Accepted, None, [], None, None)],
      keys := db.keys[e.idempotencyKey := actionId],
      scenarios := db.scenarios[e.scenarioId := db.scenarios[e.scenarioId].(active := Some(actionId))],
      jobs := db.jobs[actionId := Job(JobReady, 0, maxAttempts)]), actionId))
  }

  datatype Claim = Claim(actionId: Id, exhausted: bool)

  // claimJob for a job that is due: waiting, or running under a lease that has expired.
  function ClaimJob(db: Db, actionId: Id): Result<(Db, Claim)> {
    if actionId !in db.jobs || db.jobs[actionId].state.Finished() then Err(DataUnavailable)
    else
      var job := db.jobs[actionId];
      var attempt := if job.attempt + 1 < job.maxAttempts then job.attempt + 1 else job.maxAttempts;
      Ok((db.(jobs := db.jobs[actionId := job.(state := JobRunning, attempt := attempt)]),
          Claim(actionId, job.attempt >= job.maxAttempts)))
  }

  function SavePlan(db: Db, actionId: Id, plan: Plan): Result<Db> {
    if actionId !in db.actions || db.actions[actionId].scenarioId !in db.scenarios then Err(DataUnavailable)
    else
      var action := db.actions[actionId];
      if action.plan.Some? then
        if action.plan.value != plan then Err(OperationConflict) else Ok(db)
      else if !action.status.Accepted? then Err(OperationConflict)
      else Ok(db.(actions := db.actions[actionId := action.(
             status := InProgress, plan := Some(plan), before := Some(db.scenarios[action.scenarioId].portfolio))]))
  }

  function FindReceipt(receipts: seq<L.Receipt>, operationId: Id): (found: Option<L.Receipt>)
    ensures found.Some? ==> found.value in receipts && found.value.operationId == operationId
    ensures found.None? ==> forall r | r in receipts :: r.operationId != operationId
  {
    if receipts == [] then None
    else if receipts[0].operationId == operationId then Some(receipts[0])
    else FindReceipt(receipts[1..], operationId)
  }

  ghost function ApplyActionReceipt(db: Db, actionId: Id, r: L.Receipt): Result<Db> {
    if actionId !in db.actions || db.actions[actionId].scenarioId !in db.scenarios then Err(DataUnavailable)
    else
      var action := db.actions[actionId];
      var scenario := db.scenarios[action.scenarioId];
      var prior := FindReceipt(action.receipts, r.operationId);
      if prior.Some? then
        if prior.value != r then Err(OperationConflict) else Ok(db)
      else if action.status.Terminal() then Err(OperationConflict)
      else
        var next :- L.ApplyReceipt(scenario.portfolio, r);
        Ok(db.(actions := db.actions[actionId := action.(receipts := action.receipts + [r])],
               scenarios := db.scenarios[action.scenarioId := scenario.(portfolio := next)]))
  }

  function CompleteAction(db: Db, actionId: Id, status: ActionStatus): Db {
    if actionId !in db.actions || db.actions[actionId].scenarioId !in db.scenarios || actionId !in db.jobs then db
    else
      var action := db.actions[actionId];
      var scenario := db.scenarios[action.scenarioId];
      if action.status.Terminal() then db
      else db.(
        actions := db.actions[actionId := action.(status := status, after := Some(scenario.portfolio))],
        scenarios := if scenario.active == Some(actionId)
                     then db.scenarios[action.scenarioId := scenario.(active := None)] else db.scenarios,
        jobs := db.jobs[actionId := db.jobs[actionId].(state := if status.Failed? then JobFailed else JobCompleted)])
  }

  function RetryJob(db: Db, actionId: Id): Db {
    if actionId !in db.jobs || db.jobs[actionId].state.Finished() then db
    else
      var job := db.jobs[actionId];
      if job.attempt < job.maxAttempts then
        db.(jobs := db.jobs[actionId := job.(state := JobRetry)])
      else
        var marked := db.(jobs := db.jobs[actionId := job.(state := JobFailed)]);
        var status :=
          if actionId in db.actions && db.actions[actionId].receipts != [] then PartiallySucceeded else Failed;
        var completed := CompleteAction(marked, actionId, status);
        completed.(jobs := completed.jobs[actionId := job.(state := JobFailed)])
  }

  // What String.prototype.trim removes.
  predicate WhiteSpace(u: Unit) {
    || 9 <= u <= 13 || u == 0x20 || u == 0xA0 || u == 0x1680 || 0x2000 <= u <= 0x200A || u == 0x2028 || u == 0x2029
    || u == 0x202F || u == 0x205F || u == 0x3000 || u == 0xFEFF
  }

  // A stop reason: not blank, and at most a thousand code units.
  predicate BoundedReason(reason: Text) {
    (exists i | 0 <= i < |reason| :: !WhiteSpace(reason[i])) && |reason| <= 1000
  }

  function PortfoliosOf(db: Db): map<Id, L.Portfolio> { map s | s in db.scenarios :: db.scenarios[s].portfolio }

  // stopExperiment, with the row it answers: a recorded stop first, then the experiment's state.
  function StopExperiment(db: Db, reason: Text, now: Timestamp): Result<(Db, StopRow)> {
    if !BoundedReason(reason) then Err(SchemaRejected)
    else if db.stop.Some? then
      if db.stop.value.reason != reason then Err(IdempotencyConflict) else Ok((db, db.stop.value))
    else if !db.started then Err(ExperimentNotStarted)
    else if exists s | s in db.scenarios :: db.scenarios[s].active.Some? then Err(ScenarioBusy)
    else
      var row := StopRow(reason, now, PortfoliosOf(db));
      Ok((db.(started := false, stop := Some(row)), row))
  }
}
