// The action, job and scenario tables as the repository's transactions update them, and the worker's program over
// them. Each method is proved to be its step of ActionStore; the worker's uninterrupted run is a path of the
// protocol's state machine, to the end that ActionEndings characterises.
module ActionTables {
  import opened Prelude
  import opened ActionStore
  import opened ActionProtocol
  import opened ActionEndings
  import opened Keyed
  import L = Ledger
  import Accounting

  class ExperimentRepository {
    var started: bool
    var scenarios: map<Id, Scenario>
    var actions: map<Id, Action>
    var keys: map<Id, Id>
    var jobs: map<Id, Job>
    var stop: Option<StopRow>

    ghost function Contents(): Db
      reads this
    {
      Db(started, scenarios, actions, keys, jobs, stop)
    }

    constructor (scenarios: map<Id, Scenario>)
      ensures Contents() == Db(true, scenarios, map[], map[], map[], None)
    {
      started, actions, keys, jobs, stop := true, map[], map[], map[], None;
      this.scenarios := scenarios;
    }

    method Accept(e: Envelope, actionId: Id, maxAttempts: int, admitted: bool) returns (result: Result<Id>)
      modifies this
      ensures result.Ok? ==>
                AcceptAction(old(Contents()), e, actionId, maxAttempts, admitted) == Ok((Contents(), result.value))
      ensures result.Err? ==>
                && AcceptAction(old(Contents()), e, actionId, maxAttempts, admitted) == Err(result.code)
                && Contents() == old(Contents())
    {
      if e.idempotencyKey in keys {
        var prior := keys[e.idempotencyKey];
        if prior !in actions { return Err(DataUnavailable); }
        if actions[prior].request != e { return Err(IdempotencyConflict); }
        return Ok(prior);
      }
      if !started { return Err(ExperimentNotStarted); }
      if e.scenarioId !in scenarios { return Err(PolicyViolation); }
      if scenarios[e.scenarioId].portfolio.version != e.expectedVersion { return Err(StalePortfolio); }
      if scenarios[e.scenarioId].active.Some? { return Err(ScenarioBusy); }
      if !admitted { return Err(PolicyViolation); }
      if actionId in actions || actionId in jobs || maxAttempts < 1 { return Err(UniqueViolation); }
      actions := actions[actionId := Action(e, e.scenarioId, Accepted, None, [], None, None)];
      keys := keys[e.idempotencyKey := actionId];
      scenarios := scenarios[e.scenarioId := scenarios[e.scenarioId].(active := Some(actionId))];
      jobs := jobs[actionId := Job(JobReady, 0, maxAttempts)];
      return Ok(actionId);
    }

    method Claim(actionId: Id) returns (result: Result<ActionStore.Claim>)
      modifies this
      ensures result.Ok? ==> ClaimJob(old(Contents()), actionId) == Ok((Contents(), result.value))
      ensures result.Err? ==> ClaimJob(old(Contents()), actionId) == Err(result.code) && Contents() == old(Contents())
    {
      if actionId !in jobs || jobs[actionId].state.Finished() { return Err(DataUnavailable); }
      var job := jobs[actionId];
      var attempt := if job.attempt + 1 < job.maxAttempts then job.attempt + 1 else job.maxAttempts;
      jobs := jobs[actionId := job.(state := JobRunning, attempt := attempt)];
      return Ok(ActionStore.Claim(actionId, job.attempt >= job.maxAttempts));
    }

    method Save(actionId: Id, plan: Plan) returns (result: Result<()>)
      modifies this
      ensures result.Ok? ==> SavePlan(old(Contents()), actionId, plan) == Ok(Contents())
      ensures result.Err? ==>
                SavePlan(old(Contents()), actionId, plan) == Err(result.code) && Contents() == old(Contents())
    {
      if actionId !in actions || actions[actionId].scenarioId !in scenarios { return Err(DataUnavailable); }
      var action := actions[actionId];
      if action.plan.Some? {
        return if action.plan.value != plan then Err(OperationConflict) else Ok(());
      }
      if !action.status.Accepted? { return Err(OperationConflict); }
      action := action.(plan := Some(plan));
      action := action.(status := InProgress, before := Some(scenarios[action.scenarioId].portfolio));
      actions := actions[actionId := action];
      return Ok(());
    }

    method ApplyOne(actionId: Id, r: L.Receipt) returns (result: Result<()>)
      modifies this
      ensures result.Ok? ==> ApplyActionReceipt(old(Contents()), actionId, r) == Ok(Contents())
      ensures result.Err? ==>
                ApplyActionReceipt(old(Contents()), actionId, r) == Err(result.code) && Contents() == old(Contents())
    {
      hide L.ApplyReceipt;
      if actionId !in actions || actions[actionId].scenarioId !in scenarios { return Err(DataUnavailable); }
      var action := actions[actionId];
      var scenario := scenarios[action.scenarioId];
      var prior := FindReceipt(action.receipts, r.operationId);
      if prior.Some? {
        return if prior.value != r then Err(OperationConflict) else Ok(());
      }
      if action.status.Terminal() { return Err(OperationConflict); }
      var next := Accounting.ApplyReceipt(scenario.portfolio, r);
      if next.Err? { return Err(next.code); }
      actions := actions[actionId := action.(receipts := action.receipts + [r])];
      scenarios := scenarios[action.scenarioId := scenario.(portfolio := next.value)];
      return Ok(());
    }

    method Complete(actionId: Id, status: ActionStatus)
      modifies this
      ensures Contents() == CompleteAction(old(Contents()), actionId, status)
    {
      if actionId !in actions || actions[actionId].scenarioId !in scenarios || actionId !in jobs { return; }
      var action := actions[actionId];
      var scenario := scenarios[action.scenarioId];
      if action.status.Terminal() { return; }
      actions := actions[actionId := action.(status := status, after := Some(scenario.portfolio))];
      if scenario.active == Some(actionId) {
        scenarios := scenarios[action.scenarioId := scenario.(active := None)];
      }
      jobs := jobs[actionId := jobs[actionId].(state := if status.Failed? then JobFailed else JobCompleted)];
    }

    method Retry(actionId: Id)
      modifies this
      ensures Contents() == RetryJob(old(Contents()), actionId)
    {
      if actionId !in jobs || jobs[actionId].state.Finished() { return; }
      var job := jobs[actionId];
      var exhausted := job.attempt >= job.maxAttempts;
      jobs := jobs[actionId := job.(state := if exhausted then JobFailed else JobRetry)];
      if exhausted {
        Complete(actionId,
                 if actionId in actions && actions[actionId].receipts != [] then PartiallySucceeded else Failed);
        jobs := jobs[actionId := job.(state := JobFailed)];
      }
    }

    method StopRun(reason: Text, now: Timestamp) returns (result: Result<StopRow>)
      modifies this
      ensures result.Ok? ==> StopExperiment(old(Contents()), reason, now) == Ok((Contents(), result.value))
      ensures result.Err? ==>
                StopExperiment(old(Contents()), reason, now) == Err(result.code) && Contents() == old(Contents())
    {
      if !BoundedReason(reason) { return Err(SchemaRejected); }
      if stop.Some? {
        return if stop.value.reason != reason then Err(IdempotencyConflict) else Ok(stop.value);
      }
      if !started { return Err(ExperimentNotStarted); }
      if exists s | s in scenarios :: scenarios[s].active.Some? { return Err(ScenarioBusy); }
      var row := StopRow(reason, now, map s | s in scenarios :: scenarios[s].portfolio);
      stop := Some(row);
      started := false;
      return Ok(row);
    }

    function Count(actionId: Id): nat
      reads this
    {
      if actionId in actions then |actions[actionId].receipts| else 0
    }
  }

  /******* The worker's program *******/

  // The catch path for an error that ends the action.
  method EndAction(repository: ExperimentRepository, actionId: Id, ghost c: Choice) returns (outcome: Outcome)
    modifies repository
    ensures (repository.Contents(), outcome) == Rests(old(repository.Contents()), Counting(actionId), c)
  {
    hide CompleteAction, Rests;
    ghost var db := repository.Contents();
    RestsStep(db, Counting(actionId), c);
    var applied := repository.Count(actionId);
    RestsStep(db, Ending(actionId, applied != 0), c);
    repository.Complete(actionId, if applied != 0 then PartiallySucceeded else Failed);
    return if applied != 0 then EndedPartially else EndedFailed;
  }

  // The catch path for any other error.
  method GiveBack(repository: ExperimentRepository, actionId: Id, ghost c: Choice) returns (outcome: Outcome)
    modifies repository
    ensures (repository.Contents(), outcome) == Rests(old(repository.Contents()), Retrying(actionId), c)
  {
    hide RetryJob, Rests;
    RestsStep(repository.Contents(), Retrying(actionId), c);
    repository.Retry(actionId);
    return WillRetry;
  }

  method ApplyPlan(repository: ExperimentRepository, actionId: Id, receipts: seq<L.Receipt>, ghost c: Choice)
    returns (outcome: Outcome)
    modifies repository
    ensures (repository.Contents(), outcome) == Rests(old(repository.Contents()), Applying(actionId, receipts, 0), c)
  {
    hide CompleteAction, ApplyActionReceipt, Rests, Permanent;
    for i := 0 to |receipts|
      invariant Rests(repository.Contents(), Applying(actionId, receipts, i), c)
                == Rests(old(repository.Contents()), Applying(actionId, receipts, 0), c)
    {
      ApplyingRests(repository.Contents(), actionId, receipts, i, c);
      var applied := repository.ApplyOne(actionId, receipts[i]);
      if applied.Err? {
        if Permanent(applied.code) {
          outcome := EndAction(repository, actionId, c);
        } else {
          outcome := GiveBack(repository, actionId, c);
        }
        return;
      }
    }
    RestsStep(repository.Contents(), Applying(actionId, receipts, |receipts|), c);
    repository.Complete(actionId, Succeeded);
    return EndedSucceeded;
  }

  // runActionWorkerOnce for a job that is due: the claim, then the protocol's steps to rest.
  method RunActionWorkerOnce(repository: ExperimentRepository, actionId: Id, c: Choice) returns (outcome: Outcome)
    modifies repository
    ensures ClaimJob(old(repository.Contents()), actionId).Err? ==>
              repository.Contents() == old(repository.Contents()) && outcome.NothingDue?
    ensures ClaimJob(old(repository.Contents()), actionId).Ok? ==>
              var (db, claim) := ClaimJob(old(repository.Contents()), actionId).value;
              (repository.Contents(), outcome) == Rests(db, Claimed(actionId, claim.exhausted), c)
  {
    hide CompleteAction, RetryJob, ApplyActionReceipt, SavePlan, Rests;
    var claim := repository.Claim(actionId);
    if claim.Err? { return NothingDue; }
    ghost var db := repository.Contents();
    RestsStep(db, Claimed(actionId, claim.value.exhausted), c);
    if claim.value.exhausted {
      repository.Retry(actionId);
      return Exhausted;
    }
    if actionId !in repository.actions {
      outcome := GiveBack(repository, actionId, c);
      return;
    }
    if repository.Count(actionId) == 0 && c.expired {
      RestsStep(db, Expiring(actionId), c);
      repository.Complete(actionId, Expired);
      return EndedExpired;
    }
    RestsStep(db, LoadingPlan(actionId), c);
    var stored := repository.actions[actionId].plan;
    if stored.None? {
      RestsStep(db, Planning(actionId), c);
      if c.plan.None? {
        if c.permanentFailure {
          outcome := EndAction(repository, actionId, c);
        } else {
          outcome := GiveBack(repository, actionId, c);
        }
        return;
      }
      RestsStep(db, SavingPlan(actionId, c.plan.value), c);
      var saved := repository.Save(actionId, c.plan.value);
      if saved.Err? {
        outcome := GiveBack(repository, actionId, c);
        return;
      }
      SavedIsStored(db, actionId, c.plan.value, repository.Contents());
      RestsStep(repository.Contents(), Reloading(actionId), c);
      stored := repository.actions[actionId].plan;
    }
    outcome := ApplyPlan(repository, actionId, stored.value.receipts, c);
  }

  lemma SavedIsStored(db: Db, actionId: Id, plan: Plan, after: Db)
    requires SavePlan(db, actionId, plan) == Ok(after)
    ensures actionId in after.actions && after.actions[actionId].plan == Some(plan)
  {
  }
}
