// Exactly which requests, claims, plans and receipts the tables take, and that a plan is made on the version its
// request names.
module ActionLaws {
  import opened Prelude
  import opened ActionStore
  import opened ActionProtocol
  import opened Keyed
  import L = Ledger
  import E = ActionEndings

  /******* Acceptance *******/

  // No action of the scenario is still open.
  predicate IdleScenario(db: Db, s: Id) {
    forall id | id in db.actions && db.actions[id].scenarioId == s :: db.actions[id].status.Terminal()
  }

  // Under a new key, in every reachable state, a request is accepted if and only if the experiment is started, its
  // scenario is known, has no open action and is at the version the request names, the request is admitted, the action
  // id is new and there is at least one attempt. It is then the scenario's one open action, with a waiting job.
  lemma {:induction false} AcceptedExactly(sys: System, steps: seq<Step>, e: Envelope, a: Id, maxAttempts: int,
      admitted: bool)
    requires Fresh(sys) && e.idempotencyKey !in Run(sys, steps).db.keys
    ensures var db := Run(sys, steps).db;
            var answer := AcceptAction(db, e, a, maxAttempts, admitted);
            && (answer.Ok? <==>
                  && db.started && e.scenarioId in db.scenarios && IdleScenario(db, e.scenarioId)
                  && db.scenarios[e.scenarioId].portfolio.version == e.expectedVersion
                  && admitted && a !in db.actions && 1 <= maxAttempts)
            && (answer.Ok? ==> answer.value.1 == a && Inserted(db, e, a, maxAttempts, answer.value.0))
  {
    hide Run, L.Valid, L.Replay, ActionHolds;
    RunKeeps(sys, steps);
    var db := Run(sys, steps).db;
    KeysMatch(db);
    if e.scenarioId in db.scenarios {
      assert ScenarioHolds(db, e.scenarioId);
      forall id | id in db.actions && db.actions[id].scenarioId == e.scenarioId
        ensures !db.actions[id].status.Terminal() ==> db.scenarios[e.scenarioId].active == Some(id)
      {
        assert RowHolds(db, id);
      }
    }
  }

  /******* Claims, plans and receipts *******/

  // In every reachable state a job is handed out if and only if its action is open; it then runs under one more
  // attempt, or as used up once there is none left.
  lemma {:induction false} ClaimedExactly(sys: System, steps: seq<Step>, a: Id)
    requires Fresh(sys)
    ensures var db := Run(sys, steps).db;
            var answer := ClaimJob(db, a);
            && (answer.Ok? <==> a in db.actions && !db.actions[a].status.Terminal())
            && (answer.Ok? ==>
                  && a in db.jobs
                  && var job := db.jobs[a];
                  && var spent := job.attempt == job.maxAttempts;
                  && answer.value.1 == Claim(a, spent)
                  && answer.value.0 == db.(jobs := db.jobs[a :=
                       Job(JobRunning, if spent then job.attempt else job.attempt + 1, job.maxAttempts)]))
  {
    hide Run, L.Valid, L.Replay, ActionHolds;
    RunKeeps(sys, steps);
    KeysMatch(Run(sys, steps).db);
    if a in Run(sys, steps).db.actions {
      assert RowHolds(Run(sys, steps).db, a);
    }
  }

  // A plan is taken if and only if its action is open without one, or already has this one. A first plan is recorded
  // with the portfolio it was made on and sets the action going; a repeated one changes nothing.
  lemma {:induction false} SavedExactly(sys: System, steps: seq<Step>, a: Id, plan: Plan)
    requires Fresh(sys)
    ensures var db := Run(sys, steps).db;
            var answer := SavePlan(db, a, plan);
            && (answer.Ok? <==> && a in db.actions
                                && if db.actions[a].plan.Some? then db.actions[a].plan.value == plan
                                   else !db.actions[a].status.Terminal())
            && (answer.Ok? ==>
                  && db.actions[a].scenarioId in db.scenarios
                  && var row := db.actions[a];
                  && var made := Action(row.request, row.scenarioId, InProgress, Some(plan), [],
                                        Some(db.scenarios[row.scenarioId].portfolio), row.after);
                  answer.value == if row.plan.Some? then db else db.(actions := db.actions[a := made]))
  {
    hide Run, L.Valid, L.Replay, Once;
    RunKeeps(sys, steps);
    if a in Run(sys, steps).db.actions {
      assert RowHolds(Run(sys, steps).db, a);
    }
  }

  // A receipt of an action is taken if and only if it is stored already, or the action is open, nothing is stored
  // under its operation id and the ledger takes it. A stored one changes nothing; a new one is stored last, together
  // with the portfolio the ledger makes of it.
  lemma {:induction false} PostedExactly(sys: System, steps: seq<Step>, a: Id, r: L.Receipt)
    requires Fresh(sys) && a in Run(sys, steps).db.actions
    ensures var db := Run(sys, steps).db;
            var row := db.actions[a];
            var answer := ApplyActionReceipt(db, a, r);
            && row.scenarioId in db.scenarios
            && var told := L.ApplyReceipt(db.scenarios[row.scenarioId].portfolio, r);
            && (answer.Ok? <==>
                  || r in row.receipts
                  || (&& !row.status.Terminal() && told.Ok?
                      && forall x | x in row.receipts :: x.operationId != r.operationId))
            && (answer.Ok? ==>
                  answer.value ==
                  if r in row.receipts then db
                  else db.(actions := db.actions[a := row.(receipts := row.receipts + [r])],
                           scenarios := db.scenarios[row.scenarioId :=
                             db.scenarios[row.scenarioId].(portfolio := told.value)]))
  {
    hide Run, L.Valid, L.Replay, L.ApplyReceipt;
    RunKeeps(sys, steps);
    var db := Run(sys, steps).db;
    var row := db.actions[a];
    StoredReplays(db, a);
    var prior := FindReceipt(row.receipts, r.operationId);
    if r in row.receipts {
      E.StoredOnce(row.before.value, row.receipts, prior.value, r);
    }
  }

  lemma {:induction false} StoredReplays(db: Db, a: Id)
    requires DbHolds(db) && a in db.actions
    ensures var row := db.actions[a];
            && row.scenarioId in db.scenarios
            && if row.plan.Some? then row.before.Some? && L.Replay(row.before.value, row.receipts).Ok?
               else row.receipts == []
  {
    hide L.Valid, L.Replay, Once;
    assert RowHolds(db, a);
  }

  // In every reachable state a stop is taken if and only if its reason has a visible character and at most a thousand
  // code units, and either a stop for the same reason is recorded or the experiment is running and no action is open.
  lemma {:induction false} StoppedExactly(sys: System, steps: seq<Step>, reason: Text, now: Timestamp)
    requires Fresh(sys)
    ensures var db := Run(sys, steps).db;
            StopExperiment(db, reason, now).Ok? <==>
              && |reason| <= 1000 && (exists u | u in reason :: !WhiteSpace(u))
              && if db.stop.Some? then db.stop.value.reason == reason
                 else db.started && forall id | id in db.actions :: db.actions[id].status.Terminal()
  {
    hide Run, L.Valid, L.Replay, ActionHolds, WhiteSpace;
    RunKeeps(sys, steps);
    var db := Run(sys, steps).db;
    assert forall s | s in db.scenarios :: ScenarioHolds(db, s);
    assert forall id | id in db.actions :: RowHolds(db, id);
    assert (exists u | u in reason :: !WhiteSpace(u)) <==>
           (exists i | 0 <= i < |reason| :: !WhiteSpace(reason[i]));
  }

  /******* The version a request names *******/

  // A waiting action's scenario is still at its request's version, and a plan was made at that version.
  predicate VersionHolds(db: Db, id: Id)
    requires id in db.actions
  {
    var a := db.actions[id];
    && (a.status.Accepted? ==>
          a.scenarioId in db.scenarios && db.scenarios[a.scenarioId].portfolio.version == a.request.expectedVersion)
    && (a.before.Some? ==> a.before.value.version == a.request.expectedVersion)
  }

  predicate VersionsHold(db: Db) {
    forall id | id in db.actions :: VersionHolds(db, id)
  }

  // Rows that keep their request, plan and status, over scenarios that keep their portfolios.
  predicate SameVersions(db: Db, db': Db, id: Id)
    requires id in db.actions
  {
    && id in db'.actions
    && db'.actions[id].request == db.actions[id].request && db'.actions[id].scenarioId == db.actions[id].scenarioId
    && db'.actions[id].before == db.actions[id].before
    && (db'.actions[id].status.Accepted? ==> db.actions[id].status.Accepted?)
    && (db'.actions[id].status.Accepted? && db.actions[id].scenarioId in db.scenarios ==>
          && db.actions[id].scenarioId in db'.scenarios
          && db'.scenarios[db.actions[id].scenarioId].portfolio == db.scenarios[db.actions[id].scenarioId].portfolio)
  }

  lemma VersionStays(db: Db, db': Db, id: Id)
    requires id in db.actions && VersionHolds(db, id) && SameVersions(db, db', id)
    ensures VersionHolds(db', id)
  {
  }

  lemma {:induction false} CompleteKeepsVersions(db: Db, a: Id, status: ActionStatus)
    requires VersionsHold(db) && status.Terminal()
    ensures VersionsHold(CompleteAction(db, a, status))
  {
    forall id | id in db.actions
      ensures VersionHolds(CompleteAction(db, a, status), id)
    {
      VersionStays(db, CompleteAction(db, a, status), id);
    }
  }

  lemma {:induction false} RetryKeepsVersions(db: Db, a: Id)
    requires VersionsHold(db)
    ensures VersionsHold(RetryJob(db, a))
  {
    hide CompleteAction, VersionsHold;
    if a in db.jobs && !db.jobs[a].state.Finished() {
      var marked := db.(jobs := db.jobs[a := db.jobs[a].(state := JobFailed)]);
      JobsDoNotMatter(db, db.(jobs := db.jobs[a := db.jobs[a].(state := JobRetry)]));
      JobsDoNotMatter(db, marked);
      var status := if a in db.actions && db.actions[a].receipts != [] then PartiallySucceeded else Failed;
      CompleteKeepsVersions(marked, a, status);
      JobsDoNotMatter(CompleteAction(marked, a, status), RetryJob(db, a));
    }
  }

  lemma JobsDoNotMatter(db: Db, db': Db)
    requires VersionsHold(db)
    ensures db'.actions == db.actions && db'.scenarios == db.scenarios ==> VersionsHold(db')
  {
  }

  lemma {:induction false} SaveKeepsVersions(db: Db, a: Id, plan: Plan)
    requires VersionsHold(db) && SavePlan(db, a, plan).Ok?
    ensures VersionsHold(SavePlan(db, a, plan).value)
  {
    forall id | id in db.actions
      ensures VersionHolds(SavePlan(db, a, plan).value, id)
    {
      assert VersionHolds(db, id);
    }
  }

  // Only an open action that is no longer waiting posts a receipt, and it is its scenario's one open action.
  lemma {:induction false} ApplyKeepsVersions(db: Db, a: Id, r: L.Receipt)
    requires DbHolds(db) && VersionsHold(db) && a in db.actions && db.actions[a].plan.Some?
    requires ApplyActionReceipt(db, a, r).Ok?
    ensures VersionsHold(ApplyActionReceipt(db, a, r).value)
  {
    hide L.ApplyReceipt, L.Valid, L.Replay, Once;
    assert RowHolds(db, a);
    forall id | id in db.actions
      ensures VersionHolds(ApplyActionReceipt(db, a, r).value, id)
    {
      assert RowHolds(db, id) && VersionHolds(db, id);
    }
  }

  lemma {:induction false} WorkerKeepsVersions(db: Db, pc: Pc, c: Choice)
    requires DbHolds(db) && PcHolds(db, pc) && VersionsHold(db)
    ensures VersionsHold(WorkerStep(db, pc, c).0)
  {
    hide DbHolds, VersionsHold, RetryJob, CompleteAction, SavePlan, ApplyActionReceipt, Once;
    match pc
    case Claimed(a, _) => RetryKeepsVersions(db, a);
    case Expiring(a) => CompleteKeepsVersions(db, a, Expired);
    case SavingPlan(a, plan) => if SavePlan(db, a, plan).Ok? { SaveKeepsVersions(db, a, plan); }
    case Applying(a, receipts, i) =>
      CompleteKeepsVersions(db, a, Succeeded);
      if i < |receipts| && ApplyActionReceipt(db, a, receipts[i]).Ok? {
        ApplyKeepsVersions(db, a, receipts[i]);
      }
    case Ending(a, applied) => CompleteKeepsVersions(db, a, if applied then PartiallySucceeded else Failed);
    case Retrying(a) => RetryKeepsVersions(db, a);
    case _ =>
  }

  lemma {:induction false} InsertKeepsVersions(db: Db, e: Envelope, a: Id, maxAttempts: int, admitted: bool)
    requires VersionsHold(db) && AcceptAction(db, e, a, maxAttempts, admitted).Ok?
    ensures VersionsHold(AcceptAction(db, e, a, maxAttempts, admitted).value.0)
  {
    var later := AcceptAction(db, e, a, maxAttempts, admitted).value.0;
    forall id | id in later.actions
      ensures VersionHolds(later, id)
    {
      if id in db.actions {
        assert VersionHolds(db, id);
      }
    }
  }

  lemma {:induction false} OtherWriterKeepsVersions(sys: System, s: Id, r: L.Receipt)
    requires DbHolds(sys.db) && VersionsHold(sys.db)
    ensures VersionsHold(After(sys, OtherWriter(s, r)).db)
  {
    hide L.ApplyReceipt, L.Valid, L.Replay, ActionHolds;
    forall id | id in sys.db.actions
      ensures VersionHolds(After(sys, OtherWriter(s, r)).db, id)
    {
      assert RowHolds(sys.db, id) && VersionHolds(sys.db, id);
    }
  }

  lemma {:induction false} StepKeepsVersions(sys: System, step: Step)
    requires Inv(sys) && VersionsHold(sys.db)
    ensures VersionsHold(After(sys, step).db)
  {
    hide DbHolds, VersionsHold, AcceptAction, ClaimJob, WorkerStep, StopExperiment, L.ApplyReceipt;
    match step
    case Accept(e, a, maxAttempts, admitted) =>
      if AcceptAction(sys.db, e, a, maxAttempts, admitted).Ok? {
        InsertKeepsVersions(sys.db, e, a, maxAttempts, admitted);
      }
    case ClaimStep(w, a) => ClaimTouchesJobs(sys, w, a);
    case Advance(w, c) =>
      IdleHolds(sys.db);
      WorkerKeepsVersions(sys.db, PcOf(sys, w), c);
    case Stop(reason, now) => StopTouchesNoRow(sys, reason, now);
    case OtherWriter(s, r) => OtherWriterKeepsVersions(sys, s, r);
    case _ =>
  }

  lemma ClaimTouchesJobs(sys: System, w: Id, a: Id)
    requires VersionsHold(sys.db)
    ensures VersionsHold(After(sys, ClaimStep(w, a)).db)
  {
  }

  lemma StopTouchesNoRow(sys: System, reason: Text, now: Timestamp)
    requires VersionsHold(sys.db)
    ensures VersionsHold(After(sys, Stop(reason, now)).db)
  {
  }

  lemma {:induction false} RunKeepsVersions(sys: System, steps: seq<Step>)
    requires Fresh(sys)
    ensures VersionsHold(Run(sys, steps).db)
  {
    hide After;
    if steps != [] {
      var n := |steps| - 1;
      RunKeepsVersions(sys, steps[..n]);
      RunKeeps(sys, steps[..n]);
      StepKeepsVersions(Run(sys, steps[..n]), steps[n]);
    }
  }

  // In every reachable state: while an action waits, its scenario's portfolio still has the version its request names,
  // and whatever plan it has was made at that version. No worker, crash or other writer comes in between.
  lemma {:induction false} PlansAreMadeAtTheRequestedVersion(sys: System, steps: seq<Step>, id: Id)
    requires Fresh(sys) && id in Run(sys, steps).db.actions
    ensures var db := Run(sys, steps).db;
            var a := db.actions[id];
            && a.scenarioId in db.scenarios
            && (a.status.Accepted? ==> db.scenarios[a.scenarioId].portfolio.version == a.request.expectedVersion)
            && (a.plan.Some? ==> a.before.Some? && a.before.value.version == a.request.expectedVersion)
  {
    hide Run, L.Valid, L.Replay, Once;
    RunKeeps(sys, steps);
    RunKeepsVersions(sys, steps);
    assert RowHolds(Run(sys, steps).db, id) && VersionHolds(Run(sys, steps).db, id);
  }
}
