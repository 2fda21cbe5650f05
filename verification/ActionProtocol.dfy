// Workers over the action tables: any number of them, unfenced leases, crashes between any two steps.
module ActionProtocol {
  import opened Prelude
  import opened ActionStore
  import opened Keyed
  import L = Ledger

  // Where runActionWorkerOnce stands between two repository calls.
  datatype Pc =
    | Idle
    | Claimed(actionId: Id, exhausted: bool)
    | Expiring(actionId: Id)
    | LoadingPlan(actionId: Id)
    | Planning(actionId: Id)
    | SavingPlan(actionId: Id, plan: Plan)
    | Reloading(actionId: Id)
    | Applying(actionId: Id, receipts: seq<L.Receipt>, index: nat)
    | Counting(actionId: Id)
    | Ending(actionId: Id, applied: bool)
    | Retrying(actionId: Id)

  datatype System = System(db: Db, workers: map<Id, Pc>)

  function PcOf(sys: System, w: Id): Pc { if w in sys.workers then sys.workers[w] else Idle }

  // What the outside world decides at a step: whether the intent has expired, and what planning yields.
  datatype Choice = Choice(expired: bool, plan: Option<Plan>, permanentFailure: bool)

  // The worker's set of error codes that end an action instead of retrying it.
  predicate Permanent(code: ErrorCode) {
    code.PolicyViolation? || code.InsufficientAvailableBalance? || code.LimitExceeded? || code.LiquidityUnavailable?
  }

  // One repository call of a worker, with the local moves up to the next one.
  ghost function WorkerStep(db: Db, pc: Pc, c: Choice): (Db, Pc) {
    match pc
    case Idle => (db, Idle)
    case Claimed(a, exhausted) =>
      if exhausted then (RetryJob(db, a), Idle)
      else if a !in db.actions then (db, Retrying(a))
      else if db.actions[a].receipts == [] && c.expired then (db, Expiring(a))
      else (db, LoadingPlan(a))
    case Expiring(a) => (CompleteAction(db, a, Expired), Idle)
    case LoadingPlan(a) =>
      if a in db.actions && db.actions[a].plan.Some? then (db, Applying(a, db.actions[a].plan.value.receipts, 0))
      else (db, Planning(a))
    case Planning(a) =>
      if c.plan.Some? then (db, SavingPlan(a, c.plan.value))
      else if c.permanentFailure then (db, Counting(a))
      else (db, Retrying(a))
    case SavingPlan(a, plan) =>
      var saved := SavePlan(db, a, plan);
      if saved.Ok? then (saved.value, Reloading(a)) else (db, Retrying(a))
    case Reloading(a) =>
      if a in db.actions && db.actions[a].plan.Some? then (db, Applying(a, db.actions[a].plan.value.receipts, 0))
      else (db, Retrying(a))
    case Applying(a, receipts, i) =>
      if i < |receipts| then
        var applied := ApplyActionReceipt(db, a, receipts[i]);
        if applied.Ok? then (applied.value, Applying(a, receipts, i + 1))
        else if Permanent(applied.code) then (db, Counting(a))
        else (db, Retrying(a))
      else (CompleteAction(db, a, Succeeded), Idle)
    case Counting(a) => (db, Ending(a, a in db.actions && db.actions[a].receipts != []))
    case Ending(a, applied) => (CompleteAction(db, a, if applied then PartiallySucceeded else Failed), Idle)
    case Retrying(a) => (RetryJob(db, a), Idle)
  }

  datatype Step =
    | Accept(envelope: Envelope, actionId: Id, maxAttempts: int, admitted: bool)
    | ClaimStep(worker: Id, actionId: Id)
    | Advance(worker: Id, choice: Choice)
    | Interrupt(worker: Id)
    | Crash(worker: Id)
    | Stop(reason: Text, now: Timestamp)
    | OtherWriter(scenarioId: Id, receipt: L.Receipt)

  // A refused step changes nothing.  Another writer (a checkpoint or a transfer) posts only while the
  // scenario has no active action.
  ghost function After(sys: System, step: Step): System {
    match step
    case Accept(e, a, maxAttempts, admitted) =>
      var accepted := AcceptAction(sys.db, e, a, maxAttempts, admitted);
      if accepted.Ok? then sys.(db := accepted.value.0) else sys
    case ClaimStep(w, a) =>
      var claimed := ClaimJob(sys.db, a);
      if PcOf(sys, w).Idle? && claimed.Ok? then
        System(claimed.value.0, sys.workers[w := Claimed(claimed.value.1.actionId, claimed.value.1.exhausted)])
      else sys
    case Advance(w, c) =>
      var (db, pc) := WorkerStep(sys.db, PcOf(sys, w), c);
      System(db, sys.workers[w := pc])
    case Interrupt(w) =>
      if PcOf(sys, w).Idle? then sys else sys.(workers := sys.workers[w := Retrying(PcOf(sys, w).actionId)])
    case Crash(w) => sys.(workers := sys.workers[w := Idle])
    case Stop(reason, now) =>
      var stopped := StopExperiment(sys.db, reason, now);
      if stopped.Ok? then sys.(db := stopped.value.0) else sys
    case OtherWriter(s, r) =>
      if s !in sys.db.scenarios || sys.db.scenarios[s].active.Some? then sys
      else
        var scenario := sys.db.scenarios[s];
        var next := L.ApplyReceipt(scenario.portfolio, r);
        if next.Ok? then sys.(db := sys.db.(scenarios := sys.db.scenarios[s := scenario.(portfolio := next.value)]))
        else sys
  }

  ghost function Run(sys: System, steps: seq<Step>): System {
    if steps == [] then sys else After(Run(sys, steps[..|steps| - 1]), steps[|steps| - 1])
  }

  /******* First deliveries of a plan *******/

  // A plan's receipts with exact repeats dropped, in order.
  function Once(rs: seq<L.Receipt>): seq<L.Receipt> {
    if rs == [] then []
    else
      var earlier := Once(rs[..|rs| - 1]);
      if rs[|rs| - 1] in earlier then earlier else earlier + [rs[|rs| - 1]]
  }

  lemma {:induction false} OnceMembers(rs: seq<L.Receipt>)
    ensures forall r :: r in Once(rs) <==> r in rs
  {
    if rs != [] {
      OnceMembers(rs[..|rs| - 1]);
      assert rs == rs[..|rs| - 1] + [rs[|rs| - 1]];
    }
  }

  lemma {:induction false} OncePrefix(rs: seq<L.Receipt>, i: nat, k: nat)
    requires i <= k <= |rs|
    ensures Once(rs[..i]) <= Once(rs[..k])
    decreases k
  {
    if i < k {
      assert rs[..k][..k - 1] == rs[..k - 1];
      OncePrefix(rs, i, k - 1);
    }
  }

  // With distinct operation ids nothing is dropped.
  lemma {:induction false} OnceOfDistinct(rs: seq<L.Receipt>)
    requires forall i, j | 0 <= i < j < |rs| :: rs[i].operationId != rs[j].operationId
    ensures Once(rs) == rs
  {
    if rs != [] {
      var n := |rs| - 1;
      OnceOfDistinct(rs[..n]);
      OnceMembers(rs[..n]);
      assert rs == rs[..n] + [rs[n]];
    }
  }

  /******* The invariant *******/

  // The stored receipts are the first deliveries of some prefix of the plan.
  ghost predicate StoredIs(a: Action, k: nat) {
    a.plan.Some? && k <= |a.plan.value.receipts| && a.receipts == Once(a.plan.value.receipts[..k])
  }

  ghost predicate ActionHolds(a: Action) {
    && (a.plan.None? ==> a.receipts == [] && a.before.None?)
    && (a.plan.Some? ==> a.before.Some? && exists k: nat :: StoredIs(a, k))
    && (a.status.Accepted? ==> a.plan.None?)
    && (a.status.InProgress? ==> a.plan.Some?)
    && (a.status.Succeeded? ==> a.plan.Some? && a.receipts == Once(a.plan.value.receipts))
    && (a.status.PartiallySucceeded? ==> a.receipts != [])
    && (a.status.Terminal() ==> a.after.Some?)
    && (a.status.Terminal() && a.plan.Some? ==> L.Replay(a.before.value, a.receipts) == Ok(a.after.value))
  }

  ghost predicate RowHolds(db: Db, id: Id)
    requires id in db.actions
  {
    var a := db.actions[id];
    && a.scenarioId in db.scenarios && id in db.jobs
    && ActionHolds(a)
    && (db.jobs[id].state.Finished() <==> a.status.Terminal())
    && 0 <= db.jobs[id].attempt <= db.jobs[id].maxAttempts
    && (!a.status.Terminal() ==> db.scenarios[a.scenarioId].active == Some(id))
    && (!a.status.Terminal() && a.plan.Some? ==>
          L.Replay(a.before.value, a.receipts) == Ok(db.scenarios[a.scenarioId].portfolio))
  }

  ghost predicate ScenarioHolds(db: Db, s: Id)
    requires s in db.scenarios
  {
    var x := db.scenarios[s];
    && L.Valid(x.portfolio)
    && (x.active.Some? ==>
          && x.active.value in db.actions
          && db.actions[x.active.value].scenarioId == s
          && !db.actions[x.active.value].status.Terminal()
          && db.started)
  }

  ghost predicate DbHolds(db: Db) {
    && (forall id | id in db.actions :: RowHolds(db, id))
    && (forall s | s in db.scenarios :: ScenarioHolds(db, s))
    && db.jobs.Keys == db.actions.Keys
    && (db.stop.Some? ==> !db.started)
  }

  // What a worker's position implies about the rows, however stale the worker is.
  ghost predicate PcHolds(db: Db, pc: Pc) {
    pc.Idle? || (
      && pc.actionId in db.actions
      && var a := db.actions[pc.actionId];
      && (pc.Applying? ==> a.plan.Some? && pc.receipts == a.plan.value.receipts && pc.index <= |pc.receipts|
                           && Once(pc.receipts[..pc.index]) <= a.receipts)
      && (pc.Ending? && pc.applied ==> a.receipts != []))
  }

  ghost predicate Inv(sys: System) {
    DbHolds(sys.db) && forall w | w in sys.workers :: PcHolds(sys.db, sys.workers[w])
  }

  /******* How rows may move *******/

  // Later rows of an action: its plan is durable, its receipts only grow, and a terminal row is frozen.
  predicate Extends(a: Action, b: Action) {
    && b.request == a.request && b.scenarioId == a.scenarioId
    && (a.plan.Some? ==> b.plan == a.plan && b.before == a.before)
    && a.receipts <= b.receipts
    && (a.status.Terminal() ==> b == a)
  }

  predicate DbExtends(db: Db, db': Db) {
    && (forall id | id in db.actions :: id in db'.actions && Extends(db.actions[id], db'.actions[id]))
    && (forall k | k in db.keys :: k in db'.keys && db'.keys[k] == db.keys[k])
    && db'.scenarios.Keys == db.scenarios.Keys
    && (db'.started ==> db.started)
    && (db.stop.Some? ==> db'.stop == db.stop)
  }

  lemma PcSurvives(db: Db, db': Db, pc: Pc)
    requires PcHolds(db, pc) && DbExtends(db, db')
    ensures PcHolds(db', pc)
  {
  }

  /******* Each repository step keeps the tables *******/

  // A new row under a new key, waiting for its worker.
  predicate Inserted(db: Db, e: Envelope, a: Id, maxAttempts: int, db': Db) {
    && e.scenarioId in db.scenarios && db.scenarios[e.scenarioId].active.None? && db.started
    && e.idempotencyKey !in db.keys && a !in db.actions && a !in db.jobs && 1 <= maxAttempts
    && db' == db.(
         actions := db.actions[a := Action(e, e.scenarioId, Accepted, None, [], None, None)],
         keys := db.keys[e.idempotencyKey := a],
         scenarios := db.scenarios[e.scenarioId := db.scenarios[e.scenarioId].(active := Some(a))],
         jobs := db.jobs[a := Job(JobReady, 0, maxAttempts)])
  }

  lemma AcceptShape(db: Db, e: Envelope, a: Id, maxAttempts: int, admitted: bool)
    requires AcceptAction(db, e, a, maxAttempts, admitted).Ok?
    ensures var r := AcceptAction(db, e, a, maxAttempts, admitted).value;
            if e.idempotencyKey in db.keys then r == (db, db.keys[e.idempotencyKey])
            else Inserted(db, e, a, maxAttempts, r.0) && r.1 == a
  {
  }

  lemma {:induction false} InsertKeeps(db: Db, e: Envelope, a: Id, maxAttempts: int, db': Db)
    requires DbHolds(db) && Inserted(db, e, a, maxAttempts, db')
    ensures DbHolds(db') && DbExtends(db, db')
  {
    hide L.Valid, L.Replay, ActionHolds;
    assert ActionHolds(db'.actions[a]) by { NewRowHolds(e); }
    forall id | id in db'.actions
      ensures RowHolds(db', id)
    {
      if id != a {
        assert RowHolds(db, id);
      }
    }
    forall x | x in db'.scenarios
      ensures ScenarioHolds(db', x)
    {
      assert ScenarioHolds(db, x);
    }
  }

  lemma NewRowHolds(e: Envelope)
    ensures ActionHolds(Action(e, e.scenarioId, Accepted, None, [], None, None))
  {
  }

  lemma {:induction false} AcceptKeeps(db: Db, e: Envelope, a: Id, maxAttempts: int, admitted: bool)
    requires DbHolds(db) && AcceptAction(db, e, a, maxAttempts, admitted).Ok?
    ensures var db' := AcceptAction(db, e, a, maxAttempts, admitted).value.0;
            DbHolds(db') && DbExtends(db, db')
  {
    hide DbHolds, DbExtends, AcceptAction, Inserted;
    AcceptShape(db, e, a, maxAttempts, admitted);
    NothingMoved(db);
    if e.idempotencyKey !in db.keys {
      InsertKeeps(db, e, a, maxAttempts, AcceptAction(db, e, a, maxAttempts, admitted).value.0);
    }
  }

  lemma {:induction false} ClaimKeeps(db: Db, a: Id, db': Db, claim: Claim)
    requires DbHolds(db) && ClaimJob(db, a) == Ok((db', claim))
    ensures DbHolds(db') && DbExtends(db, db') && claim.actionId in db'.actions
  {
    hide L.Valid, L.Replay, Once;
    forall id | id in db'.actions
      ensures RowHolds(db', id)
    {
      assert RowHolds(db, id);
    }
    forall x | x in db'.scenarios
      ensures ScenarioHolds(db', x)
    {
      assert ScenarioHolds(db, x);
    }
  }

  // Only one row, its job and its scenario are edited, and that scenario stays with the row or is freed.
  ghost predicate OneRowEdited(db: Db, db': Db, a: Id)
    requires a in db.actions
  {
    var s := db.actions[a].scenarioId;
    && db'.started == db.started && db'.stop == db.stop
    && db'.actions.Keys == db.actions.Keys && db'.jobs.Keys == db.jobs.Keys && db.jobs.Keys == db.actions.Keys
    && db'.scenarios.Keys == db.scenarios.Keys
    && (forall id | id in db.actions && id != a ::
          db'.actions[id] == db.actions[id] && db'.jobs[id] == db.jobs[id])
    && s in db.scenarios && db'.actions[a].scenarioId == s
    && (forall x | x in db.scenarios && x != s :: db'.scenarios[x] == db.scenarios[x])
    && (db'.scenarios[s] == db.scenarios[s]
        || (db.scenarios[s].active == Some(a)
            && (db'.scenarios[s].active == Some(a) || db'.scenarios[s].active.None?)
            && L.Valid(db'.scenarios[s].portfolio)))
    && (db'.scenarios[s].active == Some(a) ==> !db'.actions[a].status.Terminal())
  }

  lemma {:induction false} OtherRowsKeep(db: Db, db': Db, a: Id)
    requires DbHolds(db) && a in db.actions && OneRowEdited(db, db', a) && RowHolds(db', a)
    ensures DbHolds(db')
  {
    hide RowHolds, ScenarioHolds, L.Valid;
    forall id | id in db'.actions
      ensures RowHolds(db', id)
    {
      if id != a {
        assert RowHolds(db, id);
        OtherRowKeeps(db, db', a, id);
      }
    }
    forall x | x in db'.scenarios
      ensures ScenarioHolds(db', x)
    {
      assert ScenarioHolds(db, x);
      ScenarioKeeps(db, db', a, x);
    }
  }

  lemma {:induction false} OtherRowKeeps(db: Db, db': Db, a: Id, id: Id)
    requires a in db.actions && OneRowEdited(db, db', a) && id in db.actions && id != a && RowHolds(db, id)
    ensures RowHolds(db', id)
  {
    hide L.Valid, L.Replay, ActionHolds;
  }

  lemma {:induction false} ScenarioKeeps(db: Db, db': Db, a: Id, x: Id)
    requires a in db.actions && OneRowEdited(db, db', a) && x in db.scenarios && ScenarioHolds(db, x)
    ensures ScenarioHolds(db', x)
  {
    hide L.Valid;
  }

  lemma {:induction false} SavePlanKeeps(db: Db, a: Id, plan: Plan, db': Db)
    requires DbHolds(db) && SavePlan(db, a, plan) == Ok(db')
    ensures DbHolds(db') && DbExtends(db, db') && a in db'.actions && db'.actions[a].plan == Some(plan)
  {
    hide L.Valid, L.Replay, Once, DbHolds;
    if db.actions[a].plan.None? {
      assert RowHolds(db, a) && ScenarioHolds(db, db.actions[a].scenarioId) by { HoldsAt(db, a); }
      PlannedRowHolds(db.actions[a], plan, db.scenarios[db.actions[a].scenarioId].portfolio, db'.actions[a]);
      KeysMatch(db);
      OtherRowsKeep(db, db', a);
    }
  }

  lemma {:induction false} HoldsAt(db: Db, a: Id)
    requires DbHolds(db) && a in db.actions
    ensures RowHolds(db, a) && ScenarioHolds(db, db.actions[a].scenarioId)
  {
    hide RowHolds, ScenarioHolds;
    assert RowHolds(db, a);
    assert ScenarioHolds(db, RowScenario(db, a));
  }

  ghost function RowScenario(db: Db, a: Id): (s: Id)
    requires DbHolds(db) && a in db.actions
    ensures s == db.actions[a].scenarioId && s in db.scenarios
  {
    assert RowHolds(db, a);
    db.actions[a].scenarioId
  }

  // A fresh plan starts from the portfolio as it stands, with nothing stored.
  lemma {:induction false} PlannedRowHolds(row: Action, plan: Plan, p: L.Portfolio, next: Action)
    requires ActionHolds(row) && row.plan.None? && row.status.Accepted? && L.Valid(p)
    requires next == row.(status := InProgress, plan := Some(plan), before := Some(p))
    ensures ActionHolds(next) && L.Replay(p, next.receipts) == Ok(p)
  {
    hide L.Valid;
    assert StoredIs(next, 0);
  }

  lemma {:induction false} NextFirstDelivery(rs: seq<L.Receipt>, stored: seq<L.Receipt>, i: nat, k: nat)
    requires i < |rs| && k <= |rs| && stored == Once(rs[..k]) && Once(rs[..i]) <= stored
    ensures rs[i] in stored ==> Once(rs[..i + 1]) <= stored
    ensures rs[i] !in stored ==> stored == Once(rs[..i]) && Once(rs[..i + 1]) == stored + [rs[i]]
  {
    assert rs[..i + 1][..i] == rs[..i];
    assert rs[..i + 1][i] == rs[i];
    if k <= i {
      OncePrefix(rs, k, i);
    } else {
      assert rs[..k][i] == rs[i];
      OnceMembers(rs[..k]);
      OncePrefix(rs, i + 1, k);
    }
  }

  // Applying plan receipt i when the first i are stored: either it is stored already, or exactly
  // the first i are, and it becomes the next.
  lemma {:induction false} NextReceipt(row: Action, i: nat, r: L.Receipt)
    requires ActionHolds(row) && row.plan.Some? && i < |row.plan.value.receipts| && r == row.plan.value.receipts[i]
    requires Once(row.plan.value.receipts[..i]) <= row.receipts
    ensures r in row.receipts ==> Once(row.plan.value.receipts[..i + 1]) <= row.receipts
    ensures r !in row.receipts ==> row.receipts == Once(row.plan.value.receipts[..i])
                                   && Once(row.plan.value.receipts[..i + 1]) == row.receipts + [r]
  {
    hide L.Replay, Once;
    var k: nat :| StoredIs(row, k);
    NextFirstDelivery(row.plan.value.receipts, row.receipts, i, k);
  }

  lemma {:induction false} AppendedRowHolds(row: Action, i: nat, r: L.Receipt, p: L.Portfolio, next: L.Portfolio)
    requires ActionHolds(row) && row.plan.Some? && i < |row.plan.value.receipts| && r == row.plan.value.receipts[i]
    requires !row.status.Terminal() && Once(row.plan.value.receipts[..i + 1]) == row.receipts + [r]
    requires L.Replay(row.before.value, row.receipts) == Ok(p) && L.ApplyReceipt(p, r) == Ok(next)
    ensures ActionHolds(row.(receipts := row.receipts + [r]))
    ensures L.Replay(row.before.value, row.receipts + [r]) == Ok(next)
  {
    hide L.ApplyReceipt, L.Valid;
    assert StoredIs(row.(receipts := row.receipts + [r]), i + 1);
    assert (row.receipts + [r])[..|row.receipts|] == row.receipts;
  }

  // A worker at position i of the plan, however late it is.
  lemma {:induction false} ApplyKeeps(db: Db, a: Id, i: nat, db': Db)
    requires DbHolds(db) && a in db.actions && db.actions[a].plan.Some? && i < |db.actions[a].plan.value.receipts|
    requires Once(db.actions[a].plan.value.receipts[..i]) <= db.actions[a].receipts
    requires ApplyActionReceipt(db, a, db.actions[a].plan.value.receipts[i]) == Ok(db')
    ensures DbHolds(db') && DbExtends(db, db') && db'.actions[a].plan == db.actions[a].plan
    ensures Once(db.actions[a].plan.value.receipts[..i + 1]) <= db'.actions[a].receipts
  {
    hide L.Valid, L.Replay, Once, DbHolds, ActionHolds, L.ApplyReceipt;
    HoldsAt(db, a);
    var row, r := db.actions[a], db.actions[a].plan.value.receipts[i];
    var s := row.scenarioId;
    NextReceipt(row, i, r);
    if FindReceipt(row.receipts, r.operationId).None? {
      var next := L.ApplyReceipt(db.scenarios[s].portfolio, r).value;
      AcceptedIsValid(db.scenarios[s].portfolio, r, next);
      AppendedRowHolds(row, i, r, db.scenarios[s].portfolio, next);
      KeysMatch(db);
      OtherRowsKeep(db, db', a);
    }
  }

  lemma {:induction false} AcceptedIsValid(p: L.Portfolio, r: L.Receipt, q: L.Portfolio)
    requires L.ApplyReceipt(p, r) == Ok(q)
    ensures L.Valid(q)
  {
    hide L.Valid, L.Effect;
  }

  predicate MayComplete(row: Action, status: ActionStatus) {
    match status
    case Succeeded => row.plan.Some? && row.receipts == Once(row.plan.value.receipts)
    case PartiallySucceeded => row.receipts != []
    case Failed => true
    case Expired => true
    case _ => false
  }

  lemma {:induction false} CompletedRowHolds(row: Action, status: ActionStatus, p: L.Portfolio)
    requires ActionHolds(row) && !row.status.Terminal() && MayComplete(row, status)
    requires row.plan.Some? ==> L.Replay(row.before.value, row.receipts) == Ok(p)
    ensures ActionHolds(row.(status := status, after := Some(p)))
  {
    hide L.Replay, Once;
    var next := row.(status := status, after := Some(p));
    if row.plan.Some? {
      var k: nat :| StoredIs(row, k);
      assert StoredIs(next, k);
    }
  }

  lemma {:induction false} CompleteKeeps(db: Db, a: Id, status: ActionStatus, job: Job)
    requires DbHolds(db) && a in db.actions && MayComplete(db.actions[a], status)
    requires job.state.Finished() && 0 <= job.attempt <= job.maxAttempts
    requires !db.actions[a].status.Terminal()
    ensures var done := CompleteAction(db, a, status);
            && a in done.jobs && a in done.actions && DbHolds(done.(jobs := done.jobs[a := job]))
            && DbExtends(db, done.(jobs := done.jobs[a := job]))
  {
    hide L.Valid, L.Replay, Once, DbHolds, ActionHolds;
    HoldsAt(db, a);
    var s := db.actions[a].scenarioId;
    var done := CompleteAction(db, a, status);
    CompletedRowHolds(db.actions[a], status, db.scenarios[s].portfolio);
    KeysMatch(db);
    OtherRowsKeep(db, done.(jobs := done.jobs[a := job]), a);
  }

  lemma KeysMatch(db: Db)
    requires DbHolds(db)
    ensures db.jobs.Keys == db.actions.Keys
  {
  }

  lemma {:induction false} CompleteActionKeeps(db: Db, a: Id, status: ActionStatus)
    requires DbHolds(db) && a in db.actions
    requires !db.actions[a].status.Terminal() ==> MayComplete(db.actions[a], status)
    ensures DbHolds(CompleteAction(db, a, status)) && DbExtends(db, CompleteAction(db, a, status))
    ensures a in CompleteAction(db, a, status).actions
  {
    hide L.Valid, L.Replay, Once, DbHolds, MayComplete;
    HoldsAt(db, a);
    if !db.actions[a].status.Terminal() {
      var done := CompleteAction(db, a, status);
      CompleteKeeps(db, a, status, done.jobs[a]);
      assert done.jobs[a := done.jobs[a]] == done.jobs;
    }
  }

  // Only the job's state moves, and not to an end.
  lemma {:induction false} WaitingKeeps(db: Db, a: Id)
    requires DbHolds(db) && a in db.actions && a in db.jobs && !db.jobs[a].state.Finished()
    ensures var next := db.(jobs := db.jobs[a := db.jobs[a].(state := JobRetry)]);
            DbHolds(next) && DbExtends(db, next)
  {
    hide L.Valid, L.Replay, Once, DbHolds, ActionHolds;
    HoldsAt(db, a);
    KeysMatch(db);
    OtherRowsKeep(db, db.(jobs := db.jobs[a := db.jobs[a].(state := JobRetry)]), a);
  }

  lemma {:induction false} RetryKeeps(db: Db, a: Id)
    requires DbHolds(db) && a in db.actions
    ensures DbHolds(RetryJob(db, a)) && DbExtends(db, RetryJob(db, a))
  {
    hide L.Valid, L.Replay, Once, DbHolds, ActionHolds, MayComplete, DbExtends;
    NothingMoved(db);
    HoldsAt(db, a);
    KeysMatch(db);
    var job := db.jobs[a];
    if !job.state.Finished() {
      if job.attempt < job.maxAttempts {
        WaitingKeeps(db, a);
      } else {
        var status := if db.actions[a].receipts != [] then PartiallySucceeded else Failed;
        assert MayComplete(db.actions[a], status) by { MayEnd(db.actions[a]); }
        CompleteKeeps(db, a, status, job.(state := JobFailed));
        var marked := db.(jobs := db.jobs[a := job.(state := JobFailed)]);
        var done := CompleteAction(db, a, status);
        var remarked := CompleteAction(marked, a, status);
        assert remarked.jobs[a := job.(state := JobFailed)] == done.jobs[a := job.(state := JobFailed)];
      }
    }
  }

  lemma MayEnd(row: Action)
    ensures MayComplete(row, if row.receipts != [] then PartiallySucceeded else Failed)
  {
  }

  /******* Workers *******/

  lemma {:induction false} WorkerStepKeeps(db: Db, pc: Pc, c: Choice)
    requires DbHolds(db) && PcHolds(db, pc)
    ensures var (db', pc') := WorkerStep(db, pc, c);
            DbHolds(db') && DbExtends(db, db') && PcHolds(db', pc')
  {
    hide DbHolds, RetryJob, CompleteAction, SavePlan, ApplyActionReceipt, DbExtends, MayComplete, Once;
    NothingMoved(db);
    match pc
    case Idle =>
    case Claimed(a, exhausted) => RetryKeeps(db, a);
    case Expiring(a) =>
      assert MayComplete(db.actions[a], Expired) by { AlwaysMayComplete(db.actions[a]); }
      CompleteActionKeeps(db, a, Expired);
    case LoadingPlan(a) => EmptyPrefix(db.actions[a]);
    case Planning(a) =>
    case SavingPlan(a, plan) =>
      if SavePlan(db, a, plan).Ok? {
        SavePlanKeeps(db, a, plan, SavePlan(db, a, plan).value);
      }
    case Reloading(a) => EmptyPrefix(db.actions[a]);
    case Applying(a, receipts, i) =>
      if i < |receipts| {
        var applied := ApplyActionReceipt(db, a, receipts[i]);
        if applied.Ok? {
          ApplyKeeps(db, a, i, applied.value);
          Survives(db, applied.value, a);
        }
      } else {
        assert receipts[..i] == receipts;
        assert MayComplete(db.actions[a], Succeeded) by { AllStored(db, a); }
        CompleteActionKeeps(db, a, Succeeded);
      }
    case Counting(a) =>
    case Ending(a, applied) =>
      assert MayComplete(db.actions[a], if applied then PartiallySucceeded else Failed) by {
        MayEndAs(db.actions[a], applied);
      }
      CompleteActionKeeps(db, a, if applied then PartiallySucceeded else Failed);
    case Retrying(a) => RetryKeeps(db, a);
  }

  lemma NothingMoved(db: Db)
    ensures DbExtends(db, db)
  {
  }

  lemma Survives(db: Db, db': Db, a: Id)
    requires DbExtends(db, db') && a in db.actions
    ensures a in db'.actions
  {
  }

  lemma AlwaysMayComplete(row: Action)
    ensures MayComplete(row, Failed) && MayComplete(row, Expired)
  {
  }

  lemma MayEndAs(row: Action, applied: bool)
    requires applied ==> row.receipts != []
    ensures MayComplete(row, if applied then PartiallySucceeded else Failed)
  {
  }

  lemma EmptyPrefix(row: Action)
    ensures row.plan.Some? ==> Once(row.plan.value.receipts[..0]) <= row.receipts
  {
  }

  // When the whole plan has been gone through, exactly the whole plan is stored.
  lemma {:induction false} AllStored(db: Db, a: Id)
    requires DbHolds(db) && a in db.actions && db.actions[a].plan.Some?
    requires Once(db.actions[a].plan.value.receipts) <= db.actions[a].receipts
    ensures MayComplete(db.actions[a], Succeeded)
  {
    hide L.Valid, L.Replay;
    HoldsAt(db, a);
    var rs := db.actions[a].plan.value.receipts;
    var k: nat :| StoredIs(db.actions[a], k);
    OncePrefix(rs, k, |rs|);
    assert rs[..|rs|] == rs;
  }

  lemma {:induction false} StepKeeps(sys: System, step: Step)
    requires Inv(sys)
    ensures Inv(After(sys, step)) && DbExtends(sys.db, After(sys, step).db)
  {
    hide DbHolds, DbExtends, AcceptAction, ClaimJob, WorkerStep, StopExperiment, L.ApplyReceipt, PcHolds;
    NothingMoved(sys.db);
    var sys' := After(sys, step);
    match step {
      case Accept(e, a, maxAttempts, admitted) =>
        if AcceptAction(sys.db, e, a, maxAttempts, admitted).Ok? {
          AcceptKeeps(sys.db, e, a, maxAttempts, admitted);
        }
      case ClaimStep(w, a) =>
        if PcOf(sys, w).Idle? && ClaimJob(sys.db, a).Ok? {
          ClaimKeeps(sys.db, a, sys'.db, ClaimJob(sys.db, a).value.1);
          ClaimedHolds(sys'.db, sys'.workers[w]);
        }
      case Advance(w, c) =>
        IdleHolds(sys.db);
        WorkerStepKeeps(sys.db, PcOf(sys, w), c);
      case Interrupt(w) =>
        if !PcOf(sys, w).Idle? {
          InterruptHolds(sys.db, PcOf(sys, w));
        }
      case Crash(w) => IdleHolds(sys.db);
      case Stop(reason, now) =>
        if StopExperiment(sys.db, reason, now).Ok? {
          StopKeeps(sys.db, reason, now);
        }
      case OtherWriter(s, r) => OtherWriterKeeps(sys, s, r);
    }
    forall v | v in sys'.workers
      ensures PcHolds(sys'.db, sys'.workers[v])
    {
      if v in sys.workers && sys'.workers[v] == sys.workers[v] {
        PcSurvives(sys.db, sys'.db, sys.workers[v]);
      }
    }
  }

  lemma IdleHolds(db: Db)
    ensures PcHolds(db, Idle)
  {
  }

  lemma ClaimedHolds(db: Db, pc: Pc)
    requires pc.Claimed? && pc.actionId in db.actions
    ensures PcHolds(db, pc)
  {
  }

  lemma InterruptHolds(db: Db, pc: Pc)
    requires PcHolds(db, pc) && !pc.Idle?
    ensures PcHolds(db, Retrying(pc.actionId))
  {
  }

  lemma {:induction false} StopKeeps(db: Db, reason: Text, now: Timestamp)
    requires DbHolds(db) && StopExperiment(db, reason, now).Ok?
    ensures var db' := StopExperiment(db, reason, now).value.0;
            DbHolds(db') && DbExtends(db, db')
  {
    hide L.Valid, L.Replay, ActionHolds, BoundedReason;
    var db' := StopExperiment(db, reason, now).value.0;
    forall id | id in db'.actions
      ensures RowHolds(db', id)
    {
      assert RowHolds(db, id);
    }
    forall x | x in db'.scenarios
      ensures ScenarioHolds(db', x)
    {
      assert ScenarioHolds(db, x);
    }
  }

  lemma {:induction false} OtherWriterKeeps(sys: System, s: Id, r: L.Receipt)
    requires DbHolds(sys.db)
    ensures DbHolds(After(sys, OtherWriter(s, r)).db) && DbExtends(sys.db, After(sys, OtherWriter(s, r)).db)
  {
    hide L.Valid, L.Replay, ActionHolds, L.ApplyReceipt;
    var db, db' := sys.db, After(sys, OtherWriter(s, r)).db;
    if s in db.scenarios && db.scenarios[s].active.None? && L.ApplyReceipt(db.scenarios[s].portfolio, r).Ok? {
      AcceptedIsValid(db.scenarios[s].portfolio, r, db'.scenarios[s].portfolio);
      forall id | id in db'.actions
        ensures RowHolds(db', id)
      {
        assert RowHolds(db, id);
      }
      forall x | x in db'.scenarios
        ensures ScenarioHolds(db', x)
      {
        assert ScenarioHolds(db, x);
      }
    }
  }

  /******* Whole runs *******/

  // No action yet, no stop, no worker at work, every portfolio sound.
  ghost predicate Fresh(sys: System) {
    && sys.db.actions == map[] && sys.db.keys == map[] && sys.db.jobs == map[] && sys.workers == map[]
    && sys.db.stop.None?
    && forall s | s in sys.db.scenarios :: L.Valid(sys.db.scenarios[s].portfolio) && sys.db.scenarios[s].active.None?
  }

  lemma {:induction false} RunKeeps(sys: System, steps: seq<Step>)
    requires Fresh(sys)
    ensures Inv(Run(sys, steps))
  {
    hide After;
    if steps != [] {
      RunKeeps(sys, steps[..|steps| - 1]);
      StepKeeps(Run(sys, steps[..|steps| - 1]), steps[|steps| - 1]);
    }
  }

  // Under every interleaving of workers, crashes and expired leases: the stored receipts are the
  // first deliveries of a prefix of the one durable plan, the portfolio (or, once terminal, the
  // recorded after-portfolio) is their fold over the recorded before-portfolio, success means the
  // whole plan and partial success a non-empty part of it.
  lemma {:induction false} StoredReceiptsAreAPlanPrefix(sys: System, steps: seq<Step>, id: Id)
    requires Fresh(sys) && id in Run(sys, steps).db.actions
    ensures var db := Run(sys, steps).db;
            var a := db.actions[id];
            && a.scenarioId in db.scenarios && id in db.jobs
            && (a.plan.None? ==> a.receipts == [])
            && (a.plan.Some? ==>
                  && a.before.Some?
                  && (exists k: nat | k <= |a.plan.value.receipts| :: a.receipts == Once(a.plan.value.receipts[..k]))
                  && L.Replay(a.before.value, a.receipts)
                     == Ok(if a.status.Terminal() && a.after.Some? then a.after.value
                           else db.scenarios[a.scenarioId].portfolio))
            && (a.status.Succeeded? ==> a.plan.Some? && a.receipts == Once(a.plan.value.receipts))
            && (a.status.PartiallySucceeded? ==> a.receipts != [])
            && (db.jobs[id].state.Finished() <==> a.status.Terminal())
  {
    hide Run, L.Replay, Once;
    RunKeeps(sys, steps);
    var db := Run(sys, steps).db;
    HoldsAt(db, id);
    var a := db.actions[id];
    if a.plan.Some? {
      var k: nat :| StoredIs(a, k);
      assert a.receipts == Once(a.plan.value.receipts[..k]);
    }
  }

  // The active action of a scenario is exactly its one action that is not terminal.
  lemma {:induction false} ActiveIsTheOneOpenAction(sys: System, steps: seq<Step>, s: Id, id: Id)
    requires Fresh(sys) && s in Run(sys, steps).db.scenarios
    ensures var db := Run(sys, steps).db;
            db.scenarios[s].active == Some(id)
            <==> id in db.actions && db.actions[id].scenarioId == s && !db.actions[id].status.Terminal()
  {
    hide Run, L.Replay, L.Valid, ActionHolds;
    RunKeeps(sys, steps);
    var db := Run(sys, steps).db;
    assert ScenarioHolds(db, s);
    if id in db.actions {
      assert RowHolds(db, id);
    }
  }

  // A plan whose operation ids are distinct is stored verbatim: a prefix of it, and all of it on success.
  lemma {:induction false} DistinctPlanIsStoredVerbatim(sys: System, steps: seq<Step>, id: Id)
    requires Fresh(sys) && id in Run(sys, steps).db.actions && Run(sys, steps).db.actions[id].plan.Some?
    requires var rs := Run(sys, steps).db.actions[id].plan.value.receipts;
             forall i, j | 0 <= i < j < |rs| :: rs[i].operationId != rs[j].operationId
    ensures var a := Run(sys, steps).db.actions[id];
            && a.receipts <= a.plan.value.receipts
            && (a.status.Succeeded? ==> a.receipts == a.plan.value.receipts)
  {
    hide Run, L.Replay, Once;
    StoredReceiptsAreAPlanPrefix(sys, steps, id);
    var a := Run(sys, steps).db.actions[id];
    var rs := a.plan.value.receipts;
    var k: nat :| k <= |rs| && a.receipts == Once(rs[..k]);
    OnceOfDistinct(rs[..k]);
    OnceOfDistinct(rs);
  }

  lemma ExtendsTransitive(db: Db, db': Db, db'': Db)
    requires DbExtends(db, db') && DbExtends(db', db'')
    ensures DbExtends(db, db'')
  {
  }

  // In every continuation a terminal action keeps its row: status, receipts and after-portfolio.
  lemma {:induction false} TerminalActionsAreFrozen(sys: System, steps: seq<Step>)
    requires Inv(sys)
    ensures Inv(Run(sys, steps)) && DbExtends(sys.db, Run(sys, steps).db)
    ensures forall id | id in sys.db.actions && sys.db.actions[id].status.Terminal() ::
              id in Run(sys, steps).db.actions && Run(sys, steps).db.actions[id] == sys.db.actions[id]
  {
    hide After, Inv;
    if steps == [] {
      NothingMoved(sys.db);
    } else {
      var n := |steps| - 1;
      TerminalActionsAreFrozen(sys, steps[..n]);
      var before := Run(sys, steps[..n]);
      StepKeeps(before, steps[n]);
      ExtendsTransitive(sys.db, before.db, Run(sys, steps).db);
    }
  }

  /******* After a stop *******/

  predicate AllIdle(db: Db) {
    !db.started && forall s | s in db.scenarios :: db.scenarios[s].active.None?
  }

  // Once stopped, no scenario is active again and no worker ever changes a portfolio.
  lemma {:induction false} StoppedStep(sys: System, step: Step)
    requires Inv(sys) && AllIdle(sys.db)
    ensures AllIdle(After(sys, step).db)
    ensures !step.OtherWriter? ==> After(sys, step).db.scenarios == sys.db.scenarios
    ensures After(sys, step).db.actions == sys.db.actions
  {
    hide L.ApplyReceipt, DbHolds, PcHolds, WorkerStep, AcceptAction;
    StoppedRows(sys.db);
    IdleHolds(sys.db);
    match step
    case Advance(w, c) => StoppedWorker(sys.db, PcOf(sys, w), c);
    case Accept(e, a, maxAttempts, admitted) =>
      if AcceptAction(sys.db, e, a, maxAttempts, admitted).Ok? {
        AcceptShape(sys.db, e, a, maxAttempts, admitted);
      }
    case _ =>
  }

  lemma {:induction false} StoppedRows(db: Db)
    requires DbHolds(db) && AllIdle(db)
    ensures forall id | id in db.actions ::
              db.actions[id].status.Terminal() && id in db.jobs && db.jobs[id].state.Finished()
  {
    hide L.Replay, L.Valid, ActionHolds;
    assert forall id | id in db.actions :: RowHolds(db, id);
  }

  lemma {:induction false} StoppedWorker(db: Db, pc: Pc, c: Choice)
    requires forall id | id in db.actions :: db.actions[id].status.Terminal()
    requires forall id | id in db.actions :: id in db.jobs && db.jobs[id].state.Finished()
    requires PcHolds(db, pc)
    ensures WorkerStep(db, pc, c).0 == db
  {
    hide L.ApplyReceipt, L.Replay, Once;
  }

  lemma {:induction false} StopIsFinal(sys: System, steps: seq<Step>)
    requires Inv(sys) && AllIdle(sys.db)
    ensures AllIdle(Run(sys, steps).db) && Run(sys, steps).db.actions == sys.db.actions
    ensures (forall i | 0 <= i < |steps| :: !steps[i].OtherWriter?) ==> Run(sys, steps).db.scenarios == sys.db.scenarios
  {
    hide After, Inv, AllIdle;
    if steps != [] {
      var n := |steps| - 1;
      StopIsFinal(sys, steps[..n]);
      TerminalActionsAreFrozen(sys, steps[..n]);
      StoppedStep(Run(sys, steps[..n]), steps[n]);
    }
  }

  lemma {:induction false} StopMakesIdle(sys: System, reason: Text, now: Timestamp)
    requires Inv(sys) && StopExperiment(sys.db, reason, now).Ok?
    ensures AllIdle(After(sys, Stop(reason, now)).db)
  {
    hide RowHolds, L.Valid, PcHolds, BoundedReason;
  }

  // The first stop records the portfolios as they stand, and the action path leaves them so ever after.
  lemma {:induction false} StopRecordsFinalPortfolios(sys: System, steps: seq<Step>, reason: Text, now: Timestamp,
      more: seq<Step>)
    requires Fresh(sys) && Run(sys, steps).db.stop.None? && StopExperiment(Run(sys, steps).db, reason, now).Ok?
    requires forall i | 0 <= i < |more| :: !more[i].OtherWriter?
    ensures var stopped := After(Run(sys, steps), Stop(reason, now));
            StopExperiment(Run(sys, steps).db, reason, now).value.1
            == StopRow(reason, now, PortfoliosOf(Run(stopped, more).db))
  {
    hide Run, Inv, AllIdle, BoundedReason;
    RunKeeps(sys, steps);
    StopMakesIdle(Run(sys, steps), reason, now);
    StepKeeps(Run(sys, steps), Stop(reason, now));
    StopIsFinal(After(Run(sys, steps), Stop(reason, now)), more);
  }

  // Once a stop has been answered, in every later state the same reason is answered with the same row and changes
  // nothing, and any other reason is refused.
  lemma {:induction false} RepeatedStopIsAnswered(sys: System, steps: seq<Step>, reason: Text, now: Timestamp,
      more: seq<Step>, again: Text, later: Timestamp)
    requires Fresh(sys) && StopExperiment(Run(sys, steps).db, reason, now).Ok?
    ensures var row := StopExperiment(Run(sys, steps).db, reason, now).value.1;
            var db := Run(After(Run(sys, steps), Stop(reason, now)), more).db;
            && row.reason == reason && db.stop == Some(row)
            && StopExperiment(db, again, later) ==
               if again == reason then Ok((db, row))
               else if BoundedReason(again) then Err(IdempotencyConflict) else Err(SchemaRejected)
  {
    hide Run, DbHolds, PcHolds, BoundedReason;
    RunKeeps(sys, steps);
    StepKeeps(Run(sys, steps), Stop(reason, now));
    TerminalActionsAreFrozen(After(Run(sys, steps), Stop(reason, now)), more);
  }

  /******* What a worker never touches *******/

  // The same actions under the same requests and keys, and the same attempt counters.
  predicate Steady(db: Db, db': Db) {
    && db'.keys == db.keys && db'.actions.Keys == db.actions.Keys && db'.jobs.Keys == db.jobs.Keys
    && (forall id | id in db.actions :: db'.actions[id].request == db.actions[id].request)
    && (forall id | id in db.jobs ::
          db'.jobs[id].attempt == db.jobs[id].attempt && db'.jobs[id].maxAttempts == db.jobs[id].maxAttempts)
  }

  lemma CompleteIsSteady(db: Db, a: Id, status: ActionStatus)
    ensures Steady(db, CompleteAction(db, a, status))
  {
  }

  lemma {:induction false} RetryIsSteady(db: Db, a: Id)
    ensures Steady(db, RetryJob(db, a))
  {
    hide CompleteAction;
    if a in db.jobs && !db.jobs[a].state.Finished() && db.jobs[a].attempt >= db.jobs[a].maxAttempts {
      var marked := db.(jobs := db.jobs[a := db.jobs[a].(state := JobFailed)]);
      CompleteIsSteady(marked, a,
                       if a in db.actions && db.actions[a].receipts != [] then PartiallySucceeded else Failed);
    }
  }

  lemma SaveIsSteady(db: Db, a: Id, plan: Plan)
    requires SavePlan(db, a, plan).Ok?
    ensures Steady(db, SavePlan(db, a, plan).value)
  {
  }

  lemma {:induction false} ApplyIsSteady(db: Db, a: Id, r: L.Receipt)
    requires ApplyActionReceipt(db, a, r).Ok?
    ensures Steady(db, ApplyActionReceipt(db, a, r).value)
  {
    hide L.ApplyReceipt;
  }

  lemma {:induction false} WorkerIsSteady(db: Db, pc: Pc, c: Choice)
    ensures Steady(db, WorkerStep(db, pc, c).0)
  {
    hide CompleteAction, RetryJob, SavePlan, ApplyActionReceipt, Steady;
    assert Steady(db, db) by { SteadyStill(db); }
    match pc {
      case Claimed(a, _) => RetryIsSteady(db, a);
      case Expiring(a) => CompleteIsSteady(db, a, Expired);
      case SavingPlan(a, plan) =>
        if SavePlan(db, a, plan).Ok? {
          SaveIsSteady(db, a, plan);
        }
      case Applying(a, receipts, i) =>
        CompleteIsSteady(db, a, Succeeded);
        if i < |receipts| && ApplyActionReceipt(db, a, receipts[i]).Ok? {
          ApplyIsSteady(db, a, receipts[i]);
        }
      case Ending(a, applied) => CompleteIsSteady(db, a, if applied then PartiallySucceeded else Failed);
      case Retrying(a) => RetryIsSteady(db, a);
      case _ =>
    }
  }

  lemma SteadyStill(db: Db)
    ensures Steady(db, db)
  {
  }

  /******* Retried requests *******/

  // The key index holds exactly the keys of the accepted requests, each with its action.
  predicate KeysHold(db: Db) {
    && (forall k | k in db.keys :: db.keys[k] in db.actions && db.actions[db.keys[k]].request.idempotencyKey == k)
    && (forall id | id in db.actions ::
          var k := db.actions[id].request.idempotencyKey;
          k in db.keys && db.keys[k] == id)
  }

  lemma SteadyKeepsKeys(db: Db, db': Db)
    requires KeysHold(db) && Steady(db, db')
    ensures KeysHold(db')
  {
  }

  lemma {:induction false} StepKeepsKeys(sys: System, step: Step)
    requires KeysHold(sys.db)
    ensures KeysHold(After(sys, step).db)
  {
    hide WorkerStep, L.ApplyReceipt, AcceptAction;
    match step
    case Accept(e, a, maxAttempts, admitted) =>
      if AcceptAction(sys.db, e, a, maxAttempts, admitted).Ok? {
        AcceptShape(sys.db, e, a, maxAttempts, admitted);
      }
    case Advance(w, c) =>
      WorkerIsSteady(sys.db, PcOf(sys, w), c);
      SteadyKeepsKeys(sys.db, After(sys, step).db);
    case _ =>
  }

  lemma {:induction false} RunKeepsKeys(sys: System, steps: seq<Step>)
    requires Fresh(sys)
    ensures KeysHold(Run(sys, steps).db)
  {
    hide After;
    if steps != [] {
      RunKeepsKeys(sys, steps[..|steps| - 1]);
      StepKeepsKeys(Run(sys, steps[..|steps| - 1]), steps[|steps| - 1]);
    }
  }

  // Once a request has been accepted, in every later state the same request is answered with the same action and
  // changes nothing, even after a stop, and other content under its key is refused.
  lemma {:induction false} RepeatedRequestIsAnswered(sys: System, steps: seq<Step>, e: Envelope, a: Id,
      maxAttempts: int, admitted: bool, more: seq<Step>, again: Envelope, a': Id, maxAttempts': int, admitted': bool)
    requires Fresh(sys) && AcceptAction(Run(sys, steps).db, e, a, maxAttempts, admitted).Ok?
    requires again.idempotencyKey == e.idempotencyKey
    ensures var first := AcceptAction(Run(sys, steps).db, e, a, maxAttempts, admitted).value;
            var later := Run(After(Run(sys, steps), Accept(e, a, maxAttempts, admitted)), more).db;
            AcceptAction(later, again, a', maxAttempts', admitted') ==
              if again == e then Ok((later, first.1)) else Err(IdempotencyConflict)
  {
    hide Run, DbHolds, L.ApplyReceipt;
    RunKeeps(sys, steps);
    RunKeepsKeys(sys, steps);
    var before := Run(sys, steps);
    var accept := Accept(e, a, maxAttempts, admitted);
    StepKeeps(before, accept);
    StepKeepsKeys(before, accept);
    TerminalActionsAreFrozen(After(before, accept), more);
  }

  // One action per key.
  lemma {:induction false} OneActionPerKey(sys: System, steps: seq<Step>, a: Id, b: Id)
    requires Fresh(sys) && a in Run(sys, steps).db.actions && b in Run(sys, steps).db.actions
    requires var actions := Run(sys, steps).db.actions;
             actions[a].request.idempotencyKey == actions[b].request.idempotencyKey
    ensures a == b
  {
    hide Run;
    RunKeepsKeys(sys, steps);
  }

  /******* How often an action is claimed *******/

  ghost predicate ClaimsWork(sys: System, step: Step, id: Id) {
    && step.ClaimStep? && step.actionId == id && PcOf(sys, step.worker).Idle?
    && ClaimJob(sys.db, id).Ok? && !ClaimJob(sys.db, id).value.1.exhausted
  }

  // The claims of one action that were handed a job not yet exhausted.
  ghost function WorkingClaims(sys: System, steps: seq<Step>, id: Id): nat {
    if steps == [] then 0
    else
      var n := |steps| - 1;
      WorkingClaims(sys, steps[..n], id) + (if ClaimsWork(Run(sys, steps[..n]), steps[n], id) then 1 else 0)
  }

  lemma {:induction false} AttemptCounts(sys: System, step: Step, id: Id)
    requires Inv(sys)
    ensures id in sys.db.jobs ==>
              && id in After(sys, step).db.jobs
              && After(sys, step).db.jobs[id].maxAttempts == sys.db.jobs[id].maxAttempts
              && After(sys, step).db.jobs[id].attempt
                 == sys.db.jobs[id].attempt + (if ClaimsWork(sys, step, id) then 1 else 0)
    ensures id !in sys.db.jobs ==>
              && !ClaimsWork(sys, step, id)
              && (id in After(sys, step).db.jobs ==> After(sys, step).db.jobs[id].attempt == 0)
  {
    hide L.ApplyReceipt, L.Replay, L.Valid, Once, ActionHolds;
    if step.Advance? {
      WorkerKeepsAttempts(sys.db, PcOf(sys, step.worker), step.choice, id);
    }
    if id in sys.db.jobs {
      assert RowHolds(sys.db, id);
    }
  }

  lemma {:induction false} WorkerKeepsAttempts(db: Db, pc: Pc, c: Choice, id: Id)
    ensures var db' := WorkerStep(db, pc, c).0;
            && db'.jobs.Keys == db.jobs.Keys
            && (id in db.jobs ==> db'.jobs[id].attempt == db.jobs[id].attempt
                                  && db'.jobs[id].maxAttempts == db.jobs[id].maxAttempts)
  {
    hide WorkerStep;
    WorkerIsSteady(db, pc, c);
  }

  // The attempt counter is the number of working claims, so there are never more than the bound.
  lemma {:induction false} ClaimsAreBounded(sys: System, steps: seq<Step>, id: Id)
    requires Fresh(sys)
    ensures var db := Run(sys, steps).db;
            if id in db.jobs then WorkingClaims(sys, steps, id) == db.jobs[id].attempt <= db.jobs[id].maxAttempts
            else WorkingClaims(sys, steps, id) == 0
  {
    hide After, ClaimsWork, Inv;
    if steps != [] {
      var n := |steps| - 1;
      ClaimsAreBounded(sys, steps[..n], id);
      RunKeeps(sys, steps[..n]);
      AttemptCounts(Run(sys, steps[..n]), steps[n], id);
      RunKeeps(sys, steps);
      if id in Run(sys, steps).db.jobs {
        AttemptWithinBound(Run(sys, steps), id);
      }
    }
  }

  lemma {:induction false} AttemptWithinBound(sys: System, id: Id)
    requires Inv(sys) && id in sys.db.jobs
    ensures sys.db.jobs[id].attempt <= sys.db.jobs[id].maxAttempts
  {
    hide ActionHolds, PcHolds, L.Replay;
    assert RowHolds(sys.db, id);
  }
}
