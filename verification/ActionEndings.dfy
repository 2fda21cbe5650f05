// How a run of the worker ends: alone, from wherever an earlier run stopped, and while another worker still holds the
// job.
module ActionEndings {
  import opened Prelude
  import opened ActionStore
  import opened ActionProtocol
  import L = Ledger
  import R = Redelivery
  import Refusals

  // What a run of the worker reports.
  datatype Outcome = NothingDue | Exhausted | EndedExpired | EndedSucceeded | EndedPartially | EndedFailed | WillRetry

  // The report of a worker that comes to rest from pc.
  function Report(pc: Pc): Outcome {
    match pc
    case Idle => NothingDue
    case Claimed(_, _) => Exhausted
    case Expiring(_) => EndedExpired
    case Applying(_, _, _) => EndedSucceeded
    case Ending(_, applied) => if applied then EndedPartially else EndedFailed
    case _ => WillRetry
  }

  function PlanSize(plan: Option<Plan>): nat { if plan.Some? then |plan.value.receipts| else 0 }

  function StoredPlan(db: Db, a: Id): Option<Plan> { if a in db.actions then db.actions[a].plan else None }

  // More steps than a worker at pc can take before it rests.
  function Left(db: Db, pc: Pc, c: Choice): nat {
    match pc
    case Idle => 0
    case Expiring(_) => 1
    case Ending(_, _) => 1
    case Retrying(_) => 1
    case Counting(_) => 2
    case Applying(_, receipts, i) => 3 + (if i < |receipts| then |receipts| - i else 0)
    case Reloading(a) => 4 + PlanSize(StoredPlan(db, a))
    case SavingPlan(_, plan) => 5 + |plan.receipts|
    case Planning(_) => 6 + PlanSize(c.plan)
    case LoadingPlan(a) => 7 + PlanSize(c.plan) + PlanSize(StoredPlan(db, a))
    case Claimed(a, _) => 8 + PlanSize(c.plan) + PlanSize(StoredPlan(db, a))
  }

  lemma {:induction false} StepsRunOut(db: Db, pc: Pc, c: Choice)
    requires !pc.Idle?
    ensures var (next, at) := WorkerStep(db, pc, c);
            Left(next, at, c) < Left(db, pc, c)
  {
    hide RetryJob, CompleteAction, L.ApplyReceipt;
  }

  // The tables a worker alone leaves when it rests, and its report.
  ghost function Rests(db: Db, pc: Pc, c: Choice): (Db, Outcome)
    decreases Left(db, pc, c)
  {
    if pc.Idle? then (db, NothingDue)
    else
      var (next, at) := WorkerStep(db, pc, c);
      StepsRunOut(db, pc, c);
      if at.Idle? then (next, Report(pc)) else Rests(next, at, c)
  }

  // n steps of one worker, nobody else moving.
  ghost function WorkerSteps(db: Db, pc: Pc, c: Choice, n: nat): (Db, Pc) {
    if n == 0 then (db, pc)
    else
      var (d, at) := WorkerSteps(db, pc, c, n - 1);
      WorkerStep(d, at, c)
  }

  lemma {:induction false} FirstStep(db: Db, pc: Pc, c: Choice, n: nat)
    ensures var (next, at) := WorkerStep(db, pc, c);
            WorkerSteps(db, pc, c, n + 1) == WorkerSteps(next, at, c, n)
  {
    hide WorkerStep;
    if n != 0 {
      FirstStep(db, pc, c, n - 1);
    }
  }

  // Rest is reached, within the number of steps the plan allows.
  lemma {:induction false} RestIsReached(db: Db, pc: Pc, c: Choice)
    ensures exists n: nat | n <= Left(db, pc, c) :: WorkerSteps(db, pc, c, n) == (Rests(db, pc, c).0, Idle)
    decreases Left(db, pc, c)
  {
    hide WorkerStep, Left;
    if pc.Idle? {
      assert WorkerSteps(db, pc, c, 0) == (Rests(db, pc, c).0, Idle);
    } else {
      var (next, at) := WorkerStep(db, pc, c);
      StepsRunOut(db, pc, c);
      RestIsReached(next, at, c);
      var n: nat :| n <= Left(next, at, c) && WorkerSteps(next, at, c, n) == (Rests(next, at, c).0, Idle);
      FirstStep(db, pc, c, n);
      assert WorkerSteps(db, pc, c, n + 1) == (Rests(db, pc, c).0, Idle);
    }
  }

  /******* What an end leaves *******/

  // An action that is still open, in sound tables.
  ghost predicate Open(db: Db, a: Id) {
    DbHolds(db) && a in db.actions && !db.actions[a].status.Terminal()
  }

  // The row ended with the given status over portfolio p, its scenario free, and nothing else touched.
  function Settled(db: Db, a: Id, row: Action, p: L.Portfolio, status: ActionStatus, state: JobState): Db
    requires a in db.jobs
  {
    db.(actions := db.actions[a := row.(status := status, after := Some(p))],
        scenarios := db.scenarios[row.scenarioId := Scenario(p, None)],
        jobs := db.jobs[a := db.jobs[a].(state := state)])
  }

  // The row kept for the next attempt; when there is none left, it is ended by what it has stored.
  function PutBack(db: Db, a: Id, row: Action, p: L.Portfolio): Db
    requires a in db.jobs
  {
    if db.jobs[a].attempt < db.jobs[a].maxAttempts then
      db.(actions := db.actions[a := row],
          scenarios := db.scenarios[row.scenarioId := Scenario(p, Some(a))],
          jobs := db.jobs[a := db.jobs[a].(state := JobRetry)])
    else Settled(db, a, row, p, if row.receipts != [] then PartiallySucceeded else Failed, JobFailed)
  }

  lemma {:induction false} OpenRow(db: Db, a: Id)
    requires Open(db, a)
    ensures var row := db.actions[a];
            && a in db.jobs && row.scenarioId in db.scenarios
            && db.scenarios[row.scenarioId].active == Some(a) && !db.jobs[a].state.Finished()
            && db.jobs[a].attempt <= db.jobs[a].maxAttempts
            && L.Valid(db.scenarios[row.scenarioId].portfolio)
            && (row.plan.None? ==> row.status.Accepted? && row.receipts == [] && row.before.None?)
            && (row.plan.Some? ==> row.status.InProgress? && row.before.Some?)
            && (row.plan.Some? ==> L.Replay(row.before.value, row.receipts)
                                   == Ok(db.scenarios[row.scenarioId].portfolio))
  {
    hide L.Valid, L.Replay, Once, DbHolds;
    HoldsAt(db, a);
  }

  lemma {:induction false} CompleteSettles(db: Db, a: Id, status: ActionStatus)
    requires Open(db, a)
    ensures a in db.jobs && db.actions[a].scenarioId in db.scenarios
    ensures CompleteAction(db, a, status)
            == Settled(db, a, db.actions[a], db.scenarios[db.actions[a].scenarioId].portfolio, status,
                       if status.Failed? then JobFailed else JobCompleted)
  {
    hide L.Valid, L.Replay, DbHolds;
    OpenRow(db, a);
  }

  lemma {:induction false} RetryPutsBack(db: Db, a: Id)
    requires Open(db, a)
    ensures a in db.jobs && db.actions[a].scenarioId in db.scenarios
    ensures RetryJob(db, a) == PutBack(db, a, db.actions[a], db.scenarios[db.actions[a].scenarioId].portfolio)
  {
    hide L.Valid, L.Replay, DbHolds;
    OpenRow(db, a);
    var row, s := db.actions[a], db.actions[a].scenarioId;
    assert db.actions[a := row] == db.actions;
    assert db.scenarios[s := Scenario(db.scenarios[s].portfolio, Some(a))] == db.scenarios;
  }

  // Entries that are written again do not matter.
  lemma {:induction false} SettledAgain(db: Db, a: Id, row: Action, p: L.Portfolio, x: Action, y: Scenario,
      status: ActionStatus, state: JobState)
    requires a in db.jobs
    ensures var d := db.(actions := db.actions[a := x], scenarios := db.scenarios[row.scenarioId := y]);
            && Settled(d, a, row, p, status, state) == Settled(db, a, row, p, status, state)
            && PutBack(d, a, row, p) == PutBack(db, a, row, p)
  {
    var s := row.scenarioId;
    WrittenTwice(db.actions, a, x, row);
    WrittenTwice(db.actions, a, x, row.(status := status, after := Some(p)));
    WrittenTwice(db.actions, a, x,
                 row.(status := if row.receipts != [] then PartiallySucceeded else Failed, after := Some(p)));
    WrittenTwice(db.scenarios, s, y, Scenario(p, None));
    WrittenTwice(db.scenarios, s, y, Scenario(p, Some(a)));
  }

  lemma WrittenTwice<K, V>(m: map<K, V>, k: K, x: V, y: V)
    ensures m[k := x][k := y] == m[k := y]
  {
  }

  /******* Posting a plan *******/

  // Repeats in a stream change nothing.
  lemma {:induction false} RepeatsAreNoOps(base: L.Portfolio, rs: seq<L.Receipt>)
    ensures L.Replay(base, rs) == L.Replay(base, Once(rs))
  {
    hide L.ApplyReceipt, L.Valid;
    if rs != [] {
      var n := |rs| - 1;
      var earlier := Once(rs[..n]);
      RepeatsAreNoOps(base, rs[..n]);
      if rs[n] in earlier {
        if L.Replay(base, earlier).Ok? {
          KnownIsNoOp(base, earlier, rs[n]);
        }
      } else {
        assert (earlier + [rs[n]])[..|earlier|] == earlier;
      }
    }
  }

  lemma {:induction false} KnownIsNoOp(base: L.Portfolio, rs: seq<L.Receipt>, r: L.Receipt)
    requires L.Replay(base, rs).Ok? && r in rs
    ensures L.ApplyReceipt(L.Replay(base, rs).value, r) == L.Replay(base, rs)
  {
    hide L.ApplyReceipt, L.Valid, L.Replay, L.ReceiptParses, R.InHistory;
    var p := L.Replay(base, rs).value;
    R.RunGrowsHistory(base, rs, p);
    R.KnownReceiptIsNoOp(p, r);
  }

  // A refusal stands however the stream goes on.
  lemma {:induction false} RefusalStands(base: L.Portfolio, rs: seq<L.Receipt>, i: nat, k: nat)
    requires i <= k <= |rs| && L.Replay(base, rs[..k]).Ok?
    ensures L.Replay(base, rs[..i]).Ok?
    decreases k
  {
    hide L.ApplyReceipt, L.Valid;
    if i < k {
      assert rs[..k][..k - 1] == rs[..k - 1];
      RefusalStands(base, rs, i, k - 1);
    }
  }

  // A posted receipt is what the ledger finds under its operation id.
  lemma {:induction false} PostedIsFound(base: L.Portfolio, rs: seq<L.Receipt>, r: L.Receipt)
    requires L.Replay(base, rs).Ok? && r in rs
    ensures var p := L.Replay(base, rs).value;
            L.Valid(p) && L.ReceiptParses(r) && L.FindApplied(p.applied, r.operationId) == Some(r)
  {
    hide L.ApplyReceipt, L.Replay, L.ReceiptParses, L.FamiliesHold, L.ReservationsHold, L.ReceivablesHold,
         L.PositionsHold;
    var p := L.Replay(base, rs).value;
    R.RunGrowsHistory(base, rs, p);
    var i :| 0 <= i < |p.applied| && p.applied[i].receipt == r;
    assert L.HasOperation(p.applied, r.operationId);
  }

  // One stored receipt with the same operation id is the same receipt.
  lemma {:induction false} StoredOnce(base: L.Portfolio, rs: seq<L.Receipt>, x: L.Receipt, y: L.Receipt)
    requires L.Replay(base, rs).Ok? && x in rs && y in rs && x.operationId == y.operationId
    ensures x == y
  {
    hide L.Valid, L.Replay, L.ReceiptParses;
    PostedIsFound(base, rs, x);
    PostedIsFound(base, rs, y);
  }

  // Posting one receipt of an open action is refused exactly when the ledger refuses it, and as permanently.
  lemma {:induction false} PostsAsTheLedger(db: Db, a: Id, r: L.Receipt)
    requires Open(db, a) && db.actions[a].plan.Some?
    ensures var row := db.actions[a];
            && row.scenarioId in db.scenarios
            && var posted, told := ApplyActionReceipt(db, a, r),
                                   L.ApplyReceipt(db.scenarios[row.scenarioId].portfolio, r);
            && (posted.Ok? <==> told.Ok?)
            && (posted.Err? ==> r !in row.receipts
                                && (Permanent(posted.code) <==> told.code.InsufficientAvailableBalance?))
            && (posted.Ok? && r in row.receipts ==> posted.value == db)
            && (posted.Ok? && r !in row.receipts ==>
                  posted.value == db.(actions := db.actions[a := row.(receipts := row.receipts + [r])],
                                      scenarios := db.scenarios[row.scenarioId := Scenario(told.value, Some(a))]))
  {
    hide L.Valid, L.Replay, DbHolds, L.ApplyReceipt;
    OpenRow(db, a);
    var row := db.actions[a];
    var base, p := row.before.value, db.scenarios[row.scenarioId].portfolio;
    var prior := FindReceipt(row.receipts, r.operationId);
    LedgerRefusals(p, r);
    if r in row.receipts {
      StoredOnce(base, row.receipts, prior.value, r);
      KnownIsNoOp(base, row.receipts, r);
    } else if prior.Some? {
      ForeignIsRefused(base, row.receipts, prior.value, r);
    }
  }

  // Other content under a stored operation id is refused by the ledger too, and not for good.
  lemma {:induction false} ForeignIsRefused(base: L.Portfolio, rs: seq<L.Receipt>, x: L.Receipt, r: L.Receipt)
    requires L.Replay(base, rs).Ok? && x in rs && x.operationId == r.operationId && x != r
    ensures var told := L.ApplyReceipt(L.Replay(base, rs).value, r);
            told.Err? && !told.code.InsufficientAvailableBalance?
  {
    hide L.Valid, L.Replay, L.ReceiptParses, L.Effect, L.Admit;
    PostedIsFound(base, rs, x);
  }

  // The ledger's own refusals: of the codes that end an action, it knows only the missing balance.
  lemma {:induction false} LedgerRefusals(p: L.Portfolio, r: L.Receipt)
    ensures var told := L.ApplyReceipt(p, r);
            told.Err? ==> (Permanent(told.code) <==> told.code.InsufficientAvailableBalance?)
  {
    hide L.ApplyReceipt;
    Refusals.EveryRefusalIsKnown(p, r);
  }

  // How far the plan of a row posts: k receipts, and the next one, if any, is refused.
  ghost predicate PostsExactly(row: Action, k: nat) {
    && row.plan.Some? && row.before.Some? && k <= |row.plan.value.receipts|
    && var rs, base := row.plan.value.receipts, row.before.value;
    && L.Replay(base, rs[..k]).Ok?
    && (k < |rs| ==> L.Replay(base, rs[..k + 1]).Err?)
  }

  // The end of a plan that posts k of its receipts: success, or, if a family lacks the balance for the next one,
  // partial success if anything posted and failure otherwise; on any other refusal the job goes back.
  ghost function PlanEnd(db: Db, a: Id, row: Action, k: nat): (Db, Outcome)
    requires a in db.jobs && PostsExactly(row, k)
  {
    var rs, base := row.plan.value.receipts, row.before.value;
    var p, stored := L.Replay(base, rs[..k]).value, row.(receipts := Once(rs[..k]));
    if k == |rs| then (Settled(db, a, stored, p, Succeeded, JobCompleted), EndedSucceeded)
    else if L.Replay(base, rs[..k + 1]) != Err(InsufficientAvailableBalance) then (PutBack(db, a, stored, p), WillRetry)
    else if k == 0 then (Settled(db, a, stored, p, Failed, JobFailed), EndedFailed)
    else (Settled(db, a, stored, p, PartiallySucceeded, JobCompleted), EndedPartially)
  }

  lemma {:induction false} NoneYet(rs: seq<L.Receipt>, k: nat)
    requires k <= |rs|
    ensures Once(rs[..k]) == [] <==> k == 0
  {
    OnceMembers(rs[..k]);
    if k != 0 {
      assert rs[..k][0] in rs[..k];
    }
  }

  // A worker at position i of a plan that posts k receipts has not passed k, and the ledger refuses its next receipt
  // only at k.
  lemma {:induction false} PositionWithin(db: Db, a: Id, i: nat, k: nat)
    requires Open(db, a) && PostsExactly(db.actions[a], k) && i <= |db.actions[a].plan.value.receipts|
    requires Once(db.actions[a].plan.value.receipts[..i]) <= db.actions[a].receipts
    ensures var row := db.actions[a];
            var rs, base := row.plan.value.receipts, row.before.value;
            && i <= k && row.scenarioId in db.scenarios
            && (i == |rs| ==> row.receipts == Once(rs[..k]))
            && (i < |rs| && rs[i] !in row.receipts ==>
                  && row.receipts == Once(rs[..i])
                  && L.Replay(base, rs[..i]) == Ok(db.scenarios[row.scenarioId].portfolio)
                  && L.Replay(base, rs[..i + 1]) == L.ApplyReceipt(db.scenarios[row.scenarioId].portfolio, rs[i])
                  && (L.ApplyReceipt(db.scenarios[row.scenarioId].portfolio, rs[i]).Err? <==> i == k)
                  && Once(rs[..i + 1]) == row.receipts + [rs[i]])
            && (i < |rs| && rs[i] in row.receipts ==> i < k && Once(rs[..i + 1]) <= row.receipts)
  {
    hide L.Valid, L.Replay, Once, DbHolds, L.ApplyReceipt;
    OpenRow(db, a);
    HoldsAt(db, a);
    var row := db.actions[a];
    var rs, base := row.plan.value.receipts, row.before.value;
    assert rs[..|rs|] == rs;
    ReachedWithin(row, i, k);
    if i == |rs| {
      AllStored(db, a);
    } else {
      NextReceipt(row, i, rs[i]);
      if rs[i] in row.receipts {
        ReachedWithin(row, i + 1, k);
      } else {
        RepeatsAreNoOps(base, rs[..i]);
        LastOfReplay(base, rs, i);
        if i < k {
          RefusalStands(base, rs, i + 1, k);
        }
      }
    }
  }

  lemma {:induction false} LastOfReplay(base: L.Portfolio, rs: seq<L.Receipt>, i: nat)
    requires i < |rs| && L.Replay(base, rs[..i]).Ok?
    ensures L.Replay(base, rs[..i + 1]) == L.ApplyReceipt(L.Replay(base, rs[..i]).value, rs[i])
  {
    hide L.Valid, L.ApplyReceipt;
    assert rs[..i + 1][..i] == rs[..i];
  }

  // What is stored has posted.
  lemma {:induction false} ReachedWithin(row: Action, i: nat, k: nat)
    requires PostsExactly(row, k) && i <= |row.plan.value.receipts|
    requires L.Replay(row.before.value, row.receipts).Ok? && Once(row.plan.value.receipts[..i]) <= row.receipts
    ensures i <= k
  {
    hide L.Valid, L.Replay, Once;
    var rs, base := row.plan.value.receipts, row.before.value;
    var once := Once(rs[..i]);
    assert row.receipts[..|once|] == once && row.receipts[..|row.receipts|] == row.receipts;
    RefusalStands(base, row.receipts, |once|, |row.receipts|);
    RepeatsAreNoOps(base, rs[..i]);
    if k < i {
      RefusalStands(base, rs, k + 1, i);
    }
  }

  // One step that leaves the worker at work, or brings it to rest.
  lemma {:induction false} RestsStep(db: Db, pc: Pc, c: Choice)
    requires !pc.Idle?
    ensures var (next, at) := WorkerStep(db, pc, c);
            Rests(db, pc, c) == if at.Idle? then (next, Report(pc)) else Rests(next, at, c)
  {
    hide WorkerStep;
  }

  lemma {:induction false} CountingRests(db: Db, a: Id, c: Choice)
    requires Open(db, a)
    ensures a in db.jobs && db.actions[a].scenarioId in db.scenarios
    ensures var row := db.actions[a];
            var p := db.scenarios[row.scenarioId].portfolio;
            Rests(db, Counting(a), c) ==
            if row.receipts != [] then (Settled(db, a, row, p, PartiallySucceeded, JobCompleted), EndedPartially)
            else (Settled(db, a, row, p, Failed, JobFailed), EndedFailed)
  {
    hide Rests, CompleteAction, Settled, DbHolds;
    CompleteSettles(db, a, PartiallySucceeded);
    CompleteSettles(db, a, Failed);
    RestsStep(db, Counting(a), c);
    RestsStep(db, Ending(a, db.actions[a].receipts != []), c);
  }

  lemma {:induction false} RetryingRests(db: Db, a: Id, c: Choice)
    requires Open(db, a)
    ensures a in db.jobs && db.actions[a].scenarioId in db.scenarios
    ensures Rests(db, Retrying(a), c)
            == (PutBack(db, a, db.actions[a], db.scenarios[db.actions[a].scenarioId].portfolio), WillRetry)
  {
    hide Rests, RetryJob, PutBack, DbHolds;
    RetryPutsBack(db, a);
    RestsStep(db, Retrying(a), c);
  }

  lemma {:induction false} AllPostedRests(db: Db, a: Id, receipts: seq<L.Receipt>, c: Choice)
    requires Open(db, a)
    ensures a in db.jobs && db.actions[a].scenarioId in db.scenarios
    ensures var row := db.actions[a];
            Rests(db, Applying(a, receipts, |receipts|), c)
            == (Settled(db, a, row, db.scenarios[row.scenarioId].portfolio, Succeeded, JobCompleted), EndedSucceeded)
  {
    hide Rests, CompleteAction, Settled, DbHolds;
    CompleteSettles(db, a, Succeeded);
    RestsStep(db, Applying(a, receipts, |receipts|), c);
  }

  lemma {:induction false} ApplyingRests(db: Db, a: Id, receipts: seq<L.Receipt>, i: nat, c: Choice)
    requires i < |receipts|
    ensures var posted := ApplyActionReceipt(db, a, receipts[i]);
            Rests(db, Applying(a, receipts, i), c) ==
            if posted.Ok? then Rests(posted.value, Applying(a, receipts, i + 1), c)
            else if Permanent(posted.code) then Rests(db, Counting(a), c)
            else Rests(db, Retrying(a), c)
  {
    hide Rests, ApplyActionReceipt;
    RestsStep(db, Applying(a, receipts, i), c);
  }

  // From any position of its plan, a worker alone takes it to its end.
  lemma {:induction false} PlanRuns(db: Db, a: Id, i: nat, c: Choice, k: nat)
    requires Open(db, a) && PostsExactly(db.actions[a], k) && i <= |db.actions[a].plan.value.receipts|
    requires Once(db.actions[a].plan.value.receipts[..i]) <= db.actions[a].receipts
    ensures a in db.jobs
    ensures Rests(db, Applying(a, db.actions[a].plan.value.receipts, i), c) == PlanEnd(db, a, db.actions[a], k)
    decreases |db.actions[a].plan.value.receipts| - i
  {
    hide L.Valid, L.Replay, Once, DbHolds, L.ApplyReceipt, ApplyActionReceipt, Settled, PutBack, Rests, PlanEnd;
    OpenRow(db, a);
    var rs := db.actions[a].plan.value.receipts;
    PositionWithin(db, a, i, k);
    if i == |rs| {
      AllPostedRests(db, a, rs, c);
      PlanEndsHere(db, a, k);
    } else {
      ApplyingRests(db, a, rs, i, c);
      PostsAsTheLedger(db, a, rs[i]);
      var posted := ApplyActionReceipt(db, a, rs[i]);
      if posted.Err? {
        CountingRests(db, a, c);
        RetryingRests(db, a, c);
        PlanEndsHere(db, a, k);
      } else {
        ApplyKeeps(db, a, i, posted.value);
        PlanRuns(posted.value, a, i + 1, c, k);
        PlanEndAgain(db, a, posted.value, k);
      }
    }
  }

  // When the stored receipts are the ones that post, the plan ends with the row and the portfolio as they are.
  lemma {:induction false} PlanEndsHere(db: Db, a: Id, k: nat)
    requires Open(db, a) && PostsExactly(db.actions[a], k)
    requires db.actions[a].receipts == Once(db.actions[a].plan.value.receipts[..k])
    ensures a in db.jobs && db.actions[a].scenarioId in db.scenarios
    ensures var row := db.actions[a];
            var p, rs := db.scenarios[row.scenarioId].portfolio, row.plan.value.receipts;
            && (k == 0 <==> row.receipts == [])
            && PlanEnd(db, a, row, k) ==
               if k == |rs| then (Settled(db, a, row, p, Succeeded, JobCompleted), EndedSucceeded)
               else if L.Replay(row.before.value, rs[..k + 1]) != Err(InsufficientAvailableBalance) then
                 (PutBack(db, a, row, p), WillRetry)
               else if k == 0 then (Settled(db, a, row, p, Failed, JobFailed), EndedFailed)
               else (Settled(db, a, row, p, PartiallySucceeded, JobCompleted), EndedPartially)
  {
    hide L.Valid, L.Replay, Once, DbHolds, Settled, PutBack;
    OpenRow(db, a);
    var row := db.actions[a];
    RepeatsAreNoOps(row.before.value, row.plan.value.receipts[..k]);
    NoneYet(row.plan.value.receipts, k);
    assert row.(receipts := Once(row.plan.value.receipts[..k])) == row;
  }

  predicate OnlyReceiptsAdded(db: Db, a: Id, next: Db)
    requires a in db.actions
  {
    var row := db.actions[a];
    && a in next.actions && row.scenarioId in next.scenarios
    && next.actions[a] == row.(receipts := next.actions[a].receipts)
    && next == db.(actions := db.actions[a := next.actions[a]],
                   scenarios := db.scenarios[row.scenarioId := next.scenarios[row.scenarioId]])
  }

  // A posted receipt does not change where the plan ends.
  lemma {:induction false} PlanEndAgain(db: Db, a: Id, next: Db, k: nat)
    requires a in db.jobs && a in db.actions && a in next.actions && PostsExactly(db.actions[a], k)
    requires next == db || OnlyReceiptsAdded(db, a, next)
    ensures PostsExactly(next.actions[a], k)
    ensures PlanEnd(next, a, next.actions[a], k) == PlanEnd(db, a, db.actions[a], k)
  {
    hide L.Replay, Once, Settled, PutBack;
    var row := db.actions[a];
    var rs, base := row.plan.value.receipts, row.before.value;
    var p, stored := L.Replay(base, rs[..k]).value, row.(receipts := Once(rs[..k]));
    if next != db {
      SettledAgain(db, a, stored, p, next.actions[a], next.scenarios[row.scenarioId], Succeeded, JobCompleted);
      SettledAgain(db, a, stored, p, next.actions[a], next.scenarios[row.scenarioId], PartiallySucceeded, JobCompleted);
      SettledAgain(db, a, stored, p, next.actions[a], next.scenarios[row.scenarioId], Failed, JobFailed);
    }
  }

  /******* A whole run alone *******/

  // The row a run works with: under the plan it has, or under the one planning yields, made on the portfolio as it is.
  function Planned(db: Db, a: Id, c: Choice): (row: Action)
    requires a in db.actions && db.actions[a].scenarioId in db.scenarios
  {
    var row := db.actions[a];
    if row.plan.Some? || c.plan.None? then row
    else row.(status := InProgress, plan := c.plan, before := Some(db.scenarios[row.scenarioId].portfolio))
  }

  // How an undisturbed run ends, k receipts of its plan posting: used up it is ended by what it has stored, untouched
  // and expired it ends so, without a plan it fails for good or goes back, and else it ends as its plan does.
  ghost function RunEnd(db: Db, a: Id, exhausted: bool, c: Choice, k: nat): (Db, Outcome)
    requires a in db.jobs && a in db.actions && db.actions[a].scenarioId in db.scenarios
    requires Planned(db, a, c).plan.Some? ==> PostsExactly(Planned(db, a, c), k)
  {
    var row := db.actions[a];
    var p := db.scenarios[row.scenarioId].portfolio;
    if exhausted then
      (Settled(db, a, row, p, if row.receipts != [] then PartiallySucceeded else Failed, JobFailed), Exhausted)
    else if row.receipts == [] && c.expired then (Settled(db, a, row, p, Expired, JobCompleted), EndedExpired)
    else if Planned(db, a, c).plan.Some? then PlanEnd(db, a, Planned(db, a, c), k)
    else if c.permanentFailure then (Settled(db, a, row, p, Failed, JobFailed), EndedFailed)
    else (PutBack(db, a, row, p), WillRetry)
  }

  lemma {:induction false} LoadingRests(db: Db, a: Id, c: Choice, k: nat)
    requires Open(db, a) && db.actions[a].plan.Some? && PostsExactly(db.actions[a], k)
    ensures a in db.jobs
    ensures Rests(db, LoadingPlan(a), c) == PlanEnd(db, a, db.actions[a], k)
    ensures Rests(db, Reloading(a), c) == PlanEnd(db, a, db.actions[a], k)
  {
    hide Rests, DbHolds, PostsExactly, PlanEnd;
    EmptyPrefix(db.actions[a]);
    RestsStep(db, LoadingPlan(a), c);
    RestsStep(db, Reloading(a), c);
    PlanRuns(db, a, 0, c, k);
  }

  lemma {:induction false} UnplannedRests(db: Db, a: Id, c: Choice)
    requires Open(db, a) && db.actions[a].plan.None? && c.plan.None?
    ensures Rests(db, LoadingPlan(a), c) == if c.permanentFailure then Rests(db, Counting(a), c)
                                            else Rests(db, Retrying(a), c)
  {
    hide Rests, DbHolds;
    RestsStep(db, LoadingPlan(a), c);
    RestsStep(db, Planning(a), c);
  }

  lemma {:induction false} PlanningRests(db: Db, a: Id, c: Choice, k: nat)
    requires Open(db, a) && db.actions[a].plan.None? && c.plan.Some?
    requires db.actions[a].scenarioId in db.scenarios && PostsExactly(Planned(db, a, c), k)
    ensures a in db.jobs
    ensures Rests(db, LoadingPlan(a), c) == PlanEnd(db, a, Planned(db, a, c), k)
  {
    hide Rests, DbHolds, PostsExactly, PlanEnd, L.Valid, L.Replay, Once;
    OpenRow(db, a);
    RestsStep(db, LoadingPlan(a), c);
    RestsStep(db, Planning(a), c);
    RestsStep(db, SavingPlan(a, c.plan.value), c);
    var saved := SavePlan(db, a, c.plan.value).value;
    SavePlanKeeps(db, a, c.plan.value, saved);
    assert saved == db.(actions := db.actions[a := Planned(db, a, c)]);
    LoadingRests(saved, a, c, k);
    PlanEndOfSaved(db, a, Planned(db, a, c), k);
  }

  // Writing the planned row first makes no difference to where its plan ends.
  lemma {:induction false} PlanEndOfSaved(db: Db, a: Id, row: Action, k: nat)
    requires a in db.jobs && row.scenarioId in db.scenarios && PostsExactly(row, k)
    ensures PlanEnd(db.(actions := db.actions[a := row]), a, row, k) == PlanEnd(db, a, row, k)
  {
    hide L.Replay, Once, Settled, PutBack, L.Valid;
    var rs, base := row.plan.value.receipts, row.before.value;
    var p, stored := L.Replay(base, rs[..k]).value, row.(receipts := Once(rs[..k]));
    var same := db.scenarios[row.scenarioId];
    assert db.scenarios[row.scenarioId := same] == db.scenarios;
    assert db.(actions := db.actions[a := row])
        == db.(actions := db.actions[a := row], scenarios := db.scenarios[row.scenarioId := same]);
    SettledAgain(db, a, stored, p, row, same, Succeeded, JobCompleted);
    SettledAgain(db, a, stored, p, row, same, PartiallySucceeded, JobCompleted);
    SettledAgain(db, a, stored, p, row, same, Failed, JobFailed);
  }

  // The tables after a claim, and what the claim found.
  lemma {:induction false} ClaimIsOpen(db0: Db, a: Id)
    requires DbHolds(db0) && ClaimJob(db0, a).Ok?
    ensures var (db, claim) := ClaimJob(db0, a).value;
            && Open(db, a) && claim.actionId == a && db == db0.(jobs := db.jobs)
            && a in db.jobs && db.actions[a].scenarioId in db.scenarios
            && (claim.exhausted ==> db.jobs[a].attempt >= db.jobs[a].maxAttempts)
  {
    hide L.Valid, L.Replay, Once, ActionHolds;
    var (db, claim) := ClaimJob(db0, a).value;
    ClaimKeeps(db0, a, db, claim);
    assert RowHolds(db0, a);
  }

  lemma {:induction false} ClaimedRuns(db: Db, a: Id, exhausted: bool, c: Choice, k: nat)
    requires Open(db, a) && a in db.jobs && db.actions[a].scenarioId in db.scenarios
    requires exhausted ==> db.jobs[a].attempt >= db.jobs[a].maxAttempts
    requires Planned(db, a, c).plan.Some? ==> PostsExactly(Planned(db, a, c), k)
    ensures Rests(db, Claimed(a, exhausted), c) == RunEnd(db, a, exhausted, c, k)
  {
    hide L.Valid, L.Replay, Once, DbHolds, Rests, PostsExactly, PlanEnd, CompleteAction, RetryJob, Settled;
    OpenRow(db, a);
    var row := db.actions[a];
    RestsStep(db, Claimed(a, exhausted), c);
    RetryPutsBack(db, a);
    if exhausted {
    } else if row.receipts == [] && c.expired {
      RestsStep(db, Expiring(a), c);
      CompleteSettles(db, a, Expired);
    } else if row.plan.Some? {
      LoadingRests(db, a, c, k);
    } else if c.plan.Some? {
      PlanningRests(db, a, c, k);
    } else {
      UnplannedRests(db, a, c);
      CountingRests(db, a, c);
      RetryingRests(db, a, c);
    }
  }

  // In every reachable state, a claimed action that nobody else touches ends as the ledger takes its plan: it succeeds
  // with the whole plan posted, ends partially if the plan is refused for a missing balance after k > 0
  // receipts, fails if so before any, expires only untouched, and otherwise waits with its k receipts or, used up, ends
  // by them.
  lemma {:induction false} AloneItEndsAsItsPlanPosts(sys: System, steps: seq<Step>, a: Id, c: Choice, k: nat)
    requires Fresh(sys) && ClaimJob(Run(sys, steps).db, a).Ok?
    requires var db := ClaimJob(Run(sys, steps).db, a).value.0;
             && a in db.jobs && a in db.actions && db.actions[a].scenarioId in db.scenarios
             && (Planned(db, a, c).plan.Some? ==> PostsExactly(Planned(db, a, c), k))
    ensures var (db, claim) := ClaimJob(Run(sys, steps).db, a).value;
            Rests(db, Claimed(claim.actionId, claim.exhausted), c) == RunEnd(db, a, claim.exhausted, c, k)
  {
    hide Run, L.Replay, PostsExactly, Planned, RunEnd, DbHolds, ClaimJob, Rests, Open;
    RunKeeps(sys, steps);
    ClaimIsOpen(Run(sys, steps).db, a);
    var (db, claim) := ClaimJob(Run(sys, steps).db, a).value;
    ClaimedRuns(db, a, claim.exhausted, c, k);
  }

  // Every plan made on a sound portfolio posts some number of its receipts and is then refused or done.
  lemma {:induction false} EveryPlanPostsSome(row: Action, n: nat) returns (k: nat)
    requires row.plan.Some? && row.before.Some? && L.Valid(row.before.value) && n <= |row.plan.value.receipts|
    requires n == |row.plan.value.receipts| || L.Replay(row.before.value, row.plan.value.receipts[..n + 1]).Err?
    ensures PostsExactly(row, k)
  {
    hide L.Valid, L.ApplyReceipt;
    if n == 0 || L.Replay(row.before.value, row.plan.value.receipts[..n]).Ok? {
      return n;
    }
    k := EveryPlanPostsSome(row, n - 1);
  }

  // Two reachable states of one open action that has its plan in the first.
  ghost predicate Resumed(sys: System, steps: seq<Step>, more: seq<Step>, a: Id, c: Choice, k: nat) {
    var first, later := Run(sys, steps).db, Run(Run(sys, steps), more).db;
    && ClaimJob(first, a).Ok? && ClaimJob(later, a).Ok?
    && a in first.actions && a in later.actions
    && PostsExactly(first.actions[a], k)
    && !ClaimJob(first, a).value.1.exhausted && !ClaimJob(later, a).value.1.exhausted
    && !(later.actions[a].receipts == [] && c.expired)
  }

  lemma {:induction false} PlanRunsFrom(db0: Db, a: Id, c: Choice, k: nat)
    requires DbHolds(db0) && ClaimJob(db0, a).Ok? && !ClaimJob(db0, a).value.1.exhausted && a in db0.actions
    requires PostsExactly(db0.actions[a], k) && !(db0.actions[a].receipts == [] && c.expired)
    ensures var db := ClaimJob(db0, a).value.0;
            && a in db.jobs && Rests(db, Claimed(a, false), c) == PlanEnd(db, a, db0.actions[a], k)
  {
    hide L.Replay, DbHolds, Rests, Open;
    ClaimIsOpen(db0, a);
    ClaimedRuns(ClaimJob(db0, a).value.0, a, false, c, k);
  }

  // An action with a plan that is interrupted anywhere, and taken up again by any worker, ends as it would have ended
  // at the first claim, with the same row.
  lemma {:induction false} InterruptionsDoNotMatter(sys: System, steps: seq<Step>, more: seq<Step>, a: Id, c: Choice,
      c': Choice, k: nat)
    requires Fresh(sys) && Resumed(sys, steps, more, a, c', k)
    requires !(Run(sys, steps).db.actions[a].receipts == [] && c.expired)
    ensures var db, db' := ClaimJob(Run(sys, steps).db, a).value.0, ClaimJob(Run(Run(sys, steps), more).db, a).value.0;
            var (end, report), (end', report') := Rests(db, Claimed(a, false), c), Rests(db', Claimed(a, false), c');
            && report == report'
            && (!report.WillRetry? ==>
                  && a in end.actions && a in end'.actions && end.actions[a] == end'.actions[a]
                  && end.actions[a].status.Terminal())
  {
    hide Run, L.Replay, PostsExactly, DbHolds, Rests, ClaimJob, PlanEnd, DbExtends;
    RunKeeps(sys, steps);
    TerminalActionsAreFrozen(Run(sys, steps), more);
    var first, later := Run(sys, steps).db, Run(Run(sys, steps), more).db;
    PlanRunsFrom(first, a, c, k);
    SameRowLater(first, later, a, k);
    PlanRunsFrom(later, a, c', k);
    SamePlanEnd(ClaimJob(first, a).value.0, ClaimJob(later, a).value.0, a, first.actions[a], later.actions[a], k);
  }

  lemma {:induction false} SameRowLater(first: Db, later: Db, a: Id, k: nat)
    requires DbExtends(first, later) && a in first.actions && a in later.actions && DbHolds(first) && DbHolds(later)
    requires PostsExactly(first.actions[a], k) && ClaimJob(first, a).Ok? && ClaimJob(later, a).Ok?
    ensures PostsExactly(later.actions[a], k) && SameButReceipts(first.actions[a], later.actions[a])
  {
    hide L.Replay, L.Valid, Once;
    assert RowHolds(first, a) && RowHolds(later, a);
  }

  // One row at two times: what is stored may differ, and the after-portfolio is not set yet.
  predicate SameButReceipts(row: Action, row': Action) {
    row'.(receipts := row.receipts, after := row.after) == row
  }

  lemma {:induction false} SamePlanEnd(db: Db, db': Db, a: Id, row: Action, row': Action, k: nat)
    requires a in db.jobs && a in db'.jobs && PostsExactly(row, k) && SameButReceipts(row, row')
    ensures PostsExactly(row', k)
    ensures var (end, report), (end', report') := PlanEnd(db, a, row, k), PlanEnd(db', a, row', k);
            && report == report'
            && (!report.WillRetry? ==>
                  && a in end.actions && a in end'.actions && end.actions[a] == end'.actions[a]
                  && end.actions[a].status.Terminal())
  {
    hide L.Replay, L.Valid, L.ApplyReceipt, Once, PutBack, Permanent;
    hide DbHolds, Left, WorkerStep;
  }

  /******* While another worker still holds the job *******/

  // Failed and expired actions have posted nothing.
  predicate EndsAreTrue(db: Db) {
    forall id | id in db.actions ::
      db.actions[id].status.Failed? || db.actions[id].status.Expired? ==> db.actions[id].receipts == []
  }

  // A worker found an action untouched and is about to end it so, and another has posted for it since.
  ghost predicate EndsLate(sys: System, step: Step) {
    && step.Advance?
    && var pc := PcOf(sys, step.worker);
    && (pc.Expiring? || (pc.Ending? && !pc.applied))
    && pc.actionId in sys.db.actions && !sys.db.actions[pc.actionId].status.Terminal()
    && sys.db.actions[pc.actionId].receipts != []
  }

  predicate TrueRow(row: Action) { row.status.Failed? || row.status.Expired? ==> row.receipts == [] }

  // A worker's step moves no row but its action's.
  lemma {:induction false} OtherRowsStay(db: Db, pc: Pc, c: Choice, id: Id)
    requires id in db.actions && (pc.Idle? || pc.actionId != id)
    ensures var next := WorkerStep(db, pc, c).0;
            id in next.actions && next.actions[id] == db.actions[id]
  {
    hide L.ApplyReceipt;
  }

  // Its own row stays true unless the step is a late end.
  lemma {:induction false} OwnRowStaysTrue(db: Db, pc: Pc, c: Choice)
    requires DbHolds(db) && PcHolds(db, pc) && !pc.Idle? && TrueRow(db.actions[pc.actionId])
    ensures var row, next := db.actions[pc.actionId], WorkerStep(db, pc, c).0;
            && pc.actionId in next.actions
            && (TrueRow(next.actions[pc.actionId]) <==>
                  !((pc.Expiring? || (pc.Ending? && !pc.applied)) && !row.status.Terminal() && row.receipts != []))
  {
    hide L.ApplyReceipt, DbHolds, SavePlan, ApplyActionReceipt;
    var a := pc.actionId;
    JobOfRow(db, a);
    if pc.SavingPlan? {
      SavedRow(db, a, pc.plan);
    } else if pc.Applying? && pc.index < |pc.receipts| {
      PostedRow(db, a, pc.receipts[pc.index]);
    }
  }

  lemma {:induction false} JobOfRow(db: Db, a: Id)
    requires DbHolds(db) && a in db.actions
    ensures a in db.jobs && (db.jobs[a].state.Finished() <==> db.actions[a].status.Terminal())
    ensures db.actions[a].scenarioId in db.scenarios
  {
    hide L.Replay, L.Valid, ActionHolds;
    assert RowHolds(db, a);
  }

  lemma SavedRow(db: Db, a: Id, plan: Plan)
    requires a in db.actions
    ensures SavePlan(db, a, plan).Ok? ==>
              var next := SavePlan(db, a, plan).value;
              && a in next.actions
              && (next.actions[a] == db.actions[a] || next.actions[a].status.InProgress?)
  {
  }

  lemma {:induction false} PostedRow(db: Db, a: Id, r: L.Receipt)
    requires a in db.actions
    ensures ApplyActionReceipt(db, a, r).Ok? ==>
              var next := ApplyActionReceipt(db, a, r).value;
              && a in next.actions
              && (next.actions[a] == db.actions[a]
                  || (!db.actions[a].status.Terminal() && next.actions[a].status == db.actions[a].status))
  {
    hide L.ApplyReceipt;
  }

  lemma {:induction false} OtherStepsKeepRows(sys: System, step: Step, id: Id)
    requires Inv(sys) && !step.Advance? && id in After(sys, step).db.actions
    ensures if id in sys.db.actions then After(sys, step).db.actions[id] == sys.db.actions[id]
            else After(sys, step).db.actions[id].status.Accepted?
  {
    hide L.ApplyReceipt, DbHolds, PcHolds;
  }

  // A step leaves the ends true if and only if it is no late end.
  lemma {:induction false} StepKeepsEndsTrue(sys: System, step: Step)
    requires Inv(sys) && EndsAreTrue(sys.db)
    ensures EndsAreTrue(After(sys, step).db) <==> !EndsLate(sys, step)
  {
    hide DbHolds, PcHolds, WorkerStep;
    var next := After(sys, step).db;
    if step.Advance? {
      var pc := PcOf(sys, step.worker);
      IdleHolds(sys.db);
      if !pc.Idle? {
        WorkerHolds(sys.db, pc);
        OwnRowStaysTrue(sys.db, pc, step.choice);
      }
      WorkerIsSteady(sys.db, pc, step.choice);
      forall id | id in next.actions && (pc.Idle? || id != pc.actionId)
        ensures TrueRow(next.actions[id])
      {
        OtherRowsStay(sys.db, pc, step.choice, id);
      }
    } else {
      forall id | id in next.actions
        ensures TrueRow(next.actions[id])
      {
        OtherStepsKeepRows(sys, step, id);
      }
    }
  }

  lemma WorkerHolds(db: Db, pc: Pc)
    requires PcHolds(db, pc) && !pc.Idle?
    ensures pc.actionId in db.actions
  {
  }

  // No worker ends an action late anywhere in the run.
  ghost predicate NeverLate(sys: System, steps: seq<Step>) {
    forall n | 0 <= n < |steps| :: !EndsLate(Run(sys, steps[..n]), steps[n])
  }

  // In every run, failed and expired actions have posted nothing if and only if no action was ended late.
  lemma {:induction false} EndsAreTrueExactlyWhenNeverLate(sys: System, steps: seq<Step>)
    requires Fresh(sys)
    ensures EndsAreTrue(Run(sys, steps).db) <==> NeverLate(sys, steps)
  {
    hide After, EndsLate;
    if steps != [] {
      var n := |steps| - 1;
      EndsAreTrueExactlyWhenNeverLate(sys, steps[..n]);
      RunKeeps(sys, steps[..n]);
      var before := Run(sys, steps[..n]);
      NeverLateLonger(sys, steps);
      if EndsAreTrue(before.db) {
        StepKeepsEndsTrue(before, steps[n]);
      } else {
        StepKeeps(before, steps[n]);
        FalseEndsStay(before.db, Run(sys, steps).db);
      }
    }
  }

  lemma FalseEndsStay(db: Db, next: Db)
    requires DbExtends(db, next) && !EndsAreTrue(db)
    ensures !EndsAreTrue(next)
  {
  }

  lemma {:induction false} NeverLateLonger(sys: System, steps: seq<Step>)
    requires steps != []
    ensures var n := |steps| - 1;
            NeverLate(sys, steps) <==> NeverLate(sys, steps[..n]) && !EndsLate(Run(sys, steps[..n]), steps[n])
  {
    hide EndsLate, Run;
    var n := |steps| - 1;
    forall i | 0 <= i < n
      ensures steps[..n][..i] == steps[..i]
    {
    }
    assert steps[n] == steps[|steps| - 1];
  }

  // A claim hands out a job only when no worker is still at it: no lease runs out under a worker.
  ghost predicate NoneHolds(sys: System, step: Step) {
    step.ClaimStep? ==>
      forall v | v in sys.workers && v != step.worker ::
        !sys.workers[v].Idle? ==> sys.workers[v].actionId != step.actionId
  }

  ghost predicate LeasesHold(sys: System, steps: seq<Step>) {
    forall n | 0 <= n < |steps| :: NoneHolds(Run(sys, steps[..n]), steps[n])
  }

  // At most one worker per action, and what it is about to report is so.
  ghost predicate Sole(sys: System) {
    && (forall v, w | v in sys.workers && w in sys.workers && v != w ::
          !sys.workers[v].Idle? && !sys.workers[w].Idle? ==> sys.workers[v].actionId != sys.workers[w].actionId)
    && (forall w | w in sys.workers :: SeesTrue(sys.db, sys.workers[w]))
  }

  ghost predicate SeesTrue(db: Db, pc: Pc) {
    (pc.Expiring? || (pc.Ending? && !pc.applied)) && pc.actionId in db.actions ==>
      db.actions[pc.actionId].receipts == []
  }

  lemma {:induction false} StepKeepsSole(sys: System, step: Step)
    requires Inv(sys) && Sole(sys) && NoneHolds(sys, step)
    ensures Sole(After(sys, step))
  {
    hide DbHolds, PcHolds, WorkerStep, L.ApplyReceipt, AcceptAction, StopExperiment, SeesTrue;
    var next := After(sys, step);
    StepKeeps(sys, step);
    forall w | w in next.workers
      ensures SeesTrue(next.db, next.workers[w])
    {
      SeesTrueNext(sys, step, w);
    }
    if step.Advance? {
      WorkerKeepsAction(sys.db, PcOf(sys, step.worker), step.choice);
    }
  }

  lemma {:induction false} WorkerKeepsAction(db: Db, pc: Pc, c: Choice)
    ensures var at := WorkerStep(db, pc, c).1;
            at.Idle? || (!pc.Idle? && at.actionId == pc.actionId)
  {
    hide L.ApplyReceipt, SavePlan, CompleteAction, RetryJob;
  }

  lemma {:induction false} SeesTrueNext(sys: System, step: Step, w: Id)
    requires Inv(sys) && Sole(sys) && NoneHolds(sys, step) && w in After(sys, step).workers
    ensures SeesTrue(After(sys, step).db, After(sys, step).workers[w])
  {
    hide DbHolds, WorkerStep, L.ApplyReceipt, AcceptAction, StopExperiment, ClaimJob;
    var next := After(sys, step);
    var pc := PcOf(sys, w);
    if step.Advance? && step.worker == w {
      LooksAreTrue(sys.db, pc, step.choice);
    } else if w in sys.workers && !pc.Idle? && next.workers[w] == pc {
      assert PcHolds(sys.db, pc) && SeesTrue(sys.db, pc);
      if step.Advance? {
        var other := PcOf(sys, step.worker);
        OtherRowsStay(sys.db, other, step.choice, pc.actionId);
      } else {
        StepKeeps(sys, step);
        OtherStepsKeepRows(sys, step, pc.actionId);
      }
    }
  }

  lemma {:induction false} LooksAreTrue(db: Db, pc: Pc, c: Choice)
    ensures SeesTrue(WorkerStep(db, pc, c).0, WorkerStep(db, pc, c).1)
  {
    hide L.ApplyReceipt, SavePlan, CompleteAction, RetryJob;
  }

  lemma {:induction false} RunKeepsSole(sys: System, steps: seq<Step>)
    requires Fresh(sys) && LeasesHold(sys, steps)
    ensures Sole(Run(sys, steps)) && NeverLate(sys, steps)
  {
    hide After, NoneHolds, Sole;
    if steps == [] {
      assert Sole(sys) by { FreshIsSole(sys); }
    } else {
      var n := |steps| - 1;
      forall i | 0 <= i < n
        ensures NoneHolds(Run(sys, steps[..n][..i]), steps[..n][i])
      {
        assert steps[..n][..i] == steps[..i];
      }
      RunKeepsSole(sys, steps[..n]);
      RunKeeps(sys, steps[..n]);
      StepKeepsSole(Run(sys, steps[..n]), steps[n]);
      SoleIsNotLate(Run(sys, steps[..n]), steps[n]);
      NeverLateLonger(sys, steps);
    }
  }

  lemma FreshIsSole(sys: System)
    requires Fresh(sys)
    ensures Sole(sys)
  {
  }

  lemma SoleIsNotLate(sys: System, step: Step)
    requires Sole(sys)
    ensures !EndsLate(sys, step)
  {
  }

  // While no lease runs out under a worker, an action's status says what it did: failed and expired actions posted
  // nothing, partial ones something, successful ones their whole plan.
  lemma {:induction false} LeasesMakeEndsTrue(sys: System, steps: seq<Step>, id: Id)
    requires Fresh(sys) && LeasesHold(sys, steps) && id in Run(sys, steps).db.actions
    ensures var row := Run(sys, steps).db.actions[id];
            && (row.status.Failed? || row.status.Expired? ==> row.receipts == [])
            && (row.status.PartiallySucceeded? ==> row.receipts != [])
            && (row.status.Succeeded? ==> row.plan.Some? && row.receipts == Once(row.plan.value.receipts))
  {
    hide Run, Sole, NeverLate, LeasesHold, L.Replay, Once;
    RunKeepsSole(sys, steps);
    EndsAreTrueExactlyWhenNeverLate(sys, steps);
    StoredReceiptsAreAPlanPrefix(sys, steps, id);
  }

  /******* An expired action that has posted *******/

  const ACTION: Id := "a"
  const SCENARIO: Id := "s"
  const VALID := Choice(false, None, false)
  const PAST := Choice(true, None, false)

  // One scenario, idle, and nothing done yet.
  function OneScenario(p: L.Portfolio): System {
    System(Db(true, map[SCENARIO := Scenario(p, None)], map[], map[], map[], None), map[])
  }

  function RequestAt(p: L.Portfolio): Envelope { Envelope("k", SCENARIO, p.version, "") }

  // A slow worker finds the action valid and plans it; its lease runs out; a second worker finds the action past its
  // time and untouched; the slow one posts; the second one ends the action.
  function SlowRun(p: L.Portfolio, r: L.Receipt): seq<Step> {
    [Accept(RequestAt(p), ACTION, 5, true),
     ClaimStep("slow", ACTION), Advance("slow", VALID), Advance("slow", VALID),
     Advance("slow", VALID.(plan := Some(Plan("", [r])))), Advance("slow", VALID), Advance("slow", VALID),
     ClaimStep("second", ACTION), Advance("second", PAST),
     Advance("slow", PAST), Advance("second", PAST)]
  }

  function OneAction(p: L.Portfolio, active: Option<Id>, row: Action, attempt: int, state: JobState): Db {
    Db(true, map[SCENARIO := Scenario(p, active)], map[ACTION := row], map["k" := ACTION],
       map[ACTION := Job(state, attempt, 5)], None)
  }

  function Waiting(p: L.Portfolio): Action { Action(RequestAt(p), SCENARIO, Accepted, None, [], None, None) }

  function Underway(p: L.Portfolio, r: L.Receipt, receipts: seq<L.Receipt>): Action {
    Action(RequestAt(p), SCENARIO, InProgress, Some(Plan("", [r])), receipts, Some(p), None)
  }

  lemma {:induction false} OneMore(sys: System, steps: seq<Step>, n: nat)
    requires n < |steps|
    ensures Run(sys, steps[..n + 1]) == After(Run(sys, steps[..n]), steps[n])
  {
    hide After;
    assert steps[..n + 1][..n] == steps[..n];
  }

  lemma NothingRun(sys: System, steps: seq<Step>)
    ensures Run(sys, steps[..0]) == sys
  {
  }

  lemma {:induction false} RequestIsAccepted(p: L.Portfolio)
    ensures After(OneScenario(p), Accept(RequestAt(p), ACTION, 5, true))
            == System(OneAction(p, Some(ACTION), Waiting(p), 0, JobReady), map[])
  {
    hide L.ApplyReceipt, StopExperiment, WorkerStep, ClaimJob;
    var db := OneScenario(p).db;
    assert db.actions[ACTION := Waiting(p)] == map[ACTION := Waiting(p)];
    assert db.scenarios[SCENARIO := Scenario(p, Some(ACTION))] == map[SCENARIO := Scenario(p, Some(ACTION))];
  }

  lemma {:induction false} JobIsClaimed(p: L.Portfolio, row: Action, attempt: int, state: JobState,
      workers: map<Id, Pc>, w: Id)
    requires 0 <= attempt < 5 && !state.Finished() && w !in workers
    ensures After(System(OneAction(p, Some(ACTION), row, attempt, state), workers), ClaimStep(w, ACTION))
            == System(OneAction(p, Some(ACTION), row, attempt + 1, JobRunning),
                      workers[w := Claimed(ACTION, false)])
  {
    hide L.ApplyReceipt, StopExperiment, WorkerStep, AcceptAction;
  }

  // A step of a worker is its own step in the tables.
  lemma {:induction false} WorkerMoves(db: Db, workers: map<Id, Pc>, w: Id, c: Choice)
    requires w in workers
    ensures var (next, at) := WorkerStep(db, workers[w], c);
            After(System(db, workers), Advance(w, c)) == System(next, workers[w := at])
  {
    hide WorkerStep;
  }

  // The moves of the two workers, from the claims to the posting.
  lemma {:induction false} SlowMoves(p: L.Portfolio, r: L.Receipt)
    ensures var db, plan := OneAction(p, Some(ACTION), Waiting(p), 1, JobRunning), Plan("", [r]);
            var planned := OneAction(p, Some(ACTION), Underway(p, r, []), 1, JobRunning);
            && WorkerStep(db, Claimed(ACTION, false), VALID) == (db, LoadingPlan(ACTION))
            && WorkerStep(db, LoadingPlan(ACTION), VALID) == (db, Planning(ACTION))
            && WorkerStep(db, Planning(ACTION), VALID.(plan := Some(plan))) == (db, SavingPlan(ACTION, plan))
            && WorkerStep(db, SavingPlan(ACTION, plan), VALID) == (planned, Reloading(ACTION))
            && WorkerStep(planned, Reloading(ACTION), VALID) == (planned, Applying(ACTION, [r], 0))
  {
    hide L.ApplyReceipt, L.Valid, RetryJob, CompleteAction;
    assert map[ACTION := Waiting(p)][ACTION := Underway(p, r, [])] == map[ACTION := Underway(p, r, [])];
  }

  lemma {:induction false} LateMoves(p: L.Portfolio, r: L.Receipt, q: L.Portfolio)
    requires L.ApplyReceipt(p, r) == Ok(q)
    ensures var planned := OneAction(p, Some(ACTION), Underway(p, r, []), 2, JobRunning);
            var posted := OneAction(q, Some(ACTION), Underway(p, r, [r]), 2, JobRunning);
            && WorkerStep(planned, Claimed(ACTION, false), PAST) == (planned, Expiring(ACTION))
            && WorkerStep(planned, Applying(ACTION, [r], 0), PAST) == (posted, Applying(ACTION, [r], 1))
            && WorkerStep(posted, Expiring(ACTION), PAST)
               == (OneAction(q, None, Underway(p, r, [r]).(status := Expired, after := Some(q)), 2, JobCompleted), Idle)
  {
    hide L.ApplyReceipt, L.Valid, RetryJob, CompleteAction, ApplyActionReceipt;
    ReceiptPosts(p, r, q);
    ActionExpires(p, r, q);
  }

  lemma {:induction false} ReceiptPosts(p: L.Portfolio, r: L.Receipt, q: L.Portfolio)
    requires L.ApplyReceipt(p, r) == Ok(q)
    ensures ApplyActionReceipt(OneAction(p, Some(ACTION), Underway(p, r, []), 2, JobRunning), ACTION, r)
            == Ok(OneAction(q, Some(ACTION), Underway(p, r, [r]), 2, JobRunning))
  {
    hide L.ApplyReceipt;
    var planned := OneAction(p, Some(ACTION), Underway(p, r, []), 2, JobRunning);
    assert [] + [r] == [r];
    assert planned.actions[ACTION := Underway(p, r, [r])] == map[ACTION := Underway(p, r, [r])];
    assert planned.scenarios[SCENARIO := Scenario(q, Some(ACTION))] == map[SCENARIO := Scenario(q, Some(ACTION))];
  }

  lemma {:induction false} ActionExpires(p: L.Portfolio, r: L.Receipt, q: L.Portfolio)
    ensures CompleteAction(OneAction(q, Some(ACTION), Underway(p, r, [r]), 2, JobRunning), ACTION, Expired)
            == OneAction(q, None, Underway(p, r, [r]).(status := Expired, after := Some(q)), 2, JobCompleted)
  {
    var posted := OneAction(q, Some(ACTION), Underway(p, r, [r]), 2, JobRunning);
    var expired := Underway(p, r, [r]).(status := Expired, after := Some(q));
    WrittenOver(ACTION, posted.actions[ACTION], expired);
    WrittenOver(SCENARIO, posted.scenarios[SCENARIO], Scenario(q, None));
    WrittenOver(ACTION, posted.jobs[ACTION], Job(JobCompleted, 2, 5));
  }

  lemma WrittenOver<K, V>(k: K, x: V, y: V)
    ensures map[k := x][k := y] == map[k := y]
  {
  }

  lemma {:induction false} SlowClaims(p: L.Portfolio, r: L.Receipt)
    ensures Run(OneScenario(p), SlowRun(p, r)[..2])
            == System(OneAction(p, Some(ACTION), Waiting(p), 1, JobRunning), map["slow" := Claimed(ACTION, false)])
  {
    hide After, Run;
    var sys, steps := OneScenario(p), SlowRun(p, r);
    NothingRun(sys, steps);
    OneMore(sys, steps, 0);
    RequestIsAccepted(p);
    OneMore(sys, steps, 1);
    JobIsClaimed(p, Waiting(p), 0, JobReady, map[], "slow");
    assert map[]["slow" := Claimed(ACTION, false)] == map["slow" := Claimed(ACTION, false)];
  }

  lemma {:induction false} SlowPlans(p: L.Portfolio, r: L.Receipt)
    ensures Run(OneScenario(p), SlowRun(p, r)[..7])
            == System(OneAction(p, Some(ACTION), Underway(p, r, []), 1, JobRunning),
                      map["slow" := Applying(ACTION, [r], 0)])
  {
    hide After, WorkerStep, Run;
    var sys, steps, plan := OneScenario(p), SlowRun(p, r), Plan("", [r]);
    var db := OneAction(p, Some(ACTION), Waiting(p), 1, JobRunning);
    var planned := OneAction(p, Some(ACTION), Underway(p, r, []), 1, JobRunning);
    SlowClaims(p, r);
    SlowMoves(p, r);
    OneMore(sys, steps, 2);
    SlowMove(db, Claimed(ACTION, false), VALID);
    OneMore(sys, steps, 3);
    SlowMove(db, LoadingPlan(ACTION), VALID);
    OneMore(sys, steps, 4);
    SlowMove(db, Planning(ACTION), VALID.(plan := Some(plan)));
    OneMore(sys, steps, 5);
    SlowMove(db, SavingPlan(ACTION, plan), VALID);
    OneMore(sys, steps, 6);
    SlowMove(planned, Reloading(ACTION), VALID);
  }

  lemma {:induction false} SlowMove(db: Db, pc: Pc, c: Choice)
    ensures var (next, at) := WorkerStep(db, pc, c);
            After(System(db, map["slow" := pc]), Advance("slow", c)) == System(next, map["slow" := at])
  {
    hide WorkerStep, After;
    WorkerMoves(db, map["slow" := pc], "slow", c);
    var (next, at) := WorkerStep(db, pc, c);
    assert map["slow" := pc]["slow" := at] == map["slow" := at];
  }

  lemma {:induction false} SecondEnds(p: L.Portfolio, r: L.Receipt, q: L.Portfolio)
    requires L.ApplyReceipt(p, r) == Ok(q)
    ensures Run(OneScenario(p), SlowRun(p, r)).db
            == OneAction(q, None, Underway(p, r, [r]).(status := Expired, after := Some(q)), 2, JobCompleted)
  {
    hide After, WorkerStep, Run, L.ApplyReceipt;
    var sys, steps := OneScenario(p), SlowRun(p, r);
    var slow := map["slow" := Applying(ACTION, [r], 0)];
    var planned := OneAction(p, Some(ACTION), Underway(p, r, []), 2, JobRunning);
    var posted := OneAction(q, Some(ACTION), Underway(p, r, [r]), 2, JobRunning);
    SlowPlans(p, r);
    forall n: nat | 7 <= n < 11
      ensures Run(sys, steps[..n + 1]) == After(Run(sys, steps[..n]), steps[n])
    {
      OneMore(sys, steps, n);
    }
    LateMoves(p, r, q);
    JobIsClaimed(p, Underway(p, r, []), 1, JobRunning, slow, "second");
    var both := slow["second" := Claimed(ACTION, false)];
    assert Run(sys, steps[..8]) == System(planned, both);
    WorkerMoves(planned, both, "second", PAST);
    both := both["second" := Expiring(ACTION)];
    assert Run(sys, steps[..9]) == System(planned, both);
    WorkerMoves(planned, both, "slow", PAST);
    both := both["slow" := Applying(ACTION, [r], 1)];
    assert Run(sys, steps[..10]) == System(posted, both);
    WorkerMoves(posted, both, "second", PAST);
    assert steps[..11] == steps;
  }

  // From any portfolio and any receipt it accepts: the action ends expired with the receipt posted. No clock runs
  // backwards in this run.
  lemma {:induction false} ExpiredButPosted(p: L.Portfolio, r: L.Receipt, q: L.Portfolio)
    requires L.ApplyReceipt(p, r) == Ok(q)
    ensures Fresh(OneScenario(p))
    ensures var db := Run(OneScenario(p), SlowRun(p, r)).db;
            && db.actions.Keys == {ACTION} && db.scenarios.Keys == {SCENARIO}
            && db.actions[ACTION].status.Expired? && db.actions[ACTION].receipts == [r]
            && db.scenarios[SCENARIO] == Scenario(q, None)
            && !EndsAreTrue(db)
  {
    hide L.Valid, Run;
    SecondEnds(p, r, q);
  }
}
