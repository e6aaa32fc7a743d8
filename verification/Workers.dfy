/** Who may execute a task: the lease, and the workers whose attempt has been taken over. */
module Workers {
  import opened Rows
  import opened Store
  import opened Protocol
  import opened Steps
  import opened Sweeps

  /** A run watched from outside: the flights whose attempt was recovered, cancelled or overtaken. */
  datatype Watched = Watched(s: State, fenced: set<Flight>)

  /** The task whose flights this step fences off, if any. */
  ghost predicate Fences(s: State, fenced: set<Flight>, op: Op, id: TaskId) {
    || (op == RecoverTask(id) && IsStuck(s, id))
    || (op == CancelTask(id) && id in s.tasks && s.tasks[id].status == Running)
    || (op.Finish? && op.flight.task == id && op.flight in s.flights && op.flight in fenced
        && id in s.tasks && s.tasks[id].status == Running)
  }

  ghost function FenceStep(s: State, fenced: set<Flight>, op: Op): set<Flight> {
    fenced + set f | f in s.flights && Fences(s, fenced, op, f.task)
  }

  ghost function WatchStep(cfg: Config, w: Watched, op: Op): Watched {
    Watched(Apply(cfg, w.s, op), FenceStep(w.s, w.fenced, op))
  }

  ghost function WatchRun(cfg: Config, w: Watched, ops: seq<Op>): Watched
    decreases |ops|
  {
    if ops == [] then w else WatchRun(cfg, WatchStep(cfg, w, ops[0]), ops[1..])
  }

  lemma {:induction false} WatchingChangesNothing(cfg: Config, w: Watched, ops: seq<Op>)
    ensures WatchRun(cfg, w, ops).s == Exec(cfg, w.s, ops)
    decreases |ops|
  {
    if ops != [] {
      WatchingChangesNothing(cfg, WatchStep(cfg, w, ops[0]), ops[1..]);
    }
  }

  /** The flight is the one the database believes in. */
  predicate Current(s: State, f: Flight)
    requires f in s.flights
  {
    && f.task in s.tasks
    && s.tasks[f.task].status == Running
    && s.tasks[f.task].attempts == f.number
    && s.tasks[f.task].leaseOwner == Some(s.flights[f].worker)
  }

  ghost predicate Exclusive(s: State, fenced: set<Flight>) {
    forall f :: f in s.flights && f !in fenced ==> Current(s, f)
  }

  /** What can happen to a running row that is not fenced off by the step. */
  lemma RunningRowKept(cfg: Config, s: State, op: Op, r: State, id: TaskId)
    requires id in s.tasks && id in r.tasks && s.tasks[id].status == Running && RowFollows(cfg, s, op, r, id)
    requires !(op == RecoverTask(id) && IsStuck(s, id)) && op != CancelTask(id)
    requires op.Finish? && op.flight in s.flights ==> op.flight.task != id
    ensures var t := s.tasks[id]; var u := r.tasks[id];
            u.status == Running && u.attempts == t.attempts && u.leaseOwner == t.leaseOwner
  {
    RunningChange(cfg, s, op, id);
  }

  /** Retention spares running tasks. */
  lemma RunningSurvives(cfg: Config, s: State, op: Op, id: TaskId)
    requires DbInv(s) && id in s.tasks && s.tasks[id].status == Running
    ensures id in Apply(cfg, s, op).tasks
  {
    StepIsFollowed(cfg, s, op);
    if op.PurgeTask? {
      assert Stamped(s.tasks[id]);
      NotPurged(cfg, s, op.task, id);
    }
  }

  lemma NotPurged(cfg: Config, s: State, purged: TaskId, id: TaskId)
    requires id in s.tasks && s.tasks[id].finishedAt.None?
    ensures id in DoPurgeTask(cfg, s, purged).tasks
  {
  }

  lemma RunningChange(cfg: Config, s: State, op: Op, id: TaskId)
    requires id in s.tasks && s.tasks[id].status == Running
    requires Enabled(cfg, ChangeOf(cfg, s, op, id), s.tasks[id], s.now)
    requires !(op == RecoverTask(id) && IsStuck(s, id)) && op != CancelTask(id)
    requires op.Finish? && op.flight in s.flights ==> op.flight.task != id
    ensures ChangeOf(cfg, s, op, id).Same? || ChangeOf(cfg, s, op, id).Renew?
  {
  }

  /** Of two workers of one task only a fenced one can be reporting. */
  lemma NoRivalReports(s: State, fenced: set<Flight>, op: Op, f: Flight)
    requires Exclusive(s, fenced) && f in s.flights && f !in FenceStep(s, fenced, op)
    requires op.Finish? ==> f != op.flight
    ensures !Fences(s, fenced, op, f.task)
    ensures op.Finish? && op.flight in s.flights ==> op.flight.task != f.task
  {
    assert op.Finish? && op.flight in s.flights && op.flight !in fenced ==> Current(s, op.flight);
    assert Current(s, f);
  }

  lemma NewIsCurrent(cfg: Config, s: State, op: Op, r: State)
    requires Starts(cfg, s, op) && op.task in r.tasks && RowFollows(cfg, s, op, r, op.task) && FlightsFollow(cfg, s, op, r)
    ensures Current(r, Flight(op.task, s.tasks[op.task].attempts + 1))
  {
    StartChange(cfg, s, op, op.task);
  }

  lemma OldIsCurrent(cfg: Config, s: State, fenced: set<Flight>, op: Op, r: State, f: Flight)
    requires Exclusive(s, fenced) && f in s.flights && f !in FenceStep(s, fenced, op) && (op.Finish? ==> f != op.flight)
    requires f in r.flights && r.flights[f] == s.flights[f]
    requires f.task in s.tasks ==> f.task in r.tasks && RowFollows(cfg, s, op, r, f.task)
    ensures Current(r, f)
  {
    assert Current(s, f);
    NoRivalReports(s, fenced, op, f);
    RunningRowKept(cfg, s, op, r, f.task);
  }

  lemma FollowedExclusive(cfg: Config, s: State, fenced: set<Flight>, op: Op, r: State)
    requires FlightsInv(s) && Exclusive(s, fenced) && RowsFollow(cfg, s, op, r) && FlightsFollow(cfg, s, op, r)
    requires forall id :: id in s.tasks && s.tasks[id].status == Running ==> id in r.tasks
    requires Starts(cfg, s, op) ==> op.task in r.tasks
    ensures Exclusive(r, FenceStep(s, fenced, op))
  {
    forall f | f in r.flights && f !in FenceStep(s, fenced, op) ensures Current(r, f) {
      if Starts(cfg, s, op) && f == Flight(op.task, s.tasks[op.task].attempts + 1) {
        assert RowFollows(cfg, s, op, r, op.task);
        NewIsCurrent(cfg, s, op, r);
      } else {
        assert Current(s, f) && RowFollows(cfg, s, op, r, f.task);
        OldIsCurrent(cfg, s, fenced, op, r, f);
      }
    }
  }

  lemma StepKeepsExclusive(cfg: Config, s: State, fenced: set<Flight>, op: Op)
    requires DbInv(s) && Exclusive(s, fenced)
    ensures Exclusive(Apply(cfg, s, op), FenceStep(s, fenced, op))
  {
    StepIsFollowed(cfg, s, op);
    FlightsOf(cfg, s, op);
    forall id | id in s.tasks && s.tasks[id].status == Running ensures id in Apply(cfg, s, op).tasks {
      RunningSurvives(cfg, s, op, id);
    }
    FollowedExclusive(cfg, s, fenced, op, Apply(cfg, s, op));
  }

  /** In every run, a worker that was never fenced off holds the lease of its running task,
      and its attempt is the task's latest. */
  lemma {:induction false} UnfencedIsCurrent(cfg: Config, w: Watched, ops: seq<Op>)
    requires DbInv(w.s) && Exclusive(w.s, w.fenced)
    ensures var v := WatchRun(cfg, w, ops);
            DbInv(v.s) && Exclusive(v.s, v.fenced)
    decreases |ops|
  {
    if ops != [] {
      StepKeepsInv(cfg, w.s, ops[0]);
      StepKeepsExclusive(cfg, w.s, w.fenced, ops[0]);
      UnfencedIsCurrent(cfg, WatchStep(cfg, w, ops[0]), ops[1..]);
    }
  }

  ghost function Start(subs: seq<Subscription>, now: Time): Watched {
    Watched(Init(subs, now), {})
  }

  /** At most one worker per task is not fenced off, in every reachable state. */
  lemma AtMostOneUnfenced(cfg: Config, subs: seq<Subscription>, now: Time, ops: seq<Op>, f: Flight, g: Flight)
    requires var v := WatchRun(cfg, Start(subs, now), ops);
             f in v.s.flights && g in v.s.flights && f !in v.fenced && g !in v.fenced && f.task == g.task
    ensures f == g
  {
    InitInv(subs, now);
    UnfencedIsCurrent(cfg, Start(subs, now), ops);
    var v := WatchRun(cfg, Start(subs, now), ops);
    assert Current(v.s, f) && Current(v.s, g);
  }

  /** Where the report of attempt number `number` sends a running task. */
  function OutcomeStatus(t: Task, number: nat, outcome: Outcome): Status {
    match outcome
    case Completed => Success
    case PermanentError => Failed
    case RetryableError => if number < t.maxAttempts then RetryScheduled else DeadLetter
  }

  /** The attempt row of the report. */
  function ClosedRow(a: Attempt, outcome: Outcome, now: Time): Attempt {
    Attempt(a.number, if outcome == Completed then AttemptSuccess else AttemptFailed, a.worker, Some(now))
  }

  function ReportChange(f: Flight, snap: TaskSnapshot, outcome: Outcome): Change {
    if outcome == Completed then Succeed(f.number) else Fail(f.number, snap, outcome == RetryableError)
  }

  lemma ReportedRow(cfg: Config, t: Task, f: Flight, snap: TaskSnapshot, outcome: Outcome, now: Time)
    requires Enabled(cfg, ReportChange(f, snap, outcome), t, now) && snap.attempts == f.number
    ensures var u := Changed(cfg, ReportChange(f, snap, outcome), t, now);
            && u.status == (if t.status == Running then OutcomeStatus(t, f.number, outcome) else t.status)
            && u.rows == t.rows[f.number - 1 := ClosedRow(t.rows[f.number - 1], outcome, now)]
  {
  }

  /** A report changes the status exactly when the task is running, whoever holds its lease;
      this is why overtaken workers must be fenced and not just late. */
  lemma ReportTakesEffect(cfg: Config, s: State, f: Flight, outcome: Outcome)
    requires DbInv(s) && f in s.flights && f.task in s.tasks
    ensures var r := DoFinish(cfg, s, f, outcome);
            f.task in r.tasks && 1 <= f.number <= |s.tasks[f.task].rows|
    ensures var t := s.tasks[f.task]; var u := DoFinish(cfg, s, f, outcome).tasks[f.task];
            && (u.status != t.status <==> t.status == Running)
            && (t.status == Running ==> u.status == OutcomeStatus(t, f.number, outcome))
            && u.rows == t.rows[f.number - 1 := ClosedRow(t.rows[f.number - 1], outcome, s.now)]
  {
    FinishStep(cfg, s, f, outcome);
    assert FlightInv(s, f);
    ReportFollows(cfg, s, f, outcome, DoFinish(cfg, s, f, outcome));
  }

  lemma ReportFollows(cfg: Config, s: State, f: Flight, outcome: Outcome, r: State)
    requires f in s.flights && f.task in s.tasks && f.task in r.tasks && RowsFollow(cfg, s, Finish(f, outcome), r)
    requires 1 <= f.number <= |s.tasks[f.task].rows| && s.flights[f].attempts == f.number
    ensures var t := s.tasks[f.task]; var u := r.tasks[f.task];
            && (u.status != t.status <==> t.status == Running)
            && (t.status == Running ==> u.status == OutcomeStatus(t, f.number, outcome))
            && u.rows == t.rows[f.number - 1 := ClosedRow(t.rows[f.number - 1], outcome, s.now)]
  {
    assert RowFollows(cfg, s, Finish(f, outcome), r, f.task);
    ReportedRow(cfg, s.tasks[f.task], f, s.flights[f], outcome, s.now);
  }

  /** The outcome recorded for an unfenced worker is that of attempt number `attempts`. */
  lemma UnfencedReportIsRecorded(cfg: Config, subs: seq<Subscription>, now: Time, ops: seq<Op>, f: Flight, outcome: Outcome)
    requires var v := WatchRun(cfg, Start(subs, now), ops);
             f in v.s.flights && f !in v.fenced
    ensures var s := WatchRun(cfg, Start(subs, now), ops).s;
            && f.task in s.tasks && s.tasks[f.task].attempts == f.number
            && DoFinish(cfg, s, f, outcome).tasks[f.task].status == OutcomeStatus(s.tasks[f.task], f.number, outcome)
  {
    InitInv(subs, now);
    UnfencedIsCurrent(cfg, Start(subs, now), ops);
    var s := WatchRun(cfg, Start(subs, now), ops).s;
    assert Current(s, f);
    ReportTakesEffect(cfg, s, f, outcome);
  }

  /** No step of the run recovers a task or cancels a running one. */
  ghost predicate Undisturbed(cfg: Config, s: State, ops: seq<Op>)
    decreases |ops|
  {
    ops == [] ||
    (&& !(ops[0].RecoverTask? && IsStuck(s, ops[0].task))
     && !(ops[0].CancelTask? && ops[0].task in s.tasks && s.tasks[ops[0].task].status == Running)
     && Undisturbed(cfg, Apply(cfg, s, ops[0]), ops[1..]))
  }

  lemma {:induction false} UndisturbedFencesNobody(cfg: Config, w: Watched, ops: seq<Op>)
    requires w.fenced == {} && Undisturbed(cfg, w.s, ops)
    ensures WatchRun(cfg, w, ops).fenced == {}
    decreases |ops|
  {
    if ops != [] {
      assert FenceStep(w.s, {}, ops[0]) == {};
      UndisturbedFencesNobody(cfg, WatchStep(cfg, w, ops[0]), ops[1..]);
    }
  }

  /** Without recovery and without cancelling running tasks, no task is ever run by two workers at once. */
  lemma OneWorkerPerTask(cfg: Config, subs: seq<Subscription>, now: Time, ops: seq<Op>, f: Flight, g: Flight)
    requires Undisturbed(cfg, Init(subs, now), ops)
    requires var s := Exec(cfg, Init(subs, now), ops);
             f in s.flights && g in s.flights && f.task == g.task
    ensures f == g
  {
    WatchingChangesNothing(cfg, Start(subs, now), ops);
    UndisturbedFencesNobody(cfg, Start(subs, now), ops);
    AtMostOneUnfenced(cfg, subs, now, ops, f, g);
  }

  // ---------- the lease in time ----------

  /** A worker takes or renews a lease. */
  predicate Touches(cfg: Config, s: State, op: Op) {
    Starts(cfg, s, op) || (op.RenewLease? && op.task in s.tasks && Enabled(cfg, Renew(op.worker), s.tasks[op.task], s.now))
  }

  /** At step `i` of the run a worker takes or renews the lease of the task. */
  ghost predicate TouchAt(cfg: Config, trace: seq<State>, ops: seq<Op>, id: TaskId, i: nat) {
    i < |ops| && i < |trace| && Touches(cfg, trace[i], ops[i]) && ops[i].task == id
  }

  predicate RunningAt(trace: seq<State>, id: TaskId, j: nat) {
    j < |trace| && id in trace[j].tasks && trace[j].tasks[id].status == Running
  }

  /** Some worker took or renewed the lease of the task at most the lease time before position `j`. */
  ghost predicate HeardOf(cfg: Config, trace: seq<State>, ops: seq<Op>, id: TaskId, j: nat)
    requires j < |trace|
  {
    exists i :: 0 <= i < j && TouchAt(cfg, trace, ops, id, i) && trace[j].now <= trace[i].now + cfg.leaseSeconds
  }

  /** The lease was last taken or renewed at `i`, and counts from there. */
  ghost predicate LeasedSince(cfg: Config, trace: seq<State>, ops: seq<Op>, id: TaskId, i: nat, j: nat)
    requires RunningAt(trace, id, j)
  {
    && i < j && TouchAt(cfg, trace, ops, id, i) && (forall k :: i < k < j ==> !TouchAt(cfg, trace, ops, id, k))
    && trace[j].tasks[id].leaseExpiresAt == Some(trace[i].now + cfg.leaseSeconds)
  }

  lemma NobodyNewRuns(cfg: Config, s: State, op: Op, id: TaskId)
    requires DbInv(s) && id in Apply(cfg, s, op).tasks && id !in s.tasks
    ensures Apply(cfg, s, op).tasks[id].status != Running
  {
    NextTaskGrows(cfg, s, op);
    CreateStep(s, op);
  }

  lemma LeaseChange(cfg: Config, s: State, op: Op, id: TaskId)
    requires id in s.tasks && Enabled(cfg, ChangeOf(cfg, s, op, id), s.tasks[id], s.now)
    ensures var c := ChangeOf(cfg, s, op, id); var u := Changed(cfg, c, s.tasks[id], s.now);
            u.status == Running ==>
              if Touches(cfg, s, op) && op.task == id then u.leaseExpiresAt == Some(s.now + cfg.leaseSeconds)
              else s.tasks[id].status == Running && u.leaseExpiresAt == s.tasks[id].leaseExpiresAt
  {
    var c := ChangeOf(cfg, s, op, id);
    LeaseOf(cfg, c, s.tasks[id], s.now);
    TouchingChange(cfg, s, op, id);
  }

  lemma LeaseOf(cfg: Config, c: Change, t: Task, now: Time)
    requires Enabled(cfg, c, t, now)
    ensures var u := Changed(cfg, c, t, now);
            u.status == Running ==>
              if c.Start? || c.Renew? then u.leaseExpiresAt == Some(now + cfg.leaseSeconds)
              else t.status == Running && u.leaseExpiresAt == t.leaseExpiresAt
  {
  }

  lemma TouchingChange(cfg: Config, s: State, op: Op, id: TaskId)
    requires id in s.tasks
    ensures ChangeOf(cfg, s, op, id).Start? || ChangeOf(cfg, s, op, id).Renew? <==> Touches(cfg, s, op) && op.task == id
  {
  }

  /** A step leaves a running task with the lease it gave it or with the one it had. */
  ghost predicate LeasePassedOn(cfg: Config, s: State, op: Op, r: State, id: TaskId)
    requires id in r.tasks
  {
    if Touches(cfg, s, op) && op.task == id then r.tasks[id].leaseExpiresAt == Some(s.now + cfg.leaseSeconds)
    else id in s.tasks && s.tasks[id].status == Running && r.tasks[id].leaseExpiresAt == s.tasks[id].leaseExpiresAt
  }

  lemma LeaseStep(cfg: Config, s: State, op: Op, r: State, id: TaskId)
    requires DbInv(s) && r == Apply(cfg, s, op) && id in r.tasks && r.tasks[id].status == Running
    ensures LeasePassedOn(cfg, s, op, r, id)
  {
    if id in s.tasks {
      StepFollows(cfg, s, op);
      RowLease(cfg, s, op, r, id);
    } else {
      NobodyNewRuns(cfg, s, op, id);
    }
  }

  lemma RowLease(cfg: Config, s: State, op: Op, r: State, id: TaskId)
    requires RowsFollow(cfg, s, op, r) && id in s.tasks && id in r.tasks && r.tasks[id].status == Running
    ensures LeasePassedOn(cfg, s, op, r, id)
  {
    assert RowFollows(cfg, s, op, r, id);
    LeaseChange(cfg, s, op, id);
  }

  lemma LeaseBefore(cfg: Config, trace: seq<State>, ops: seq<Op>, id: TaskId, j: nat)
    requires FromStart(cfg, trace, ops) && 0 < j <= |ops| && RunningAt(trace, id, j)
    ensures LeasePassedOn(cfg, trace[j - 1], ops[j - 1], trace[j], id)
  {
    TraceIsSound(cfg, trace, ops, 0, j - 1);
    assert StepAt(cfg, trace, ops, j);
    LeaseStep(cfg, trace[j - 1], ops[j - 1], trace[j], id);
  }

  lemma NobodyRunsAtFirst(cfg: Config, trace: seq<State>, ops: seq<Op>, id: TaskId)
    requires FromStart(cfg, trace, ops)
    ensures !RunningAt(trace, id, 0)
  {
  }

  lemma {:induction false} LeaseHasStart(cfg: Config, trace: seq<State>, ops: seq<Op>, id: TaskId, j: nat) returns (i: nat)
    requires FromStart(cfg, trace, ops) && j <= |ops| && RunningAt(trace, id, j)
    ensures LeasedSince(cfg, trace, ops, id, i, j)
    decreases j
  {
    NobodyRunsAtFirst(cfg, trace, ops, id);
    LeaseBefore(cfg, trace, ops, id, j);
    if TouchAt(cfg, trace, ops, id, j - 1) {
      i := j - 1;
    } else {
      i := LeaseHasStart(cfg, trace, ops, id, j - 1);
    }
  }

  /** The lease of a running task has lapsed exactly if nobody was heard of. */
  lemma LapsedExactlyWhenSilent(cfg: Config, trace: seq<State>, ops: seq<Op>, id: TaskId, j: nat)
    requires FromStart(cfg, trace, ops) && j <= |ops| && RunningAt(trace, id, j)
    ensures LeaseLapsed(trace[j].tasks[id], trace[j].now) <==> !HeardOf(cfg, trace, ops, id, j)
  {
    var i := LeaseHasStart(cfg, trace, ops, id, j);
    if HeardOf(cfg, trace, ops, id, j) {
      var k :| 0 <= k < j && TouchAt(cfg, trace, ops, id, k) && trace[j].now <= trace[k].now + cfg.leaseSeconds;
      TraceIsSound(cfg, trace, ops, k, i);
    }
  }

  /** In every run a step of the recovery sweep takes a task back exactly if the task is running and no
      worker took or renewed its lease within the lease time; otherwise it changes nothing. */
  lemma RecoveredExactlyWhenSilent(cfg: Config, trace: seq<State>, ops: seq<Op>, id: TaskId, j: nat)
    requires FromStart(cfg, trace, ops) && j < |ops| && ops[j] == RecoverTask(id)
    ensures if RunningAt(trace, id, j) && !HeardOf(cfg, trace, ops, id, j)
            then id in trace[j + 1].tasks && trace[j + 1].tasks[id].status == Queued
            else trace[j + 1] == trace[j]
  {
    assert StepAt(cfg, trace, ops, j + 1);
    TraceIsSound(cfg, trace, ops, 0, j);
    if RunningAt(trace, id, j) {
      LapsedExactlyWhenSilent(cfg, trace, ops, id, j);
    } else if id in trace[j].tasks {
      assert Stamped(trace[j].tasks[id]);
    }
    RecoverEffect(trace[j], id);
  }

  /** The recovery sweep selects a task exactly if it is running and was not heard of within the lease time. */
  lemma StuckExactlyWhenSilent(cfg: Config, trace: seq<State>, ops: seq<Op>, id: TaskId, j: nat)
    requires FromStart(cfg, trace, ops) && j <= |ops|
    ensures id in StuckTasks(trace[j]) <==> RunningAt(trace, id, j) && !HeardOf(cfg, trace, ops, id, j)
  {
    TraceIsSound(cfg, trace, ops, j, j);
    if RunningAt(trace, id, j) {
      LapsedExactlyWhenSilent(cfg, trace, ops, id, j);
    } else if id in trace[j].tasks {
      assert Stamped(trace[j].tasks[id]);
    }
  }

  lemma RecoverEffect(s: State, id: TaskId)
    ensures if IsStuck(s, id) && s.tasks[id].status == Running
            then id in DoRecover(s, id).tasks && DoRecover(s, id).tasks[id].status == Queued
            else !IsStuck(s, id) ==> DoRecover(s, id) == s
  {
  }

  /** A task whose worker is heard of within the lease time whenever it is running is never recovered. */
  lemma PromptIsNeverRecovered(cfg: Config, trace: seq<State>, ops: seq<Op>, id: TaskId)
    requires FromStart(cfg, trace, ops)
    requires forall j :: 0 <= j < |ops| && RunningAt(trace, id, j) ==> HeardOf(cfg, trace, ops, id, j)
    ensures forall j :: 0 <= j < |ops| && ops[j] == RecoverTask(id) ==> trace[j + 1] == trace[j]
  {
    forall j | 0 <= j < |ops| && ops[j] == RecoverTask(id) ensures trace[j + 1] == trace[j] {
      RecoveredExactlyWhenSilent(cfg, trace, ops, id, j);
    }
  }

  /** Workers that are heard of in time, and nobody cancels a running task. */
  ghost predicate Prompt(cfg: Config, trace: seq<State>, ops: seq<Op>) {
    && |trace| == |ops| + 1
    && (forall j, id :: 0 <= j < |ops| && RunningAt(trace, id, j) ==> HeardOf(cfg, trace, ops, id, j))
    && (forall j :: 0 <= j < |ops| && ops[j].CancelTask? ==> !RunningAt(trace, ops[j].task, j))
  }

  lemma PromptStep(cfg: Config, trace: seq<State>, ops: seq<Op>, j: nat)
    requires FromStart(cfg, trace, ops) && Prompt(cfg, trace, ops) && j < |ops|
    ensures !(ops[j].RecoverTask? && IsStuck(trace[j], ops[j].task))
    ensures !(ops[j].CancelTask? && ops[j].task in trace[j].tasks && trace[j].tasks[ops[j].task].status == Running)
  {
    if ops[j].RecoverTask? && IsStuck(trace[j], ops[j].task) {
      TraceIsSound(cfg, trace, ops, 0, j);
      assert Stamped(trace[j].tasks[ops[j].task]);
      assert RunningAt(trace, ops[j].task, j);
      LapsedExactlyWhenSilent(cfg, trace, ops, ops[j].task, j);
    }
    if ops[j].CancelTask? {
      assert !RunningAt(trace, ops[j].task, j);
    }
  }

  lemma {:induction false} PromptIsUndisturbed(cfg: Config, trace: seq<State>, ops: seq<Op>, j: nat)
    requires FromStart(cfg, trace, ops) && Prompt(cfg, trace, ops) && j <= |ops|
    ensures Undisturbed(cfg, trace[j], ops[j..])
    decreases |ops| - j
  {
    if j < |ops| {
      PromptStep(cfg, trace, ops, j);
      assert StepAt(cfg, trace, ops, j + 1);
      PromptIsUndisturbed(cfg, trace, ops, j + 1);
      assert ops[j..][0] == ops[j] && ops[j..][1..] == ops[j + 1..];
    }
  }

  /** If between taking a lease, renewing it and reporting never more than the lease time passes, and no
      running task is cancelled, then no task is ever run by two workers at once. */
  lemma PromptWorkersAreAlone(cfg: Config, trace: seq<State>, ops: seq<Op>, f: Flight, g: Flight)
    requires FromStart(cfg, trace, ops) && Prompt(cfg, trace, ops)
    requires f in trace[|ops|].flights && g in trace[|ops|].flights && f.task == g.task
    ensures f == g
  {
    var subs, now :| trace[0] == Init(subs, now);
    PromptIsUndisturbed(cfg, trace, ops, 0);
    assert ops[0..] == ops && ops[..|ops|] == ops;
    TraceIsExec(cfg, trace, ops, |ops|);
    OneWorkerPerTask(cfg, subs, now, ops, f, g);
  }
}
