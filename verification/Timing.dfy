/** When the sweeps take a task, told from the steps of the run and not from the columns of its row. */
module Timing {
  import opened Rows
  import opened Store
  import opened Protocol
  import opened Steps
  import opened Selection
  import opened Sweeps
  import opened History
  import Reconcile

  // ---------- waiting for a time ----------

  /** The task has been waiting since step `i`, and the time it waits for has come: the time it was
      created with, or the failure of its attempt plus the delay after that attempt. */
  ghost predicate DueSince(cfg: Config, trace: seq<State>, ops: seq<Op>, id: TaskId, i: nat, j: nat) {
    && i < |ops|
    && (|| (InStatusSince(trace, id, RetryScheduled, i, j) && ops[i].Finish? && ops[i].flight.number > 0
            && trace[i].now + RetryDelay(cfg, ops[i].flight.number) <= trace[j].now)
        || (InStatusSince(trace, id, Scheduled, i, j) && ops[i].Create? && ops[i].scheduleAt.Some?
            && ops[i].scheduleAt.value <= trace[j].now))
  }

  /** A waiting task is due exactly if its time has come. */
  lemma DueExactly(cfg: Config, trace: seq<State>, ops: seq<Op>, id: TaskId, j: nat)
    requires FromStart(cfg, trace, ops) && j <= |ops|
    ensures id in DueTasks(cfg, trace[j]) <==> exists i: nat :: DueSince(cfg, trace, ops, id, i, j)
  {
    if id in DueTasks(cfg, trace[j]) {
      var st := trace[j].tasks[id].status;
      var i := SinceExists(cfg, trace, ops, id, st, j);
      SinceOrigin(cfg, trace, ops, id, st, i, j);
      assert DueSince(cfg, trace, ops, id, i, j);
    }
    if i: nat :| DueSince(cfg, trace, ops, id, i, j) {
      SinceOrigin(cfg, trace, ops, id, trace[j].tasks[id].status, i, j);
    }
  }

  lemma DueEffect(cfg: Config, s: State, id: TaskId)
    ensures if id in DueTasks(cfg, s) then Has(DoReleaseDue(cfg, s, id), id, Queued) else DoReleaseDue(cfg, s, id) == s
  {
  }

  /** At any step of any run the due sweep releases a task exactly if its time has come; otherwise it
      changes nothing. */
  lemma ReleasedExactlyWhenDue(cfg: Config, trace: seq<State>, ops: seq<Op>, id: TaskId, j: nat)
    requires FromStart(cfg, trace, ops) && j < |ops| && ops[j] == ReleaseDueTask(id)
    ensures if exists i: nat :: DueSince(cfg, trace, ops, id, i, j) then Has(trace[j + 1], id, Queued)
            else trace[j + 1] == trace[j]
  {
    assert StepAt(cfg, trace, ops, j + 1);
    DueExactly(cfg, trace, ops, id, j);
    DueEffect(cfg, trace[j], id);
  }

  // ---------- waiting in the dead-letter queue ----------

  /** No worker remembers more dead-letter cycles than the row counts. */
  ghost predicate CountsKnown(s: State) {
    forall f :: f in s.flights && f.task in s.tasks ==> CountKnown(s, f)
  }

  predicate CountKnown(s: State, f: Flight)
    requires f in s.flights && f.task in s.tasks
  {
    s.flights[f].dlqRequeueCount <= s.tasks[f.task].dlqRequeueCount
  }

  lemma CountGrows(cfg: Config, c: Change, t: Task, now: Time)
    requires Enabled(cfg, c, t, now)
    ensures t.dlqRequeueCount <= Changed(cfg, c, t, now).dlqRequeueCount
  {
  }

  lemma FollowedCounts(cfg: Config, s: State, op: Op, r: State)
    requires CountsKnown(s) && RowsFollow(cfg, s, op, r) && FlightsFollow(cfg, s, op, r)
    requires forall f :: f in s.flights && f.task in r.tasks ==> f.task in s.tasks
    ensures CountsKnown(r)
  {
    forall f | f in r.flights && f.task in r.tasks ensures CountKnown(r, f) {
      assert RowFollows(cfg, s, op, r, f.task);
      CountGrows(cfg, ChangeOf(cfg, s, op, f.task), s.tasks[f.task], s.now);
      assert f in s.flights ==> CountKnown(s, f);
    }
  }

  lemma StepKeepsCounts(cfg: Config, s: State, op: Op)
    requires DbInv(s) && CountsKnown(s)
    ensures CountsKnown(Apply(cfg, s, op))
  {
    var r := Apply(cfg, s, op);
    StepFollows(cfg, s, op);
    FlightsOf(cfg, s, op);
    NextTaskGrows(cfg, s, op);
    forall f | f in s.flights && f.task in r.tasks ensures f.task in s.tasks {
      assert FlightInv(s, f);
    }
    FollowedCounts(cfg, s, op, r);
  }

  lemma {:induction false} TraceKeepsCounts(cfg: Config, trace: seq<State>, ops: seq<Op>, j: nat)
    requires FromStart(cfg, trace, ops) && j <= |ops|
    ensures CountsKnown(trace[j])
    decreases j
  {
    if j > 0 {
      TraceKeepsCounts(cfg, trace, ops, j - 1);
      CountsAt(cfg, trace, ops, j);
    }
  }

  lemma CountsAt(cfg: Config, trace: seq<State>, ops: seq<Op>, j: nat)
    requires FromStart(cfg, trace, ops) && 0 < j <= |ops| && CountsKnown(trace[j - 1])
    ensures CountsKnown(trace[j])
  {
    TraceIsSound(cfg, trace, ops, j - 1, j - 1);
    assert StepAt(cfg, trace, ops, j);
    StepKeepsCounts(cfg, trace[j - 1], ops[j - 1]);
  }

  /** The task has been a dead letter since step `i`, the interval has passed, and it has a cycle left. */
  ghost predicate DeadDueSince(cfg: Config, trace: seq<State>, id: TaskId, i: nat, j: nat) {
    && InStatusSince(trace, id, DeadLetter, i, j)
    && cfg.dlqEnabled && trace[j].tasks[id].dlqRequeueCount < cfg.dlqMaxCycles
    && trace[i].now + cfg.dlqInterval <= trace[j].now
  }

  /** While the row has a cycle left, so had the worker that gave up, and the return is planned. */
  lemma ReturnIsPlanned(cfg: Config, trace: seq<State>, ops: seq<Op>, id: TaskId, i: nat, j: nat)
    requires FromStart(cfg, trace, ops) && InStatusSince(trace, id, DeadLetter, i, j)
    requires cfg.dlqEnabled && trace[j].tasks[id].dlqRequeueCount < cfg.dlqMaxCycles
    ensures trace[j].tasks[id].dlqRetryAt == Some(trace[i].now + cfg.dlqInterval)
  {
    SinceOrigin(cfg, trace, ops, id, DeadLetter, i, j);
    TraceKeepsCounts(cfg, trace, ops, i);
    assert CountKnown(trace[i], ops[i].flight);
  }

  /** A dead letter is due exactly if the interval has passed since it was given up and its row has a
      cycle left. */
  lemma DeadDueExactly(cfg: Config, trace: seq<State>, ops: seq<Op>, id: TaskId, j: nat)
    requires FromStart(cfg, trace, ops) && j <= |ops|
    ensures id in DeadDueTasks(cfg, trace[j]) <==> exists i: nat :: DeadDueSince(cfg, trace, id, i, j)
  {
    if id in DeadDueTasks(cfg, trace[j]) {
      var i := SinceExists(cfg, trace, ops, id, DeadLetter, j);
      ReturnIsPlanned(cfg, trace, ops, id, i, j);
      assert DeadDueSince(cfg, trace, id, i, j);
    }
    if i: nat :| DeadDueSince(cfg, trace, id, i, j) {
      ReturnIsPlanned(cfg, trace, ops, id, i, j);
    }
  }

  lemma DeadEffect(cfg: Config, s: State, id: TaskId)
    ensures if id in DeadDueTasks(cfg, s) then Has(DoReleaseDead(cfg, s, id), id, Queued) else DoReleaseDead(cfg, s, id) == s
  {
  }

  /** At any step of any run the dead-letter sweep takes a task back exactly if it has been a dead letter
      for the interval and its row has a cycle left; otherwise it changes nothing. */
  lemma ReturnsExactlyAfterInterval(cfg: Config, trace: seq<State>, ops: seq<Op>, id: TaskId, j: nat)
    requires FromStart(cfg, trace, ops) && j < |ops| && ops[j] == ReleaseDeadTask(id)
    ensures if exists i: nat :: DeadDueSince(cfg, trace, id, i, j) then Has(trace[j + 1], id, Queued)
            else trace[j + 1] == trace[j]
  {
    assert StepAt(cfg, trace, ops, j + 1);
    DeadDueExactly(cfg, trace, ops, id, j);
    DeadEffect(cfg, trace[j], id);
  }

  lemma DeadChange(cfg: Config, c: Change, t: Task, now: Time)
    requires Enabled(cfg, c, t, now) && t.status == DeadLetter && !c.ReleaseDeadLetter? && !c.RetryByHand?
    ensures Changed(cfg, c, t, now).status == DeadLetter
  {
  }

  lemma StepLeavesDead(cfg: Config, s: State, op: Op, r: State, id: TaskId)
    requires RowsFollow(cfg, s, op, r) && Has(s, id, DeadLetter) && id in r.tasks
    requires op != RetryTask(id) && id !in DeadDueTasks(cfg, s)
    ensures Has(r, id, DeadLetter)
  {
    assert RowFollows(cfg, s, op, r, id);
    DeadChange(cfg, ChangeOf(cfg, s, op, id), s.tasks[id], s.now);
  }

  /** Identities are never used twice. */
  lemma KnownBefore(cfg: Config, s: State, op: Op, id: TaskId)
    requires DbInv(s) && id < s.nextTask
    ensures id < Apply(cfg, s, op).nextTask && (id in Apply(cfg, s, op).tasks ==> id in s.tasks)
  {
    NextTaskGrows(cfg, s, op);
  }

  lemma {:induction false} StaysKnown(cfg: Config, trace: seq<State>, ops: seq<Op>, id: TaskId, i: nat, j: nat)
    requires FromStart(cfg, trace, ops) && i <= j <= |ops| && id in trace[i].tasks
    ensures id < trace[j].nextTask
    decreases j
  {
    if i < j {
      StaysKnown(cfg, trace, ops, id, i, j - 1);
      KnownAt(cfg, trace, ops, id, j);
    } else {
      TraceIsSound(cfg, trace, ops, j, j);
    }
  }

  lemma KnownAt(cfg: Config, trace: seq<State>, ops: seq<Op>, id: TaskId, j: nat)
    requires FromStart(cfg, trace, ops) && 0 < j <= |ops| && id < trace[j - 1].nextTask
    ensures id < trace[j].nextTask && (id in trace[j].tasks ==> id in trace[j - 1].tasks)
  {
    TraceIsSound(cfg, trace, ops, j - 1, j - 1);
    assert StepAt(cfg, trace, ops, j);
    KnownBefore(cfg, trace[j - 1], ops[j - 1], id);
  }

  lemma WasThere(cfg: Config, trace: seq<State>, ops: seq<Op>, id: TaskId, i: nat, j: nat)
    requires FromStart(cfg, trace, ops) && i < j <= |ops| && id in trace[i].tasks && id in trace[j].tasks
    ensures id in trace[j - 1].tasks
  {
    StaysKnown(cfg, trace, ops, id, i, j - 1);
    KnownAt(cfg, trace, ops, id, j);
  }

  /** A task given up at step `i` cannot come back yet, or ever. */
  ghost predicate HeldDown(cfg: Config, trace: seq<State>, id: TaskId, i: nat, j: nat)
    requires i + 1 < |trace| && j < |trace| && id in trace[i + 1].tasks
  {
    || trace[j].now < trace[i].now + cfg.dlqInterval
    || !cfg.dlqEnabled || trace[i + 1].tasks[id].dlqRequeueCount >= cfg.dlqMaxCycles
  }

  lemma DeadAt(cfg: Config, trace: seq<State>, ops: seq<Op>, id: TaskId, i: nat, j: nat)
    requires FromStart(cfg, trace, ops) && InStatusSince(trace, id, DeadLetter, i, j) && j < |ops|
    requires id in trace[i + 1].tasks && HeldDown(cfg, trace, id, i, j) && id in trace[j + 1].tasks && ops[j] != RetryTask(id)
    ensures Has(trace[j + 1], id, DeadLetter)
  {
    SinceOrigin(cfg, trace, ops, id, DeadLetter, i, j);
    DeadDueExactly(cfg, trace, ops, id, j);
    if h: nat :| DeadDueSince(cfg, trace, id, h, j) {
      SinceIsUnique(trace, id, DeadLetter, h, i, j);
    }
    LeftDeadAt(cfg, trace, ops, id, j);
  }

  lemma LeftDeadAt(cfg: Config, trace: seq<State>, ops: seq<Op>, id: TaskId, j: nat)
    requires FromStart(cfg, trace, ops) && j < |ops| && Has(trace[j], id, DeadLetter) && id in trace[j + 1].tasks
    requires ops[j] != RetryTask(id) && id !in DeadDueTasks(cfg, trace[j])
    ensures Has(trace[j + 1], id, DeadLetter)
  {
    TraceIsSound(cfg, trace, ops, j, j);
    assert StepAt(cfg, trace, ops, j + 1);
    OpLeavesDead(cfg, trace[j], ops[j], id);
  }

  lemma OpLeavesDead(cfg: Config, s: State, op: Op, id: TaskId)
    requires DbInv(s) && Has(s, id, DeadLetter) && id in Apply(cfg, s, op).tasks
    requires op != RetryTask(id) && id !in DeadDueTasks(cfg, s)
    ensures Has(Apply(cfg, s, op), id, DeadLetter)
  {
    StepFollows(cfg, s, op);
    StepLeavesDead(cfg, s, op, Apply(cfg, s, op), id);
  }

  lemma HeldEarlier(cfg: Config, trace: seq<State>, ops: seq<Op>, id: TaskId, i: nat, j: nat)
    requires FromStart(cfg, trace, ops) && i + 1 < j <= |ops| && id in trace[i + 1].tasks && HeldDown(cfg, trace, id, i, j)
    ensures HeldDown(cfg, trace, id, i, j - 1)
  {
    TraceIsSound(cfg, trace, ops, j - 1, j);
  }

  lemma SinceLonger(trace: seq<State>, id: TaskId, st: Status, i: nat, j: nat)
    requires 0 < j < |trace| && InStatusSince(trace, id, st, i, j - 1) && Has(trace[j], id, st)
    ensures InStatusSince(trace, id, st, i, j)
  {
  }

  /** Manual retries apart, a task that was given up at a clock T stays a dead letter until T plus the
      interval, and for ever if returns are disabled or its row had no cycle left. */
  lemma {:induction false} StaysDead(cfg: Config, trace: seq<State>, ops: seq<Op>, id: TaskId, i: nat, j: nat)
    requires FromStart(cfg, trace, ops) && i < j <= |ops|
    requires !Has(trace[i], id, DeadLetter) && Has(trace[i + 1], id, DeadLetter)
    requires forall k :: i < k < j ==> ops[k] != RetryTask(id)
    requires HeldDown(cfg, trace, id, i, j) && id in trace[j].tasks
    ensures InStatusSince(trace, id, DeadLetter, i, j)
    decreases j
  {
    if j > i + 1 {
      WasThere(cfg, trace, ops, id, i + 1, j);
      HeldEarlier(cfg, trace, ops, id, i, j);
      StaysDead(cfg, trace, ops, id, i, j - 1);
      DeadAt(cfg, trace, ops, id, i, j - 1);
      SinceLonger(trace, id, DeadLetter, i, j);
    }
  }

  /** A worker that knew of no cycle left was right: the task never comes back by itself. */
  lemma NoCycleKnown(cfg: Config, trace: seq<State>, ops: seq<Op>, id: TaskId, i: nat)
    requires FromStart(cfg, trace, ops) && i < |ops|
    requires !Has(trace[i], id, DeadLetter) && Has(trace[i + 1], id, DeadLetter)
    ensures ops[i].Finish? && ops[i].flight in trace[i].flights
    ensures trace[i].flights[ops[i].flight].dlqRequeueCount <= trace[i + 1].tasks[id].dlqRequeueCount
  {
    OriginAt(cfg, trace, ops, id, DeadLetter, i);
    TraceKeepsCounts(cfg, trace, ops, i);
    assert CountKnown(trace[i], ops[i].flight);
  }

  // ---------- orphans ----------

  /** A task is an orphan exactly if it has been queued, without a break, for the reconcile time. */
  lemma OrphanExactlyWhenQueuedLong(cfg: Config, trace: seq<State>, ops: seq<Op>, id: TaskId, j: nat)
    requires FromStart(cfg, trace, ops) && j <= |ops|
    ensures id in OrphanTasks(cfg, trace[j])
            <==> exists i: nat :: InStatusSince(trace, id, Queued, i, j) && trace[i].now + cfg.reconcileSeconds <= trace[j].now
  {
    TraceIsSound(cfg, trace, ops, j, j);
    Reconcile.OrphansAreStale(cfg, trace[j]);
    if Has(trace[j], id, Queued) {
      var i := SinceExists(cfg, trace, ops, id, Queued, j);
      SinceOrigin(cfg, trace, ops, id, Queued, i, j);
      forall h: nat | InStatusSince(trace, id, Queued, h, j) ensures h == i {
        SinceIsUnique(trace, id, Queued, h, i, j);
      }
    }
  }

  // ---------- who is taken first ----------

  /** The due sweep takes the earliest times first. */
  lemma DueFirst(cfg: Config, s: State, ids: seq<TaskId>, limit: nat, x: TaskId, y: TaskId)
    requires Selected(ids, DueTasks(cfg, s), DueKey(s), limit) && x in ids && y in DueTasks(cfg, s) && y !in ids
    ensures x in s.tasks && s.tasks[x].scheduledAt.Some? && s.tasks[y].scheduledAt.Some?
    ensures s.tasks[x].scheduledAt.value <= s.tasks[y].scheduledAt.value
  {
  }

  /** The dead-letter sweep takes the earliest planned returns first. */
  lemma DeadDueFirst(cfg: Config, s: State, ids: seq<TaskId>, limit: nat, x: TaskId, y: TaskId)
    requires Selected(ids, DeadDueTasks(cfg, s), DeadDueKey(s), limit) && x in ids && y in DeadDueTasks(cfg, s) && y !in ids
    ensures x in s.tasks && s.tasks[x].dlqRetryAt.Some? && s.tasks[y].dlqRetryAt.Some?
    ensures s.tasks[x].dlqRetryAt.value <= s.tasks[y].dlqRetryAt.value
  {
  }

  /** The recovery sweep takes the leases that lapsed first. */
  lemma StuckFirst(s: State, ids: seq<TaskId>, limit: nat, x: TaskId, y: TaskId)
    requires Selected(ids, StuckTasks(s), StuckKey(s), limit) && x in ids && y in StuckTasks(s) && y !in ids
    ensures x in s.tasks && s.tasks[x].leaseExpiresAt.Some? && s.tasks[y].leaseExpiresAt.Some?
    ensures s.tasks[x].leaseExpiresAt.value <= s.tasks[y].leaseExpiresAt.value
  {
  }
}
