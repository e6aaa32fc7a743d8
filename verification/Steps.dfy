/** What a step does to every row, and the invariant of the database that every step keeps. */
module Steps {
  import opened Rows
  import opened Store
  import opened Cascade
  import opened Dependencies
  import opened Protocol

  // ---------- the change a step makes to each row ----------

  /** The change that `op` makes to the row `id`, told without running the operation. */
  ghost function ChangeOf(cfg: Config, s: State, op: Op, id: TaskId): Change
    requires id in s.tasks
  {
    match op
    case Receive(task, worker) =>
      if id == task && s.broker[task] > 0 && Enabled(cfg, Start(worker), s.tasks[id], s.now) then Start(worker) else Same
    case Finish(f, outcome) => FinishChange(s, f, outcome, id)
    case RenewLease(task, worker) =>
      if id == task && Enabled(cfg, Renew(worker), s.tasks[id], s.now) then Renew(worker) else Same
    case ReleaseDueTask(task) => if id == task && IsDue(cfg, s, id) then ReleaseDue else Same
    case ReleaseDeadTask(task) => if id == task && IsDeadDue(cfg, s, id) then ReleaseDeadLetter else Same
    case RecoverTask(task) => if id == task && IsStuck(s, id) then Recover else Same
    case RetryTask(task) => if id == task && Retryable(s.tasks[id].status) then RetryByHand else Same
    case CancelTask(task) =>
      if task in s.tasks && Cancelable(s.tasks[task].status) && (id == task || id in Dependents(s, task)) then Cancel
      else Same
    case _ => Same
  }

  ghost function FinishChange(s: State, f: Flight, outcome: Outcome, id: TaskId): Change
    requires id in s.tasks
  {
    if f !in s.flights || f.task !in s.tasks then Same
    else if id == f.task then
      if outcome == Completed then Succeed(f.number)
      else Fail(f.number, s.flights[f], outcome == RetryableError)
    else if s.tasks[f.task].status != Running then Same
    else if outcome == Completed then if id in FreedBy(s, f.task) then Unblock else Same
    else if FailureStatus(s.tasks[f.task].maxAttempts, s.flights[f], outcome == RetryableError) == RetryScheduled then Same
    else if id in Dependents(s, f.task) then Cancel
    else Same
  }

  ghost predicate RowFollows(cfg: Config, s: State, op: Op, r: State, id: TaskId)
    requires id in s.tasks && id in r.tasks
  {
    && Enabled(cfg, ChangeOf(cfg, s, op, id), s.tasks[id], s.now)
    && r.tasks[id] == Changed(cfg, ChangeOf(cfg, s, op, id), s.tasks[id], s.now)
  }

  ghost predicate RowsFollow(cfg: Config, s: State, op: Op, r: State) {
    forall id :: id in s.tasks && id in r.tasks ==> RowFollows(cfg, s, op, r, id)
  }

  // ---------- the invariant ----------

  ghost predicate TasksInv(s: State) {
    forall id :: id in s.tasks ==> id < s.nextTask && RowInv(s.tasks[id])
  }

  /** Edges join existing tasks and always lead from an older task to a younger one. */
  ghost predicate EdgesInv(s: State) {
    forall e :: e in s.edges ==> e.parent in s.tasks && e.child in s.tasks && e.parent < e.child
  }

  /** A worker's snapshot is the one of its own attempt. */
  ghost predicate FlightInv(s: State, f: Flight)
    requires f in s.flights
  {
    && f.task < s.nextTask
    && s.flights[f].attempts == f.number
    && (f.task in s.tasks ==>
          && f.number <= s.tasks[f.task].attempts == |s.tasks[f.task].rows|
          && s.tasks[f.task].rows[f.number - 1].worker == s.flights[f].worker)
  }

  ghost predicate FlightsInv(s: State) {
    forall f :: f in s.flights ==> FlightInv(s, f)
  }

  ghost predicate DbInv(s: State) {
    TasksInv(s) && EdgesInv(s) && OutboxInv(s) && FlightsInv(s)
  }

  /** Nothing but `id`'s row may differ, and the graph is the same. */
  ghost predicate SameGraph(s: State, r: State) {
    r.tasks.Keys == s.tasks.Keys && r.edges == s.edges && r.nextTask == s.nextTask
  }

  // ---------- operations on a single row ----------

  lemma ReceiveStep(cfg: Config, s: State, id: TaskId, worker: WorkerId)
    ensures RowsFollow(cfg, s, Receive(id, worker), Apply(cfg, s, Receive(id, worker))) && SameGraph(s, Apply(cfg, s, Receive(id, worker)))
  {
    var r := DoReceive(cfg, s, id, worker);
    ReceiveFrame(cfg, s, id, worker);
    forall x | x in s.tasks ensures RowFollows(cfg, s, Receive(id, worker), r, x) {
      ReceiveRow(cfg, s, id, worker, r, x);
    }
  }

  lemma ReceiveFrame(cfg: Config, s: State, id: TaskId, worker: WorkerId)
    ensures var r := DoReceive(cfg, s, id, worker);
            && SameGraph(s, r)
            && r.tasks == if s.broker[id] > 0 && id in s.tasks && Enabled(cfg, Start(worker), s.tasks[id], s.now)
                          then s.tasks[id := Started(cfg, s.tasks[id], worker, s.now)] else s.tasks
  {
  }

  lemma ReceiveRow(cfg: Config, s: State, id: TaskId, worker: WorkerId, r: State, x: TaskId)
    requires x in s.tasks && x in r.tasks
    requires r.tasks == if s.broker[id] > 0 && id in s.tasks && Enabled(cfg, Start(worker), s.tasks[id], s.now)
                        then s.tasks[id := Started(cfg, s.tasks[id], worker, s.now)] else s.tasks
    ensures RowFollows(cfg, s, Receive(id, worker), r, x)
  {
  }

  lemma RenewStep(cfg: Config, s: State, id: TaskId, worker: WorkerId)
    ensures RowsFollow(cfg, s, RenewLease(id, worker), Apply(cfg, s, RenewLease(id, worker))) && SameGraph(s, Apply(cfg, s, RenewLease(id, worker)))
  {
  }

  lemma ReleaseDueStep(cfg: Config, s: State, id: TaskId)
    ensures RowsFollow(cfg, s, ReleaseDueTask(id), Apply(cfg, s, ReleaseDueTask(id))) && SameGraph(s, Apply(cfg, s, ReleaseDueTask(id)))
  {
  }

  lemma ReleaseDeadStep(cfg: Config, s: State, id: TaskId)
    ensures RowsFollow(cfg, s, ReleaseDeadTask(id), Apply(cfg, s, ReleaseDeadTask(id))) && SameGraph(s, Apply(cfg, s, ReleaseDeadTask(id)))
  {
  }

  lemma RecoverStep(cfg: Config, s: State, id: TaskId)
    requires TasksInv(s)
    ensures RowsFollow(cfg, s, RecoverTask(id), Apply(cfg, s, RecoverTask(id)))
    ensures SameGraph(s, Apply(cfg, s, RecoverTask(id)))
  {
    if IsStuck(s, id) {
      assert Stamped(s.tasks[id]);
      RecoverRunning(cfg, s, id);
    } else {
      RecoverNothing(cfg, s, id);
    }
  }

  lemma RecoverNothing(cfg: Config, s: State, id: TaskId)
    requires !IsStuck(s, id)
    ensures RowsFollow(cfg, s, RecoverTask(id), Apply(cfg, s, RecoverTask(id))) && SameGraph(s, Apply(cfg, s, RecoverTask(id)))
  {
  }

  lemma RecoverRunning(cfg: Config, s: State, id: TaskId)
    requires IsStuck(s, id) && s.tasks[id].status == Running
    ensures RowsFollow(cfg, s, RecoverTask(id), Apply(cfg, s, RecoverTask(id))) && SameGraph(s, Apply(cfg, s, RecoverTask(id)))
  {
  }

  lemma RetryStep(cfg: Config, s: State, id: TaskId)
    ensures RowsFollow(cfg, s, RetryTask(id), Apply(cfg, s, RetryTask(id))) && SameGraph(s, Apply(cfg, s, RetryTask(id)))
  {
  }

  /** Steps that touch no row at all. */
  predicate Quiet(op: Op) {
    op.Relay? || op.RepublishTask? || op.PurgeOutbox? || op.Tick? || op.Lose? || op.Redeliver? || op.Crash?
  }

  lemma QuietRows(cfg: Config, s: State, op: Op)
    requires Quiet(op)
    ensures Apply(cfg, s, op).tasks == s.tasks && SameGraph(s, Apply(cfg, s, op))
    ensures Apply(cfg, s, op).subs == s.subs && Apply(cfg, s, op).hooks == s.hooks
  {
    if op.Relay? {
      RelayFrame(s, op.row, op.how);
    }
  }

  lemma RelayFrame(s: State, row: nat, how: RelayOutcome)
    ensures var r := DoRelay(s, row, how); r == s.(outbox := r.outbox, broker := r.broker)
  {
  }

  lemma QuietStep(cfg: Config, s: State, op: Op, r: State)
    requires Quiet(op) && r.tasks == s.tasks
    ensures RowsFollow(cfg, s, op, r)
  {
  }

  // ---------- operations that cascade ----------

  /** The cascade depends only on the statuses and the edges. */
  lemma DependentsSame(s: State, r: State, root: TaskId)
    requires CreatedTasks(s) == CreatedTasks(r) && s.edges == r.edges
    ensures Dependents(s, root) == Dependents(r, root)
  {
    forall id ensures BlockedBehind(s, root, id) <==> BlockedBehind(r, root, id) {
      if BlockedBehind(s, root, id) { BlockedEarlier(r, s, root, id); }
      if BlockedBehind(r, root, id) { BlockedEarlier(s, r, root, id); }
    }
  }

  lemma FreedSame(s: State, r: State, root: TaskId)
    requires CreatedTasks(s) == CreatedTasks(r) && s.edges == r.edges && s.tasks.Keys == r.tasks.Keys
    requires forall id :: id in s.tasks && id != root ==> s.tasks[id] == r.tasks[id]
    ensures FreedBy(s, root) == FreedBy(r, root)
  {
  }

  lemma CancelRow(cfg: Config, s: State, id: TaskId, r: State, x: TaskId)
    requires id in s.tasks && Cancelable(s.tasks[id].status) && x in s.tasks && x in r.tasks
    requires r.tasks[x] == if x == id || x in Dependents(s, id) then Moved(s.tasks[x], Cancelled, TaskCancelled, s.now) else s.tasks[x]
    ensures RowFollows(cfg, s, CancelTask(id), r, x)
  {
  }

  lemma CancelRows(cfg: Config, s: State, id: TaskId, r: State)
    requires id in s.tasks && Cancelable(s.tasks[id].status)
    requires CancelledBehind(s, id, Cancelled, TaskCancelled, r)
    ensures RowsFollow(cfg, s, CancelTask(id), r)
  {
    forall x | x in s.tasks ensures RowFollows(cfg, s, CancelTask(id), r, x) {
      CancelRow(cfg, s, id, r, x);
    }
  }

  lemma CancelStep(cfg: Config, s: State, id: TaskId)
    ensures var r := DoCancel(s, id);
            && RowsFollow(cfg, s, CancelTask(id), r) && SameGraph(s, r)
            && r == s.(tasks := r.tasks, hooks := r.hooks)
  {
    if id in s.tasks && Cancelable(s.tasks[id].status) {
      FailureCascade(s, id, Cancelled, TaskCancelled);
      CancelRows(cfg, s, id, SetStatus(s, id, Cancelled, TaskCancelled));
    }
  }

  lemma LandedSame(s: State, f: Flight, t: Task)
    requires f.task in s.tasks && t.status == s.tasks[f.task].status
    ensures var landed := WithRow(s.(flights := s.flights - {f}), f.task, t);
            && Dependents(landed, f.task) == Dependents(s, f.task)
            && FreedBy(landed, f.task) == FreedBy(s, f.task)
  {
    var landed := WithRow(s.(flights := s.flights - {f}), f.task, t);
    assert CreatedTasks(landed) == CreatedTasks(s);
    DependentsSame(s, landed, f.task);
    FreedSame(s, landed, f.task);
  }

  lemma SuccessOwnRow(cfg: Config, s: State, f: Flight, r: State)
    requires f in s.flights && f.task in s.tasks && f.task in r.tasks && s.tasks[f.task].status == Running
    requires 1 <= f.number <= |s.tasks[f.task].rows|
    requires r.tasks[f.task]
             == Moved(Reported(s.tasks[f.task], f.number, AttemptSuccess, s.now).(finishedAt := Some(s.now)), Success, TaskSucceeded, s.now)
    ensures RowFollows(cfg, s, Finish(f, Completed), r, f.task)
  {
  }

  lemma SuccessOtherRow(cfg: Config, s: State, f: Flight, r: State, id: TaskId)
    requires f in s.flights && f.task in s.tasks && s.tasks[f.task].status == Running
    requires id in s.tasks && id in r.tasks && id != f.task
    requires r.tasks[id] == if id in FreedBy(s, f.task) then Moved(s.tasks[id], Queued, TaskUnblocked, s.now) else s.tasks[id]
    ensures RowFollows(cfg, s, Finish(f, Completed), r, id)
  {
  }

  lemma SuccessRows(cfg: Config, s: State, f: Flight, landed: State, r: State)
    requires f in s.flights && f.task in s.tasks && s.tasks[f.task].status == Running
    requires 1 <= f.number <= |s.tasks[f.task].rows|
    requires landed == WithRow(s.(flights := s.flights - {f}), f.task,
                               Reported(s.tasks[f.task], f.number, AttemptSuccess, s.now).(finishedAt := Some(s.now)))
    requires FreedBehind(landed, f.task, TaskSucceeded, r) && FreedBy(landed, f.task) == FreedBy(s, f.task)
    ensures RowsFollow(cfg, s, Finish(f, Completed), r)
  {
    forall id | id in s.tasks ensures RowFollows(cfg, s, Finish(f, Completed), r, id) {
      if id == f.task {
        SuccessOwnRow(cfg, s, f, r);
      } else {
        SuccessOtherRow(cfg, s, f, r, id);
      }
    }
  }

  lemma FinishSuccessStep(cfg: Config, s: State, f: Flight)
    requires FlightsInv(s) && OutboxInv(s) && f in s.flights && f.task in s.tasks && s.tasks[f.task].status == Running
    ensures var r := DoFinish(cfg, s, f, Completed);
            && RowsFollow(cfg, s, Finish(f, Completed), r) && SameGraph(s, r)
            && OutboxInv(r) && OutboxGrows(s, r)
            && r.nextOutbox == s.nextOutbox + |FreedBy(s, f.task)|
            && r == s.(tasks := r.tasks, hooks := r.hooks, outbox := r.outbox, nextOutbox := r.nextOutbox,
                       flights := s.flights - {f})
            && (forall id :: id in FreedBy(s, f.task) ==> HasPending(r, id))
  {
    var reported := Reported(s.tasks[f.task], f.number, AttemptSuccess, s.now).(finishedAt := Some(s.now));
    var landed := WithRow(s.(flights := s.flights - {f}), f.task, reported);
    LandedSame(s, f, reported);
    SuccessCascade(landed, f.task, TaskSucceeded);
    assert FlightInv(s, f);
    SuccessRows(cfg, s, f, landed, SetStatus(landed, f.task, Success, TaskSucceeded));
  }

  lemma FailureOwnRow(cfg: Config, s: State, f: Flight, outcome: Outcome, moved: State)
    requires f in s.flights && f.task in s.tasks && s.tasks[f.task].status == Running && outcome != Completed
    requires 1 <= f.number <= |s.tasks[f.task].rows| && s.flights[f].attempts == f.number
    requires f.task in moved.tasks
    requires var t := s.tasks[f.task]; var snap := s.flights[f]; var retryable := outcome == RetryableError;
             moved.tasks[f.task]
             == Moved(FailurePrepared(cfg, t, f.number, snap, retryable, s.now),
                      FailureStatus(t.maxAttempts, snap, retryable), FailureKind(t.maxAttempts, snap, retryable), s.now)
    ensures RowFollows(cfg, s, Finish(f, outcome),
                       WithRow(moved, f.task, FailureSettled(cfg, moved.tasks[f.task], s.flights[f], s.now)), f.task)
  {
  }

  lemma FailureOtherRow(cfg: Config, s: State, f: Flight, outcome: Outcome, r: State, id: TaskId)
    requires f in s.flights && f.task in s.tasks && s.tasks[f.task].status == Running && outcome != Completed
    requires id in s.tasks && id in r.tasks && id != f.task
    requires var next := FailureStatus(s.tasks[f.task].maxAttempts, s.flights[f], outcome == RetryableError);
             r.tasks[id] ==
               if next != RetryScheduled && id in Dependents(s, f.task)
               then Moved(s.tasks[id], Cancelled, TaskCancelled, s.now) else s.tasks[id]
    ensures RowFollows(cfg, s, Finish(f, outcome), r, id)
  {
  }

  lemma FinishFailureStep(cfg: Config, s: State, f: Flight, outcome: Outcome)
    requires FlightsInv(s) && f in s.flights && f.task in s.tasks && s.tasks[f.task].status == Running
    requires outcome != Completed
    ensures var r := DoFinish(cfg, s, f, outcome);
            && RowsFollow(cfg, s, Finish(f, outcome), r) && SameGraph(s, r)
            && r == s.(tasks := r.tasks, hooks := r.hooks, flights := s.flights - {f})
  {
    var t := s.tasks[f.task];
    var snap := s.flights[f];
    var retryable := outcome == RetryableError;
    var prepared := FailurePrepared(cfg, t, f.number, snap, retryable, s.now);
    var landed := WithRow(s.(flights := s.flights - {f}), f.task, prepared);
    LandedSame(s, f, prepared);
    var moved := FailureMoves(s, f, landed, FailureStatus(t.maxAttempts, snap, retryable),
                              FailureKind(t.maxAttempts, snap, retryable));
    var r := WithRow(moved, f.task, FailureSettled(cfg, moved.tasks[f.task], snap, s.now));
    assert r == DoFinish(cfg, s, f, outcome);
    assert FlightInv(s, f);
    FailureOwnRow(cfg, s, f, outcome, moved);
    FailureOtherRows(cfg, s, f, outcome, r);
  }

  lemma FailureOtherRows(cfg: Config, s: State, f: Flight, outcome: Outcome, r: State)
    requires f in s.flights && f.task in s.tasks && s.tasks[f.task].status == Running && outcome != Completed
    requires r.tasks.Keys == s.tasks.Keys && RowFollows(cfg, s, Finish(f, outcome), r, f.task)
    requires var next := FailureStatus(s.tasks[f.task].maxAttempts, s.flights[f], outcome == RetryableError);
             forall id :: id in s.tasks && id != f.task ==>
               r.tasks[id] ==
                 if next != RetryScheduled && id in Dependents(s, f.task)
                 then Moved(s.tasks[id], Cancelled, TaskCancelled, s.now) else s.tasks[id]
    ensures RowsFollow(cfg, s, Finish(f, outcome), r)
  {
    forall id | id in s.tasks && id != f.task ensures RowFollows(cfg, s, Finish(f, outcome), r, id) {
      FailureOtherRow(cfg, s, f, outcome, r, id);
    }
  }

  lemma FailureMoves(s: State, f: Flight, landed: State, next: Status, kind: EventKind) returns (moved: State)
    requires f.task in s.tasks && f.task in landed.tasks && landed.tasks[f.task].status == Running
    requires landed == WithRow(s.(flights := s.flights - {f}), f.task, landed.tasks[f.task])
    requires next == RetryScheduled || next == DeadLetter || next == Failed
    requires Dependents(landed, f.task) == Dependents(s, f.task)
    ensures moved == SetStatus(landed, f.task, next, kind)
    ensures moved == landed.(tasks := moved.tasks, hooks := moved.hooks) && moved.tasks.Keys == s.tasks.Keys
    ensures moved.tasks[f.task] == Moved(landed.tasks[f.task], next, kind, s.now)
    ensures forall id :: id in s.tasks && id != f.task ==>
              moved.tasks[id] ==
                if next != RetryScheduled && id in Dependents(s, f.task)
                then Moved(s.tasks[id], Cancelled, TaskCancelled, s.now) else s.tasks[id]
  {
    moved := SetStatus(landed, f.task, next, kind);
    if next != RetryScheduled {
      FailureCascade(landed, f.task, next, kind);
    }
  }

  /** A worker whose task no longer runs only reports its own attempt row. */
  lemma FinishLateStep(cfg: Config, s: State, f: Flight, outcome: Outcome)
    requires FlightsInv(s)
    requires f in s.flights && f.task in s.tasks ==> s.tasks[f.task].status != Running
    ensures var r := DoFinish(cfg, s, f, outcome);
            && RowsFollow(cfg, s, Finish(f, outcome), r) && SameGraph(s, r)
            && r == s.(tasks := r.tasks, flights := s.flights - {f})
  {
    if f in s.flights {
      assert FlightInv(s, f);
    } else {
      assert s.flights - {f} == s.flights;
    }
  }

  lemma FinishStep(cfg: Config, s: State, f: Flight, outcome: Outcome)
    requires DbInv(s)
    ensures var r := DoFinish(cfg, s, f, outcome);
            && RowsFollow(cfg, s, Finish(f, outcome), r) && SameGraph(s, r)
            && OutboxInv(r) && OutboxGrows(s, r)
            && r == s.(tasks := r.tasks, hooks := r.hooks, outbox := r.outbox, nextOutbox := r.nextOutbox,
                       flights := s.flights - {f})
  {
    if f in s.flights && f.task in s.tasks && s.tasks[f.task].status == Running {
      if outcome == Completed {
        FinishSuccessStep(cfg, s, f);
      } else {
        FinishFailureStep(cfg, s, f, outcome);
      }
    } else {
      FinishLateStep(cfg, s, f, outcome);
    }
  }

  // ---------- creation and deletion ----------

  /** A row whose log goes on from `created` to `status` without an attempt. */
  lemma OneMoreEntry(t: Task, u: Task, e: Event)
    requires RowInv(t) && t.status == Created && u.log == t.log + [e] && e.oldStatus == Created && e.newStatus == u.status
    requires u.status == Created || u.status == Queued || u.status == Scheduled
    requires u.attempts == t.attempts && u.rows == t.rows && u.dlqRequeueCount == t.dlqRequeueCount && Stamped(u)
    ensures RowInv(u)
  {
    ReplaysAppend(t.log, e);
    TallyOfAppend(t.log, e);
    BumpBalanced(TallyOf(t.log), e, t.attempts, t.dlqRequeueCount);
  }

  lemma FirstEntry(maxAttempts: nat, scheduleAt: Option<Time>, batch: Option<nat>, now: Time)
    ensures RowInv(FreshRow(maxAttempts, scheduleAt, batch, now))
  {
    var row := FreshRow(maxAttempts, scheduleAt, batch, now);
    TallyOfAppend([], row.log[0]);
    assert [] + [row.log[0]] == row.log;
  }

  lemma FreshRowInv(maxAttempts: nat, scheduleAt: Option<Time>, batch: Option<nat>, now: Time)
    ensures var row := FreshRow(maxAttempts, scheduleAt, batch, now);
            && RowInv(row) && RowInv(Blocked(row))
            && RowInv(Moved(row, Queued, TaskQueued, now))
            && (scheduleAt.Some? ==> RowInv(Moved(row, Scheduled, TaskScheduled, now)))
  {
    var row := FreshRow(maxAttempts, scheduleAt, batch, now);
    FirstEntry(maxAttempts, scheduleAt, batch, now);
    OneMoreEntry(row, Blocked(row), Event(TaskBlocked, Created, Created));
    OneMoreEntry(row, Moved(row, Queued, TaskQueued, now), Event(TaskQueued, Created, Queued));
    if scheduleAt.Some? {
      OneMoreEntry(row, Moved(row, Scheduled, TaskScheduled, now), Event(TaskScheduled, Created, Scheduled));
    }
  }

  /** The row a creation inserts. */
  ghost function CreatedRow(s: State, op: Op): Task
    requires op.Create?
  {
    var row := FreshRow(op.maxAttempts, op.scheduleAt, op.batch, s.now);
    if op.dependsOn != [] then Blocked(row)
    else if op.scheduleAt.Some? && op.scheduleAt.value > s.now then Moved(row, Scheduled, TaskScheduled, s.now)
    else Moved(row, Queued, TaskQueued, s.now)
  }

  /** The effect of a creation that is not refused: one row, its edges, and an outbox row if it is ready at once. */
  ghost predicate Inserted(s: State, op: Op, r: State)
    requires op.Create?
  {
    var id := s.nextTask;
    && r == s.(tasks := s.tasks[id := CreatedRow(s, op)], edges := s.edges + EdgesTo(id, WithoutRepeats(op.dependsOn)),
               nextTask := id + 1, hooks := r.hooks, outbox := r.outbox, nextOutbox := r.nextOutbox)
    && (forall p :: p in op.dependsOn ==> p in s.tasks)
    && (if r.tasks[id].status == Queued
        then r.outbox == s.outbox[s.nextOutbox := OutboxRow(id, Pending, 0, None)] && r.nextOutbox == s.nextOutbox + 1
        else r.outbox == s.outbox && r.nextOutbox == s.nextOutbox)
  }

  /** Nothing but the status moves when a fresh task is queued or scheduled. */
  lemma FreshMoves(s: State, id: TaskId, next: Status, kind: EventKind)
    requires id in s.tasks && s.tasks[id].status == Created && (next == Queued || next == Scheduled)
    ensures SetStatus(s, id, next, kind) == Put(s, id, next, kind)
  {
  }

  lemma CreateReady(s: State, op: Op, added: State, next: Status, kind: EventKind)
    requires op.Create? && op.dependsOn == [] && added == Added(s, op.maxAttempts, op.scheduleAt, op.batch)
    requires next == Queued || next == Scheduled
    ensures var row := FreshRow(op.maxAttempts, op.scheduleAt, op.batch, s.now);
            var moved := SetStatus(added, s.nextTask, next, kind);
            moved == s.(tasks := s.tasks[s.nextTask := Moved(row, next, kind, s.now)],
                        nextTask := s.nextTask + 1, hooks := moved.hooks)
  {
    var row := FreshRow(op.maxAttempts, op.scheduleAt, op.batch, s.now);
    FreshMoves(added, s.nextTask, next, kind);
    assert s.tasks[s.nextTask := row][s.nextTask := Moved(row, next, kind, s.now)]
        == s.tasks[s.nextTask := Moved(row, next, kind, s.now)];
  }

  lemma CreateBlocked(s: State, op: Op)
    requires op.Create? && s.nextTask !in s.tasks && op.dependsOn != []
    ensures var r := DoCreate(s, op.maxAttempts, op.scheduleAt, op.batch, op.dependsOn);
            r == s || Inserted(s, op, r)
  {
    var row := FreshRow(op.maxAttempts, op.scheduleAt, op.batch, s.now);
    assert s.tasks[s.nextTask := row][s.nextTask := Blocked(row)] == s.tasks[s.nextTask := Blocked(row)];
  }

  lemma InsertedReady(s: State, op: Op, moved: State, r: State)
    requires op.Create? && s.nextTask !in s.tasks && op.dependsOn == []
    requires moved == s.(tasks := s.tasks[s.nextTask := CreatedRow(s, op)], nextTask := s.nextTask + 1, hooks := moved.hooks)
    requires r == if CreatedRow(s, op).status == Queued then AddOutbox(moved, s.nextTask) else moved
    ensures Inserted(s, op, r)
  {
    assert WithoutRepeats(op.dependsOn) == [];
    assert s.edges + EdgesTo(s.nextTask, []) == s.edges;
  }

  lemma CreateAtOnce(s: State, op: Op)
    requires op.Create? && s.nextTask !in s.tasks && op.dependsOn == []
    ensures Inserted(s, op, DoCreate(s, op.maxAttempts, op.scheduleAt, op.batch, op.dependsOn))
  {
    var added := Added(s, op.maxAttempts, op.scheduleAt, op.batch);
    var r := DoReady(added, s.nextTask, op.scheduleAt);
    if op.scheduleAt.Some? && op.scheduleAt.value > s.now {
      CreateReady(s, op, added, Scheduled, TaskScheduled);
      InsertedReady(s, op, SetStatus(added, s.nextTask, Scheduled, TaskScheduled), r);
    } else {
      CreateReady(s, op, added, Queued, TaskQueued);
      InsertedReady(s, op, SetStatus(added, s.nextTask, Queued, TaskQueued), r);
    }
  }

  lemma CreateStep(s: State, op: Op)
    requires op.Create? && s.nextTask !in s.tasks
    ensures var r := DoCreate(s, op.maxAttempts, op.scheduleAt, op.batch, op.dependsOn);
            (r == s && op.dependsOn != []) || Inserted(s, op, r)
  {
    if op.dependsOn == [] {
      CreateAtOnce(s, op);
    } else {
      CreateBlocked(s, op);
    }
  }

  lemma CreateRows(cfg: Config, s: State, op: Op)
    requires op.Create? && TasksInv(s)
    ensures var r := Apply(cfg, s, op);
            && RowsFollow(cfg, s, op, r)
            && s.tasks.Keys <= r.tasks.Keys <= s.tasks.Keys + {s.nextTask}
  {
    CreateStep(s, op);
    InsertedRows(cfg, s, op, DoCreate(s, op.maxAttempts, op.scheduleAt, op.batch, op.dependsOn));
  }

  lemma InsertedRows(cfg: Config, s: State, op: Op, r: State)
    requires op.Create? && s.nextTask !in s.tasks && (r == s || Inserted(s, op, r))
    ensures RowsFollow(cfg, s, op, r) && s.tasks.Keys <= r.tasks.Keys <= s.tasks.Keys + {s.nextTask}
  {
  }

  lemma PurgeRows(cfg: Config, s: State, id: TaskId)
    ensures var r := DoPurgeTask(cfg, s, id);
            && RowsFollow(cfg, s, PurgeTask(id), r)
            && r.tasks.Keys <= s.tasks.Keys && r.nextTask == s.nextTask
  {
  }

  // ---------- every step ----------

  lemma StepFollows(cfg: Config, s: State, op: Op)
    requires DbInv(s)
    ensures RowsFollow(cfg, s, op, Apply(cfg, s, op))
    ensures !op.Create? && !op.PurgeTask? ==> SameGraph(s, Apply(cfg, s, op))
  {
    if Quiet(op) {
      QuietFollows(cfg, s, op);
    } else if op.Receive? || op.RenewLease? || op.PurgeTask? {
      SingleFollows(cfg, s, op);
    } else if op.Create? || op.Finish? || op.CancelTask? {
      CascadeFollows(cfg, s, op);
    } else {
      ReleaseFollows(cfg, s, op);
    }
  }

  lemma SingleFollows(cfg: Config, s: State, op: Op)
    requires op.Receive? || op.RenewLease? || op.PurgeTask?
    ensures RowsFollow(cfg, s, op, Apply(cfg, s, op))
    ensures !op.PurgeTask? ==> SameGraph(s, Apply(cfg, s, op))
  {
    match op
    case Receive(id, worker) => ReceiveStep(cfg, s, id, worker);
    case RenewLease(id, worker) => RenewStep(cfg, s, id, worker);
    case PurgeTask(id) => PurgeRows(cfg, s, id);
  }

  lemma CascadeFollows(cfg: Config, s: State, op: Op)
    requires DbInv(s) && (op.Create? || op.Finish? || op.CancelTask?)
    ensures RowsFollow(cfg, s, op, Apply(cfg, s, op))
    ensures !op.Create? ==> SameGraph(s, Apply(cfg, s, op))
  {
    if op.Create? {
      CreateRows(cfg, s, op);
    } else if op.Finish? {
      FinishFollows(cfg, s, op);
    } else {
      CancelFollows(cfg, s, op);
    }
  }

  lemma FinishFollows(cfg: Config, s: State, op: Op)
    requires DbInv(s) && op.Finish?
    ensures RowsFollow(cfg, s, op, Apply(cfg, s, op)) && SameGraph(s, Apply(cfg, s, op))
  {
    FinishStep(cfg, s, op.flight, op.outcome);
  }

  lemma CancelFollows(cfg: Config, s: State, op: Op)
    requires op.CancelTask?
    ensures RowsFollow(cfg, s, op, Apply(cfg, s, op)) && SameGraph(s, Apply(cfg, s, op))
  {
    CancelStep(cfg, s, op.task);
  }

  lemma QuietFollows(cfg: Config, s: State, op: Op)
    requires Quiet(op)
    ensures RowsFollow(cfg, s, op, Apply(cfg, s, op)) && SameGraph(s, Apply(cfg, s, op))
  {
    QuietRows(cfg, s, op);
    QuietStep(cfg, s, op, Apply(cfg, s, op));
  }

  lemma ReleaseFollows(cfg: Config, s: State, op: Op)
    requires TasksInv(s)
    requires op.ReleaseDueTask? || op.ReleaseDeadTask? || op.RecoverTask? || op.RetryTask?
    ensures RowsFollow(cfg, s, op, Apply(cfg, s, op)) && SameGraph(s, Apply(cfg, s, op))
  {
    match op
    case ReleaseDueTask(id) => ReleaseDueStep(cfg, s, id);
    case ReleaseDeadTask(id) => ReleaseDeadStep(cfg, s, id);
    case RecoverTask(id) => RecoverStep(cfg, s, id);
    case RetryTask(id) => RetryStep(cfg, s, id);
  }

  lemma NextTaskGrows(cfg: Config, s: State, op: Op)
    requires DbInv(s)
    ensures s.nextTask <= Apply(cfg, s, op).nextTask
    ensures forall id :: id in Apply(cfg, s, op).tasks && id !in s.tasks ==>
              op.Create? && id == s.nextTask < Apply(cfg, s, op).nextTask
  {
    StepFollows(cfg, s, op);
    if op.Create? {
      CreateStep(s, op);
    } else if op.PurgeTask? {
      PurgeRows(cfg, s, op.task);
    }
  }

  /** What every step does, told without running it: to the rows, to the identities and to the edges. */
  ghost predicate Followed(cfg: Config, s: State, op: Op, r: State) {
    && RowsFollow(cfg, s, op, r)
    && (!op.Create? && !op.PurgeTask? ==> SameGraph(s, r))
    && (!op.PurgeTask? ==> s.tasks.Keys <= r.tasks.Keys)
    && s.nextTask <= r.nextTask
    && (forall id :: id in r.tasks && id !in s.tasks ==> op.Create? && id == s.nextTask < r.nextTask)
    && (forall e :: e in r.edges && e.child in s.tasks ==> e in s.edges)
    && (!op.PurgeTask? ==> forall e :: e in s.edges ==> e in r.edges)
  }

  lemma CreateEdges(s: State, op: Op)
    requires op.Create? && s.nextTask !in s.tasks
    ensures var r := DoCreate(s, op.maxAttempts, op.scheduleAt, op.batch, op.dependsOn);
            && (forall e :: e in r.edges && e.child in s.tasks ==> e in s.edges)
            && (forall e :: e in s.edges ==> e in r.edges)
            && s.tasks.Keys <= r.tasks.Keys
  {
    CreateStep(s, op);
  }

  lemma PurgeEdges(cfg: Config, s: State, id: TaskId)
    ensures forall e :: e in DoPurgeTask(cfg, s, id).edges ==> e in s.edges
  {
  }

  lemma StepIsFollowed(cfg: Config, s: State, op: Op)
    requires DbInv(s)
    ensures Followed(cfg, s, op, Apply(cfg, s, op))
  {
    StepFollows(cfg, s, op);
    NextTaskGrows(cfg, s, op);
    if op.Create? {
      CreateEdges(s, op);
    } else if op.PurgeTask? {
      PurgeEdges(cfg, s, op.task);
    }
  }

  lemma RowKept(cfg: Config, s: State, op: Op, r: State, id: TaskId)
    requires id in s.tasks && id in r.tasks && RowInv(s.tasks[id]) && RowFollows(cfg, s, op, r, id)
    ensures RowInv(r.tasks[id])
  {
    ChangedKeepsRow(cfg, ChangeOf(cfg, s, op, id), s.tasks[id], s.now);
  }

  lemma NewRow(s: State, op: Op, id: TaskId)
    requires op.Create? && s.nextTask !in s.tasks && id !in s.tasks
    requires id in DoCreate(s, op.maxAttempts, op.scheduleAt, op.batch, op.dependsOn).tasks
    ensures RowInv(DoCreate(s, op.maxAttempts, op.scheduleAt, op.batch, op.dependsOn).tasks[id])
  {
    CreateStep(s, op);
    FreshRowInv(op.maxAttempts, op.scheduleAt, op.batch, s.now);
  }

  lemma FollowedKeepsTasks(cfg: Config, s: State, op: Op, r: State)
    requires TasksInv(s) && Followed(cfg, s, op, r)
    requires forall id :: id in r.tasks && id !in s.tasks ==> RowInv(r.tasks[id])
    ensures TasksInv(r)
  {
    forall id | id in r.tasks ensures id < r.nextTask && RowInv(r.tasks[id]) {
      if id in s.tasks {
        assert RowFollows(cfg, s, op, r, id);
        RowKept(cfg, s, op, r, id);
      }
    }
  }

  lemma StepKeepsTasks(cfg: Config, s: State, op: Op)
    requires DbInv(s)
    ensures TasksInv(Apply(cfg, s, op))
  {
    StepIsFollowed(cfg, s, op);
    forall id | id in Apply(cfg, s, op).tasks && id !in s.tasks ensures RowInv(Apply(cfg, s, op).tasks[id]) {
      NewRow(s, op, id);
    }
    FollowedKeepsTasks(cfg, s, op, Apply(cfg, s, op));
  }

  lemma CreateKeepsEdges(s: State, op: Op)
    requires op.Create? && s.nextTask !in s.tasks && TasksInv(s) && EdgesInv(s)
    ensures EdgesInv(DoCreate(s, op.maxAttempts, op.scheduleAt, op.batch, op.dependsOn))
  {
    CreateStep(s, op);
  }

  lemma PurgeKeepsEdges(cfg: Config, s: State, id: TaskId)
    requires EdgesInv(s)
    ensures EdgesInv(DoPurgeTask(cfg, s, id))
  {
  }

  lemma StepKeepsEdges(cfg: Config, s: State, op: Op)
    requires DbInv(s)
    ensures EdgesInv(Apply(cfg, s, op))
  {
    if op.Create? {
      CreateKeepsEdges(s, op);
    } else if op.PurgeTask? {
      PurgeKeepsEdges(cfg, s, op.task);
    } else {
      StepFollows(cfg, s, op);
    }
  }

  predicate Releases(op: Op) {
    op.ReleaseDueTask? || op.ReleaseDeadTask? || op.RecoverTask? || op.RetryTask? || op.RepublishTask?
  }

  /** One more pending outbox row. */
  predicate OneMoreRow(s: State, r: State, id: TaskId) {
    r.outbox == s.outbox[s.nextOutbox := OutboxRow(id, Pending, 0, None)] && r.nextOutbox == s.nextOutbox + 1
  }

  /** A sweep or a manual retry that does anything adds exactly one outbox row. */
  lemma ReleaseFrame(cfg: Config, s: State, op: Op)
    requires Releases(op)
    ensures var r := Apply(cfg, s, op);
            && r == s.(tasks := r.tasks, hooks := r.hooks, outbox := r.outbox, nextOutbox := r.nextOutbox)
            && (r == s || (op.task in s.tasks && OneMoreRow(s, r, op.task)))
  {
    match op
    case ReleaseDueTask(id) => if IsDue(cfg, s, id) { ReleaseRow(s, id, if s.tasks[id].status == RetryScheduled then TaskRetried else TaskQueued); }
    case ReleaseDeadTask(id) =>
      if IsDeadDue(cfg, s, id) {
        ReleaseRow(WithRow(s, id, s.tasks[id].(dlqRequeueCount := s.tasks[id].dlqRequeueCount + 1)), id, TaskDlqRequeued);
      }
    case RecoverTask(id) =>
      if IsStuck(s, id) && s.tasks[id].status == Running {
        ReleaseRow(WithRow(s, id, Reported(s.tasks[id], LatestRunning(s.tasks[id].rows), AttemptFailed, s.now)), id, TaskRequeued);
      }
    case RetryTask(id) => if id in s.tasks && Retryable(s.tasks[id].status) { ReleaseRow(s, id, TaskRetried); }
    case RepublishTask(id) =>
  }

  lemma ReleaseRow(s: State, id: TaskId, kind: EventKind)
    requires id in s.tasks
    ensures var r := Release(s, id, kind);
            && r == s.(tasks := r.tasks, hooks := r.hooks, outbox := r.outbox, nextOutbox := r.nextOutbox)
            && OneMoreRow(s, r, id)
  {
  }

  lemma CreateKeepsOutbox(s: State, op: Op)
    requires op.Create? && s.nextTask !in s.tasks && OutboxInv(s)
    ensures OutboxInv(DoCreate(s, op.maxAttempts, op.scheduleAt, op.batch, op.dependsOn))
  {
    CreateStep(s, op);
  }

  lemma ReleaseKeepsOutbox(cfg: Config, s: State, op: Op)
    requires Releases(op) && OutboxInv(s)
    ensures OutboxInv(Apply(cfg, s, op))
  {
    ReleaseFrame(cfg, s, op);
  }

  lemma CascadeKeepsOutbox(cfg: Config, s: State, op: Op)
    requires DbInv(s) && (op.Finish? || op.CancelTask?)
    ensures OutboxInv(Apply(cfg, s, op))
  {
    if op.Finish? {
      FinishStep(cfg, s, op.flight, op.outcome);
    } else {
      CancelStep(cfg, s, op.task);
    }
  }

  lemma StepKeepsOutbox(cfg: Config, s: State, op: Op)
    requires DbInv(s)
    ensures OutboxInv(Apply(cfg, s, op))
  {
    if op.Create? {
      CreateKeepsOutbox(s, op);
    } else if op.Finish? || op.CancelTask? {
      CascadeKeepsOutbox(cfg, s, op);
    } else if Releases(op) {
      ReleaseKeepsOutbox(cfg, s, op);
    } else {
      PlainKeepsOutbox(cfg, s, op);
    }
  }

  lemma PlainKeepsOutbox(cfg: Config, s: State, op: Op)
    requires (Plain(op) || op.Receive?) && OutboxInv(s)
    ensures OutboxInv(Apply(cfg, s, op))
  {
    if op.Relay? {
      RelayKeepsOutbox(s, op.row, op.how);
    } else if op.Receive? {
      ReceiveKeepsOutbox(cfg, s, op.task, op.worker);
    }
  }

  lemma ReceiveKeepsOutbox(cfg: Config, s: State, id: TaskId, worker: WorkerId)
    ensures var r := DoReceive(cfg, s, id, worker); r.outbox == s.outbox && r.nextOutbox == s.nextOutbox
  {
  }

  lemma RelayKeepsOutbox(s: State, row: nat, how: RelayOutcome)
    requires OutboxInv(s)
    ensures OutboxInv(DoRelay(s, row, how))
  {
  }

  /** Attempt rows are only added, and keep their workers. */
  predicate RowGrows(t: Task, u: Task) {
    && t.attempts == |t.rows| <= u.attempts == |u.rows|
    && forall i :: 0 <= i < |t.rows| ==> u.rows[i].worker == t.rows[i].worker
  }

  lemma OldFlightKept(s: State, r: State, f: Flight)
    requires f in s.flights && FlightInv(s, f) && f in r.flights && r.flights[f] == s.flights[f] && s.nextTask <= r.nextTask
    requires f.task in r.tasks ==> f.task in s.tasks && RowGrows(s.tasks[f.task], r.tasks[f.task])
    ensures FlightInv(r, f)
  {
  }

  lemma NewFlight(cfg: Config, s: State, op: Op, r: State)
    requires Starts(cfg, s, op) && op.task < s.nextTask <= r.nextTask && op.task in r.tasks
    requires var t := s.tasks[op.task]; var u := r.tasks[op.task];
             t.attempts == |t.rows| && u.attempts == |u.rows| == t.attempts + 1 && u.rows[t.attempts].worker == op.worker
    requires var t := s.tasks[op.task]; var f := Flight(op.task, t.attempts + 1);
             f in r.flights && r.flights[f] == TaskSnapshot(op.worker, t.attempts + 1, t.dlqRequeueCount, t.dlqRetryAt)
    ensures FlightInv(r, Flight(op.task, s.tasks[op.task].attempts + 1))
  {
  }

  lemma FlightsKept(cfg: Config, s: State, op: Op, r: State)
    requires TasksInv(s) && FlightsInv(s) && Followed(cfg, s, op, r) && FlightsFollow(cfg, s, op, r)
    requires forall id :: id in s.tasks && id in r.tasks ==> RowSteps(cfg, s, op, r, id)
    requires Starts(cfg, s, op) ==> op.task in r.tasks
    ensures FlightsInv(r)
  {
    forall f | f in r.flights ensures FlightInv(r, f) {
      if Starts(cfg, s, op) && f == Flight(op.task, s.tasks[op.task].attempts + 1) {
        assert RowSteps(cfg, s, op, r, op.task);
        NewFlight(cfg, s, op, r);
      } else {
        assert FlightInv(s, f);
        assert f.task in s.tasks && f.task in r.tasks ==> RowSteps(cfg, s, op, r, f.task);
        OldFlightKept(s, r, f);
      }
    }
  }

  lemma StepKeepsFlights(cfg: Config, s: State, op: Op)
    requires DbInv(s)
    ensures FlightsInv(Apply(cfg, s, op))
  {
    StepIsFollowed(cfg, s, op);
    FlightsOf(cfg, s, op);
    forall id | id in s.tasks && id in Apply(cfg, s, op).tasks ensures RowSteps(cfg, s, op, Apply(cfg, s, op), id) {
      StepRow(cfg, s, op, id);
    }
    FlightsKept(cfg, s, op, Apply(cfg, s, op));
  }

  /** A surviving row keeps its attempt rows, and gains one exactly when the step starts an attempt of it. */
  ghost predicate RowSteps(cfg: Config, s: State, op: Op, r: State, id: TaskId)
    requires id in s.tasks && id in r.tasks
  {
    && RowGrows(s.tasks[id], r.tasks[id])
    && (if Starts(cfg, s, op) && op.task == id
        then r.tasks[id].attempts == s.tasks[id].attempts + 1 && r.tasks[id].rows[s.tasks[id].attempts].worker == op.worker
        else r.tasks[id].attempts == s.tasks[id].attempts)
  }

  lemma FollowedRow(cfg: Config, s: State, op: Op, r: State, id: TaskId)
    requires id in s.tasks && id in r.tasks && RowInv(s.tasks[id]) && RowFollows(cfg, s, op, r, id)
    ensures RowSteps(cfg, s, op, r, id)
  {
    var c := ChangeOf(cfg, s, op, id);
    ChangedRows(cfg, c, s.tasks[id], s.now);
    ChangedKeepsRow(cfg, c, s.tasks[id], s.now);
    StartChange(cfg, s, op, id);
  }

  lemma StepRow(cfg: Config, s: State, op: Op, id: TaskId)
    requires DbInv(s) && id in s.tasks && id in Apply(cfg, s, op).tasks
    ensures RowSteps(cfg, s, op, Apply(cfg, s, op), id)
  {
    StepFollows(cfg, s, op);
    assert RowFollows(cfg, s, op, Apply(cfg, s, op), id);
    FollowedRow(cfg, s, op, Apply(cfg, s, op), id);
  }

  lemma StartChange(cfg: Config, s: State, op: Op, id: TaskId)
    requires id in s.tasks
    ensures ChangeOf(cfg, s, op, id).Start? <==> Starts(cfg, s, op) && op.task == id
    ensures ChangeOf(cfg, s, op, id).Start? ==> ChangeOf(cfg, s, op, id) == Start(op.worker)
  {
  }

  /** The step takes the lease and opens an attempt. */
  predicate Starts(cfg: Config, s: State, op: Op) {
    op.Receive? && s.broker[op.task] > 0 && op.task in s.tasks && Enabled(cfg, Start(op.worker), s.tasks[op.task], s.now)
  }

  /** Flights begin only when a worker starts an attempt; every other step keeps or drops them. */
  ghost predicate FlightsFollow(cfg: Config, s: State, op: Op, r: State) {
    if Starts(cfg, s, op) then
      var t := s.tasks[op.task];
      r.flights == s.flights[Flight(op.task, t.attempts + 1) :=
                             TaskSnapshot(op.worker, t.attempts + 1, t.dlqRequeueCount, t.dlqRetryAt)]
    else if op.Finish? || op.Crash? then r.flights == s.flights - {op.flight}
    else r.flights == s.flights
  }

  lemma FlightsOf(cfg: Config, s: State, op: Op)
    requires DbInv(s)
    ensures FlightsFollow(cfg, s, op, Apply(cfg, s, op))
  {
    if op.Create? {
      CreateStep(s, op);
    } else if op.Finish? {
      FinishStep(cfg, s, op.flight, op.outcome);
    } else if op.CancelTask? {
      CancelStep(cfg, s, op.task);
    } else if Releases(op) {
      ReleaseFrame(cfg, s, op);
    } else if op.Receive? {
      ReceiveFlights(cfg, s, op);
    } else {
      PlainFlights(cfg, s, op);
    }
  }

  lemma ReceiveFlights(cfg: Config, s: State, op: Op)
    requires op.Receive?
    ensures DoReceive(cfg, s, op.task, op.worker).flights
            == if Starts(cfg, s, op) then
                 var t := s.tasks[op.task];
                 s.flights[Flight(op.task, t.attempts + 1) :=
                           TaskSnapshot(op.worker, t.attempts + 1, t.dlqRequeueCount, t.dlqRetryAt)]
               else s.flights
  {
  }

  predicate Plain(op: Op) {
    op.Relay? || op.RenewLease? || op.PurgeTask? || op.PurgeOutbox? || op.Tick? || op.Lose? || op.Redeliver? || op.Crash?
  }

  lemma PlainFlights(cfg: Config, s: State, op: Op)
    requires Plain(op)
    ensures Apply(cfg, s, op).flights == if op.Crash? then s.flights - {op.flight} else s.flights
  {
    if op.Relay? {
      RelayFrame(s, op.row, op.how);
    } else if op.RenewLease? {
      RenewFlights(cfg, s, op.task, op.worker);
    } else if op.PurgeTask? || op.PurgeOutbox? {
      PurgeFlights(cfg, s, op);
    }
  }

  lemma RenewFlights(cfg: Config, s: State, id: TaskId, worker: WorkerId)
    ensures DoRenew(cfg, s, id, worker).flights == s.flights
  {
  }

  lemma PurgeFlights(cfg: Config, s: State, op: Op)
    requires op.PurgeTask? || op.PurgeOutbox?
    ensures Apply(cfg, s, op).flights == s.flights
  {
  }

  /** The clock never goes back, and only a tick moves it. */
  lemma TimeGrows(cfg: Config, s: State, op: Op)
    requires DbInv(s)
    ensures s.now <= Apply(cfg, s, op).now
    ensures !op.Tick? ==> s.now == Apply(cfg, s, op).now
  {
    if op.Create? {
      CreateStep(s, op);
    } else if op.Finish? {
      FinishStep(cfg, s, op.flight, op.outcome);
    } else if op.CancelTask? {
      CancelStep(cfg, s, op.task);
    } else if Releases(op) {
      ReleaseFrame(cfg, s, op);
    } else {
      PlainTime(cfg, s, op);
    }
  }

  lemma PlainTime(cfg: Config, s: State, op: Op)
    requires Plain(op) || op.Receive?
    ensures s.now <= Apply(cfg, s, op).now
    ensures !op.Tick? ==> s.now == Apply(cfg, s, op).now
  {
    match op
    case Relay(row, how) => assert DoRelay(s, row, how).now == s.now;
    case Receive(id, worker) => assert DoReceive(cfg, s, id, worker).now == s.now;
    case _ =>
  }

  /** Every step keeps the invariant of the database. */
  lemma StepKeepsInv(cfg: Config, s: State, op: Op)
    requires DbInv(s)
    ensures DbInv(Apply(cfg, s, op))
  {
    StepKeepsTasks(cfg, s, op);
    StepKeepsEdges(cfg, s, op);
    StepKeepsOutbox(cfg, s, op);
    StepKeepsFlights(cfg, s, op);
  }

  /** The invariant holds after every run: leases and attempt rows, the columns tied to a status,
      the replaying log, the counters, the graph, the outbox and the workers' snapshots. */
  lemma {:induction false} RunKeepsInv(cfg: Config, s: State, ops: seq<Op>)
    requires DbInv(s)
    ensures DbInv(Exec(cfg, s, ops))
    decreases |ops|
  {
    if ops != [] {
      StepKeepsInv(cfg, s, ops[0]);
      RunKeepsInv(cfg, Apply(cfg, s, ops[0]), ops[1..]);
    }
  }

  lemma InitInv(subs: seq<Subscription>, now: Time)
    ensures DbInv(Init(subs, now))
  {
  }

  lemma ReachableInv(cfg: Config, s: State)
    requires Reachable(cfg, s)
    ensures DbInv(s)
  {
    var subs, now, ops :| Runs(cfg, Init(subs, now), ops, s);
    RunsIsExec(cfg, Init(subs, now), ops, s);
    InitInv(subs, now);
    RunKeepsInv(cfg, Init(subs, now), ops);
  }

  /** One step further. */
  lemma ReachableStep(cfg: Config, s: State, op: Op)
    requires Reachable(cfg, s)
    ensures Reachable(cfg, Apply(cfg, s, op))
  {
    var subs, now, ops :| Runs(cfg, Init(subs, now), ops, s);
    RunsIsExec(cfg, Init(subs, now), ops, s);
    ExecSnoc(cfg, Init(subs, now), ops, op);
    RunsIsExec(cfg, Init(subs, now), ops + [op], Apply(cfg, s, op));
  }

  /** In every reachable state: a task holds a lease exactly while it runs, is finished exactly in a
      terminal status, and has its time set while it waits; its attempt rows are numbered 1 to
      `attempts`, the newest open while it runs; and its log leads from `created` to its status by
      valid transitions. */
  lemma EveryReachableRow(cfg: Config, s: State, id: TaskId)
    requires Reachable(cfg, s) && id in s.tasks
    ensures var t := s.tasks[id];
            && (t.leaseOwner.Some? <==> t.status == Running) && (t.leaseExpiresAt.Some? <==> t.status == Running)
            && (t.finishedAt.Some? <==> Terminal(t.status))
            && (Waiting(t.status) ==> t.scheduledAt.Some?)
            && |t.rows| == t.attempts && (forall i :: 0 <= i < t.attempts ==> t.rows[i].number == i + 1)
            && (t.status == Running ==> t.attempts > 0 && t.rows[t.attempts - 1].status == AttemptRunning)
            && Replays(t.log, t.status)
  {
    ReachableInv(cfg, s);
    assert RowInv(s.tasks[id]);
  }

  /** In every reachable state a row of the outbox is dated exactly if it was sent. */
  lemma EveryReachableOutboxRow(cfg: Config, s: State, i: nat)
    requires Reachable(cfg, s) && i in s.outbox
    ensures s.outbox[i].processedAt.Some? <==> s.outbox[i].status == Sent
  {
    ReachableInv(cfg, s);
  }

  // ---------- runs as traces ----------

  /** A run of the empty platform. */
  ghost predicate FromStart(cfg: Config, trace: seq<State>, ops: seq<Op>) {
    Trace(cfg, trace, ops) && exists subs, now :: trace[0] == Init(subs, now)
  }

  /** A sound state, later than `was`. */
  ghost predicate SoundSince(s: State, was: Time) {
    DbInv(s) && was <= s.now
  }

  lemma StepIsSound(cfg: Config, s: State, op: Op)
    requires DbInv(s)
    ensures SoundSince(Apply(cfg, s, op), s.now)
  {
    StepKeepsInv(cfg, s, op);
    TimeGrows(cfg, s, op);
  }

  lemma StartIsSound(cfg: Config, trace: seq<State>, ops: seq<Op>)
    requires FromStart(cfg, trace, ops)
    ensures SoundSince(trace[0], trace[0].now)
  {
    var subs, now :| trace[0] == Init(subs, now);
    InitInv(subs, now);
  }

  /** A run stays sound, and its clock never runs backwards. */
  lemma {:induction false} TraceIsSound(cfg: Config, trace: seq<State>, ops: seq<Op>, i: nat, j: nat)
    requires FromStart(cfg, trace, ops) && i <= j <= |ops|
    ensures SoundSince(trace[j], trace[i].now)
    decreases j
  {
    if j == 0 {
      StartIsSound(cfg, trace, ops);
    } else {
      TraceIsSound(cfg, trace, ops, if i < j then i else j - 1, j - 1);
      assert StepAt(cfg, trace, ops, j);
      StepIsSound(cfg, trace[j - 1], ops[j - 1]);
    }
  }
}
