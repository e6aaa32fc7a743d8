/** Where the present status of a task comes from.  The columns that decide when a task is due, when it
    comes back from the dead-letter queue, when it is an orphan and when it may be deleted are told here
    from the step of the run that gave the task its status. */
module History {
  import opened Rows
  import opened Store
  import opened Protocol
  import opened Steps

  predicate Has(s: State, id: TaskId, st: Status) {
    id in s.tasks && s.tasks[id].status == st
  }

  /** At position `j` of the run the task has the status that step `i` gave it, without a break. */
  ghost predicate InStatusSince(trace: seq<State>, id: TaskId, st: Status, i: nat, j: nat) {
    i < j < |trace| && !Has(trace[i], id, st) && forall k :: i < k <= j ==> Has(trace[k], id, st)
  }

  lemma SinceIsUnique(trace: seq<State>, id: TaskId, st: Status, h: nat, i: nat, j: nat)
    requires InStatusSince(trace, id, st, h, j) && InStatusSince(trace, id, st, i, j)
    ensures h == i
  {
  }

  // ---------- the origin of a status ----------

  predicate ReportOf(op: Op, id: TaskId, outcome: Outcome) {
    op.Finish? && op.flight.task == id && op.outcome == outcome
  }

  predicate Ahead(s: State, op: Op)
    requires op.Create?
  {
    op.scheduleAt.Some? && op.scheduleAt.value > s.now
  }

  predicate Creates(s: State, op: Op, id: TaskId) {
    op.Create? && id == s.nextTask
  }

  /** A retryable failure with attempts left: the retry is planned one delay ahead. */
  predicate Rescheduled(cfg: Config, s: State, op: Op, id: TaskId, t: Task) {
    && ReportOf(op, id, RetryableError) && 0 < op.flight.number < t.maxAttempts
    && t.scheduledAt == Some(s.now + RetryDelay(cfg, op.flight.number))
  }

  /** A retryable failure of the last attempt. */
  predicate Buried(cfg: Config, s: State, op: Op, id: TaskId, t: Task) {
    && ReportOf(op, id, RetryableError) && op.flight in s.flights && op.flight.number >= t.maxAttempts
    && id in s.tasks && t.dlqRequeueCount == s.tasks[id].dlqRequeueCount
    && PlannedReturn(cfg, s.flights[op.flight], s.tasks[id], s.now, t)
  }

  /** A worker that still knows of a cycle plans the return; else it clears the plan it knows of. */
  predicate PlannedReturn(cfg: Config, snap: TaskSnapshot, t: Task, now: Time, u: Task) {
    u.dlqRetryAt == if cfg.dlqEnabled && snap.dlqRequeueCount < cfg.dlqMaxCycles then Some(now + cfg.dlqInterval)
                    else if snap.dlqRetryAt.Some? then None else t.dlqRetryAt
  }

  /** The steps that put a task into the queue. */
  predicate Enqueues(s: State, op: Op, id: TaskId) {
    || (Creates(s, op, id) && op.dependsOn == [] && !Ahead(s, op))
    || (op.Finish? && op.outcome == Completed && op.flight.task != id)
    || op == ReleaseDueTask(id) || op == ReleaseDeadTask(id) || op == RecoverTask(id) || op == RetryTask(id)
  }

  /** What the step that gave a task its status tells about its row. */
  predicate Origin(cfg: Config, s: State, op: Op, id: TaskId, t: Task) {
    && (Terminal(t.status) ==> t.finishedAt == Some(s.now))
    && match t.status
       case Created => Creates(s, op, id) && op.dependsOn != []
       case Scheduled => Creates(s, op, id) && op.dependsOn == [] && Ahead(s, op) && t.scheduledAt == op.scheduleAt
       case Queued => Enqueues(s, op, id) && t.updatedAt == s.now
       case Running => op.Receive? && op.task == id
       case RetryScheduled => Rescheduled(cfg, s, op, id, t)
       case Success => ReportOf(op, id, Completed)
       case Failed => ReportOf(op, id, PermanentError)
       case DeadLetter => Buried(cfg, s, op, id, t)
       case Cancelled => op.CancelTask? || (op.Finish? && op.outcome != Completed && op.flight.task != id)
       case Timeout => false
  }

  lemma NewOrigin(cfg: Config, s: State, op: Op, r: State)
    requires op.Create? && Inserted(s, op, r)
    ensures Origin(cfg, s, op, s.nextTask, r.tasks[s.nextTask])
  {
  }

  /** How a change to another status leaves the columns. */
  lemma EntryColumns(cfg: Config, c: Change, t: Task, now: Time)
    requires Enabled(cfg, c, t, now) && Stamped(t) && Changed(cfg, c, t, now).status != t.status
    ensures var u := Changed(cfg, c, t, now);
            && u.updatedAt == now && u.maxAttempts == t.maxAttempts
            && (Terminal(u.status) ==> u.finishedAt == Some(now))
            && (!c.ReleaseDeadLetter? ==> u.dlqRequeueCount == t.dlqRequeueCount)
  {
  }

  lemma EntryStatus(cfg: Config, c: Change, t: Task, now: Time)
    requires Enabled(cfg, c, t, now) && Changed(cfg, c, t, now).status != t.status
    ensures match Changed(cfg, c, t, now).status
            case Running => c.Start?
            case Success => c.Succeed?
            case Cancelled => c.Cancel?
            case Queued => c.Recover? || c.ReleaseDue? || c.ReleaseDeadLetter? || c.RetryByHand? || c.Unblock?
            case RetryScheduled => c.Fail? && c.retryable && c.k < t.maxAttempts
            case DeadLetter => c.Fail? && c.retryable && c.k >= t.maxAttempts
            case Failed => c.Fail? && !c.retryable
            case _ => false
  {
  }

  lemma FailureColumns(cfg: Config, c: Change, t: Task, now: Time)
    requires Enabled(cfg, c, t, now) && c.Fail? && c.retryable && t.status == Running
    ensures var u := Changed(cfg, c, t, now);
            && (u.status == RetryScheduled ==> u.scheduledAt == Some(now + RetryDelay(cfg, c.k)))
            && (u.status == DeadLetter ==> PlannedReturn(cfg, c.snap, t, now, u))
  {
  }

  /** The step behind a change of status. */
  lemma StepBehind(cfg: Config, s: State, op: Op, id: TaskId)
    requires id in s.tasks
    ensures var c := ChangeOf(cfg, s, op, id);
            && (c.Start? ==> op.Receive? && op.task == id)
            && (c.Succeed? ==> ReportOf(op, id, Completed))
            && (c.Fail? ==> op.Finish? && op.flight in s.flights && op.flight.task == id && op.outcome != Completed
                            && c == Fail(op.flight.number, s.flights[op.flight], op.outcome == RetryableError))
            && (c.Cancel? ==> op.CancelTask? || (op.Finish? && op.outcome != Completed && op.flight.task != id))
            && (c.Recover? || c.ReleaseDue? || c.ReleaseDeadLetter? || c.RetryByHand? || c.Unblock? ==> Enqueues(s, op, id))
  {
  }

  lemma EntryOrigin(cfg: Config, s: State, op: Op, r: State, id: TaskId)
    requires id in s.tasks && id in r.tasks && RowFollows(cfg, s, op, r, id) && Stamped(s.tasks[id])
    requires r.tasks[id].status != s.tasks[id].status
    ensures Origin(cfg, s, op, id, r.tasks[id])
  {
    var c := ChangeOf(cfg, s, op, id);
    EntryColumns(cfg, c, s.tasks[id], s.now);
    EntryStatus(cfg, c, s.tasks[id], s.now);
    StepBehind(cfg, s, op, id);
    if c.Fail? && c.retryable {
      FailureEntry(cfg, s, op, r, id);
    }
  }

  lemma FailureEntry(cfg: Config, s: State, op: Op, r: State, id: TaskId)
    requires id in s.tasks && id in r.tasks && RowFollows(cfg, s, op, r, id) && Stamped(s.tasks[id])
    requires r.tasks[id].status != s.tasks[id].status
    requires ChangeOf(cfg, s, op, id).Fail? && ChangeOf(cfg, s, op, id).retryable
    ensures Origin(cfg, s, op, id, r.tasks[id])
  {
    var c := ChangeOf(cfg, s, op, id);
    EntryColumns(cfg, c, s.tasks[id], s.now);
    EntryStatus(cfg, c, s.tasks[id], s.now);
    StepBehind(cfg, s, op, id);
    FailureColumns(cfg, c, s.tasks[id], s.now);
  }

  /** What no change touches unless it changes the status, too. */
  predicate SameColumns(t: Task, u: Task) {
    && u.status == t.status && u.maxAttempts == t.maxAttempts && u.finishedAt == t.finishedAt
    && u.scheduledAt == t.scheduledAt && u.dlqRetryAt == t.dlqRetryAt && u.dlqRequeueCount == t.dlqRequeueCount
    && (t.status == Queued ==> u.updatedAt == t.updatedAt)
  }

  lemma ColumnsKept(cfg: Config, c: Change, t: Task, now: Time)
    requires Enabled(cfg, c, t, now) && Changed(cfg, c, t, now).status == t.status
    ensures SameColumns(t, Changed(cfg, c, t, now))
  {
  }

  lemma OriginKept(cfg: Config, s: State, op: Op, id: TaskId, first: Task, t: Task, u: Task)
    requires Origin(cfg, s, op, id, t) && SameColumns(first, t) && SameColumns(t, u)
    ensures Origin(cfg, s, op, id, u) && SameColumns(first, u)
  {
  }

  lemma StepKeepsColumns(cfg: Config, s: State, op: Op, id: TaskId, st: Status)
    requires DbInv(s) && Has(s, id, st) && Has(Apply(cfg, s, op), id, st)
    ensures SameColumns(s.tasks[id], Apply(cfg, s, op).tasks[id])
  {
    StepFollows(cfg, s, op);
    RowKeepsColumns(cfg, s, op, Apply(cfg, s, op), id);
  }

  lemma RowKeepsColumns(cfg: Config, s: State, op: Op, r: State, id: TaskId)
    requires RowsFollow(cfg, s, op, r) && id in s.tasks && id in r.tasks && r.tasks[id].status == s.tasks[id].status
    ensures SameColumns(s.tasks[id], r.tasks[id])
  {
    assert RowFollows(cfg, s, op, r, id);
    ColumnsKept(cfg, ChangeOf(cfg, s, op, id), s.tasks[id], s.now);
  }

  lemma StepIsOrigin(cfg: Config, s: State, op: Op, id: TaskId, st: Status)
    requires DbInv(s) && !Has(s, id, st) && Has(Apply(cfg, s, op), id, st)
    ensures Origin(cfg, s, op, id, Apply(cfg, s, op).tasks[id])
  {
    if id in s.tasks {
      StepFollows(cfg, s, op);
      assert RowInv(s.tasks[id]);
      RowOrigin(cfg, s, op, Apply(cfg, s, op), id);
    } else {
      NextTaskGrows(cfg, s, op);
      CreateStep(s, op);
      NewOrigin(cfg, s, op, Apply(cfg, s, op));
    }
  }

  lemma RowOrigin(cfg: Config, s: State, op: Op, r: State, id: TaskId)
    requires RowsFollow(cfg, s, op, r) && id in s.tasks && id in r.tasks && r.tasks[id].status != s.tasks[id].status
    requires Stamped(s.tasks[id])
    ensures Origin(cfg, s, op, id, r.tasks[id])
  {
    assert RowFollows(cfg, s, op, r, id);
    EntryOrigin(cfg, s, op, r, id);
  }

  // ---------- over runs ----------

  lemma OriginAt(cfg: Config, trace: seq<State>, ops: seq<Op>, id: TaskId, st: Status, i: nat)
    requires FromStart(cfg, trace, ops) && i < |ops| && !Has(trace[i], id, st) && Has(trace[i + 1], id, st)
    ensures Origin(cfg, trace[i], ops[i], id, trace[i + 1].tasks[id])
  {
    TraceIsSound(cfg, trace, ops, i, i);
    assert StepAt(cfg, trace, ops, i + 1);
    StepIsOrigin(cfg, trace[i], ops[i], id, st);
  }

  lemma ColumnsAt(cfg: Config, trace: seq<State>, ops: seq<Op>, id: TaskId, st: Status, j: nat)
    requires FromStart(cfg, trace, ops) && j < |ops| && Has(trace[j], id, st) && Has(trace[j + 1], id, st)
    ensures SameColumns(trace[j].tasks[id], trace[j + 1].tasks[id])
  {
    TraceIsSound(cfg, trace, ops, j, j);
    assert StepAt(cfg, trace, ops, j + 1);
    StepKeepsColumns(cfg, trace[j], ops[j], id, st);
  }

  /** While a task keeps its status it keeps its columns, and so its origin. */
  lemma {:induction false} SinceOrigin(cfg: Config, trace: seq<State>, ops: seq<Op>, id: TaskId, st: Status, i: nat, j: nat)
    requires FromStart(cfg, trace, ops) && InStatusSince(trace, id, st, i, j)
    ensures Origin(cfg, trace[i], ops[i], id, trace[j].tasks[id])
    ensures SameColumns(trace[i + 1].tasks[id], trace[j].tasks[id])
    decreases j
  {
    if j == i + 1 {
      OriginAt(cfg, trace, ops, id, st, i);
    } else {
      assert InStatusSince(trace, id, st, i, j - 1);
      SinceOrigin(cfg, trace, ops, id, st, i, j - 1);
      OriginOn(cfg, trace, ops, id, st, i, j);
    }
  }

  lemma OriginOn(cfg: Config, trace: seq<State>, ops: seq<Op>, id: TaskId, st: Status, i: nat, j: nat)
    requires FromStart(cfg, trace, ops) && i < j - 1 < |ops| && Has(trace[i + 1], id, st)
    requires Has(trace[j - 1], id, st) && Has(trace[j], id, st)
    requires Origin(cfg, trace[i], ops[i], id, trace[j - 1].tasks[id]) && SameColumns(trace[i + 1].tasks[id], trace[j - 1].tasks[id])
    ensures Origin(cfg, trace[i], ops[i], id, trace[j].tasks[id]) && SameColumns(trace[i + 1].tasks[id], trace[j].tasks[id])
  {
    ColumnsAt(cfg, trace, ops, id, st, j - 1);
    OriginKept(cfg, trace[i], ops[i], id, trace[i + 1].tasks[id], trace[j - 1].tasks[id], trace[j].tasks[id]);
  }

  lemma {:induction false} SinceExists(cfg: Config, trace: seq<State>, ops: seq<Op>, id: TaskId, st: Status, j: nat) returns (i: nat)
    requires FromStart(cfg, trace, ops) && j <= |ops| && Has(trace[j], id, st)
    ensures InStatusSince(trace, id, st, i, j)
    decreases j
  {
    NothingAtFirst(cfg, trace, ops, id, st);
    if Has(trace[j - 1], id, st) {
      i := SinceExists(cfg, trace, ops, id, st, j - 1);
    } else {
      i := j - 1;
    }
  }

  lemma NothingAtFirst(cfg: Config, trace: seq<State>, ops: seq<Op>, id: TaskId, st: Status)
    requires FromStart(cfg, trace, ops)
    ensures !Has(trace[0], id, st)
  {
  }

  /** In every run the status of every task was given to it by exactly one step and kept since, and that
      step explains it: who may give it, on what condition, and the dates written with it. */
  lemma EveryStatusHasItsOrigin(cfg: Config, trace: seq<State>, ops: seq<Op>, id: TaskId, j: nat)
    requires FromStart(cfg, trace, ops) && j <= |ops| && id in trace[j].tasks
    ensures var st := trace[j].tasks[id].status;
            && (exists i: nat :: InStatusSince(trace, id, st, i, j) && Origin(cfg, trace[i], ops[i], id, trace[j].tasks[id]))
            && (forall h: nat, i: nat :: InStatusSince(trace, id, st, h, j) && InStatusSince(trace, id, st, i, j) ==> h == i)
  {
    var st := trace[j].tasks[id].status;
    var i := SinceExists(cfg, trace, ops, id, st, j);
    SinceOrigin(cfg, trace, ops, id, st, i, j);
    forall h: nat, i: nat | InStatusSince(trace, id, st, h, j) && InStatusSince(trace, id, st, i, j) ensures h == i {
      SinceIsUnique(trace, id, st, h, i, j);
    }
  }

  // ---------- what a task was created with ----------

  /** Step `k` created the task, with the batch and the number of attempts its row still has. */
  predicate CreatedAt(trace: seq<State>, ops: seq<Op>, id: TaskId, k: nat, t: Task) {
    && k < |ops| && k < |trace| && Creates(trace[k], ops[k], id)
    && t.batch == ops[k].batch && t.maxAttempts == ops[k].maxAttempts
  }

  predicate SameRequest(t: Task, u: Task) {
    u.batch == t.batch && u.maxAttempts == t.maxAttempts
  }

  lemma RequestKept(cfg: Config, c: Change, t: Task, now: Time)
    requires Enabled(cfg, c, t, now)
    ensures SameRequest(t, Changed(cfg, c, t, now))
  {
  }

  lemma RowKeepsRequest(cfg: Config, s: State, op: Op, r: State, id: TaskId)
    requires RowsFollow(cfg, s, op, r) && id in s.tasks && id in r.tasks
    ensures SameRequest(s.tasks[id], r.tasks[id])
  {
    assert RowFollows(cfg, s, op, r, id);
    RequestKept(cfg, ChangeOf(cfg, s, op, id), s.tasks[id], s.now);
  }

  ghost predicate RequestFollows(s: State, op: Op, r: State, id: TaskId)
    requires id in r.tasks
  {
    if id in s.tasks then SameRequest(s.tasks[id], r.tasks[id])
    else Creates(s, op, id) && r.tasks[id].batch == op.batch && r.tasks[id].maxAttempts == op.maxAttempts
  }

  lemma StepKeepsRequest(cfg: Config, s: State, op: Op, id: TaskId)
    requires DbInv(s) && id in Apply(cfg, s, op).tasks
    ensures RequestFollows(s, op, Apply(cfg, s, op), id)
  {
    if id in s.tasks {
      StepFollows(cfg, s, op);
      RowKeepsRequest(cfg, s, op, Apply(cfg, s, op), id);
    } else {
      NewRequest(cfg, s, op, id);
    }
  }

  lemma NewRequest(cfg: Config, s: State, op: Op, id: TaskId)
    requires DbInv(s) && id in Apply(cfg, s, op).tasks && id !in s.tasks
    ensures RequestFollows(s, op, Apply(cfg, s, op), id)
  {
    NextTaskGrows(cfg, s, op);
    CreateStep(s, op);
  }

  lemma RequestAt(cfg: Config, trace: seq<State>, ops: seq<Op>, id: TaskId, j: nat)
    requires FromStart(cfg, trace, ops) && 0 < j <= |ops| && id in trace[j].tasks
    ensures RequestFollows(trace[j - 1], ops[j - 1], trace[j], id)
  {
    TraceIsSound(cfg, trace, ops, j - 1, j - 1);
    assert StepAt(cfg, trace, ops, j);
    StepKeepsRequest(cfg, trace[j - 1], ops[j - 1], id);
  }

  /** In every run each task has the batch and the number of attempts it was created with. */
  lemma {:induction false} EveryTaskIsAsRequested(cfg: Config, trace: seq<State>, ops: seq<Op>, id: TaskId, j: nat) returns (k: nat)
    requires FromStart(cfg, trace, ops) && j <= |ops| && id in trace[j].tasks
    ensures k < j && CreatedAt(trace, ops, id, k, trace[j].tasks[id])
    decreases j
  {
    NothingAtFirst(cfg, trace, ops, id, trace[j].tasks[id].status);
    RequestAt(cfg, trace, ops, id, j);
    if id in trace[j - 1].tasks {
      k := EveryTaskIsAsRequested(cfg, trace, ops, id, j - 1);
    } else {
      k := j - 1;
    }
  }

  // ---------- the log ----------

  /** The transition that each kind of event stands for. */
  predicate Fits(e: Event) {
    match e.kind
    case TaskCreated => e.oldStatus == Created && e.newStatus == Created
    case TaskBlocked => e.oldStatus == Created && e.newStatus == Created
    case TaskUnblocked => e.oldStatus == Created && e.newStatus == Queued
    case TaskScheduled => e.oldStatus == Created && e.newStatus == Scheduled
    case TaskQueued => (e.oldStatus == Created || e.oldStatus == Scheduled) && e.newStatus == Queued
    case TaskRunning => e.oldStatus == Queued && e.newStatus == Running
    case AttemptStarted => e.oldStatus == Running && e.newStatus == Running
    case TaskSucceeded => e.oldStatus == Running && e.newStatus == Success
    case TaskFailed => e.oldStatus == Running && e.newStatus == Failed
    case TaskDeadLettered => e.oldStatus == Running && e.newStatus == DeadLetter
    case TaskRetryScheduled => e.oldStatus == Running && e.newStatus == RetryScheduled
    case TaskRequeued => e.oldStatus == Running && e.newStatus == Queued
    case TaskRetried => (e.oldStatus == RetryScheduled || Retryable(e.oldStatus)) && e.newStatus == Queued
    case TaskDlqRequeued => e.oldStatus == DeadLetter && e.newStatus == Queued
    case TaskCancelled => e.oldStatus != Cancelled && e.newStatus == Cancelled
  }

  predicate LogFits(t: Task) {
    forall i :: 0 <= i < |t.log| ==> Fits(t.log[i])
  }

  lemma ChangeFits(cfg: Config, c: Change, t: Task, now: Time)
    requires Enabled(cfg, c, t, now) && LogFits(t)
    ensures LogFits(Changed(cfg, c, t, now))
  {
    ChangedLog(cfg, c, t, now);
    AddedFit(cfg, c, t, now);
  }

  lemma AddedFit(cfg: Config, c: Change, t: Task, now: Time)
    requires Enabled(cfg, c, t, now)
    ensures forall i :: 0 <= i < |EventsOf(c, t)| ==> Fits(EventsOf(c, t)[i])
  {
  }

  lemma NewFits(s: State, op: Op)
    requires op.Create?
    ensures LogFits(CreatedRow(s, op))
  {
  }

  ghost predicate FitsIn(s: State, id: TaskId) {
    id in s.tasks ==> LogFits(s.tasks[id])
  }

  lemma StepFits(cfg: Config, s: State, op: Op, id: TaskId)
    requires DbInv(s) && FitsIn(s, id)
    ensures FitsIn(Apply(cfg, s, op), id)
  {
    if id in Apply(cfg, s, op).tasks {
      if id in s.tasks {
        StepFollows(cfg, s, op);
        RowFits(cfg, s, op, Apply(cfg, s, op), id);
      } else {
        NextTaskGrows(cfg, s, op);
        CreateStep(s, op);
        NewFits(s, op);
      }
    }
  }

  lemma RowFits(cfg: Config, s: State, op: Op, r: State, id: TaskId)
    requires RowsFollow(cfg, s, op, r) && id in s.tasks && id in r.tasks && LogFits(s.tasks[id])
    ensures LogFits(r.tasks[id])
  {
    assert RowFollows(cfg, s, op, r, id);
    ChangeFits(cfg, ChangeOf(cfg, s, op, id), s.tasks[id], s.now);
  }

  lemma FitsAt(cfg: Config, trace: seq<State>, ops: seq<Op>, id: TaskId, j: nat)
    requires FromStart(cfg, trace, ops) && 0 < j <= |ops| && FitsIn(trace[j - 1], id)
    ensures FitsIn(trace[j], id)
  {
    TraceIsSound(cfg, trace, ops, j - 1, j - 1);
    assert StepAt(cfg, trace, ops, j);
    StepFits(cfg, trace[j - 1], ops[j - 1], id);
  }

  /** In every run each entry of each log has the kind that its transition calls for. */
  lemma {:induction false} EveryEventFits(cfg: Config, trace: seq<State>, ops: seq<Op>, id: TaskId, j: nat)
    requires FromStart(cfg, trace, ops) && j <= |ops|
    ensures FitsIn(trace[j], id)
    decreases j
  {
    if j > 0 {
      EveryEventFits(cfg, trace, ops, id, j - 1);
      FitsAt(cfg, trace, ops, id, j);
    }
  }

  // ---------- the first start ----------

  predicate BeginsAt(trace: seq<State>, id: TaskId, k: nat) {
    k + 1 < |trace| && !Has(trace[k], id, Running) && Has(trace[k + 1], id, Running)
  }

  ghost predicate FirstBegin(trace: seq<State>, id: TaskId, k: nat) {
    BeginsAt(trace, id, k) && forall h: nat :: h < k ==> !BeginsAt(trace, id, h)
  }

  /** The start date of a task before position `j`: the clock of the step that first started it. */
  ghost predicate StartTold(trace: seq<State>, id: TaskId, j: nat, startedAt: Option<Time>) {
    if startedAt.None? then forall h: nat :: h < j ==> !BeginsAt(trace, id, h)
    else exists k: nat :: k < j && FirstBegin(trace, id, k) && startedAt.value == trace[k].now
  }

  lemma ChangeStarts(cfg: Config, c: Change, t: Task, now: Time)
    requires Enabled(cfg, c, t, now)
    ensures Changed(cfg, c, t, now).startedAt
            == if t.startedAt.None? && t.status != Running && Changed(cfg, c, t, now).status == Running then Some(now) else t.startedAt
  {
  }

  /** How a step leaves the start date of a task. */
  ghost predicate StartKept(s: State, r: State, id: TaskId)
    requires id in r.tasks
  {
    if id !in s.tasks then r.tasks[id].startedAt.None? && !Has(r, id, Running)
    else r.tasks[id].startedAt
         == if s.tasks[id].startedAt.None? && !Has(s, id, Running) && Has(r, id, Running) then Some(s.now)
            else s.tasks[id].startedAt
  }

  lemma StepStarts(cfg: Config, s: State, op: Op, id: TaskId)
    requires DbInv(s) && id in Apply(cfg, s, op).tasks
    ensures StartKept(s, Apply(cfg, s, op), id)
  {
    if id in s.tasks {
      StepFollows(cfg, s, op);
      RowStarts(cfg, s, op, Apply(cfg, s, op), id);
    } else {
      NewStarts(cfg, s, op, id);
    }
  }

  lemma NewStarts(cfg: Config, s: State, op: Op, id: TaskId)
    requires DbInv(s) && id in Apply(cfg, s, op).tasks && id !in s.tasks
    ensures StartKept(s, Apply(cfg, s, op), id)
  {
    NextTaskGrows(cfg, s, op);
    CreateStep(s, op);
    NewNotStarted(s, op);
  }

  lemma NewNotStarted(s: State, op: Op)
    requires op.Create?
    ensures CreatedRow(s, op).startedAt.None? && CreatedRow(s, op).status != Running
  {
  }

  lemma RowStarts(cfg: Config, s: State, op: Op, r: State, id: TaskId)
    requires RowsFollow(cfg, s, op, r) && id in s.tasks && id in r.tasks
    ensures StartKept(s, r, id)
  {
    assert RowFollows(cfg, s, op, r, id);
    ChangeStarts(cfg, ChangeOf(cfg, s, op, id), s.tasks[id], s.now);
  }

  lemma StartsAt(cfg: Config, trace: seq<State>, ops: seq<Op>, id: TaskId, j: nat)
    requires FromStart(cfg, trace, ops) && 0 < j <= |ops| && id in trace[j].tasks
    ensures StartKept(trace[j - 1], trace[j], id)
  {
    TraceIsSound(cfg, trace, ops, j - 1, j - 1);
    assert StepAt(cfg, trace, ops, j);
    StepStarts(cfg, trace[j - 1], ops[j - 1], id);
  }

  lemma NextTaskAt(cfg: Config, trace: seq<State>, ops: seq<Op>, id: TaskId, j: nat)
    requires FromStart(cfg, trace, ops) && 0 < j <= |ops|
    ensures trace[j - 1].nextTask <= trace[j].nextTask && (id in trace[j].tasks ==> id < trace[j].nextTask)
    ensures id in trace[j].tasks && id !in trace[j - 1].tasks ==> id >= trace[j - 1].nextTask
  {
    TraceIsSound(cfg, trace, ops, j - 1, j - 1);
    assert StepAt(cfg, trace, ops, j);
    NextTaskGrows(cfg, trace[j - 1], ops[j - 1]);
    TraceIsSound(cfg, trace, ops, j, j);
  }

  lemma {:induction false} NobodyBegan(cfg: Config, trace: seq<State>, ops: seq<Op>, id: TaskId, j: nat)
    requires FromStart(cfg, trace, ops) && j <= |ops| && id >= trace[j].nextTask
    ensures forall h: nat :: h < j ==> !BeginsAt(trace, id, h)
    decreases j
  {
    if j > 0 {
      NextTaskAt(cfg, trace, ops, id, j);
      NobodyBegan(cfg, trace, ops, id, j - 1);
    }
  }

  lemma ToldStarts(trace: seq<State>, id: TaskId, j: nat)
    requires 0 < j < |trace| && id in trace[j].tasks && StartKept(trace[j - 1], trace[j], id)
    requires if id in trace[j - 1].tasks then StartTold(trace, id, j - 1, trace[j - 1].tasks[id].startedAt)
             else forall h: nat :: h < j - 1 ==> !BeginsAt(trace, id, h)
    ensures StartTold(trace, id, j, trace[j].tasks[id].startedAt)
  {
    if id in trace[j - 1].tasks && trace[j - 1].tasks[id].startedAt.Some? {
      var k: nat :| k < j - 1 && FirstBegin(trace, id, k) && trace[j - 1].tasks[id].startedAt.value == trace[k].now;
      assert k < j && FirstBegin(trace, id, k);
    } else if BeginsAt(trace, id, j - 1) {
      assert FirstBegin(trace, id, j - 1);
    }
  }

  /** In every run the start date of a task is the clock of the step that first started it. */
  lemma {:induction false} StartedWhenFirstBegun(cfg: Config, trace: seq<State>, ops: seq<Op>, id: TaskId, j: nat)
    requires FromStart(cfg, trace, ops) && j <= |ops| && id in trace[j].tasks
    ensures StartTold(trace, id, j, trace[j].tasks[id].startedAt)
    decreases j
  {
    NothingAtFirst(cfg, trace, ops, id, trace[j].tasks[id].status);
    StartsAt(cfg, trace, ops, id, j);
    if id in trace[j - 1].tasks {
      StartedWhenFirstBegun(cfg, trace, ops, id, j - 1);
    } else {
      NextTaskAt(cfg, trace, ops, id, j);
      NobodyBegan(cfg, trace, ops, id, j - 1);
    }
    ToldStarts(trace, id, j);
  }
}
