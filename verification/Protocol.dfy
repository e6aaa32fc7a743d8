/** The atomic steps of the platform and its runs: what one committed transaction,
    one broker event, one worker fault or one tick of the clock does to the state. */
module Protocol {
  import opened Rows
  import opened Store
  import opened Dependencies

  datatype RelayOutcome = Published | PublishFailed | CrashedBeforeCommit | FailedBeforeCommit

  datatype Outcome = Completed | RetryableError | PermanentError

  datatype Op =
    | Create(maxAttempts: nat, scheduleAt: Option<Time>, batch: Option<nat>, dependsOn: seq<TaskId>)
    | Relay(row: nat, how: RelayOutcome)
    | Receive(task: TaskId, worker: WorkerId)
    | Finish(flight: Flight, outcome: Outcome)
    | RenewLease(task: TaskId, worker: WorkerId)
    | ReleaseDueTask(task: TaskId)
    | ReleaseDeadTask(task: TaskId)
    | RecoverTask(task: TaskId)
    | RepublishTask(task: TaskId)
    | RetryTask(task: TaskId)
    | CancelTask(task: TaskId)
    | PurgeTask(task: TaskId)
    | PurgeOutbox(row: nat)
    | Tick(d: Time)
    // faults
    | Lose(task: TaskId)        // the broker or a failing handler drops a message
    | Redeliver(task: TaskId)   // the broker delivers a message once more
    | Crash(flight: Flight)     // a worker dies in the middle of an attempt

  function WithRow(s: State, id: TaskId, t: Task): State {
    s.(tasks := s.tasks[id := t])
  }

  // ---------- creation ----------

  function FreshRow(maxAttempts: nat, scheduleAt: Option<Time>, batch: Option<nat>, now: Time): Task {
    Task(Created, maxAttempts, 0, scheduleAt, None, None, None, None, 0, None, now, batch, [],
         [Event(TaskCreated, Created, Created)])
  }

  function Blocked(t: Task): Task {
    t.(log := t.log + [Event(TaskBlocked, Created, Created)])
  }

  /** The edges can be registered: no self reference, no unknown parent, no cycle. */
  ghost predicate Registrable(s: State, id: TaskId, dependsOn: seq<TaskId>) {
    && id !in dependsOn
    && (forall p :: p in dependsOn ==> p in s.tasks)
    && !ClosesCycle(s.edges, id, WithoutRepeats(dependsOn))
  }

  ghost function DoBlock(s: State, id: TaskId, dependsOn: seq<TaskId>): State
    requires id in s.tasks
  {
    WithRow(s, id, Blocked(s.tasks[id])).(edges := s.edges + EdgesTo(id, WithoutRepeats(dependsOn)))
  }

  function DoReady(s: State, id: TaskId, scheduleAt: Option<Time>): State {
    if scheduleAt.Some? && scheduleAt.value > s.now then SetStatus(s, id, Scheduled, TaskScheduled)
    else AddOutbox(SetStatus(s, id, Queued, TaskQueued), id)
  }

  function Added(s: State, maxAttempts: nat, scheduleAt: Option<Time>, batch: Option<nat>): (r: State)
    ensures s.nextTask in r.tasks
  {
    WithRow(s, s.nextTask, FreshRow(maxAttempts, scheduleAt, batch, s.now)).(nextTask := s.nextTask + 1)
  }

  /** A refused registration rolls the whole transaction back. */
  ghost function DoCreate(s: State, maxAttempts: nat, scheduleAt: Option<Time>, batch: Option<nat>, dependsOn: seq<TaskId>): State {
    var added := Added(s, maxAttempts, scheduleAt, batch);
    if dependsOn == [] then DoReady(added, s.nextTask, scheduleAt)
    else if Registrable(added, s.nextTask, dependsOn) then DoBlock(added, s.nextTask, dependsOn)
    else s
  }

  // ---------- relay ----------

  function DoRelay(s: State, row: nat, how: RelayOutcome): State {
    if row !in s.outbox || s.outbox[row].status != Pending then s
    else
      var r := s.outbox[row];
      match how
      case Published =>
        s.(outbox := s.outbox[row := r.(status := Sent, processedAt := Some(s.now), attempts := r.attempts + 1)],
           broker := s.broker + multiset{r.task})
      case PublishFailed => s.(outbox := s.outbox[row := r.(attempts := r.attempts + 1)])
      case CrashedBeforeCommit => s.(broker := s.broker + multiset{r.task})
      case FailedBeforeCommit => s
  }

  // ---------- workers ----------

  /** The lease, the new attempt, and what the worker remembers of it. */
  function DoStart(cfg: Config, s: State, id: TaskId, worker: WorkerId): State
    requires id in s.tasks
  {
    var t := s.tasks[id];
    WithRow(s, id, Started(cfg, t, worker, s.now)).(
      hooks := s.hooks + DeliveriesFor(s.subs, TaskRunning, id, Running, s.now),
      flights := s.flights[Flight(id, t.attempts + 1) :=
                           TaskSnapshot(worker, t.attempts + 1, t.dlqRequeueCount, t.dlqRetryAt)])
  }

  /** First transaction of a worker: take the message, take the lease, open an attempt. */
  function DoReceive(cfg: Config, s: State, id: TaskId, worker: WorkerId): State {
    if s.broker[id] == 0 then s
    else
      var taken := s.(broker := s.broker - multiset{id});
      if id !in s.tasks || !Enabled(cfg, Start(worker), s.tasks[id], s.now) then taken
      else DoStart(cfg, taken, id, worker)
  }

  function FinishSuccess(s: State, id: TaskId, k: nat): State
    requires id in s.tasks
  {
    var t := s.tasks[id];
    var reported := Reported(t, k, AttemptSuccess, s.now);
    if t.status != Running then WithRow(s, id, reported)
    else SetStatus(WithRow(s, id, reported.(finishedAt := Some(s.now))), id, Success, TaskSucceeded)
  }

  function FinishFailure(cfg: Config, s: State, id: TaskId, k: nat, snap: TaskSnapshot, retryable: bool): State
    requires id in s.tasks
  {
    var t := s.tasks[id];
    var prepared := WithRow(s, id, FailurePrepared(cfg, t, k, snap, retryable, s.now));
    if t.status != Running then prepared
    else
      var moved := SetStatus(prepared, id, FailureStatus(t.maxAttempts, snap, retryable),
                             FailureKind(t.maxAttempts, snap, retryable));
      WithRow(moved, id, FailureSettled(cfg, moved.tasks[id], snap, s.now))
  }

  /** Second transaction of a worker: report the attempt and, if the task still runs, its outcome. */
  function DoFinish(cfg: Config, s: State, f: Flight, outcome: Outcome): State {
    if f !in s.flights then s
    else
      var snap := s.flights[f];
      var landed := s.(flights := s.flights - {f});
      if f.task !in s.tasks then landed
      else if outcome == Completed then FinishSuccess(landed, f.task, f.number)
      else FinishFailure(cfg, landed, f.task, f.number, snap, outcome == RetryableError)
  }

  function DoRenew(cfg: Config, s: State, id: TaskId, worker: WorkerId): State {
    if id in s.tasks && Enabled(cfg, Renew(worker), s.tasks[id], s.now)
    then WithRow(s, id, Changed(cfg, Renew(worker), s.tasks[id], s.now))
    else s
  }

  // ---------- sweeps, task by task ----------

  predicate IsDue(cfg: Config, s: State, id: TaskId) {
    id in s.tasks && Enabled(cfg, ReleaseDue, s.tasks[id], s.now)
  }

  function DoReleaseDue(cfg: Config, s: State, id: TaskId): State {
    if IsDue(cfg, s, id)
    then Release(s, id, if s.tasks[id].status == RetryScheduled then TaskRetried else TaskQueued)
    else s
  }

  predicate IsDeadDue(cfg: Config, s: State, id: TaskId) {
    id in s.tasks && Enabled(cfg, ReleaseDeadLetter, s.tasks[id], s.now)
  }

  function DoReleaseDead(cfg: Config, s: State, id: TaskId): State {
    if IsDeadDue(cfg, s, id)
    then Release(WithRow(s, id, s.tasks[id].(dlqRequeueCount := s.tasks[id].dlqRequeueCount + 1)), id, TaskDlqRequeued)
    else s
  }

  predicate IsStuck(s: State, id: TaskId) {
    id in s.tasks && LeaseLapsed(s.tasks[id], s.now)
    && (s.tasks[id].status == Queued || s.tasks[id].status == Running)
  }

  function DoRecover(s: State, id: TaskId): State {
    if !IsStuck(s, id) then s
    else if s.tasks[id].status == Running then
      Release(WithRow(s, id, Reported(s.tasks[id], LatestRunning(s.tasks[id].rows), AttemptFailed, s.now)), id, TaskRequeued)
    else AddOutbox(WithRow(s, id, s.tasks[id].(leaseOwner := None, leaseExpiresAt := None, updatedAt := s.now)), id)
  }

  predicate IsOrphan(cfg: Config, s: State, id: TaskId) {
    && id in s.tasks && s.tasks[id].status == Queued
    && s.tasks[id].updatedAt <= s.now - cfg.reconcileSeconds
    && LeaseFree(s.tasks[id], s.now)
  }

  function DoRepublish(cfg: Config, s: State, id: TaskId): State {
    if IsOrphan(cfg, s, id) then AddOutbox(s, id) else s
  }

  // ---------- manual operations ----------

  function DoRetry(s: State, id: TaskId): State {
    if id in s.tasks && Retryable(s.tasks[id].status) then Release(s, id, TaskRetried) else s
  }

  function DoCancel(s: State, id: TaskId): State {
    if id in s.tasks && Cancelable(s.tasks[id].status) then SetStatus(s, id, Cancelled, TaskCancelled) else s
  }

  // ---------- retention ----------

  predicate DonePurgeable(cfg: Config, t: Task, now: Time) {
    cfg.retainDone > 0.0 && t.finishedAt.Some? && t.finishedAt.value <= now - cfg.retainDone
  }

  predicate DeadPurgeable(cfg: Config, t: Task, now: Time) {
    && cfg.retainDeadLetter > 0.0 && t.status == DeadLetter && t.dlqRetryAt.None?
    && t.finishedAt.Some? && t.finishedAt.value <= now - cfg.retainDeadLetter
  }

  function EdgesWithout(edges: seq<Edge>, id: TaskId): (r: seq<Edge>)
    ensures forall e :: e in r <==> e in edges && e.parent != id && e.child != id
  {
    if edges == [] then []
    else
      assert edges == [edges[0]] + edges[1..];
      (if edges[0].parent != id && edges[0].child != id then [edges[0]] else []) + EdgesWithout(edges[1..], id)
  }

  /** Deleting a row takes its attempts, its events and its edges with it. */
  function Deleted(s: State, id: TaskId): State {
    s.(tasks := s.tasks - {id}, edges := EdgesWithout(s.edges, id))
  }

  function DoPurgeTask(cfg: Config, s: State, id: TaskId): State {
    if id in s.tasks && (DonePurgeable(cfg, s.tasks[id], s.now) || DeadPurgeable(cfg, s.tasks[id], s.now))
    then Deleted(s, id) else s
  }

  predicate SentPurgeable(cfg: Config, r: OutboxRow, now: Time) {
    cfg.retainSent > 0.0 && r.processedAt.Some? && r.processedAt.value <= now - cfg.retainSent
  }

  function DoPurgeOutbox(cfg: Config, s: State, row: nat): State {
    if row in s.outbox && SentPurgeable(cfg, s.outbox[row], s.now)
    then s.(outbox := s.outbox - {row}) else s
  }

  // ---------- steps and runs ----------

  ghost function Apply(cfg: Config, s: State, op: Op): State {
    match op
    case Create(maxAttempts, scheduleAt, batch, dependsOn) => DoCreate(s, maxAttempts, scheduleAt, batch, dependsOn)
    case Relay(row, how) => DoRelay(s, row, how)
    case Receive(id, worker) => DoReceive(cfg, s, id, worker)
    case Finish(f, outcome) => DoFinish(cfg, s, f, outcome)
    case RenewLease(id, worker) => DoRenew(cfg, s, id, worker)
    case ReleaseDueTask(id) => DoReleaseDue(cfg, s, id)
    case ReleaseDeadTask(id) => DoReleaseDead(cfg, s, id)
    case RecoverTask(id) => DoRecover(s, id)
    case RepublishTask(id) => DoRepublish(cfg, s, id)
    case RetryTask(id) => DoRetry(s, id)
    case CancelTask(id) => DoCancel(s, id)
    case PurgeTask(id) => DoPurgeTask(cfg, s, id)
    case PurgeOutbox(row) => DoPurgeOutbox(cfg, s, row)
    case Tick(d) => if d >= 0.0 then s.(now := s.now + d) else s
    case Lose(id) => s.(broker := s.broker - multiset{id})
    case Redeliver(id) => s.(broker := s.broker + multiset{id})
    case Crash(f) => s.(flights := s.flights - {f})
  }

  ghost function Exec(cfg: Config, s: State, ops: seq<Op>): State
    decreases |ops|
  {
    if ops == [] then s else Exec(cfg, Apply(cfg, s, ops[0]), ops[1..])
  }

  ghost function Init(subs: seq<Subscription>, now: Time): State {
    State(map[], [], map[], subs, [], multiset{}, map[], 0, 0, now)
  }

  lemma {:induction false} ExecConcat(cfg: Config, s: State, first: seq<Op>, second: seq<Op>)
    ensures Exec(cfg, s, first + second) == Exec(cfg, Exec(cfg, s, first), second)
    decreases |first|
  {
    if first == [] {
      assert first + second == second;
    } else {
      assert (first + second)[1..] == first[1..] + second;
      ExecConcat(cfg, Apply(cfg, s, first[0]), first[1..], second);
    }
  }

  lemma ExecSnoc(cfg: Config, s: State, ops: seq<Op>, op: Op)
    ensures Exec(cfg, s, ops + [op]) == Apply(cfg, Exec(cfg, s, ops), op)
  {
    ExecConcat(cfg, s, ops, [op]);
    assert Exec(cfg, Apply(cfg, Exec(cfg, s, ops), op), [op][1..]) == Apply(cfg, Exec(cfg, s, ops), op);
  }

  // ---------- runs as traces ----------

  ghost predicate StepAt(cfg: Config, trace: seq<State>, ops: seq<Op>, i: nat)
    requires 0 < i < |trace| == |ops| + 1
  {
    trace[i] == Apply(cfg, trace[i - 1], ops[i - 1])
  }

  ghost predicate Trace(cfg: Config, trace: seq<State>, ops: seq<Op>) {
    |trace| == |ops| + 1 && forall i :: 0 < i < |trace| ==> StepAt(cfg, trace, ops, i)
  }

  /** `trace` shows how the steps lead from `s` to `r`. */
  ghost predicate Leads(cfg: Config, s: State, ops: seq<Op>, r: State, trace: seq<State>) {
    Trace(cfg, trace, ops) && trace[0] == s && trace[|ops|] == r
  }

  ghost predicate Runs(cfg: Config, s: State, ops: seq<Op>, r: State) {
    exists trace :: Leads(cfg, s, ops, r, trace)
  }

  /** Some run of the empty platform, with any steps and faults, ends in `s`. */
  ghost predicate Reachable(cfg: Config, s: State) {
    exists subs, now, ops :: Runs(cfg, Init(subs, now), ops, s)
  }

  /** A run leads to exactly one state, the one that executing its steps computes. */
  lemma RunsIsExec(cfg: Config, s: State, ops: seq<Op>, r: State)
    ensures Runs(cfg, s, ops, r) <==> r == Exec(cfg, s, ops)
  {
    if Runs(cfg, s, ops, r) {
      var trace :| Leads(cfg, s, ops, r, trace);
      TraceIsExec(cfg, trace, ops, |ops|);
      assert ops[..|ops|] == ops;
    }
    if r == Exec(cfg, s, ops) {
      StatesLead(cfg, s, ops);
    }
  }

  /** A run of one step. */
  lemma OneStep(cfg: Config, s: State, op: Op, r: State)
    ensures Runs(cfg, s, [op], r) <==> r == Apply(cfg, s, op)
  {
    RunsIsExec(cfg, s, [op], r);
    assert Exec(cfg, Apply(cfg, s, op), [op][1..]) == Apply(cfg, s, op);
  }

  lemma {:induction false} TraceIsExec(cfg: Config, trace: seq<State>, ops: seq<Op>, i: nat)
    requires Trace(cfg, trace, ops) && i <= |ops|
    ensures trace[i] == Exec(cfg, trace[0], ops[..i])
    decreases i
  {
    if i > 0 {
      TraceIsExec(cfg, trace, ops, i - 1);
      assert StepAt(cfg, trace, ops, i);
      assert ops[..i] == ops[..i - 1] + [ops[i - 1]];
      ExecSnoc(cfg, trace[0], ops[..i - 1], ops[i - 1]);
    } else {
      assert ops[..0] == [];
    }
  }

  /** All states of a run. */
  ghost function States(cfg: Config, s: State, ops: seq<Op>): seq<State>
    decreases |ops|
  {
    if ops == [] then [s] else [s] + States(cfg, Apply(cfg, s, ops[0]), ops[1..])
  }

  lemma {:induction false} StatesLead(cfg: Config, s: State, ops: seq<Op>)
    ensures Leads(cfg, s, ops, Exec(cfg, s, ops), States(cfg, s, ops))
    decreases |ops|
  {
    if ops != [] {
      StatesLead(cfg, Apply(cfg, s, ops[0]), ops[1..]);
      LeadsFrom(cfg, s, ops, Exec(cfg, s, ops), States(cfg, Apply(cfg, s, ops[0]), ops[1..]));
    }
  }

  lemma LeadsFrom(cfg: Config, s: State, ops: seq<Op>, r: State, rest: seq<State>)
    requires ops != [] && Leads(cfg, Apply(cfg, s, ops[0]), ops[1..], r, rest)
    ensures Leads(cfg, s, ops, r, [s] + rest)
  {
    var trace := [s] + rest;
    forall i | 0 < i < |trace| ensures StepAt(cfg, trace, ops, i) {
      if i > 1 {
        assert StepAt(cfg, rest, ops[1..], i - 1);
      }
    }
  }
}
