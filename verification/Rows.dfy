/** The task row: its status machine, the columns every transition touches, its
    attempt rows and its event log.  Everything here is about one task at a time;
    the modules above lift it to the whole database and to whole runs. */
module Rows {

  datatype Option<+T> = None | Some(value: T)

  type Time = real
  type TaskId = nat
  type WorkerId = nat
  type Pos = n: int | n > 0 witness 1

  datatype Status =
    | Created | Queued | Running | RetryScheduled | Scheduled
    | Success | Failed | Cancelled | DeadLetter | Timeout

  datatype EventKind =
    | TaskCreated | TaskBlocked | TaskUnblocked | TaskQueued | TaskScheduled
    | TaskRunning | AttemptStarted | TaskSucceeded | TaskFailed | TaskCancelled
    | TaskRetried | TaskRetryScheduled | TaskRequeued | TaskDeadLettered | TaskDlqRequeued

  datatype AttemptStatus = AttemptRunning | AttemptSuccess | AttemptFailed

  datatype Attempt = Attempt(number: nat, status: AttemptStatus, worker: WorkerId, finishedAt: Option<Time>)

  datatype Event = Event(kind: EventKind, oldStatus: Status, newStatus: Status)

  /** A row of the task table, together with the attempt rows and event rows that
      belong to it (and that are deleted with it). */
  datatype Task = Task(
    status: Status,
    maxAttempts: nat,
    attempts: nat,
    scheduledAt: Option<Time>,
    startedAt: Option<Time>,
    finishedAt: Option<Time>,
    leaseOwner: Option<WorkerId>,
    leaseExpiresAt: Option<Time>,
    dlqRequeueCount: nat,
    dlqRetryAt: Option<Time>,
    updatedAt: Time,
    batch: Option<nat>,
    rows: seq<Attempt>,
    log: seq<Event>)

  /** What a worker keeps in memory about its task between its two transactions. */
  datatype TaskSnapshot = TaskSnapshot(worker: WorkerId, attempts: Pos, dlqRequeueCount: nat, dlqRetryAt: Option<Time>)

  datatype Config = Config(
    leaseSeconds: Time,
    reconcileSeconds: Time,
    retryBase: Time,
    retryFactor: real,
    retryMaxDelay: Time,
    dlqEnabled: bool,
    dlqInterval: Time,
    dlqMaxCycles: nat,
    retainDone: Time,
    retainDeadLetter: Time,
    retainSent: Time,
    cleanupBatch: nat,
    webhookMaxAttempts: nat,
    webhookBackoff: Time)

  // ---------- the status machine ----------

  function ValidTransitions(before: Status): set<Status> {
    match before
    case Created => {Queued, Scheduled, Cancelled}
    case Queued => {Running, Cancelled}
    case Running => {Success, Failed, RetryScheduled, Cancelled, DeadLetter, Queued}
    case RetryScheduled => {Queued, Cancelled}
    case Scheduled => {Queued, Cancelled}
    case Failed => {Queued}
    case Cancelled => {Queued}
    case DeadLetter => {Queued}
    case Success => {}
    case Timeout => {}
  }

  predicate CanTransition(before: Status, after: Status) {
    after in ValidTransitions(before)
  }

  predicate Terminal(s: Status) {
    s == Success || s == Failed || s == Cancelled || s == DeadLetter
  }

  predicate Cancelable(s: Status) {
    s == Created || s == Queued || s == Running || s == RetryScheduled || s == Scheduled
  }

  predicate Retryable(s: Status) {
    s == Failed || s == Cancelled || s == DeadLetter
  }

  predicate Waiting(s: Status) {
    s == RetryScheduled || s == Scheduled
  }

  /** What can be cancelled, retried by hand and called finished, told by the status machine. */
  lemma StatusesTold(st: Status)
    ensures Cancelable(st) <==> CanTransition(st, Cancelled)
    ensures Retryable(st) <==> Terminal(st) && CanTransition(st, Queued)
    ensures Terminal(st) <==> st != Timeout && !CanTransition(st, Cancelled)
  {
  }

  function Power(base: real, n: nat): real {
    if n == 0 then 1.0 else base * Power(base, n - 1)
  }

  function RetryDelay(cfg: Config, attempts: Pos): Time {
    var delay := cfg.retryBase * Power(cfg.retryFactor, attempts - 1);
    if delay < cfg.retryMaxDelay then delay else cfg.retryMaxDelay
  }

  lemma {:induction false} PowerGrows(base: real, a: nat, b: nat)
    requires base >= 1.0 && a <= b
    ensures 1.0 <= Power(base, a) <= Power(base, b)
    decreases b
  {
    if a > 0 {
      PowerGrows(base, a - 1, b - 1);
      Scaled(base, Power(base, a - 1), Power(base, b - 1));
    } else if b > 0 {
      PowerGrows(base, a, b - 1);
      Scaled(base, 1.0, Power(base, b - 1));
    }
  }

  lemma Scaled(f: real, x: real, y: real)
    requires f >= 1.0 && 1.0 <= x <= y
    ensures 1.0 <= f * x <= f * y
  {
    assert f * (y - x) >= 0.0;
    assert (f - 1.0) * x >= 0.0;
  }

  /** With a factor of at least one the delay never shrinks from one attempt to the next, starts at
      the base, and stays under the maximum. */
  lemma RetryDelayGrows(cfg: Config, a: Pos, b: Pos)
    requires cfg.retryBase >= 0.0 && cfg.retryFactor >= 1.0 && a <= b
    ensures RetryDelay(cfg, a) <= RetryDelay(cfg, b) <= cfg.retryMaxDelay
    ensures cfg.retryBase <= cfg.retryMaxDelay ==> RetryDelay(cfg, a) >= cfg.retryBase
  {
    PowerGrows(cfg.retryFactor, a - 1, b - 1);
    var x, y := Power(cfg.retryFactor, a - 1), Power(cfg.retryFactor, b - 1);
    assert cfg.retryBase * (y - x) >= 0.0;
    assert cfg.retryBase * (x - 1.0) >= 0.0;
  }

  /** The first delay is the base, and each next one the factor times the previous one, until the maximum
      is reached; from then on it is the maximum. */
  lemma RetryDelayMultiplies(cfg: Config, a: Pos)
    requires cfg.retryBase >= 0.0 && cfg.retryFactor >= 1.0
    ensures RetryDelay(cfg, 1) == Shorter(cfg.retryBase, cfg.retryMaxDelay)
    ensures RetryDelay(cfg, a + 1)
            == if RetryDelay(cfg, a) == cfg.retryMaxDelay then cfg.retryMaxDelay
               else Shorter(cfg.retryFactor * RetryDelay(cfg, a), cfg.retryMaxDelay)
  {
    var q, f := Power(cfg.retryFactor, a - 1), cfg.retryFactor;
    PowerGrows(f, 0, a - 1);
    assert cfg.retryBase * q >= 0.0;
    assert cfg.retryBase * Power(f, a) == f * (cfg.retryBase * q);
    assert (f - 1.0) * (cfg.retryBase * q) >= 0.0;
  }

  function Shorter(a: Time, b: Time): Time {
    if a < b then a else b
  }

  // ---------- what each operation does to a row ----------

  function Moved(t: Task, next: Status, kind: EventKind, now: Time): Task {
    t.(finishedAt := if next == Queued then None
                     else if Terminal(next) && t.finishedAt.None? then Some(now) else t.finishedAt,
       startedAt := if next == Running && t.startedAt.None? then Some(now) else t.startedAt,
       scheduledAt := if next == Queued then None else t.scheduledAt,
       leaseOwner := if t.status == Running && next != Running then None else t.leaseOwner,
       leaseExpiresAt := if t.status == Running && next != Running then None else t.leaseExpiresAt,
       log := t.log + [Event(kind, t.status, next)],
       status := next,
       updatedAt := now)
  }

  predicate LeaseFree(t: Task, now: Time) {
    t.leaseOwner.None? || t.leaseExpiresAt.None? || t.leaseExpiresAt.value < now
  }

  /** A lease is in force exactly if somebody holds it and it has not expired. */
  lemma LeaseFreeTold(t: Task, now: Time)
    ensures LeaseFree(t, now) <==> !(t.leaseOwner.Some? && t.leaseExpiresAt.Some? && now <= t.leaseExpiresAt.value)
    ensures t.leaseOwner.Some? && t.leaseExpiresAt.Some? ==> (LeaseFree(t, now) <==> LeaseLapsed(t, now))
  {
  }

  predicate LeaseLapsed(t: Task, now: Time) {
    t.leaseExpiresAt.Some? && t.leaseExpiresAt.value < now
  }

  function Started(cfg: Config, t: Task, worker: WorkerId, now: Time): Task {
    var leased := t.(leaseOwner := Some(worker), leaseExpiresAt := Some(now + cfg.leaseSeconds));
    var moved := Moved(leased, Running, TaskRunning, now);
    moved.(attempts := t.attempts + 1,
           rows := t.rows + [Attempt(t.attempts + 1, AttemptRunning, worker, None)],
           log := moved.log + [Event(AttemptStarted, Running, Running)])
  }

  function Reported(t: Task, k: nat, outcome: AttemptStatus, now: Time): Task {
    if 1 <= k <= |t.rows| then
      t.(rows := t.rows[k - 1 := t.rows[k - 1].(status := outcome, finishedAt := Some(now))])
    else t
  }

  function Succeeded(t: Task, k: nat, now: Time): Task {
    var reported := Reported(t, k, AttemptSuccess, now);
    if t.status != Running then reported
    else Moved(reported.(finishedAt := Some(now)), Success, TaskSucceeded, now)
  }

  /** The status a failing attempt sends its running task to; decided on the worker's snapshot. */
  function FailureStatus(maxAttempts: nat, snap: TaskSnapshot, retryable: bool): Status {
    if retryable && snap.attempts < maxAttempts then RetryScheduled
    else if retryable then DeadLetter else Failed
  }

  function FailureKind(maxAttempts: nat, snap: TaskSnapshot, retryable: bool): EventKind {
    match FailureStatus(maxAttempts, snap, retryable)
    case RetryScheduled => TaskRetryScheduled
    case DeadLetter => TaskDeadLettered
    case _ => TaskFailed
  }

  /** The columns written before the status moves. */
  function FailurePrepared(cfg: Config, t: Task, k: nat, snap: TaskSnapshot, retryable: bool, now: Time): Task {
    var reported := Reported(t, k, AttemptFailed, now);
    if t.status == Running && FailureStatus(t.maxAttempts, snap, retryable) == RetryScheduled then
      reported.(scheduledAt := Some(now + RetryDelay(cfg, snap.attempts)))
    else reported
  }

  /** The dead-letter retry time written after the status moved.  Clearing a column that the
      snapshot already holds as empty writes nothing. */
  function FailureSettled(cfg: Config, t: Task, snap: TaskSnapshot, now: Time): Task {
    if t.status != DeadLetter then t
    else if cfg.dlqEnabled && snap.dlqRequeueCount < cfg.dlqMaxCycles then
      t.(dlqRetryAt := Some(now + cfg.dlqInterval))
    else if snap.dlqRetryAt.Some? then t.(dlqRetryAt := None)
    else t
  }

  function FailedAttempt(cfg: Config, t: Task, k: nat, snap: TaskSnapshot, retryable: bool, now: Time): Task {
    var prepared := FailurePrepared(cfg, t, k, snap, retryable, now);
    if t.status != Running then prepared
    else
      FailureSettled(cfg,
        Moved(prepared, FailureStatus(t.maxAttempts, snap, retryable), FailureKind(t.maxAttempts, snap, retryable), now),
        snap, now)
  }

  /** The number of the latest attempt row still marked running; 0 when there is none. */
  function LatestRunning(rows: seq<Attempt>): (k: nat)
    ensures k <= |rows|
    ensures k > 0 ==> rows[k - 1].status == AttemptRunning
    ensures forall i :: k <= i < |rows| ==> rows[i].status != AttemptRunning
  {
    if rows == [] then 0
    else if rows[|rows| - 1].status == AttemptRunning then |rows|
    else LatestRunning(rows[..|rows| - 1])
  }

  function Recovered(t: Task, now: Time): Task {
    Moved(Reported(t, LatestRunning(t.rows), AttemptFailed, now), Queued, TaskRequeued, now)
  }

  /** Everything that can happen to an existing row in one atomic step. */
  datatype Change =
    | Same
    | Start(worker: WorkerId)
    | Renew(worker: WorkerId)
    | Succeed(k: nat)
    | Fail(k: nat, snap: TaskSnapshot, retryable: bool)
    | Recover
    | ReleaseDue
    | ReleaseDeadLetter
    | RetryByHand
    | Cancel
    | Unblock

  predicate Enabled(cfg: Config, c: Change, t: Task, now: Time) {
    match c
    case Same => true
    case Start(_) => t.status == Queued && LeaseFree(t, now)
    case Renew(w) => t.status == Running && t.leaseOwner == Some(w)
    case Succeed(k) => 1 <= k <= |t.rows|
    case Fail(k, snap, _) => 1 <= k <= |t.rows| && snap.attempts == k
    case Recover => t.status == Running && LeaseLapsed(t, now)
    case ReleaseDue => Waiting(t.status) && t.scheduledAt.Some? && t.scheduledAt.value <= now
    case ReleaseDeadLetter =>
      && cfg.dlqEnabled && t.status == DeadLetter && t.dlqRetryAt.Some? && t.dlqRetryAt.value <= now
      && t.dlqRequeueCount < cfg.dlqMaxCycles
    case RetryByHand => Retryable(t.status)
    case Cancel => Cancelable(t.status)
    case Unblock => t.status == Created
  }

  function Changed(cfg: Config, c: Change, t: Task, now: Time): Task
    requires Enabled(cfg, c, t, now)
  {
    match c
    case Same => t
    case Start(w) => Started(cfg, t, w, now)
    case Renew(w) => t.(leaseExpiresAt := Some(now + cfg.leaseSeconds), updatedAt := now)
    case Succeed(k) => Succeeded(t, k, now)
    case Fail(k, snap, retryable) => FailedAttempt(cfg, t, k, snap, retryable, now)
    case Recover => Recovered(t, now)
    case ReleaseDue => Moved(t, Queued, if t.status == RetryScheduled then TaskRetried else TaskQueued, now)
    case ReleaseDeadLetter => Moved(t.(dlqRequeueCount := t.dlqRequeueCount + 1), Queued, TaskDlqRequeued, now)
    case RetryByHand => Moved(t, Queued, TaskRetried, now)
    case Cancel => Moved(t, Cancelled, TaskCancelled, now)
    case Unblock => Moved(t, Queued, TaskUnblocked, now)
  }

  /** A row in the given status, in its first attempt. */
  function Sample(st: Status, maxAttempts: nat): Task {
    Task(st, maxAttempts, 1, Some(0.0), None, None, Some(0), Some(0.0), 0, None, 0.0, None,
         [Attempt(1, AttemptRunning, 0, None)], [])
  }

  function ChangeBetween(a: Status, b: Status): Change {
    match b
    case Running => Start(0)
    case Success => Succeed(1)
    case Failed => Fail(1, TaskSnapshot(0, 1, 0, None), false)
    case RetryScheduled => Fail(1, TaskSnapshot(0, 1, 0, None), true)
    case DeadLetter => Fail(1, TaskSnapshot(0, 1, 0, None), true)
    case Cancelled => Cancel
    case _ => if a == Created then Unblock else if a == Running then Recover else if Waiting(a) then ReleaseDue else RetryByHand
  }

  ghost predicate SomeChangeMoves(cfg: Config, a: Status, b: Status) {
    exists c, t, now :: Enabled(cfg, c, t, now) && t.status == a && Changed(cfg, c, t, now).status == b
  }

  /** The table of transitions lists exactly what happens to rows: apart from `scheduled`, which only a
      creation gives, every listed transition is made by some change, and no change makes another one. */
  lemma TransitionsHappen(cfg: Config, a: Status, b: Status)
    requires a != b
    ensures CanTransition(a, b) <==> SomeChangeMoves(cfg, a, b) || (a == Created && b == Scheduled)
  {
    if CanTransition(a, b) && b != Scheduled {
      SampleMoves(cfg, a, b);
    }
    if SomeChangeMoves(cfg, a, b) {
      var c, t, now :| Enabled(cfg, c, t, now) && t.status == a && Changed(cfg, c, t, now).status == b;
      ChangedLog(cfg, c, t, now);
      ChangedCounters(cfg, c, t, now);
    }
  }

  lemma SampleMoves(cfg: Config, a: Status, b: Status)
    requires CanTransition(a, b) && b != Scheduled
    ensures SomeChangeMoves(cfg, a, b)
  {
    var t := Sample(a, if b == RetryScheduled then 2 else 1);
    assert Enabled(cfg, ChangeBetween(a, b), t, 1.0) && t.status == a;
    SampleChanged(cfg, a, b);
  }

  lemma SampleChanged(cfg: Config, a: Status, b: Status)
    requires CanTransition(a, b) && b != Scheduled
    ensures var t := Sample(a, if b == RetryScheduled then 2 else 1);
            Enabled(cfg, ChangeBetween(a, b), t, 1.0) && Changed(cfg, ChangeBetween(a, b), t, 1.0).status == b
  {
  }

  // ---------- the audit log, counted ----------

  /** How often each class of transition occurs in a log. */
  datatype Tally = Tally(
    hops: nat,           // entries that change the status
    starts: nat,         // queued -> running
    first: nat,          // created or scheduled -> queued
    resumed: nat,        // retry_scheduled -> queued
    recovered: nat,      // running -> queued, after a lapsed lease
    deadLetter: nat,     // dead_letter -> queued, by the sweep
    manual: nat,         // terminal -> queued, by hand
    backoffs: nat)       // running -> retry_scheduled

  function Bump(y: Tally, e: Event): Tally {
    var z := if e.oldStatus == e.newStatus then y else y.(hops := y.hops + 1);
    if e.newStatus == Running && e.oldStatus != Running then z.(starts := z.starts + 1)
    else if e.oldStatus == Running && e.newStatus == RetryScheduled then z.(backoffs := z.backoffs + 1)
    else if e.newStatus != Queued || e.oldStatus == Queued then z
    else if e.oldStatus == Created || e.oldStatus == Scheduled then z.(first := z.first + 1)
    else if e.oldStatus == RetryScheduled then z.(resumed := z.resumed + 1)
    else if e.oldStatus == Running then z.(recovered := z.recovered + 1)
    else if e.kind == TaskDlqRequeued then z.(deadLetter := z.deadLetter + 1)
    else z.(manual := z.manual + 1)
  }

  function TallyOf(log: seq<Event>): Tally {
    if log == [] then Tally(0, 0, 0, 0, 0, 0, 0, 0)
    else Bump(TallyOf(log[..|log| - 1]), log[|log| - 1])
  }

  lemma TallyOfAppend(log: seq<Event>, e: Event)
    ensures TallyOf(log + [e]) == Bump(TallyOf(log), e)
  {
    assert (log + [e])[..|log|] == log;
  }

  // ---------- the invariant of a row ----------

  /** The log replays the row: it starts at created, each entry continues where the previous one
      ended, every hop is a valid transition, and it ends at the current status. */
  ghost predicate Replays(log: seq<Event>, status: Status) {
    && |log| > 0
    && log[0].oldStatus == Created
    && log[|log| - 1].newStatus == status
    && (forall i :: 0 < i < |log| ==> log[i].oldStatus == log[i - 1].newStatus)
    && (forall i :: 0 <= i < |log| ==>
          log[i].oldStatus == log[i].newStatus || CanTransition(log[i].oldStatus, log[i].newStatus))
  }

  /** The attempt rows are numbered 1..attempts and the newest one is open while the task runs. */
  ghost predicate Numbered(t: Task) {
    && |t.rows| == t.attempts
    && (forall i :: 0 <= i < |t.rows| ==> t.rows[i].number == i + 1)
    && (t.status == Running ==> t.attempts > 0 && t.rows[t.attempts - 1].status == AttemptRunning)
  }

  /** The columns that must be set exactly in certain statuses. */
  predicate Stamped(t: Task) {
    && t.status != Timeout
    && (t.leaseOwner.Some? <==> t.status == Running)
    && (t.leaseExpiresAt.Some? <==> t.status == Running)
    && (t.finishedAt.Some? <==> Terminal(t.status))
    && (Waiting(t.status) ==> t.scheduledAt.Some?)
    && (t.status == Queued || t.status == Running ==> t.scheduledAt.None?)
  }

  /** The counting facts that link the log to the counters of the row. */
  predicate Balanced(y: Tally, status: Status, attempts: nat, requeues: nat) {
    && y.starts == attempts
    && y.deadLetter == requeues
    && y.starts + (if status == Queued then 1 else 0)
         <= y.first + y.resumed + y.recovered + y.deadLetter + y.manual
    && y.first + (if status == Created || status == Scheduled then 1 else 0) <= 1
    && y.resumed + (if status == RetryScheduled then 1 else 0) <= y.backoffs
  }

  predicate Counted(t: Task) {
    Balanced(TallyOf(t.log), t.status, t.attempts, t.dlqRequeueCount)
  }

  ghost predicate RowInv(t: Task) {
    Stamped(t) && Numbered(t) && Replays(t.log, t.status) && Counted(t)
  }

  lemma ReplaysAppend(log: seq<Event>, e: Event)
    requires Replays(log, e.oldStatus)
    requires e.oldStatus == e.newStatus || CanTransition(e.oldStatus, e.newStatus)
    ensures Replays(log + [e], e.newStatus)
  {
  }

  /** The entries a change adds to the log. */
  function EventsOf(c: Change, t: Task): seq<Event> {
    match c
    case Same => []
    case Start(_) => [Event(TaskRunning, t.status, Running), Event(AttemptStarted, Running, Running)]
    case Renew(_) => []
    case Succeed(_) => if t.status == Running then [Event(TaskSucceeded, Running, Success)] else []
    case Fail(_, snap, retryable) =>
      if t.status == Running then
        [Event(FailureKind(t.maxAttempts, snap, retryable), Running, FailureStatus(t.maxAttempts, snap, retryable))]
      else []
    case Recover => [Event(TaskRequeued, t.status, Queued)]
    case ReleaseDue => [Event(if t.status == RetryScheduled then TaskRetried else TaskQueued, t.status, Queued)]
    case ReleaseDeadLetter => [Event(TaskDlqRequeued, t.status, Queued)]
    case RetryByHand => [Event(TaskRetried, t.status, Queued)]
    case Cancel => [Event(TaskCancelled, t.status, Cancelled)]
    case Unblock => [Event(TaskUnblocked, t.status, Queued)]
  }

  lemma ChangedLog(cfg: Config, c: Change, t: Task, now: Time)
    requires Enabled(cfg, c, t, now)
    ensures Changed(cfg, c, t, now).log == t.log + EventsOf(c, t)
    ensures EventsOf(c, t) == [] ==> Changed(cfg, c, t, now).status == t.status
  {
  }

  lemma ChangedReplays(cfg: Config, c: Change, t: Task, now: Time)
    requires Replays(t.log, t.status) && Enabled(cfg, c, t, now)
    ensures Replays(Changed(cfg, c, t, now).log, Changed(cfg, c, t, now).status)
  {
    ChangedLog(cfg, c, t, now);
    var added := EventsOf(c, t);
    if |added| > 0 {
      ReplaysAppend(t.log, added[0]);
      if |added| > 1 {
        ReplaysAppend(t.log + [added[0]], added[1]);
        assert t.log + added == t.log + [added[0]] + [added[1]];
      } else {
        assert added == [added[0]];
      }
    } else {
      assert t.log + added == t.log;
    }
  }

  lemma ChangedStamped(cfg: Config, c: Change, t: Task, now: Time)
    requires Stamped(t) && Enabled(cfg, c, t, now)
    ensures Stamped(Changed(cfg, c, t, now))
  {
  }

  lemma ChangedNumbered(cfg: Config, c: Change, t: Task, now: Time)
    requires Numbered(t) && Enabled(cfg, c, t, now)
    ensures Numbered(Changed(cfg, c, t, now))
  {
    ChangedRows(cfg, c, t, now);
  }

  lemma FailedRows(cfg: Config, t: Task, k: nat, snap: TaskSnapshot, retryable: bool, now: Time)
    requires 1 <= k <= |t.rows|
    ensures var u := FailedAttempt(cfg, t, k, snap, retryable, now);
            u.rows == Reported(t, k, AttemptFailed, now).rows && u.attempts == t.attempts && u.status != Running
  {
  }

  lemma ReportedRows(t: Task, k: nat, outcome: AttemptStatus, now: Time)
    ensures var u := Reported(t, k, outcome, now);
            && |u.rows| == |t.rows| && u.attempts == t.attempts && u.status == t.status
            && (forall i :: 0 <= i < |t.rows| ==> u.rows[i].number == t.rows[i].number && u.rows[i].worker == t.rows[i].worker)
  {
  }

  /** Attempt rows are only appended, and keep their number and their worker. */
  lemma ChangedRows(cfg: Config, c: Change, t: Task, now: Time)
    requires Enabled(cfg, c, t, now)
    ensures var u := Changed(cfg, c, t, now);
            && (if c.Start? then |u.rows| == |t.rows| + 1 && u.attempts == t.attempts + 1
                                 && u.rows[|t.rows|] == Attempt(t.attempts + 1, AttemptRunning, c.worker, None)
                else |u.rows| == |t.rows| && u.attempts == t.attempts)
            && (forall i :: 0 <= i < |t.rows| ==> u.rows[i].number == t.rows[i].number && u.rows[i].worker == t.rows[i].worker)
            && (u.status == Running && !c.Start? ==> t.status == Running && u.rows == t.rows)
  {
    if c.Fail? {
      FailedRows(cfg, t, c.k, c.snap, c.retryable, now);
      ReportedRows(t, c.k, AttemptFailed, now);
    } else if c.Succeed? {
      ReportedRows(t, c.k, AttemptSuccess, now);
    } else if c.Recover? {
      ReportedRows(t, LatestRunning(t.rows), AttemptFailed, now);
    }
  }

  lemma BumpBalanced(y: Tally, e: Event, attempts: nat, requeues: nat)
    requires Balanced(y, e.oldStatus, attempts, requeues)
    requires e.oldStatus == e.newStatus || CanTransition(e.oldStatus, e.newStatus)
    ensures Balanced(Bump(y, e), e.newStatus,
                     if e.newStatus == Running && e.oldStatus != Running then attempts + 1 else attempts,
                     if e.newStatus == Queued && Retryable(e.oldStatus) && e.kind == TaskDlqRequeued
                     then requeues + 1 else requeues)
  {
  }

  /** How the counters of the row follow the entries added to its log. */
  lemma ChangedCounters(cfg: Config, c: Change, t: Task, now: Time)
    requires Enabled(cfg, c, t, now)
    ensures EventsOf(c, t) == [] ==>
              Changed(cfg, c, t, now).attempts == t.attempts
              && Changed(cfg, c, t, now).dlqRequeueCount == t.dlqRequeueCount
    ensures c.Start? ==> Changed(cfg, c, t, now).attempts == t.attempts + 1
    ensures !c.Start? ==> Changed(cfg, c, t, now).attempts == t.attempts && |EventsOf(c, t)| <= 1
    ensures Changed(cfg, c, t, now).dlqRequeueCount
            == if c.ReleaseDeadLetter? then t.dlqRequeueCount + 1 else t.dlqRequeueCount
    ensures EventsOf(c, t) != [] ==>
              var e := EventsOf(c, t)[0];
              && e.oldStatus == t.status && CanTransition(e.oldStatus, e.newStatus)
              && Changed(cfg, c, t, now).status == e.newStatus
              && (c.Start? <==> e.newStatus == Running)
              && (c.ReleaseDeadLetter? <==> e.newStatus == Queued && Retryable(e.oldStatus) && e.kind == TaskDlqRequeued)
  {
  }

  lemma BumpStay(y: Tally, kind: EventKind, s: Status)
    ensures Bump(y, Event(kind, s, s)) == y
  {
  }

  /** Only the first entry of a change moves the tally. */
  lemma ChangedTally(cfg: Config, c: Change, t: Task, now: Time)
    requires Enabled(cfg, c, t, now)
    ensures TallyOf(Changed(cfg, c, t, now).log)
            == if EventsOf(c, t) == [] then TallyOf(t.log) else Bump(TallyOf(t.log), EventsOf(c, t)[0])
  {
    ChangedLog(cfg, c, t, now);
    var added := EventsOf(c, t);
    if added == [] {
      assert t.log + added == t.log;
    } else {
      TallyOfAppend(t.log, added[0]);
      if c.Start? {
        TallyOfAppend(t.log + [added[0]], added[1]);
        BumpStay(Bump(TallyOf(t.log), added[0]), AttemptStarted, Running);
        assert t.log + added == t.log + [added[0]] + [added[1]];
      } else {
        assert |added| == 1;
        assert added == [added[0]];
      }
    }
  }

  lemma ChangedCounted(cfg: Config, c: Change, t: Task, now: Time)
    requires Counted(t) && Enabled(cfg, c, t, now)
    ensures Counted(Changed(cfg, c, t, now))
  {
    ChangedTally(cfg, c, t, now);
    ChangedCounters(cfg, c, t, now);
    if EventsOf(c, t) != [] {
      BumpBalanced(TallyOf(t.log), EventsOf(c, t)[0], t.attempts, t.dlqRequeueCount);
    }
  }

  /** Every change keeps the invariant of the row. */
  lemma ChangedKeepsRow(cfg: Config, c: Change, t: Task, now: Time)
    requires RowInv(t) && Enabled(cfg, c, t, now)
    ensures RowInv(Changed(cfg, c, t, now))
  {
    ChangedReplays(cfg, c, t, now);
    ChangedStamped(cfg, c, t, now);
    ChangedNumbered(cfg, c, t, now);
    ChangedCounted(cfg, c, t, now);
  }

  /** Recovery always finds the current attempt, whatever older rows still say. */
  lemma RecoveryClosesCurrentAttempt(t: Task, now: Time)
    requires RowInv(t) && t.status == Running
    ensures LatestRunning(t.rows) == t.attempts
    ensures Recovered(t, now).rows ==
            t.rows[t.attempts - 1 := t.rows[t.attempts - 1].(status := AttemptFailed, finishedAt := Some(now))]
  {
    assert t.rows[t.attempts - 1].status == AttemptRunning;
  }
}
