/** Webhook deliveries: how many are queued, and how often one is sent. */
module Webhooks {
  import opened Rows
  import opened Store
  import Cascade
  import opened Protocol
  import opened Steps

  // ---------- sending one delivery ----------

  predicate Sendable(d: Delivery, now: Time) {
    d.status == DeliveryPending && d.nextRetryAt <= now
  }

  predicate Subscribed(subs: seq<Subscription>, d: Delivery) {
    d.subscription < |subs| && subs[d.subscription].active
  }

  function Backoff(cfg: Config, attempts: Pos): Time {
    cfg.webhookBackoff * Power(2.0, attempts - 1)
  }

  /** A delivery to an inactive subscription fails unsent; `ok` is the receiver's answer otherwise. */
  function Dispatched(cfg: Config, subs: seq<Subscription>, d: Delivery, ok: bool, now: Time): Delivery {
    if !Subscribed(subs, d) then d.(status := DeliveryFailed)
    else if ok then d.(status := DeliverySent)
    else if d.attempts + 1 >= cfg.webhookMaxAttempts then d.(attempts := d.attempts + 1, status := DeliveryFailed)
    else d.(attempts := d.attempts + 1, nextRetryAt := now + Backoff(cfg, d.attempts + 1))
  }

  // ---------- the platform with its dispatcher ----------

  /** A sending whose transaction does not commit leaves the delivery as it was. */
  datatype Step =
    | Platform(op: Op)
    | Dispatch(delivery: nat, ok: bool, commits: bool)
    | Subscribe(sub: Subscription)
    | Edit(subscription: nat, sub: Subscription)

  ghost function Next(cfg: Config, s: State, step: Step): State {
    match step
    case Platform(op) => Apply(cfg, s, op)
    case Dispatch(i, ok, commits) =>
      if commits && i < |s.hooks| && Sendable(s.hooks[i], s.now)
      then s.(hooks := s.hooks[i := Dispatched(cfg, s.subs, s.hooks[i], ok, s.now)])
      else s
    case Subscribe(sub) => s.(subs := s.subs + [sub])
    case Edit(j, sub) => if j < |s.subs| then s.(subs := s.subs[j := sub]) else s
  }

  ghost function After(cfg: Config, s: State, steps: seq<Step>): State
    decreases |steps|
  {
    if steps == [] then s else After(cfg, Next(cfg, s, steps[0]), steps[1..])
  }

  lemma {:induction false} AfterSnoc(cfg: Config, s: State, steps: seq<Step>, step: Step)
    ensures After(cfg, s, steps + [step]) == Next(cfg, After(cfg, s, steps), step)
    decreases |steps|
  {
    if steps == [] {
      assert [step][1..] == [];
    } else {
      assert (steps + [step])[1..] == steps[1..] + [step];
      AfterSnoc(cfg, Next(cfg, s, steps[0]), steps[1..], step);
    }
  }

  function DueDeliveries(s: State): set<nat> {
    set i | 0 <= i < |s.hooks| && Sendable(s.hooks[i], s.now)
  }

  function DispatchAll(ids: seq<nat>, answers: nat -> bool, commits: bool): (steps: seq<Step>)
    ensures |steps| == |ids| && forall i :: 0 <= i < |ids| ==> steps[i] == Dispatch(ids[i], answers(ids[i]), commits)
  {
    seq(|ids|, i requires 0 <= i < |ids| => Dispatch(ids[i], answers(ids[i]), commits))
  }

  lemma DispatchRound(cfg: Config, before: State, ids: seq<nat>, answers: nat -> bool, commits: bool, i: nat, s: State, r: State)
    requires i < |ids| && s == After(cfg, before, DispatchAll(ids[..i], answers, commits))
    requires r == Next(cfg, s, Dispatch(ids[i], answers(ids[i]), commits))
    ensures r == After(cfg, before, DispatchAll(ids[..i + 1], answers, commits))
  {
    assert DispatchAll(ids[..i + 1], answers, commits) == DispatchAll(ids[..i], answers, commits) + [Dispatch(ids[i], answers(ids[i]), commits)];
    AfterSnoc(cfg, before, DispatchAll(ids[..i], answers, commits), Dispatch(ids[i], answers(ids[i]), commits));
  }

  /** The state as it is going to be committed, or lost. */
  ghost function Recorded(s: State, rows: seq<Delivery>, commits: bool): State {
    if commits then s.(hooks := rows) else s
  }

  // ---------- deliveries are only appended ----------

  /** As queued: pending, never tried, due at once. */
  predicate Unsent(d: Delivery, now: Time) {
    d.status == DeliveryPending && d.attempts == 0 && d.nextRetryAt == now
  }

  ghost predicate Extends(a: seq<Delivery>, b: seq<Delivery>, now: Time) {
    |a| <= |b| && b[..|a|] == a && forall k :: |a| <= k < |b| ==> Unsent(b[k], now)
  }

  ghost predicate Appends(s: State, r: State) {
    r.now == s.now && Extends(s.hooks, r.hooks, s.now)
  }

  lemma {:induction false} DeliveriesAreUnsent(subs: seq<Subscription>, kind: EventKind, task: TaskId, reported: Status, now: Time)
    ensures forall k :: 0 <= k < |DeliveriesFor(subs, kind, task, reported, now)| ==>
              Unsent(DeliveriesFor(subs, kind, task, reported, now)[k], now)
    decreases |subs|
  {
    if subs != [] {
      DeliveriesAreUnsent(subs[..|subs| - 1], kind, task, reported, now);
    }
  }

  lemma PutAppends(s: State, id: TaskId, next: Status, kind: EventKind)
    requires id in s.tasks
    ensures Appends(s, Put(s, id, next, kind))
  {
    DeliveriesAreUnsent(s.subs, kind, id, next, s.now);
  }

  lemma {:induction false} CascadeAppends(s: State, id: TaskId, next: Status, kind: EventKind)
    ensures Appends(s, SetStatus(s, id, next, kind))
    decreases CreatedTasks(s) - {id}, 1, 0
  {
    if Applies(s, id, next) {
      var moved := Put(s, id, next, kind);
      PutAppends(s, id, next, kind);
      Cascade.PutCreated(s, id, next, kind);
      Cascade.SetStatusUnfolds(s, id, next, kind);
      if Terminal(next) {
        AdvanceAppends(moved, next, ChildrenOf(s.edges, id));
        AppendsTransitive(s, moved, Advance(moved, next, ChildrenOf(s.edges, id)));
      }
    }
  }

  lemma AppendsTransitive(a: State, b: State, c: State)
    requires Appends(a, b) && Appends(b, c)
    ensures Appends(a, c)
  {
    assert c.hooks[..|a.hooks|] == c.hooks[..|b.hooks|][..|a.hooks|];
    forall k | |a.hooks| <= k < |c.hooks| ensures Unsent(c.hooks[k], a.now) {
      assert k < |b.hooks| ==> c.hooks[k] == c.hooks[..|b.hooks|][k];
    }
  }

  lemma {:induction false} AdvanceAppends(s: State, reached: Status, kids: seq<TaskId>)
    ensures Appends(s, Advance(s, reached, kids))
    decreases CreatedTasks(s), 0, |kids|
  {
    if kids != [] {
      AdvanceChildAppends(s, reached, kids[0]);
      AdvanceAppends(AdvanceChild(s, reached, kids[0]), reached, kids[1..]);
      AppendsTransitive(s, AdvanceChild(s, reached, kids[0]), Advance(s, reached, kids));
    }
  }

  lemma {:induction false} AdvanceChildAppends(s: State, reached: Status, child: TaskId)
    ensures Appends(s, AdvanceChild(s, reached, child))
    decreases CreatedTasks(s), 0, 0
  {
    if child in s.tasks && s.tasks[child].status == Created {
      if reached != Success {
        CascadeAppends(s, child, Cancelled, TaskCancelled);
      } else {
        PutAppends(s, child, Queued, TaskUnblocked);
      }
    }
  }

  lemma ReadyAppends(s: State, id: TaskId, scheduleAt: Option<Time>)
    ensures Appends(s, DoReady(s, id, scheduleAt))
  {
    CascadeAppends(s, id, Scheduled, TaskScheduled);
    CascadeAppends(s, id, Queued, TaskQueued);
  }

  lemma FinishAppends(cfg: Config, s: State, f: Flight, outcome: Outcome)
    ensures Appends(s, DoFinish(cfg, s, f, outcome))
  {
    if f in s.flights && f.task in s.tasks {
      var landed := s.(flights := s.flights - {f});
      if outcome == Completed {
        FinishSuccessAppends(landed, f.task, f.number);
      } else {
        FinishFailureAppends(cfg, landed, f.task, f.number, s.flights[f], outcome == RetryableError);
      }
    }
  }

  lemma FinishSuccessAppends(s: State, id: TaskId, k: nat)
    requires id in s.tasks
    ensures Appends(s, FinishSuccess(s, id, k))
  {
    CascadeAppends(WithRow(s, id, Reported(s.tasks[id], k, AttemptSuccess, s.now).(finishedAt := Some(s.now))), id,
                   Success, TaskSucceeded);
  }

  lemma FinishFailureAppends(cfg: Config, s: State, id: TaskId, k: nat, snap: TaskSnapshot, retryable: bool)
    requires id in s.tasks
    ensures Appends(s, FinishFailure(cfg, s, id, k, snap, retryable))
  {
    var t := s.tasks[id];
    CascadeAppends(WithRow(s, id, FailurePrepared(cfg, t, k, snap, retryable, s.now)), id,
                   FailureStatus(t.maxAttempts, snap, retryable), FailureKind(t.maxAttempts, snap, retryable));
  }

  lemma ReleasedAppends(s: State, id: TaskId, t: Task, kind: EventKind)
    ensures Appends(s, Release(WithRow(s, id, t), id, kind))
  {
    DeliveriesAreUnsent(s.subs, kind, id, Queued, s.now);
  }

  lemma RecoverAppends(s: State, id: TaskId)
    ensures Appends(s, DoRecover(s, id))
  {
    if IsStuck(s, id) && s.tasks[id].status == Running {
      ReleasedAppends(s, id, Reported(s.tasks[id], LatestRunning(s.tasks[id].rows), AttemptFailed, s.now), TaskRequeued);
    }
  }

  lemma ReleaseAppends(cfg: Config, s: State, op: Op)
    requires Releases(op)
    ensures Appends(s, Apply(cfg, s, op))
  {
    if op.RecoverTask? {
      RecoverAppends(s, op.task);
    } else if !op.RepublishTask? && op.task in s.tasks {
      ManualAppends(cfg, s, op);
    }
  }

  lemma ManualAppends(cfg: Config, s: State, op: Op)
    requires (op.ReleaseDueTask? || op.ReleaseDeadTask? || op.RetryTask?) && op.task in s.tasks
    ensures Appends(s, Apply(cfg, s, op))
  {
    var t := s.tasks[op.task];
    assert s.tasks[op.task := t] == s.tasks;
    if op.ReleaseDueTask? {
      ReleasedAppends(s, op.task, t, if t.status == RetryScheduled then TaskRetried else TaskQueued);
    } else if op.ReleaseDeadTask? {
      ReleasedAppends(s, op.task, t.(dlqRequeueCount := t.dlqRequeueCount + 1), TaskDlqRequeued);
    } else {
      ReleasedAppends(s, op.task, t, TaskRetried);
    }
  }

  lemma ReceiveAppends(cfg: Config, s: State, id: TaskId, worker: WorkerId)
    ensures Appends(s, DoReceive(cfg, s, id, worker))
  {
    DeliveriesAreUnsent(s.subs, TaskRunning, id, Running, s.now);
  }

  lemma RowAppends(cfg: Config, s: State, op: Op)
    requires op.RenewLease? || op.PurgeTask?
    ensures Apply(cfg, s, op).hooks == s.hooks
  {
  }

  lemma CreateAppends(s: State, op: Op)
    requires op.Create?
    ensures Appends(s, DoCreate(s, op.maxAttempts, op.scheduleAt, op.batch, op.dependsOn))
  {
    ReadyAppends(Added(s, op.maxAttempts, op.scheduleAt, op.batch), s.nextTask, op.scheduleAt);
  }

  lemma CancelAppends(s: State, id: TaskId)
    ensures Appends(s, DoCancel(s, id))
  {
    CascadeAppends(s, id, Cancelled, TaskCancelled);
  }

  lemma StepAppends(cfg: Config, s: State, op: Op)
    ensures Extends(s.hooks, Apply(cfg, s, op).hooks, s.now)
  {
    if op.Create? {
      CreateAppends(s, op);
    } else if op.Receive? {
      ReceiveAppends(cfg, s, op.task, op.worker);
    } else if op.Finish? {
      FinishAppends(cfg, s, op.flight, op.outcome);
    } else if op.CancelTask? {
      CancelAppends(s, op.task);
    } else if op.RenewLease? || op.PurgeTask? {
      RowAppends(cfg, s, op);
    } else if Quiet(op) {
      QuietRows(cfg, s, op);
    } else {
      ReleaseAppends(cfg, s, op);
    }
  }

  // ---------- how often a delivery is sent ----------

  /** The step really sends delivery `i`. */
  predicate Sends(s: State, step: Step, i: nat) {
    && step.Dispatch? && step.delivery == i && i < |s.hooks|
    && s.hooks[i].status == DeliveryPending && s.hooks[i].nextRetryAt <= s.now && SubAt(s.subs, s.hooks[i].subscription).active
  }

  ghost function SendCount(cfg: Config, s: State, steps: seq<Step>, i: nat): nat
    decreases |steps|
  {
    if steps == [] then 0
    else (if Sends(s, steps[0], i) then 1 else 0) + SendCount(cfg, Next(cfg, s, steps[0]), steps[1..], i)
  }

  /** How many of the sendings were not recorded. */
  ghost function LostSends(cfg: Config, s: State, steps: seq<Step>, i: nat): nat
    decreases |steps|
  {
    if steps == [] then 0
    else (if Sends(s, steps[0], i) && !steps[0].commits then 1 else 0) + LostSends(cfg, Next(cfg, s, steps[0]), steps[1..], i)
  }

  function MaxSends(cfg: Config): nat {
    if cfg.webhookMaxAttempts == 0 then 1 else cfg.webhookMaxAttempts
  }

  function SendsLeft(cfg: Config, d: Delivery): nat {
    if d.status != DeliveryPending || d.attempts >= MaxSends(cfg) then 0 else MaxSends(cfg) - d.attempts
  }

  /** What a pending delivery promises: tries are left, and the doubling backoff has been kept since
      it was queued at `born`. */
  predicate Patient(cfg: Config, d: Delivery, born: Time) {
    d.status == DeliveryPending ==>
      d.attempts < MaxSends(cfg) && d.nextRetryAt >= born + cfg.webhookBackoff * (Power(2.0, d.attempts) - 1.0)
  }

  lemma PatientAtFirst(cfg: Config, d: Delivery)
    requires d.attempts == 0
    ensures Patient(cfg, d, d.nextRetryAt)
  {
    assert cfg.webhookBackoff * (Power(2.0, 0) - 1.0) == 0.0;
  }

  lemma DispatchStep(cfg: Config, subs: seq<Subscription>, d: Delivery, ok: bool, now: Time, born: Time)
    requires Sendable(d, now) && Patient(cfg, d, born)
    ensures var e := Dispatched(cfg, subs, d, ok, now);
            && Patient(cfg, e, born)
            && (if Subscribed(subs, d) then 1 else 0) + SendsLeft(cfg, e) <= SendsLeft(cfg, d)
            && e.(status := d.status, attempts := d.attempts, nextRetryAt := d.nextRetryAt) == d
  {
    var k := d.attempts;
    assert Power(2.0, k + 1) == 2.0 * Power(2.0, k);
    var p := cfg.webhookBackoff * Power(2.0, k);
    assert cfg.webhookBackoff * (Power(2.0, k) - 1.0) == p - cfg.webhookBackoff;
    assert cfg.webhookBackoff * (Power(2.0, k + 1) - 1.0) == p + p - cfg.webhookBackoff by {
      assert cfg.webhookBackoff * (2.0 * Power(2.0, k)) == 2.0 * p;
    }
  }

  lemma NextDelivery(cfg: Config, s: State, step: Step, i: nat, born: Time)
    requires i < |s.hooks| && Patient(cfg, s.hooks[i], born)
    ensures var r := Next(cfg, s, step);
            && i < |r.hooks| && Patient(cfg, r.hooks[i], born)
            && (if Sends(s, step, i) && step.commits then 1 else 0) + SendsLeft(cfg, r.hooks[i]) <= SendsLeft(cfg, s.hooks[i])
            && (Sends(s, step, i) ==> s.hooks[i].status == DeliveryPending)
            && (s.hooks[i].status != DeliveryPending ==> r.hooks[i] == s.hooks[i])
  {
    if step.Platform? {
      StepAppends(cfg, s, step.op);
      assert Next(cfg, s, step).hooks[i] == Next(cfg, s, step).hooks[..|s.hooks|][i];
    } else if step.Dispatch? && step.commits && i == step.delivery && Sendable(s.hooks[i], s.now) {
      DispatchStep(cfg, s.subs, s.hooks[i], step.ok, s.now, born);
    }
  }

  lemma {:induction false} RunDelivery(cfg: Config, s: State, steps: seq<Step>, i: nat, born: Time)
    requires i < |s.hooks| && Patient(cfg, s.hooks[i], born)
    ensures var r := After(cfg, s, steps);
            && i < |r.hooks| && Patient(cfg, r.hooks[i], born)
            && SendCount(cfg, s, steps, i) + SendsLeft(cfg, r.hooks[i]) <= SendsLeft(cfg, s.hooks[i]) + LostSends(cfg, s, steps, i)
            && (s.hooks[i].status != DeliveryPending ==> r.hooks[i] == s.hooks[i] && SendCount(cfg, s, steps, i) == 0)
    decreases |steps|
  {
    if steps != [] {
      NextDelivery(cfg, s, steps[0], i, born);
      RunDelivery(cfg, Next(cfg, s, steps[0]), steps[1..], i, born);
    }
  }

  /** However the dispatcher, the subscriptions and the platform interleave: a queued delivery is sent
      at most the configured number of times (once if that is zero), not counting sendings whose
      transaction did not commit, and while it is pending after its k-th recorded failure it waits at
      least until the doubling backoff has added up. */
  lemma SentAtMost(cfg: Config, s: State, steps: seq<Step>, i: nat)
    requires i < |s.hooks| && s.hooks[i].status == DeliveryPending && s.hooks[i].attempts == 0
    ensures SendCount(cfg, s, steps, i) <= MaxSends(cfg) + LostSends(cfg, s, steps, i)
    ensures i < |After(cfg, s, steps).hooks|
    ensures Patient(cfg, After(cfg, s, steps).hooks[i], s.hooks[i].nextRetryAt)
  {
    PatientAtFirst(cfg, s.hooks[i]);
    RunDelivery(cfg, s, steps, i, s.hooks[i].nextRetryAt);
  }

  /** A delivery that was accepted or given up is never sent or changed again. */
  lemma SettledForEver(cfg: Config, s: State, steps: seq<Step>, i: nat)
    requires i < |s.hooks| && s.hooks[i].status != DeliveryPending
    ensures SendCount(cfg, s, steps, i) == 0
    ensures i < |After(cfg, s, steps).hooks| && After(cfg, s, steps).hooks[i] == s.hooks[i]
  {
    RunDelivery(cfg, s, steps, i, 0.0);
  }

  // ---------- how many deliveries are queued ----------

  datatype Notice = Notice(kind: EventKind, reported: Status)

  /** What subscription `j` has been told about a task, in order. */
  function Told(hooks: seq<Delivery>, j: nat, id: TaskId): seq<Notice> {
    if hooks == [] then []
    else
      var last := |hooks| - 1;
      Told(hooks[..last], j, id)
      + if hooks[last].subscription == j && hooks[last].task == id
        then [Notice(hooks[last].kind, hooks[last].reported)] else []
  }

  /** An active subscription asks for single kinds of events or for everything. */
  predicate Wants(sub: Subscription, kind: EventKind) {
    sub.active && (sub.everything || kind in sub.events)
  }

  lemma WantsTold(sub: Subscription, kind: EventKind)
    ensures Wants(sub, kind) <==> sub.active && Matches(sub, kind)
  {
  }

  /** What an observer of the log would tell a subscription: the status changes it asked for. */
  function Heard(log: seq<Event>, sub: Subscription): seq<Notice> {
    if log == [] then []
    else
      var e := log[|log| - 1];
      Heard(log[..|log| - 1], sub)
      + if e.oldStatus != e.newStatus && Wants(sub, e.kind) then [Notice(e.kind, e.newStatus)] else []
  }

  lemma HeardAppend(log: seq<Event>, e: Event, sub: Subscription)
    ensures Heard(log + [e], sub)
            == Heard(log, sub) + if e.oldStatus != e.newStatus && Wants(sub, e.kind)
                                 then [Notice(e.kind, e.newStatus)] else []
  {
    assert (log + [e])[..|log|] == log;
  }

  lemma {:induction false} ToldConcat(a: seq<Delivery>, b: seq<Delivery>, j: nat, id: TaskId)
    ensures Told(a + b, j, id) == Told(a, j, id) + Told(b, j, id)
    decreases |b|
  {
    if b == [] {
      assert a + b == a;
    } else {
      var last := |b| - 1;
      assert (a + b)[..|a + b| - 1] == a + b[..last];
      ToldConcat(a, b[..last], j, id);
    }
  }

  lemma ToldOne(d: Delivery, j: nat, id: TaskId)
    ensures Told([d], j, id) == if d.subscription == j && d.task == id then [Notice(d.kind, d.reported)] else []
  {
    assert [d][..0] == [];
  }

  lemma ToldMore(front: seq<Delivery>, d: Delivery, j: nat, id: TaskId)
    requires Told(front, j, id) == [] || d.subscription != j || d.task != id
    ensures Told(front + [d], j, id)
            == if d.subscription == j && d.task == id then [Notice(d.kind, d.reported)] else Told(front, j, id)
  {
    ToldConcat(front, [d], j, id);
    ToldOne(d, j, id);
  }

  lemma {:induction false} ToldOf(subs: seq<Subscription>, kind: EventKind, task: TaskId, reported: Status, now: Time, j: nat, id: TaskId)
    ensures Told(DeliveriesFor(subs, kind, task, reported, now), j, id)
            == if id == task && j < |subs| && Wants(subs[j], kind) then [Notice(kind, reported)] else []
    decreases |subs|
  {
    if subs != [] {
      var last := |subs| - 1;
      var front := DeliveriesFor(subs[..last], kind, task, reported, now);
      ToldOf(subs[..last], kind, task, reported, now, j, id);
      WantsTold(subs[last], kind);
      if subs[last].active && Matches(subs[last], kind) {
        ToldMore(front, Delivery(last, kind, task, reported, DeliveryPending, 0, now), j, id);
      } else {
        assert front + [] == front;
      }
    }
  }

  function SubAt(subs: seq<Subscription>, j: nat): Subscription {
    if j < |subs| then subs[j] else Subscription(false, false, {})
  }

  /** The books for one task and one subscription, opened when `base` had been told and the log of
      the task had `from` entries. */
  datatype Book = Book(j: nat, sub: Subscription, id: TaskId, base: seq<Notice>, from: nat)

  ghost predicate Balances(s: State, b: Book) {
    && SubAt(s.subs, b.j) == b.sub
    && (if b.id in s.tasks then
          b.from <= |s.tasks[b.id].log| && Told(s.hooks, b.j, b.id) == HeardSince(s.tasks[b.id].log, b)
        else b.from == 0 && Told(s.hooks, b.j, b.id) == b.base)
  }

  /** What the entries since the opening add to what had been told. */
  function HeardSince(log: seq<Event>, b: Book): seq<Notice> {
    if |log| <= b.from then b.base
    else
      var e := log[|log| - 1];
      HeardSince(log[..|log| - 1], b)
      + if e.oldStatus != e.newStatus && Wants(b.sub, e.kind) then [Notice(e.kind, e.newStatus)] else []
  }

  lemma HeardSinceAppend(log: seq<Event>, e: Event, b: Book)
    requires b.from <= |log|
    ensures HeardSince(log + [e], b)
            == HeardSince(log, b) + if e.oldStatus != e.newStatus && Wants(b.sub, e.kind)
                                    then [Notice(e.kind, e.newStatus)] else []
  {
    assert (log + [e])[..|log|] == log;
  }

  lemma {:induction false} HeardSinceIs(log: seq<Event>, b: Book)
    requires b.from <= |log|
    ensures HeardSince(log, b) == b.base + Heard(log[b.from..], b.sub)
    decreases |log|
  {
    if |log| == b.from {
      assert log[b.from..] == [];
    } else {
      var last := |log| - 1;
      HeardSinceIs(log[..last], b);
      var since := log[..last][b.from..];
      assert since + [log[last]] == log[b.from..];
      HeardAppend(since, log[last], b.sub);
    }
  }

  lemma PutBalances(s: State, task: TaskId, next: Status, kind: EventKind, b: Book)
    requires task in s.tasks && s.tasks[task].status != next && Balances(s, b)
    ensures Balances(Put(s, task, next, kind), b)
  {
    ToldConcat(s.hooks, DeliveriesFor(s.subs, kind, task, next, s.now), b.j, b.id);
    ToldOf(s.subs, kind, task, next, s.now, b.j, b.id);
    if b.id == task {
      HeardSinceAppend(s.tasks[task].log, Event(kind, s.tasks[task].status, next), b);
    }
  }

  lemma {:induction false} CascadeBalances(s: State, task: TaskId, next: Status, kind: EventKind, b: Book)
    requires Balances(s, b)
    ensures Balances(SetStatus(s, task, next, kind), b)
    decreases CreatedTasks(s) - {task}, 1, 0
  {
    if Applies(s, task, next) {
      var moved := Put(s, task, next, kind);
      PutBalances(s, task, next, kind, b);
      Cascade.PutCreated(s, task, next, kind);
      Cascade.SetStatusUnfolds(s, task, next, kind);
      if Terminal(next) {
        AdvanceBalances(moved, next, ChildrenOf(s.edges, task), b);
      }
    }
  }

  lemma {:induction false} AdvanceBalances(s: State, reached: Status, kids: seq<TaskId>, b: Book)
    requires Balances(s, b)
    ensures Balances(Advance(s, reached, kids), b)
    decreases CreatedTasks(s), 0, |kids|
  {
    if kids != [] {
      AdvanceChildBalances(s, reached, kids[0], b);
      AdvanceBalances(AdvanceChild(s, reached, kids[0]), reached, kids[1..], b);
    }
  }

  lemma {:induction false} AdvanceChildBalances(s: State, reached: Status, child: TaskId, b: Book)
    requires Balances(s, b)
    ensures Balances(AdvanceChild(s, reached, child), b)
    decreases CreatedTasks(s), 0, 0
  {
    if child in s.tasks && s.tasks[child].status == Created {
      if reached != Success {
        CascadeBalances(s, child, Cancelled, TaskCancelled, b);
      } else {
        PutBalances(s, child, Queued, TaskUnblocked, b);
      }
    }
  }

  lemma RowBalances(s: State, x: TaskId, t: Task, b: Book)
    requires x in s.tasks && t.log == s.tasks[x].log && Balances(s, b)
    ensures Balances(WithRow(s, x, t), b)
  {
  }

  lemma AddedBalances(s: State, op: Op, b: Book)
    requires op.Create? && s.nextTask !in s.tasks && Balances(s, b)
    ensures Balances(Added(s, op.maxAttempts, op.scheduleAt, op.batch), b)
  {
    var log := FreshRow(op.maxAttempts, op.scheduleAt, op.batch, s.now).log;
    assert log == [] + [log[0]];
    if b.from == 0 {
      HeardSinceAppend([], log[0], b);
    }
  }

  lemma BlockBalances(s: State, x: TaskId, dependsOn: seq<TaskId>, b: Book)
    requires x in s.tasks && Balances(s, b)
    ensures Balances(DoBlock(s, x, dependsOn), b)
  {
    if b.id == x {
      HeardSinceAppend(s.tasks[x].log, Event(TaskBlocked, Created, Created), b);
    }
  }

  lemma ReadyBalances(s: State, x: TaskId, scheduleAt: Option<Time>, b: Book)
    requires Balances(s, b)
    ensures Balances(DoReady(s, x, scheduleAt), b)
  {
    CascadeBalances(s, x, Scheduled, TaskScheduled, b);
    CascadeBalances(s, x, Queued, TaskQueued, b);
  }

  lemma CreateBalances(s: State, op: Op, b: Book)
    requires op.Create? && s.nextTask !in s.tasks && Balances(s, b)
    ensures Balances(DoCreate(s, op.maxAttempts, op.scheduleAt, op.batch, op.dependsOn), b)
  {
    var added := Added(s, op.maxAttempts, op.scheduleAt, op.batch);
    AddedBalances(s, op, b);
    if op.dependsOn == [] {
      ReadyBalances(added, s.nextTask, op.scheduleAt, b);
    } else {
      BlockBalances(added, s.nextTask, op.dependsOn, b);
    }
  }

  lemma StartHeard(log: seq<Event>, b: Book)
    requires b.from <= |log|
    ensures HeardSince(log + [Event(TaskRunning, Queued, Running)] + [Event(AttemptStarted, Running, Running)], b)
            == HeardSince(log, b) + if Wants(b.sub, TaskRunning) then [Notice(TaskRunning, Running)] else []
  {
    var hop := Event(TaskRunning, Queued, Running);
    HeardSinceAppend(log, hop, b);
    HeardSinceAppend(log + [hop], Event(AttemptStarted, Running, Running), b);
  }

  lemma StartBalances(cfg: Config, s: State, task: TaskId, worker: WorkerId, r: State, b: Book)
    requires task in s.tasks && s.tasks[task].status == Queued && Balances(s, b)
    requires r.tasks == s.tasks[task := Started(cfg, s.tasks[task], worker, s.now)] && r.subs == s.subs
    requires r.hooks == s.hooks + DeliveriesFor(s.subs, TaskRunning, task, Running, s.now)
    ensures Balances(r, b)
  {
    if b.id == task {
      StartHeard(s.tasks[task].log, b);
    }
    ToldConcat(s.hooks, DeliveriesFor(s.subs, TaskRunning, task, Running, s.now), b.j, b.id);
    ToldOf(s.subs, TaskRunning, task, Running, s.now, b.j, b.id);
  }

  lemma ReceiveBalances(cfg: Config, s: State, task: TaskId, worker: WorkerId, b: Book)
    requires Balances(s, b)
    ensures Balances(DoReceive(cfg, s, task, worker), b)
  {
    if s.broker[task] > 0 && task in s.tasks && Enabled(cfg, Start(worker), s.tasks[task], s.now) {
      StartBalances(cfg, s, task, worker, DoReceive(cfg, s, task, worker), b);
    }
  }

  lemma FinishSuccessBalances(s: State, task: TaskId, k: nat, b: Book)
    requires task in s.tasks && Balances(s, b)
    ensures Balances(FinishSuccess(s, task, k), b)
  {
    var reported := Reported(s.tasks[task], k, AttemptSuccess, s.now);
    RowBalances(s, task, reported, b);
    RowBalances(s, task, reported.(finishedAt := Some(s.now)), b);
    CascadeBalances(WithRow(s, task, reported.(finishedAt := Some(s.now))), task, Success, TaskSucceeded, b);
  }

  lemma FinishFailureBalances(cfg: Config, s: State, task: TaskId, k: nat, snap: TaskSnapshot, retryable: bool, b: Book)
    requires task in s.tasks && Balances(s, b)
    ensures Balances(FinishFailure(cfg, s, task, k, snap, retryable), b)
  {
    var t := s.tasks[task];
    var prepared := WithRow(s, task, FailurePrepared(cfg, t, k, snap, retryable, s.now));
    RowBalances(s, task, prepared.tasks[task], b);
    var next := FailureStatus(t.maxAttempts, snap, retryable);
    var kind := FailureKind(t.maxAttempts, snap, retryable);
    CascadeBalances(prepared, task, next, kind, b);
    var moved := SetStatus(prepared, task, next, kind);
    RowBalances(moved, task, FailureSettled(cfg, moved.tasks[task], snap, s.now), b);
  }

  lemma FinishBalances(cfg: Config, s: State, f: Flight, outcome: Outcome, b: Book)
    requires Balances(s, b)
    ensures Balances(DoFinish(cfg, s, f, outcome), b)
  {
    if f in s.flights && f.task in s.tasks {
      var landed := s.(flights := s.flights - {f});
      assert Balances(landed, b);
      if outcome == Completed {
        FinishSuccessBalances(landed, f.task, f.number, b);
      } else {
        FinishFailureBalances(cfg, landed, f.task, f.number, s.flights[f], outcome == RetryableError, b);
      }
    }
  }

  lemma ReleasedBalances(s: State, x: TaskId, t: Task, kind: EventKind, b: Book)
    requires x in s.tasks && t.log == s.tasks[x].log && t.status != Queued && Balances(s, b)
    ensures Balances(Release(WithRow(s, x, t), x, kind), b)
  {
    RowBalances(s, x, t, b);
    PutBalances(WithRow(s, x, t), x, Queued, kind, b);
  }

  lemma SweptBalances(cfg: Config, s: State, op: Op, b: Book)
    requires op.ReleaseDueTask? || op.ReleaseDeadTask? || op.RetryTask?
    requires Balances(s, b)
    ensures Balances(Apply(cfg, s, op), b)
  {
    var x := op.task;
    if x !in s.tasks {
      return;
    }
    var t := s.tasks[x];
    assert s.tasks[x := t] == s.tasks;
    if op.ReleaseDueTask? && IsDue(cfg, s, x) {
      ReleasedBalances(s, x, t, if t.status == RetryScheduled then TaskRetried else TaskQueued, b);
    } else if op.ReleaseDeadTask? && IsDeadDue(cfg, s, x) {
      ReleasedBalances(s, x, t.(dlqRequeueCount := t.dlqRequeueCount + 1), TaskDlqRequeued, b);
    } else if op.RetryTask? && Retryable(t.status) {
      ReleasedBalances(s, x, t, TaskRetried, b);
    }
  }

  lemma RecoverBalances(s: State, x: TaskId, b: Book)
    requires Balances(s, b)
    ensures Balances(DoRecover(s, x), b)
  {
    if IsStuck(s, x) {
      var t := s.tasks[x];
      if t.status == Running {
        ReleasedBalances(s, x, Reported(t, LatestRunning(t.rows), AttemptFailed, s.now), TaskRequeued, b);
      } else {
        RowBalances(s, x, t.(leaseOwner := None, leaseExpiresAt := None, updatedAt := s.now), b);
      }
    }
  }

  lemma RenewBalances(cfg: Config, s: State, x: TaskId, worker: WorkerId, b: Book)
    requires Balances(s, b)
    ensures Balances(DoRenew(cfg, s, x, worker), b)
  {
  }

  lemma CancelBalances(s: State, x: TaskId, b: Book)
    requires Balances(s, b)
    ensures Balances(DoCancel(s, x), b)
  {
    CascadeBalances(s, x, Cancelled, TaskCancelled, b);
  }

  lemma PurgeBalances(cfg: Config, s: State, x: TaskId, b: Book)
    requires Balances(s, b) && (b.id in s.tasks ==> b.id in DoPurgeTask(cfg, s, x).tasks)
    ensures Balances(DoPurgeTask(cfg, s, x), b)
  {
  }

  lemma QuietBalances(cfg: Config, s: State, op: Op, b: Book)
    requires Quiet(op) && Balances(s, b)
    ensures Balances(Apply(cfg, s, op), b)
  {
    QuietRows(cfg, s, op);
  }

  lemma OtherBalances(cfg: Config, s: State, op: Op, b: Book)
    requires op.CancelTask? || op.RenewLease? || op.PurgeTask? || op.RecoverTask?
    requires Balances(s, b) && (b.id in s.tasks ==> b.id in Apply(cfg, s, op).tasks)
    ensures Balances(Apply(cfg, s, op), b)
  {
    if op.CancelTask? {
      CancelBalances(s, op.task, b);
    } else if op.RenewLease? {
      RenewBalances(cfg, s, op.task, op.worker, b);
    } else if op.PurgeTask? {
      PurgeBalances(cfg, s, op.task, b);
    } else {
      RecoverBalances(s, op.task, b);
    }
  }

  lemma StepBalances(cfg: Config, s: State, op: Op, b: Book)
    requires s.nextTask !in s.tasks && Balances(s, b) && (b.id in s.tasks ==> b.id in Apply(cfg, s, op).tasks)
    ensures Balances(Apply(cfg, s, op), b)
  {
    if op.Create? {
      CreateBalances(s, op, b);
    } else if op.Receive? {
      ReceiveBalances(cfg, s, op.task, op.worker, b);
    } else if op.Finish? {
      FinishBalances(cfg, s, op.flight, op.outcome, b);
    } else if op.CancelTask? || op.RenewLease? || op.PurgeTask? || op.RecoverTask? {
      OtherBalances(cfg, s, op, b);
    } else if Quiet(op) {
      QuietBalances(cfg, s, op, b);
    } else {
      SweptBalances(cfg, s, op, b);
    }
  }

  lemma {:induction false} ToldKept(hooks: seq<Delivery>, i: nat, d: Delivery, j: nat, id: TaskId)
    requires i < |hooks|
    requires d.(status := hooks[i].status, attempts := hooks[i].attempts, nextRetryAt := hooks[i].nextRetryAt) == hooks[i]
    ensures Told(hooks[i := d], j, id) == Told(hooks, j, id)
    decreases |hooks|
  {
    var last := |hooks| - 1;
    if i < last {
      assert hooks[i := d][..last] == hooks[..last][i := d];
      ToldKept(hooks[..last], i, d, j, id);
    } else {
      assert hooks[i := d][..last] == hooks[..last];
    }
  }

  ghost predicate NextAt(cfg: Config, trace: seq<State>, steps: seq<Step>, i: nat)
    requires 0 < i < |trace| == |steps| + 1
  {
    trace[i] == Next(cfg, trace[i - 1], steps[i - 1])
  }

  ghost predicate NextTrace(cfg: Config, trace: seq<State>, steps: seq<Step>) {
    |trace| == |steps| + 1 && forall i :: 0 < i < |trace| ==> NextAt(cfg, trace, steps, i)
  }

  /** The entries that a step adds to the log of a task. */
  ghost function AddedLog(s: State, r: State, id: TaskId): seq<Event> {
    if id !in r.tasks then []
    else if id !in s.tasks then r.tasks[id].log
    else if |s.tasks[id].log| <= |r.tasks[id].log| then r.tasks[id].log[|s.tasks[id].log|..]
    else []
  }

  lemma DeletionTells(cfg: Config, s: State, op: Op, j: nat, id: TaskId)
    requires DbInv(s) && id in s.tasks && id !in Apply(cfg, s, op).tasks
    ensures Told(Apply(cfg, s, op).hooks, j, id) == Told(s.hooks, j, id)
  {
    StepIsFollowed(cfg, s, op);
    RowAppends(cfg, s, op);
  }

  lemma StepTells(cfg: Config, s: State, op: Op, j: nat, id: TaskId)
    requires DbInv(s)
    ensures var r := Apply(cfg, s, op);
            Told(r.hooks, j, id) == Told(s.hooks, j, id) + Heard(AddedLog(s, r, id), SubAt(s.subs, j))
  {
    if id in s.tasks && id !in Apply(cfg, s, op).tasks {
      DeletionTells(cfg, s, op, j, id);
    } else {
      KeptTells(cfg, s, op, j, id);
    }
  }

  lemma KeptTells(cfg: Config, s: State, op: Op, j: nat, id: TaskId)
    requires DbInv(s) && (id in s.tasks ==> id in Apply(cfg, s, op).tasks)
    ensures var r := Apply(cfg, s, op);
            Told(r.hooks, j, id) == Told(s.hooks, j, id) + Heard(AddedLog(s, r, id), SubAt(s.subs, j))
  {
    var b := Book(j, SubAt(s.subs, j), id, Told(s.hooks, j, id), if id in s.tasks then |s.tasks[id].log| else 0);
    OpenBook(s, b);
    StepBalances(cfg, s, op, b);
    ReadBook(s, Apply(cfg, s, op), b);
  }

  lemma OpenBook(s: State, b: Book)
    requires b == Book(b.j, SubAt(s.subs, b.j), b.id, Told(s.hooks, b.j, b.id), if b.id in s.tasks then |s.tasks[b.id].log| else 0)
    ensures Balances(s, b)
  {
  }

  lemma ReadBook(s: State, r: State, b: Book)
    requires Balances(r, b) && (b.id in s.tasks ==> b.id in r.tasks)
    requires b.from == if b.id in s.tasks then |s.tasks[b.id].log| else 0
    ensures Told(r.hooks, b.j, b.id) == b.base + Heard(AddedLog(s, r, b.id), b.sub)
  {
    if b.id in r.tasks {
      HeardSinceIs(r.tasks[b.id].log, b);
      assert r.tasks[b.id].log[b.from..] == AddedLog(s, r, b.id);
    }
  }

  lemma NextTells(cfg: Config, s: State, step: Step, r: State, j: nat, id: TaskId)
    requires DbInv(s) && r == Next(cfg, s, step)
    ensures DbInv(r)
    ensures Told(r.hooks, j, id) == Told(s.hooks, j, id) + Heard(AddedLog(s, r, id), SubAt(s.subs, j))
  {
    if step.Platform? {
      StepKeepsInv(cfg, s, step.op);
      StepTells(cfg, s, step.op, j, id);
    } else {
      OtherTells(cfg, s, step, r, j, id);
    }
  }

  lemma OtherTells(cfg: Config, s: State, step: Step, r: State, j: nat, id: TaskId)
    requires !step.Platform? && r == Next(cfg, s, step)
    ensures r == s.(subs := r.subs, hooks := r.hooks) && Told(r.hooks, j, id) == Told(s.hooks, j, id)
    ensures AddedLog(s, r, id) == []
  {
    if r.hooks != s.hooks {
      ToldKept(s.hooks, step.delivery, r.hooks[step.delivery], j, id);
    }
  }

  /** What the steps up to the n-th added to the log of the task, filtered by what the subscription
      asked for at each of those moments. */
  ghost function HeardThroughout(trace: seq<State>, n: nat, j: nat, id: TaskId): seq<Notice>
    requires n < |trace|
  {
    if n == 0 then []
    else HeardThroughout(trace, n - 1, j, id) + Heard(AddedLog(trace[n - 1], trace[n], id), SubAt(trace[n - 1].subs, j))
  }

  lemma {:induction false} TraceKeepsInv(cfg: Config, trace: seq<State>, steps: seq<Step>, n: nat)
    requires NextTrace(cfg, trace, steps) && n <= |steps| && DbInv(trace[0])
    ensures DbInv(trace[n])
    decreases n
  {
    if n > 0 {
      TraceKeepsInv(cfg, trace, steps, n - 1);
      NextTellsAt(cfg, trace, steps, n, 0, 0);
    }
  }

  lemma {:induction false} TraceTells(cfg: Config, trace: seq<State>, steps: seq<Step>, n: nat, j: nat, id: TaskId)
    requires NextTrace(cfg, trace, steps) && n <= |steps| && DbInv(trace[0]) && trace[0].hooks == []
    ensures Told(trace[n].hooks, j, id) == HeardThroughout(trace, n, j, id)
    decreases n
  {
    if n > 0 {
      TraceTells(cfg, trace, steps, n - 1, j, id);
      TraceKeepsInv(cfg, trace, steps, n - 1);
      NextTellsAt(cfg, trace, steps, n, j, id);
    }
  }

  lemma NextTellsAt(cfg: Config, trace: seq<State>, steps: seq<Step>, n: nat, j: nat, id: TaskId)
    requires NextTrace(cfg, trace, steps) && 0 < n <= |steps| && DbInv(trace[n - 1])
    ensures DbInv(trace[n])
    ensures Told(trace[n].hooks, j, id)
            == Told(trace[n - 1].hooks, j, id) + Heard(AddedLog(trace[n - 1], trace[n], id), SubAt(trace[n - 1].subs, j))
  {
    assert NextAt(cfg, trace, steps, n);
    NextTells(cfg, trace[n - 1], steps[n - 1], trace[n], j, id);
  }

  /** In every run from the empty platform, with cascades, sweeps, faults and sendings, while
      subscriptions appear, are switched and are edited: a subscription has been queued exactly the
      status changes entered in a task's log that it asked for at the moment of the change, one delivery
      each, in the order in which they happened. */
  lemma ToldExactlyTheLog(cfg: Config, subs: seq<Subscription>, now: Time, steps: seq<Step>, trace: seq<State>, j: nat, id: TaskId)
    requires NextTrace(cfg, trace, steps) && trace[0] == Init(subs, now)
    ensures Told(trace[|steps|].hooks, j, id) == HeardThroughout(trace, |steps|, j, id)
  {
    InitInv(subs, now);
    TraceTells(cfg, trace, steps, |steps|, j, id);
  }

  // ---------- a subscription that stays as it is ----------

  lemma {:induction false} HeardConcat(a: seq<Event>, b: seq<Event>, sub: Subscription)
    ensures Heard(a + b, sub) == Heard(a, sub) + Heard(b, sub)
    decreases |b|
  {
    if b == [] {
      assert a + b == a;
    } else {
      var last := |b| - 1;
      assert (a + b)[..|a + b| - 1] == a + b[..last];
      HeardConcat(a, b[..last], sub);
    }
  }

  /** Logs only grow, and a deleted task never comes back. */
  ghost predicate LogExtends(s: State, r: State, id: TaskId) {
    && s.nextTask <= r.nextTask && (id in s.tasks ==> id < s.nextTask)
    && (id in r.tasks && id !in s.tasks ==> id >= s.nextTask)
    && (id in r.tasks && id in s.tasks ==> r.tasks[id].log == s.tasks[id].log + AddedLog(s, r, id))
  }

  lemma FollowedLog(cfg: Config, s: State, op: Op, r: State, id: TaskId)
    requires id in s.tasks && id in r.tasks && RowFollows(cfg, s, op, r, id)
    ensures r.tasks[id].log == s.tasks[id].log + AddedLog(s, r, id)
  {
    ChangedLog(cfg, ChangeOf(cfg, s, op, id), s.tasks[id], s.now);
  }

  lemma LogGrows(cfg: Config, s: State, step: Step, id: TaskId)
    requires DbInv(s)
    ensures LogExtends(s, Next(cfg, s, step), id)
  {
    if step.Platform? {
      StepIsFollowed(cfg, s, step.op);
      FollowedLogGrows(cfg, s, step.op, Apply(cfg, s, step.op), id);
    }
  }

  lemma FollowedLogGrows(cfg: Config, s: State, op: Op, r: State, id: TaskId)
    requires TasksInv(s) && Followed(cfg, s, op, r)
    ensures LogExtends(s, r, id)
  {
    if id in r.tasks && id in s.tasks {
      assert RowFollows(cfg, s, op, r, id);
      FollowedLog(cfg, s, op, r, id);
    }
  }

  lemma LogGrowsAt(cfg: Config, trace: seq<State>, steps: seq<Step>, n: nat, id: TaskId)
    requires NextTrace(cfg, trace, steps) && 0 < n <= |steps| && DbInv(trace[n - 1])
    ensures LogExtends(trace[n - 1], trace[n], id)
  {
    assert NextAt(cfg, trace, steps, n);
    LogGrows(cfg, trace[n - 1], steps[n - 1], id);
  }

  ghost predicate UnchangedSub(trace: seq<State>, j: nat, sub: Subscription) {
    forall i :: 0 <= i < |trace| ==> SubAt(trace[i].subs, j) == sub
  }

  lemma {:induction false} HeardIsLog(cfg: Config, trace: seq<State>, steps: seq<Step>, n: nat, j: nat, sub: Subscription, id: TaskId)
    requires NextTrace(cfg, trace, steps) && n <= |steps| && DbInv(trace[0]) && trace[0].tasks == map[]
    requires UnchangedSub(trace, j, sub)
    ensures id in trace[n].tasks ==> HeardThroughout(trace, n, j, id) == Heard(trace[n].tasks[id].log, sub)
    ensures id >= trace[n].nextTask ==> HeardThroughout(trace, n, j, id) == []
    decreases n
  {
    if n > 0 {
      HeardIsLog(cfg, trace, steps, n - 1, j, sub, id);
      assert SubAt(trace[n - 1].subs, j) == sub;
      TraceKeepsInv(cfg, trace, steps, n - 1);
      TraceKeepsInv(cfg, trace, steps, n);
      LogGrowsAt(cfg, trace, steps, n, id);
      HeardMore(trace[n - 1], trace[n], HeardThroughout(trace, n - 1, j, id), sub, id);
    }
  }

  lemma HeardMore(s: State, r: State, heard: seq<Notice>, sub: Subscription, id: TaskId)
    requires LogExtends(s, r, id) && (id in r.tasks ==> id < r.nextTask)
    requires id in s.tasks ==> heard == Heard(s.tasks[id].log, sub)
    requires id >= s.nextTask ==> heard == []
    ensures id in r.tasks ==> heard + Heard(AddedLog(s, r, id), sub) == Heard(r.tasks[id].log, sub)
    ensures id >= r.nextTask ==> heard + Heard(AddedLog(s, r, id), sub) == []
  {
    if id in r.tasks && id in s.tasks {
      HeardConcat(s.tasks[id].log, AddedLog(s, r, id), sub);
    }
  }

  /** An unchanged subscription has been told exactly the log of every task that still exists. */
  lemma ToldWhileUnchanged(cfg: Config, subs: seq<Subscription>, now: Time, steps: seq<Step>, trace: seq<State>, j: nat, sub: Subscription, id: TaskId)
    requires NextTrace(cfg, trace, steps) && trace[0] == Init(subs, now) && UnchangedSub(trace, j, sub)
    requires id in trace[|steps|].tasks
    ensures Told(trace[|steps|].hooks, j, id) == Heard(trace[|steps|].tasks[id].log, sub)
  {
    InitInv(subs, now);
    ToldExactlyTheLog(cfg, subs, now, steps, trace, j, id);
    HeardIsLog(cfg, trace, steps, |steps|, j, sub, id);
  }
}
