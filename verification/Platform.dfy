/** The platform as the services run it: one object that owns the tables, the broker and the
    workers' memory, with every loop and every assignment in place.  Each method is proved equal
    to the step, or the sequence of steps, of the protocol it performs. */
module PlatformService {
  import opened Rows
  import opened Store
  import opened Cascade
  import Dependencies
  import opened Protocol
  import opened Sweeps
  import opened Selection
  import opened Retention
  import opened Webhooks
  import opened Batches

  datatype Creation = CreatedTask(id: TaskId) | RefusedDependencies

  datatype BatchCreation = CreatedBatch(batch: nat) | TooMany | RefusedSpec

  datatype BatchCancellation = BatchCancelled(cancelled: nat, conflicts: seq<TaskId>) | NoSuchBatch

  datatype Reply = Done | Conflict | NotFound

  lemma SingletonSet(statuses: set<Status>, x: Status)
    ensures |statuses| == 1 && x in statuses <==> statuses == {x}
  {
    if |statuses| == 1 && x in statuses {
      assert |statuses - {x}| == 0;
      assert statuses == {x};
    }
  }

  lemma WrittenTwice(m: map<TaskId, Task>, id: TaskId, a: Task, b: Task)
    ensures m[id := a][id := b] == m[id := b]
  {
  }

  lemma SetStatusSteps(s: State, id: TaskId, next: Status, kind: EventKind)
    requires Applies(s, id, next)
    ensures var moved := Put(s, id, next, kind);
            && CreatedTasks(moved) == CreatedTasks(s) - {id}
            && moved.tasks[id].status == next
            && Store.SetStatus(s, id, next, kind)
               == if Terminal(next) then Advance(moved, next, ChildrenOf(s.edges, id)) else moved
  {
    PutCreated(s, id, next, kind);
    SetStatusUnfolds(s, id, next, kind);
  }

  /** A status that is not terminal is not passed on. */
  lemma MovesAlone(s: State, id: TaskId, next: Status, kind: EventKind)
    requires Applies(s, id, next) && !Terminal(next)
    ensures Store.SetStatus(s, id, next, kind) == Put(s, id, next, kind)
  {
  }

  /** One round of the loop over the children. */
  lemma AdvanceRound(s: State, reached: Status, kids: seq<TaskId>, i: nat)
    requires i < |kids|
    ensures var r := AdvanceChild(s, reached, kids[i]);
            && Advance(r, reached, kids[i + 1..]) == Advance(s, reached, kids[i..])
            && CreatedTasks(r) <= CreatedTasks(s) && r.edges == s.edges
  {
    assert kids[i..][1..] == kids[i + 1..];
  }

  /** What opening an attempt makes of a row on which the worker holds the lease. */
  function OpenedRow(t: Task, worker: WorkerId, now: Time): Task {
    var moved := Moved(t, Running, TaskRunning, now);
    moved.(attempts := moved.attempts + 1,
           rows := moved.rows + [Attempt(moved.attempts + 1, AttemptRunning, worker, None)],
           log := moved.log + [Event(AttemptStarted, Running, Running)])
  }

  /** Taking the lease first and moving the status after gives the row of a started attempt. */
  lemma LeasedThenStarted(cfg: Config, t: Task, worker: WorkerId, now: Time)
    ensures OpenedRow(t.(leaseOwner := Some(worker), leaseExpiresAt := Some(now + cfg.leaseSeconds), updatedAt := now), worker, now)
            == Started(cfg, t, worker, now)
  {
  }

  /** What a worker does with a row on which it already holds the lease. */
  function AttemptOpened(s: State, id: TaskId, worker: WorkerId): State
    requires id in s.tasks
  {
    var t := s.tasks[id];
    WithRow(s, id, OpenedRow(t, worker, s.now))
      .(hooks := s.hooks + DeliveriesFor(s.subs, TaskRunning, id, Running, s.now),
        flights := s.flights[Flight(id, t.attempts + 1) :=
                             TaskSnapshot(worker, t.attempts + 1, t.dlqRequeueCount, t.dlqRetryAt)])
  }

  lemma ReceiveSteps(cfg: Config, s: State, id: TaskId, worker: WorkerId, taken: State)
    requires s.broker[id] > 0 && taken == s.(broker := s.broker - multiset{id})
    ensures DoReceive(cfg, s, id, worker)
            == if id in s.tasks && s.tasks[id].status == Queued && LeaseFree(s.tasks[id], s.now)
               then DoStart(cfg, taken, id, worker) else taken
  {
  }

  /** Both rows written to the same state. */
  lemma OpenedAfter(cfg: Config, s: State, id: TaskId, worker: WorkerId, leased: Task)
    requires id in s.tasks && OpenedRow(leased, worker, s.now) == Started(cfg, s.tasks[id], worker, s.now)
    requires leased.attempts == s.tasks[id].attempts && leased.dlqRequeueCount == s.tasks[id].dlqRequeueCount
    requires leased.dlqRetryAt == s.tasks[id].dlqRetryAt
    ensures AttemptOpened(WithRow(s, id, leased), id, worker) == DoStart(cfg, s, id, worker)
  {
    WrittenTwice(s.tasks, id, leased, Started(cfg, s.tasks[id], worker, s.now));
  }

  lemma LeaseAndOpen(cfg: Config, s: State, id: TaskId, worker: WorkerId, leased: Task)
    requires id in s.tasks
    requires leased == s.tasks[id].(leaseOwner := Some(worker), leaseExpiresAt := Some(s.now + cfg.leaseSeconds), updatedAt := s.now)
    ensures DoStart(cfg, s, id, worker) == AttemptOpened(WithRow(s, id, leased), id, worker)
  {
    LeasedThenStarted(cfg, s.tasks[id], worker, s.now);
    OpenedAfter(cfg, s, id, worker, leased);
  }

  lemma FailureSteps(cfg: Config, s: State, id: TaskId, k: nat, snap: TaskSnapshot, retryable: bool, prepared: State, moved: State)
    requires id in s.tasks && s.tasks[id].status == Running
    requires prepared == WithRow(s, id, FailurePrepared(cfg, s.tasks[id], k, snap, retryable, s.now))
    requires moved == Store.SetStatus(prepared, id, FailureStatus(s.tasks[id].maxAttempts, snap, retryable),
                                      FailureKind(s.tasks[id].maxAttempts, snap, retryable))
    ensures id in moved.tasks
    ensures FinishFailure(cfg, s, id, k, snap, retryable) == WithRow(moved, id, FailureSettled(cfg, moved.tasks[id], snap, s.now))
  {
  }

  lemma RescheduleSteps(cfg: Config, s: State, id: TaskId, k: nat, snap: TaskSnapshot, prepared: State)
    requires id in s.tasks && s.tasks[id].status == Running && snap.attempts < s.tasks[id].maxAttempts
    requires prepared == WithRow(s, id, Reported(s.tasks[id], k, AttemptFailed, s.now)
                                          .(scheduledAt := Some(s.now + RetryDelay(cfg, snap.attempts))))
    ensures FinishFailure(cfg, s, id, k, snap, true) == Put(prepared, id, RetryScheduled, TaskRetryScheduled)
  {
    var moved := Put(prepared, id, RetryScheduled, TaskRetryScheduled);
    SetStatusSteps(prepared, id, RetryScheduled, TaskRetryScheduled);
    FailureSteps(cfg, s, id, k, snap, true, prepared, moved);
    SameRowWritten(moved, id);
  }

  lemma PlannedAfter(cfg: Config, before: State, closed: State, id: TaskId, k: nat, snap: TaskSnapshot, planned: Task, r: State)
    requires id in before.tasks && before.tasks[id].status == Running && snap.attempts < before.tasks[id].maxAttempts
    requires closed == WithRow(before, id, Reported(before.tasks[id], k, AttemptFailed, before.now))
    requires planned == closed.tasks[id].(scheduledAt := Some(before.now + RetryDelay(cfg, snap.attempts)))
    requires r == Put(WithRow(closed, id, planned), id, RetryScheduled, TaskRetryScheduled)
    ensures r == FinishFailure(cfg, before, id, k, snap, true)
  {
    WrittenTwice(before.tasks, id, closed.tasks[id], planned);
    RescheduleSteps(cfg, before, id, k, snap, WithRow(closed, id, planned));
  }

  lemma DeadLetterSteps(cfg: Config, s: State, id: TaskId)
    requires IsDeadDue(cfg, s, id)
    ensures Apply(cfg, s, DeadOp(id))
            == Release(WithRow(s, id, s.tasks[id].(dlqRequeueCount := s.tasks[id].dlqRequeueCount + 1)), id, TaskDlqRequeued)
  {
  }

  lemma LateFailureSteps(cfg: Config, s: State, id: TaskId, k: nat, snap: TaskSnapshot, retryable: bool)
    requires id in s.tasks && s.tasks[id].status != Running
    ensures FinishFailure(cfg, s, id, k, snap, retryable) == WithRow(s, id, Reported(s.tasks[id], k, AttemptFailed, s.now))
  {
  }

  lemma GivenUpRow(landed: State, id: TaskId, next: Status, kind: EventKind)
    requires id in landed.tasks && landed.tasks[id].status == Running && (next == DeadLetter || next == Failed)
    ensures var moved := Store.SetStatus(landed, id, next, kind);
            id in moved.tasks && moved.tasks[id].status == next && moved.now == landed.now
  {
    FailureCascade(landed, id, next, kind);
  }

  lemma GivesUp(cfg: Config, t: Task, k: nat, snap: TaskSnapshot, retryable: bool, now: Time)
    requires !(retryable && snap.attempts < t.maxAttempts)
    ensures FailureStatus(t.maxAttempts, snap, retryable) == if retryable then DeadLetter else Failed
    ensures FailureKind(t.maxAttempts, snap, retryable) == if retryable then TaskDeadLettered else TaskFailed
    ensures FailurePrepared(cfg, t, k, snap, retryable, now) == Reported(t, k, AttemptFailed, now)
  {
  }

  /** After giving up only the dead-letter retry time remains to be written. */
  lemma GiveUpSteps(cfg: Config, s: State, id: TaskId, k: nat, snap: TaskSnapshot, retryable: bool, landed: State, moved: State)
    requires id in s.tasks && s.tasks[id].status == Running && !(retryable && snap.attempts < s.tasks[id].maxAttempts)
    requires landed == WithRow(s, id, Reported(s.tasks[id], k, AttemptFailed, s.now))
    requires moved == Store.SetStatus(landed, id, if retryable then DeadLetter else Failed,
                                      if retryable then TaskDeadLettered else TaskFailed)
    ensures id in moved.tasks && moved.now == s.now
    ensures FinishFailure(cfg, s, id, k, snap, retryable)
            == WithRow(moved, id, if retryable then FailureSettled(cfg, moved.tasks[id], snap, s.now) else moved.tasks[id])
  {
    GivesUp(cfg, s.tasks[id], k, snap, retryable, s.now);
    FailureSteps(cfg, s, id, k, snap, retryable, landed, moved);
    GivenUpRow(landed, id, if retryable then DeadLetter else Failed, if retryable then TaskDeadLettered else TaskFailed);
  }

  lemma SameRowWritten(s: State, id: TaskId)
    requires id in s.tasks
    ensures WithRow(s, id, s.tasks[id]) == s
  {
    assert s.tasks[id := s.tasks[id]] == s.tasks;
  }

  class Platform {
    const cfg: Config
    var tasks: map<TaskId, Task>
    var edges: seq<Edge>
    var outbox: map<nat, OutboxRow>
    var subs: seq<Subscription>
    var hooks: seq<Delivery>
    var broker: multiset<TaskId>
    var flights: map<Flight, TaskSnapshot>
    var nextTask: TaskId
    var nextOutbox: nat
    var now: Time
    var nextBatch: nat

    constructor (cfg: Config, subs: seq<Subscription>, now: Time)
      ensures Snapshot() == Init(subs, now) && this.cfg == cfg && nextBatch == 0
    {
      this.cfg := cfg;
      this.subs := subs;
      this.now := now;
      tasks, edges, outbox, hooks, broker, flights := map[], [], map[], [], multiset{}, map[];
      nextTask, nextOutbox, nextBatch := 0, 0, 0;
    }

    ghost function Snapshot(): State
      reads this
    {
      State(tasks, edges, outbox, subs, hooks, broker, flights, nextTask, nextOutbox, now)
    }

    // ---------- services/webhooks: queue deliveries ----------

    method EnqueueFor(id: TaskId, kind: EventKind, reported: Status)
      modifies `hooks
      ensures hooks == old(hooks) + DeliveriesFor(subs, kind, id, reported, now)
    {
      var i := 0;
      ghost var before := hooks;
      while i < |subs|
        invariant 0 <= i <= |subs|
        invariant hooks == before + DeliveriesFor(subs[..i], kind, id, reported, now)
      {
        assert subs[..i + 1][..i] == subs[..i];
        if subs[i].active && Matches(subs[i], kind) {
          hooks := hooks + [Delivery(i, kind, id, reported, DeliveryPending, 0, now)];
        }
        i := i + 1;
      }
      assert subs[..|subs|] == subs;
    }

    // ---------- services/tasks: the single mutation point ----------

    /** The columns and the event that go with a status. */
    method StampedRow(t: Task, next: Status, kind: EventKind) returns (u: Task)
      ensures u == Moved(t, next, kind, now)
    {
      var finishedAt, startedAt, scheduledAt := t.finishedAt, t.startedAt, t.scheduledAt;
      var leaseOwner, leaseExpiresAt := t.leaseOwner, t.leaseExpiresAt;
      if Terminal(next) && finishedAt.None? {
        finishedAt := Some(now);
      }
      if next == Running && startedAt.None? {
        startedAt := Some(now);
      }
      if next == Queued {
        finishedAt, scheduledAt := None, None;
      }
      if t.status == Running && next != Running {
        leaseOwner, leaseExpiresAt := None, None;
      }
      u := t.(finishedAt := finishedAt, startedAt := startedAt, scheduledAt := scheduledAt,
              leaseOwner := leaseOwner, leaseExpiresAt := leaseExpiresAt,
              log := t.log + [Event(kind, t.status, next)], status := next, updatedAt := now);
    }

    method WriteStatus(id: TaskId, next: Status, kind: EventKind)
      requires id in tasks
      modifies `tasks
      ensures tasks == old(tasks)[id := Moved(old(tasks[id]), next, kind, now)]
    {
      var row := StampedRow(tasks[id], next, kind);
      tasks := tasks[id := row];
    }

    method MoveStatus(id: TaskId, next: Status, kind: EventKind)
      requires id in tasks
      modifies `tasks, `hooks
      ensures Snapshot() == Put(old(Snapshot()), id, next, kind)
    {
      WriteStatus(id, next, kind);
      EnqueueFor(id, kind, next);
    }

    /** An invalid transition is refused and changes nothing. */
    method SetStatus(id: TaskId, next: Status, kind: EventKind) returns (ok: bool)
      requires id in tasks
      modifies `tasks, `hooks, `outbox, `nextOutbox
      ensures Snapshot() == Store.SetStatus(old(Snapshot()), id, next, kind)
      ensures ok <==> old(tasks[id].status) == next || CanTransition(old(tasks[id].status), next)
      decreases CreatedTasks(Snapshot()) - {id}, 1, 0
    {
      ghost var before := Snapshot();
      if tasks[id].status == next {
        return true;
      }
      if !CanTransition(tasks[id].status, next) {
        return false;
      }
      SetStatusSteps(before, id, next, kind);
      MoveStatus(id, next, kind);
      if Terminal(next) {
        AdvanceChildren(id);
      }
      return true;
    }

    // ---------- services/dependencies ----------

    method AdvanceChildren(id: TaskId)
      requires id in tasks && Terminal(tasks[id].status)
      modifies `tasks, `hooks, `outbox, `nextOutbox
      ensures Snapshot() == Advance(old(Snapshot()), old(tasks[id].status), ChildrenOf(edges, id))
      decreases CreatedTasks(Snapshot()), 0, |ChildrenOf(edges, id)| + 1
    {
      ghost var before := Snapshot();
      var reached := tasks[id].status;
      var kids := ChildrenOf(edges, id);
      var i := 0;
      while i < |kids|
        invariant 0 <= i <= |kids|
        invariant Advance(Snapshot(), reached, kids[i..]) == Advance(before, reached, kids)
        invariant CreatedTasks(Snapshot()) <= CreatedTasks(before)
      {
        AdvanceRound(Snapshot(), reached, kids, i);
        AdvanceOne(kids[i], reached);
        i := i + 1;
      }
    }

    method AdvanceOne(child: TaskId, reached: Status)
      requires Terminal(reached)
      modifies `tasks, `hooks, `outbox, `nextOutbox
      ensures Snapshot() == AdvanceChild(old(Snapshot()), reached, child)
      decreases CreatedTasks(Snapshot()), 0, 0
    {
      if child !in tasks || tasks[child].status != Created {
        return;
      }
      if reached == Success {
        var open := HaveAllParentsSucceeded(child);
        if open {
          var ok := SetStatus(child, Queued, TaskUnblocked);
          AddToOutbox(child);
        }
      } else {
        var ok := SetStatus(child, Cancelled, TaskCancelled);
      }
    }

    method HaveAllParentsSucceeded(child: TaskId) returns (r: bool)
      ensures r == AllParentsSucceeded(Snapshot(), child)
    {
      var parents := ParentsOf(edges, child);
      if parents == [] {
        return true;
      }
      var statuses := set p | p in parents && p in tasks :: tasks[p].status;
      SingletonSet(statuses, Success);
      return |statuses| == 1 && Success in statuses;
    }

    method AddToOutbox(id: TaskId)
      modifies `outbox, `nextOutbox
      ensures Snapshot() == AddOutbox(old(Snapshot()), id)
    {
      outbox := outbox[nextOutbox := OutboxRow(id, Pending, 0, None)];
      nextOutbox := nextOutbox + 1;
    }

    method AllKnown(parents: seq<TaskId>) returns (r: bool)
      ensures r <==> forall p :: p in parents ==> p in tasks
    {
      var i := 0;
      while i < |parents|
        invariant 0 <= i <= |parents| && forall j :: 0 <= j < i ==> parents[j] in tasks
      {
        if parents[i] !in tasks {
          return false;
        }
        i := i + 1;
      }
      return true;
    }

    method AddEdges(id: TaskId, parents: seq<TaskId>)
      modifies `edges
      ensures edges == old(edges) + Dependencies.EdgesTo(id, parents)
    {
      ghost var before := edges;
      var i := 0;
      while i < |parents|
        invariant 0 <= i <= |parents|
        invariant edges + Dependencies.EdgesTo(id, parents[i..]) == before + Dependencies.EdgesTo(id, parents)
      {
        assert parents[i..] == [parents[i]] + parents[i + 1..];
        assert edges + ([Edge(parents[i], id)] + Dependencies.EdgesTo(id, parents[i + 1..]))
            == edges + [Edge(parents[i], id)] + Dependencies.EdgesTo(id, parents[i + 1..]);
        edges := edges + [Edge(parents[i], id)];
        i := i + 1;
      }
      assert parents[|parents|..] == [];
    }

    method RegisterDependencies(id: TaskId, dependsOn: seq<TaskId>) returns (ok: bool)
      modifies `edges
      ensures ok <==> Registrable(old(Snapshot()), id, dependsOn)
      ensures edges == if ok then old(edges) + Dependencies.EdgesTo(id, Dependencies.WithoutRepeats(dependsOn)) else old(edges)
    {
      var parents := Dependencies.WithoutRepeats(dependsOn);
      if id in parents {
        return false;
      }
      ok := AllKnown(parents);
      if ok {
        ok := Dependencies.EnsureNoCycle(edges, id, parents);
      }
      if ok {
        AddEdges(id, parents);
      }
    }

    // ---------- services/tasks: creation and manual operations ----------

    method CreateTask(maxAttempts: nat, scheduleAt: Option<Time>, batch: Option<nat>, dependsOn: seq<TaskId>)
      returns (r: Creation)
      modifies `tasks, `edges, `hooks, `outbox, `nextOutbox, `nextTask
      ensures Snapshot() == DoCreate(old(Snapshot()), maxAttempts, scheduleAt, batch, dependsOn)
      ensures r.CreatedTask? ==> r.id == old(nextTask) && nextTask == r.id + 1
      ensures r.RefusedDependencies? ==> Snapshot() == old(Snapshot())
    {
      ghost var before := Snapshot();
      var saved := tasks;
      var id := nextTask;
      tasks, nextTask := tasks[id := FreshRow(maxAttempts, scheduleAt, batch, now)], id + 1;
      assert Snapshot() == Added(before, maxAttempts, scheduleAt, batch);
      if dependsOn != [] {
        var ok := Block(id, dependsOn);
        if ok {
          return CreatedTask(id);
        }
        tasks, nextTask := saved, id;
        return RefusedDependencies;
      }
      ScheduleOrQueue(id, scheduleAt);
      return CreatedTask(id);
    }

    method Block(id: TaskId, dependsOn: seq<TaskId>) returns (ok: bool)
      requires id in tasks
      modifies `tasks, `edges
      ensures ok <==> Registrable(old(Snapshot()), id, dependsOn)
      ensures Snapshot() == if ok then DoBlock(old(Snapshot()), id, dependsOn) else old(Snapshot())
    {
      ok := RegisterDependencies(id, dependsOn);
      if ok {
        tasks := tasks[id := tasks[id].(log := tasks[id].log + [Event(TaskBlocked, Created, Created)])];
      }
    }

    method ScheduleOrQueue(id: TaskId, scheduleAt: Option<Time>)
      requires id in tasks
      modifies `tasks, `hooks, `outbox, `nextOutbox
      ensures Snapshot() == DoReady(old(Snapshot()), id, scheduleAt)
    {
      if scheduleAt.Some? && scheduleAt.value > now {
        var ok := SetStatus(id, Scheduled, TaskScheduled);
      } else {
        var ok := SetStatus(id, Queued, TaskQueued);
        AddToOutbox(id);
      }
    }

    method ManualRetry(id: TaskId) returns (r: Reply)
      modifies `tasks, `hooks, `outbox, `nextOutbox
      ensures Snapshot() == DoRetry(old(Snapshot()), id)
      ensures r == if id !in old(tasks) then NotFound
                   else if Terminal(old(tasks[id].status)) && CanTransition(old(tasks[id].status), Queued) then Done else Conflict
      ensures r == Done ==> id in tasks && tasks[id].status == Queued
    {
      if id !in tasks {
        return NotFound;
      }
      StatusesTold(tasks[id].status);
      if !Retryable(tasks[id].status) {
        return Conflict;
      }
      Requeue(id, TaskRetried);
      return Done;
    }

    method CancelOne(id: TaskId) returns (r: Reply)
      modifies `tasks, `hooks, `outbox, `nextOutbox
      ensures Snapshot() == DoCancel(old(Snapshot()), id)
      ensures r == if id !in old(tasks) then NotFound
                   else if CanTransition(old(tasks[id].status), Cancelled) then Done else Conflict
      ensures r == Done <==> CanCancel(old(Snapshot()), id)
      ensures r == Done ==> id in tasks && tasks[id].status == Cancelled
    {
      if id !in tasks {
        return NotFound;
      }
      StatusesTold(tasks[id].status);
      if !Cancelable(tasks[id].status) {
        return Conflict;
      }
      CancelMoves(Snapshot(), id);
      var ok := SetStatus(id, Cancelled, TaskCancelled);
      return Done;
    }

    // ---------- worker/services/attempts ----------

    method TryAcquireLease(id: TaskId, worker: WorkerId) returns (acquired: bool)
      modifies `tasks
      ensures acquired <==> id in old(tasks) && old(tasks[id].status) == Queued && LeaseFree(old(tasks[id]), now)
      ensures tasks == if acquired then
                         old(tasks)[id := old(tasks[id]).(leaseOwner := Some(worker),
                                                          leaseExpiresAt := Some(now + cfg.leaseSeconds), updatedAt := now)]
                       else old(tasks)
    {
      acquired := id in tasks && tasks[id].status == Queued && LeaseFree(tasks[id], now);
      if acquired {
        tasks := tasks[id := tasks[id].(leaseOwner := Some(worker),
                                        leaseExpiresAt := Some(now + cfg.leaseSeconds), updatedAt := now)];
      }
    }

    method RenewLease(id: TaskId, worker: WorkerId) returns (renewed: bool)
      modifies `tasks
      ensures Snapshot() == DoRenew(cfg, old(Snapshot()), id, worker)
      ensures renewed <==> id in old(tasks) && old(tasks[id].status) == Running && old(tasks[id].leaseOwner) == Some(worker)
    {
      renewed := id in tasks && tasks[id].leaseOwner == Some(worker) && tasks[id].status == Running;
      if renewed {
        tasks := tasks[id := tasks[id].(leaseExpiresAt := Some(now + cfg.leaseSeconds), updatedAt := now)];
      }
    }

    method StartAttempt(id: TaskId, worker: WorkerId)
      requires id in tasks && tasks[id].status == Queued
      modifies `tasks, `hooks, `outbox, `nextOutbox
      ensures var s := old(Snapshot());
              Snapshot() == WithRow(s, id, OpenedRow(s.tasks[id], worker, now))
                              .(hooks := s.hooks + DeliveriesFor(subs, TaskRunning, id, Running, now))
    {
      ghost var s := Snapshot();
      var ok := SetStatus(id, Running, TaskRunning);
      assert Snapshot() == Put(s, id, Running, TaskRunning);
      var t := tasks[id];
      var number := t.attempts + 1;
      tasks := tasks[id := t.(attempts := number,
                              rows := t.rows + [Attempt(number, AttemptRunning, worker, None)],
                              log := t.log + [Event(AttemptStarted, Running, Running)])];
    }

    // ---------- worker/main: the two transactions of handle_message ----------

    /** The worker keeps the loaded row in memory while the task runs. */
    method StartAndRemember(id: TaskId, worker: WorkerId) returns (f: Flight)
      requires id in tasks && tasks[id].status == Queued
      modifies `tasks, `hooks, `outbox, `nextOutbox, `flights
      ensures Snapshot() == AttemptOpened(old(Snapshot()), id, worker)
      ensures f == Flight(id, old(tasks[id]).attempts + 1)
    {
      StartAttempt(id, worker);
      var t := tasks[id];
      f := Flight(id, t.attempts);
      flights := flights[f := TaskSnapshot(worker, t.attempts, t.dlqRequeueCount, t.dlqRetryAt)];
    }

    /** Up to the first commit; the message is acknowledged at once when the lease is not granted. */
    method BeginAttempt(id: TaskId, worker: WorkerId) returns (flight: Option<Flight>)
      requires broker[id] > 0
      modifies `tasks, `hooks, `outbox, `nextOutbox, `broker, `flights
      ensures Snapshot() == DoReceive(cfg, old(Snapshot()), id, worker)
      ensures flight.Some? <==> id in old(tasks) && old(tasks[id].status) == Queued && LeaseFree(old(tasks[id]), now)
      ensures flight.Some? ==> flight.value == Flight(id, old(tasks[id]).attempts + 1)
    {
      ghost var before := Snapshot();
      broker := broker - multiset{id};
      ghost var taken := Snapshot();
      ReceiveSteps(cfg, before, id, worker, taken);
      var acquired := TryAcquireLease(id, worker);
      if !acquired {
        return None;
      }
      LeaseAndOpen(cfg, taken, id, worker, tasks[id]);
      var f := StartAndRemember(id, worker);
      return Some(f);
    }

    method CloseAttempt(id: TaskId, k: nat, outcome: AttemptStatus)
      requires id in tasks
      modifies `tasks
      ensures tasks == old(tasks)[id := Reported(old(tasks[id]), k, outcome, now)]
    {
      var t := tasks[id];
      if 1 <= k <= |t.rows| {
        tasks := tasks[id := t.(rows := t.rows[k - 1 := t.rows[k - 1].(status := outcome, finishedAt := Some(now))])];
      }
    }

    method RecordSuccess(id: TaskId, k: nat)
      requires id in tasks
      modifies `tasks, `hooks, `outbox, `nextOutbox
      ensures Snapshot() == FinishSuccess(old(Snapshot()), id, k)
    {
      ghost var before := Snapshot();
      CloseAttempt(id, k, AttemptSuccess);
      if tasks[id].status != Running {
        return;
      }
      ghost var reported := tasks[id];
      tasks := tasks[id := tasks[id].(finishedAt := Some(now))];
      WrittenTwice(before.tasks, id, reported, tasks[id]);
      var ok := SetStatus(id, Success, TaskSucceeded);
    }

    /** When to come back from the dead-letter queue, if ever. */
    method PlanDeadLetterRetry(id: TaskId, snap: TaskSnapshot)
      requires id in tasks && tasks[id].status == DeadLetter
      modifies `tasks
      ensures tasks == old(tasks)[id := FailureSettled(cfg, old(tasks[id]), snap, now)]
    {
      if cfg.dlqEnabled && snap.dlqRequeueCount < cfg.dlqMaxCycles {
        tasks := tasks[id := tasks[id].(dlqRetryAt := Some(now + cfg.dlqInterval))];
      } else if snap.dlqRetryAt.Some? {
        tasks := tasks[id := tasks[id].(dlqRetryAt := None)];
      }
    }

    method Reschedule(id: TaskId, snap: TaskSnapshot)
      requires id in tasks && tasks[id].status == Running
      modifies `tasks, `hooks, `outbox, `nextOutbox
      ensures Snapshot()
              == Put(WithRow(old(Snapshot()), id, old(tasks[id]).(scheduledAt := Some(now + RetryDelay(cfg, snap.attempts)))),
                     id, RetryScheduled, TaskRetryScheduled)
    {
      tasks := tasks[id := tasks[id].(scheduledAt := Some(now + RetryDelay(cfg, snap.attempts)))];
      MovesAlone(Snapshot(), id, RetryScheduled, TaskRetryScheduled);
      var ok := SetStatus(id, RetryScheduled, TaskRetryScheduled);
    }

    method RecordFailure(id: TaskId, k: nat, snap: TaskSnapshot, retryable: bool)
      requires id in tasks
      modifies `tasks, `hooks, `outbox, `nextOutbox
      ensures Snapshot() == FinishFailure(cfg, old(Snapshot()), id, k, snap, retryable)
    {
      ghost var before := Snapshot();
      CloseAttempt(id, k, AttemptFailed);
      if tasks[id].status == Running {
        DecideFailure(id, snap, retryable, before, k);
      } else {
        LateFailureSteps(cfg, before, id, k, snap, retryable);
      }
    }

    /** The decision between retry, dead letter and failure is taken on the worker's snapshot. */
    method DecideFailure(id: TaskId, snap: TaskSnapshot, retryable: bool, ghost before: State, ghost k: nat)
      requires id in before.tasks && before.tasks[id].status == Running
      requires Snapshot() == WithRow(before, id, Reported(before.tasks[id], k, AttemptFailed, now))
      modifies `tasks, `hooks, `outbox, `nextOutbox
      ensures Snapshot() == FinishFailure(cfg, before, id, k, snap, retryable)
    {
      if retryable && snap.attempts < tasks[id].maxAttempts {
        RetryLater(id, snap, before, k);
      } else {
        GiveUpFor(id, snap, retryable, before, k);
      }
    }

    method RetryLater(id: TaskId, snap: TaskSnapshot, ghost before: State, ghost k: nat)
      requires id in before.tasks && before.tasks[id].status == Running && snap.attempts < before.tasks[id].maxAttempts
      requires Snapshot() == WithRow(before, id, Reported(before.tasks[id], k, AttemptFailed, now))
      modifies `tasks, `hooks, `outbox, `nextOutbox
      ensures Snapshot() == FinishFailure(cfg, before, id, k, snap, true)
    {
      ghost var closed := Snapshot();
      ghost var planned := tasks[id].(scheduledAt := Some(now + RetryDelay(cfg, snap.attempts)));
      Reschedule(id, snap);
      PlannedAfter(cfg, before, closed, id, k, snap, planned, Snapshot());
    }

    /** No retry is left, or none makes sense. */
    method GiveUpFor(id: TaskId, snap: TaskSnapshot, retryable: bool, ghost before: State, ghost k: nat)
      requires id in before.tasks && before.tasks[id].status == Running
      requires Snapshot() == WithRow(before, id, Reported(before.tasks[id], k, AttemptFailed, now))
      requires !(retryable && snap.attempts < before.tasks[id].maxAttempts)
      modifies `tasks, `hooks, `outbox, `nextOutbox
      ensures Snapshot() == FinishFailure(cfg, before, id, k, snap, retryable)
    {
      ghost var closed := Snapshot();
      GiveUpSteps(cfg, before, id, k, snap, retryable, closed,
                  Store.SetStatus(closed, id, if retryable then DeadLetter else Failed,
                                  if retryable then TaskDeadLettered else TaskFailed));
      GiveUp(id, snap, retryable);
    }

    method GiveUp(id: TaskId, snap: TaskSnapshot, retryable: bool)
      requires id in tasks && tasks[id].status == Running
      modifies `tasks, `hooks, `outbox, `nextOutbox
      ensures var s := old(Snapshot());
              var moved := Store.SetStatus(s, id, if retryable then DeadLetter else Failed,
                                           if retryable then TaskDeadLettered else TaskFailed);
              && id in moved.tasks && moved.now == now
              && Snapshot() == WithRow(moved, id, if retryable then FailureSettled(cfg, moved.tasks[id], snap, now) else moved.tasks[id])
    {
      GivenUpRow(Snapshot(), id, if retryable then DeadLetter else Failed, if retryable then TaskDeadLettered else TaskFailed);
      var ok := SetStatus(id, if retryable then DeadLetter else Failed, if retryable then TaskDeadLettered else TaskFailed);
      if retryable {
        PlanDeadLetterRetry(id, snap);
      } else {
        SameRowWritten(Snapshot(), id);
      }
    }

    /** The second transaction. */
    method FinishAttempt(f: Flight, outcome: Outcome)
      requires f in flights
      modifies `tasks, `hooks, `outbox, `nextOutbox, `flights
      ensures Snapshot() == DoFinish(cfg, old(Snapshot()), f, outcome)
    {
      var snap := flights[f];
      flights := flights - {f};
      if f.task !in tasks {
        return;
      }
      if outcome == Completed {
        RecordSuccess(f.task, f.number);
      } else {
        RecordFailure(f.task, f.number, snap, outcome == RetryableError);
      }
    }

    // ---------- worker/services/scheduler ----------

    method Requeue(id: TaskId, kind: EventKind)
      requires id in tasks && CanTransition(tasks[id].status, Queued)
      modifies `tasks, `hooks, `outbox, `nextOutbox
      ensures Snapshot() == Release(old(Snapshot()), id, kind)
    {
      var ok := SetStatus(id, Queued, kind);
      AddToOutbox(id);
    }

    method SelectDue(limit: nat) returns (ids: seq<TaskId>)
      ensures Selected(ids, DueTasks(cfg, Snapshot()), DueKey(Snapshot()), limit)
    {
      var key := map id | id in tasks && tasks[id].scheduledAt.Some? :: tasks[id].scheduledAt.value;
      var candidates := set id | id in key && Waiting(tasks[id].status) && key[id] <= now;
      assert candidates == DueTasks(cfg, Snapshot()) && key == DueKey(Snapshot());
      ids := Selection.Select(candidates, key, limit);
    }

    method RequeueDueTasks(limit: nat) returns (count: nat, ghost ids: seq<TaskId>)
      modifies `tasks, `hooks, `outbox, `nextOutbox
      ensures var s := old(Snapshot());
              Selected(ids, DueTasks(cfg, s), DueKey(s), limit) && Snapshot() == Exec(cfg, s, Each(ids, DueOp))
      ensures count == |ids|
    {
      ghost var before := Snapshot();
      var due := SelectDue(limit);
      ids, count := due, 0;
      while count < |due|
        invariant count <= |due| && Snapshot() == Exec(cfg, before, Each(due[..count], DueOp))
        invariant Untouched(before, Snapshot(), due[count..])
      {
        ghost var here := Snapshot();
        RequeueDue(due[count]);
        SweepRound(cfg, before, due, DueOp, count, here, Snapshot());
        count := count + 1;
      }
      assert due[..count] == due;
    }

    method RequeueDue(id: TaskId)
      requires IsDue(cfg, Snapshot(), id)
      modifies `tasks, `hooks, `outbox, `nextOutbox
      ensures Snapshot() == Apply(cfg, old(Snapshot()), DueOp(id))
    {
      Requeue(id, if tasks[id].status == RetryScheduled then TaskRetried else TaskQueued);
    }

    method SelectDeadDue(limit: nat) returns (ids: seq<TaskId>)
      requires cfg.dlqEnabled
      ensures Selected(ids, DeadDueTasks(cfg, Snapshot()), DeadDueKey(Snapshot()), limit)
    {
      var key := map id | id in tasks && tasks[id].dlqRetryAt.Some? :: tasks[id].dlqRetryAt.value;
      var candidates := set id | id in key && tasks[id].status == DeadLetter && key[id] <= now
                                   && tasks[id].dlqRequeueCount < cfg.dlqMaxCycles;
      assert candidates == DeadDueTasks(cfg, Snapshot()) && key == DeadDueKey(Snapshot());
      ids := Selection.Select(candidates, key, limit);
    }

    method RequeueDeadLetters(limit: nat) returns (count: nat, ghost ids: seq<TaskId>)
      modifies `tasks, `hooks, `outbox, `nextOutbox
      ensures var s := old(Snapshot());
              Selected(ids, DeadDueTasks(cfg, s), DeadDueKey(s), limit) && Snapshot() == Exec(cfg, s, Each(ids, DeadOp))
      ensures count == |ids|
    {
      ghost var before := Snapshot();
      if !cfg.dlqEnabled {
        assert DeadDueTasks(cfg, before) == {};
        return 0, [];
      }
      var due := SelectDeadDue(limit);
      ids, count := due, 0;
      while count < |due|
        invariant count <= |due| && Snapshot() == Exec(cfg, before, Each(due[..count], DeadOp))
        invariant Untouched(before, Snapshot(), due[count..])
      {
        ghost var here := Snapshot();
        RequeueDeadLetter(due[count]);
        SweepRound(cfg, before, due, DeadOp, count, here, Snapshot());
        count := count + 1;
      }
      assert due[..count] == due;
    }

    method RequeueDeadLetter(id: TaskId)
      requires IsDeadDue(cfg, Snapshot(), id)
      modifies `tasks, `hooks, `outbox, `nextOutbox
      ensures Snapshot() == Apply(cfg, old(Snapshot()), DeadOp(id))
    {
      DeadLetterSteps(cfg, Snapshot(), id);
      tasks := tasks[id := tasks[id].(dlqRequeueCount := tasks[id].dlqRequeueCount + 1)];
      Requeue(id, TaskDlqRequeued);
    }

    method SelectStuck(limit: nat) returns (ids: seq<TaskId>)
      ensures Selected(ids, StuckTasks(Snapshot()), StuckKey(Snapshot()), limit)
    {
      var key := map id | id in tasks && tasks[id].leaseExpiresAt.Some? :: tasks[id].leaseExpiresAt.value;
      var candidates := set id | id in key && key[id] < now && (tasks[id].status == Queued || tasks[id].status == Running);
      assert candidates == StuckTasks(Snapshot()) && key == StuckKey(Snapshot());
      ids := Selection.Select(candidates, key, limit);
    }

    method RecoverStuckTasks(limit: nat) returns (count: nat, ghost ids: seq<TaskId>)
      modifies `tasks, `hooks, `outbox, `nextOutbox
      ensures var s := old(Snapshot());
              Selected(ids, StuckTasks(s), StuckKey(s), limit) && Snapshot() == Exec(cfg, s, Each(ids, RecoverOp))
      ensures count == |ids|
    {
      ghost var before := Snapshot();
      var stuck := SelectStuck(limit);
      ids, count := stuck, 0;
      while count < |stuck|
        invariant count <= |stuck| && Snapshot() == Exec(cfg, before, Each(stuck[..count], RecoverOp))
        invariant Untouched(before, Snapshot(), stuck[count..])
      {
        ghost var here := Snapshot();
        RecoverOne(stuck[count]);
        SweepRound(cfg, before, stuck, RecoverOp, count, here, Snapshot());
        count := count + 1;
      }
      assert stuck[..count] == stuck;
    }

    method RecoverOne(id: TaskId)
      requires IsStuck(Snapshot(), id)
      modifies `tasks, `hooks, `outbox, `nextOutbox
      ensures Snapshot() == Apply(cfg, old(Snapshot()), RecoverOp(id))
    {
      var t := tasks[id];
      if t.status == Running {
        var k := FindRunningAttempt(t.rows);
        if k > 0 {
          CloseAttempt(id, k, AttemptFailed);
        } else {
          SameRowWritten(Snapshot(), id);
        }
        Requeue(id, TaskRequeued);
      } else {
        tasks := tasks[id := t.(leaseOwner := None, leaseExpiresAt := None, updatedAt := now)];
        AddToOutbox(id);
      }
    }

    /** The highest numbered attempt still marked running, or 0. */
    method FindRunningAttempt(rows: seq<Attempt>) returns (k: nat)
      ensures k == LatestRunning(rows)
    {
      k := |rows|;
      while k > 0 && rows[k - 1].status != AttemptRunning
        invariant k <= |rows| && LatestRunning(rows[..k]) == LatestRunning(rows)
      {
        assert rows[..k][..k - 1] == rows[..k - 1];
        k := k - 1;
      }
      assert rows[..|rows|] == rows;
    }

    method SelectOrphans(limit: nat) returns (ids: seq<TaskId>)
      ensures Selected(ids, OrphanTasks(cfg, Snapshot()), OrphanKey(Snapshot()), limit)
    {
      var key := map id | id in tasks :: tasks[id].updatedAt;
      var cutoff := now - cfg.reconcileSeconds;
      var candidates := set id | id in key && tasks[id].status == Queued && key[id] <= cutoff && LeaseFree(tasks[id], now);
      assert candidates == OrphanTasks(cfg, Snapshot()) && key == OrphanKey(Snapshot());
      ids := Selection.Select(candidates, key, limit);
    }

    method RequeueOrphans(limit: nat) returns (count: nat, ghost ids: seq<TaskId>)
      modifies `outbox, `nextOutbox
      ensures var s := old(Snapshot());
              Selected(ids, OrphanTasks(cfg, s), OrphanKey(s), limit) && Snapshot() == Exec(cfg, s, Each(ids, OrphanOp))
      ensures count == |ids|
    {
      ghost var before := Snapshot();
      var stuck := SelectOrphans(limit);
      ids, count := stuck, 0;
      while count < |stuck|
        invariant count <= |stuck| && Snapshot() == Exec(cfg, before, Each(stuck[..count], OrphanOp))
        invariant tasks == before.tasks
      {
        EachSnoc(cfg, before, stuck, OrphanOp, count);
        Republish(stuck[count]);
        count := count + 1;
      }
      assert stuck[..count] == stuck;
    }

    method Republish(id: TaskId)
      requires IsOrphan(cfg, Snapshot(), id)
      modifies `outbox, `nextOutbox
      ensures Snapshot() == Apply(cfg, old(Snapshot()), OrphanOp(id))
    {
      AddToOutbox(id);
    }

    // ---------- worker/services/scheduler: retention ----------

    method DeleteTasks(ids: seq<TaskId>)
      modifies `tasks, `edges
      ensures Snapshot() == DeletedAll(old(Snapshot()), Members(ids))
    {
      var gone := set i | 0 <= i < |ids| :: ids[i];
      tasks, edges := tasks - gone, EdgesOutside(edges, gone);
    }

    method DeleteDone(limit: nat) returns (ids: seq<TaskId>)
      modifies `tasks, `edges
      ensures var s := old(Snapshot());
              Selected(ids, DoneTasks(cfg, s), IdKey(DoneTasks(cfg, s)), limit) && Snapshot() == DeletedAll(s, Members(ids))
    {
      var candidates := set id | id in tasks && DonePurgeable(cfg, tasks[id], now);
      assert candidates == DoneTasks(cfg, Snapshot());
      ids := Selection.Select(candidates, IdKey(candidates), limit);
      DeleteTasks(ids);
    }

    method DeleteDead(limit: nat) returns (ids: seq<TaskId>)
      modifies `tasks, `edges
      ensures var s := old(Snapshot());
              Selected(ids, OldDeadTasks(cfg, s), IdKey(OldDeadTasks(cfg, s)), limit) && Snapshot() == DeletedAll(s, Members(ids))
    {
      var candidates := set id | id in tasks && DeadPurgeable(cfg, tasks[id], now);
      assert candidates == OldDeadTasks(cfg, Snapshot());
      ids := Selection.Select(candidates, IdKey(candidates), limit);
      DeleteTasks(ids);
    }

    method DeleteSent(limit: nat) returns (ids: seq<nat>)
      modifies `outbox
      ensures var s := old(Snapshot());
              && Selected(ids, OldRows(cfg, s), IdKey(OldRows(cfg, s)), limit)
              && Snapshot() == s.(outbox := s.outbox - Members(ids))
    {
      var candidates := set i | i in outbox && SentPurgeable(cfg, outbox[i], now);
      assert candidates == OldRows(cfg, Snapshot());
      ids := Selection.Select(candidates, IdKey(candidates), limit);
      outbox := outbox - (set i | 0 <= i < |ids| :: ids[i]);
    }

    /** A limit of zero means the configured one. */
    method PurgeOldData(limit: nat) returns (deleted: nat, ghost done: seq<TaskId>, ghost dead: seq<TaskId>, ghost rows: seq<nat>)
      modifies `tasks, `edges, `outbox
      ensures PurgedBy(cfg, old(Snapshot()), if limit == 0 then cfg.cleanupBatch else limit, done, dead, rows, Snapshot())
      ensures deleted == |done| + |dead| + |rows|
    {
      var most := if limit == 0 then cfg.cleanupBatch else limit;
      var first := DeleteDone(most);
      var second := DeleteDead(most);
      var third := DeleteSent(most);
      done, dead, rows := first, second, third;
      deleted := |first| + |second| + |third|;
    }

    // ---------- services/outbox ----------

    method SelectPending(limit: nat) returns (ids: seq<nat>)
      ensures Selected(ids, PendingRows(Snapshot()), IdKey(PendingRows(Snapshot())), limit)
    {
      var candidates := set i | i in outbox && outbox[i].status == Pending;
      assert candidates == PendingRows(Snapshot());
      ids := Selection.Select(candidates, IdKey(candidates), limit);
    }

    /** Publishing one row; the rows of the session reach the table only with the commit. */
    method PublishRow(rows: map<nat, OutboxRow>, id: nat, published: nat -> bool, ghost commits: bool)
      returns (r: map<nat, OutboxRow>)
      requires id in rows && id in outbox && rows[id] == outbox[id] && outbox[id].status == Pending
      modifies `broker
      ensures Committing(Snapshot(), r, commits)
              == DoRelay(Committing(old(Snapshot()), rows, commits), id, RelayHow(published, commits, id))
      ensures r.Keys == rows.Keys && forall j :: j in rows && j != id ==> r[j] == rows[j]
    {
      var o := rows[id];
      if published(id) {
        broker := broker + multiset{o.task};
        r := rows[id := o.(status := Sent, processedAt := Some(now), attempts := o.attempts + 1)];
      } else {
        r := rows[id := o.(attempts := o.attempts + 1)];
      }
    }

    /** `published` says which publications the broker accepts, `commits` whether the transaction survives. */
    method PublishPending(limit: nat, published: nat -> bool, commits: bool) returns (count: nat, ghost ids: seq<nat>)
      modifies `outbox, `broker
      ensures var s := old(Snapshot());
              && Selected(ids, PendingRows(s), IdKey(PendingRows(s)), limit)
              && Snapshot() == Exec(cfg, s, RelayAll(ids, published, commits))
      ensures count == |ids|
    {
      ghost var before := Snapshot();
      var events := SelectPending(limit);
      ids, count := events, 0;
      var rows := outbox;
      while count < |events|
        invariant count <= |events| && outbox == before.outbox && rows.Keys == outbox.Keys
        invariant forall j :: count <= j < |events| ==> rows[events[j]] == outbox[events[j]]
        invariant Committing(Snapshot(), rows, commits) == Exec(cfg, before, RelayAll(events[..count], published, commits))
      {
        ghost var here := Committing(Snapshot(), rows, commits);
        rows := PublishRow(rows, events[count], published, commits);
        RelayRound(cfg, before, events, published, commits, count, here, Committing(Snapshot(), rows, commits));
        count := count + 1;
      }
      assert events[..count] == events;
      if commits {
        outbox := rows;
      }
    }

    // ---------- services/webhooks: the dispatcher ----------

    method SelectDeliveries(limit: nat) returns (ids: seq<nat>)
      ensures Selected(ids, DueDeliveries(Snapshot()), IdKey(DueDeliveries(Snapshot())), limit)
    {
      var candidates := set i | 0 <= i < |hooks| && Sendable(hooks[i], now);
      assert candidates == DueDeliveries(Snapshot());
      ids := Selection.Select(candidates, IdKey(candidates), limit);
    }

    method DispatchOne(row: Delivery, ok: bool) returns (d: Delivery)
      ensures d == Dispatched(cfg, subs, row, ok, now)
    {
      d := row;
      if d.subscription >= |subs| || !subs[d.subscription].active {
        d := d.(status := DeliveryFailed);
      } else if ok {
        d := d.(status := DeliverySent);
      } else {
        d := d.(attempts := d.attempts + 1);
        if d.attempts >= cfg.webhookMaxAttempts {
          d := d.(status := DeliveryFailed);
        } else {
          d := d.(nextRetryAt := now + Backoff(cfg, d.attempts));
        }
      }
    }

    /** The sendings happen one by one; the rows of the session reach the table only with the commit. */
    method DispatchRow(rows: seq<Delivery>, i: nat, ok: bool, ghost commits: bool) returns (r: seq<Delivery>)
      requires i < |rows| == |hooks| && rows[i] == hooks[i] && Sendable(hooks[i], now)
      ensures Recorded(Snapshot(), r, commits) == Next(cfg, Recorded(Snapshot(), rows, commits), Dispatch(i, ok, commits))
      ensures |r| == |rows| && forall j :: 0 <= j < |rows| && j != i ==> r[j] == rows[j]
    {
      var d := DispatchOne(rows[i], ok);
      r := rows[i := d];
    }

    method DispatchEach(due: seq<nat>, answers: nat -> bool, ghost commits: bool) returns (rows: seq<Delivery>)
      requires Selection.Distinct(due) && forall j :: 0 <= j < |due| ==> due[j] in DueDeliveries(Snapshot())
      ensures Recorded(Snapshot(), rows, commits) == After(cfg, Snapshot(), DispatchAll(due, answers, commits))
    {
      rows := hooks;
      var i := 0;
      while i < |due|
        invariant i <= |due| && |rows| == |hooks|
        invariant forall j :: i <= j < |due| ==> due[j] < |hooks| && rows[due[j]] == hooks[due[j]]
        invariant Recorded(Snapshot(), rows, commits) == After(cfg, Snapshot(), DispatchAll(due[..i], answers, commits))
      {
        ghost var here := Recorded(Snapshot(), rows, commits);
        assert due[i] in DueDeliveries(Snapshot());
        rows := DispatchRow(rows, due[i], answers(due[i]), commits);
        DispatchRound(cfg, Snapshot(), due, answers, commits, i, here, Recorded(Snapshot(), rows, commits));
        i := i + 1;
      }
      assert due[..i] == due;
    }

    /** `answers` says which receivers accept their delivery.  `died` is the number of sendings after
        which the transaction was lost, if it was. */
    method DispatchDue(limit: nat, answers: nat -> bool, died: Option<nat>) returns (count: nat, ghost ids: seq<nat>)
      modifies `hooks
      ensures var s := old(Snapshot());
              && Selected(ids, DueDeliveries(s), IdKey(DueDeliveries(s)), limit)
              && count == (if died.Some? then Least(died.value, |ids|) else |ids|)
              && Snapshot() == After(cfg, s, DispatchAll(ids[..count], answers, died.None?))
    {
      var due := SelectDeliveries(limit);
      ids, count := due, if died.Some? then Least(died.value, |due|) else |due|;
      var rows := DispatchEach(due[..count], answers, died.None?);
      if died.None? {
        hooks := rows;
      }
    }

    // ---------- services/batches ----------

    /** Creates the tasks in order; stops at the first one that is refused. */
    method CreateTasks(specs: seq<Spec>, batch: nat) returns (ok: bool)
      modifies `tasks, `edges, `hooks, `outbox, `nextOutbox, `nextTask
      ensures ok ==> Snapshot() == Exec(cfg, old(Snapshot()), CreateAll(specs, batch))
    {
      ghost var before := Snapshot();
      var i := 0;
      while i < |specs|
        invariant i <= |specs| && Snapshot() == Exec(cfg, before, CreateAll(specs[..i], batch))
      {
        CreateSnoc(cfg, before, specs, batch, i);
        var c := CreateTask(specs[i].maxAttempts, specs[i].scheduleAt, Some(batch), specs[i].dependsOn);
        if c.RefusedDependencies? {
          return false;
        }
        i := i + 1;
      }
      assert specs[..i] == specs;
      return true;
    }

    /** The transaction is rolled back when a task is refused. */
    method CreateAllOrNone(specs: seq<Spec>, batch: nat) returns (ok: bool)
      modifies `tasks, `edges, `hooks, `outbox, `nextOutbox, `nextTask
      ensures Snapshot() == if ok then Exec(cfg, old(Snapshot()), CreateAll(specs, batch)) else old(Snapshot())
    {
      var tasks0, edges0, hooks0, outbox0, nextOutbox0, nextTask0 := tasks, edges, hooks, outbox, nextOutbox, nextTask;
      ok := CreateTasks(specs, batch);
      if !ok {
        tasks, edges, hooks, outbox, nextOutbox, nextTask := tasks0, edges0, hooks0, outbox0, nextOutbox0, nextTask0;
      }
    }

    /** All tasks of the batch are created, or none. */
    method CreateBatch(specs: seq<Spec>, most: nat) returns (r: BatchCreation)
      modifies `tasks, `edges, `hooks, `outbox, `nextOutbox, `nextTask, `nextBatch
      ensures r.TooMany? <==> |specs| > most
      ensures if r.CreatedBatch? then
                r.batch == old(nextBatch) && nextBatch == r.batch + 1
                && Snapshot() == Exec(cfg, old(Snapshot()), CreateAll(specs, r.batch))
              else Snapshot() == old(Snapshot()) && nextBatch == old(nextBatch)
    {
      if |specs| > most {
        return TooMany;
      }
      var ok := CreateAllOrNone(specs, nextBatch);
      if !ok {
        return RefusedSpec;
      }
      nextBatch := nextBatch + 1;
      return CreatedBatch(nextBatch - 1);
    }

    /** The tasks of the batch, in whatever order the table yields them. */
    method ListBatch(b: nat) returns (ids: seq<TaskId>)
      ensures Selection.Distinct(ids) && forall x :: x in ids <==> x in BatchTasks(Snapshot(), b)
    {
      ids := [];
      var rest := set id | id in tasks && tasks[id].batch == Some(b);
      while rest != {}
        invariant Selection.Distinct(ids) && forall x :: x in ids ==> x !in rest
        invariant forall x :: x in BatchTasks(Snapshot(), b) <==> x in ids || x in rest
        decreases rest
      {
        var id :| id in rest;
        ids := ids + [id];
        rest := rest - {id};
      }
    }

    method CancelEach(rows: seq<TaskId>) returns (cancelled: nat, conflicts: seq<TaskId>)
      requires forall x :: x in rows ==> x in tasks
      modifies `tasks, `hooks, `outbox, `nextOutbox
      ensures CancelledSoFar(cfg, old(Snapshot()), rows, |rows|, Snapshot(), cancelled, conflicts)
    {
      ghost var before := Snapshot();
      var i := 0;
      cancelled, conflicts := 0, [];
      NothingCancelled(cfg, before, rows);
      while i < |rows|
        invariant i <= |rows| && tasks.Keys == before.tasks.Keys
        invariant CancelledSoFar(cfg, before, rows, i, Snapshot(), cancelled, conflicts)
      {
        ghost var here := Snapshot();
        var reply := CancelOne(rows[i]);
        CancelRound(cfg, before, rows, i, here, cancelled, conflicts, Snapshot());
        if reply == Done {
          cancelled := cancelled + 1;
        } else {
          conflicts := conflicts + [rows[i]];
        }
        i := i + 1;
      }
    }

    method CancelBatch(b: nat) returns (r: BatchCancellation, ghost ids: seq<TaskId>)
      modifies `tasks, `hooks, `outbox, `nextOutbox
      ensures r.NoSuchBatch? <==> b >= nextBatch
      ensures var s := old(Snapshot());
              if r.NoSuchBatch? then Snapshot() == s
              else
                && Selection.Distinct(ids) && (forall x :: x in ids <==> x in BatchTasks(s, b))
                && Snapshot() == Exec(cfg, s, Each(ids, CancelOp))
                && r.cancelled == CancelCount(cfg, s, ids) && r.conflicts == Refused(cfg, s, ids)
    {
      if b >= nextBatch {
        return NoSuchBatch, [];
      }
      var rows := ListBatch(b);
      ids := rows;
      var cancelled, conflicts := CancelEach(rows);
      assert rows[..|rows|] == rows;
      r := BatchCancelled(cancelled, conflicts);
    }

    /** The grouped count. */
    method CountByStatus(b: nat) returns (counts: map<Status, nat>)
      ensures Grouped(Snapshot(), b, counts)
    {
      counts := map[];
      var ids := ListBatch(b);
      var i := 0;
      while i < |ids|
        invariant i <= |ids| && Batches.Counted(Snapshot(), ids[..i], counts)
      {
        assert ids[i] in BatchTasks(Snapshot(), b);
        var st := tasks[ids[i]].status;
        OneMoreCounted(Snapshot(), ids, i, counts);
        counts := counts[st := CountOf(counts, st) + 1];
        i := i + 1;
      }
      assert ids[..i] == ids;
      forall st ensures StatusAmong(Snapshot(), ids, st) == InStatus(Snapshot(), b, st) {
        forall id ensures id in StatusAmong(Snapshot(), ids, st) <==> id in InStatus(Snapshot(), b, st) {
          assert id in ids <==> id in BatchTasks(Snapshot(), b);
        }
      }
    }

    method GetProgress(b: nat) returns (p: Progress)
      ensures ReportsProgress(Snapshot(), b, p)
    {
      var counts := CountByStatus(b);
      var pending := CountOf(counts, Created) + CountOf(counts, RetryScheduled) + CountOf(counts, Scheduled)
                     + CountOf(counts, DeadLetter);
      var succeeded := CountOf(counts, Success);
      var failed := CountOf(counts, Failed) + CountOf(counts, Timeout);
      var cancelled := CountOf(counts, Cancelled);
      var order := Statuses();
      var total, i := 0, 0;
      while i < |order|
        invariant 0 <= i <= |order| && total == SumUpTo(Snapshot(), b, i)
      {
        total := total + CountOf(counts, order[i]);
        i := i + 1;
      }
      ProgressPartitions(Snapshot(), b, counts, total, pending);
      p := Progress(total, CountOf(counts, Queued), CountOf(counts, Running), succeeded, failed, cancelled,
                    pending, succeeded + failed + cancelled);
    }
  }
}
