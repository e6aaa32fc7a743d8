/** Reachable states in which the code behaves as one might not expect. */
module Examples {
  import opened Rows
  import opened Store
  import opened Cascade
  import opened Dependencies
  import opened Protocol
  import opened Steps
  import opened Sweeps
  import opened Retention
  import opened Gate
  import opened Liveness
  import opened Batches
  import opened Registration
  import opened Delivery
  import Workers
  import Schedules
  import Reconcile

  // ---------- building blocks ----------

  /** What a building block leaves alone. */
  ghost predicate Keeps(s: State, r: State) {
    && r.now == s.now && s.nextTask <= r.nextTask
    && (forall x :: x in s.tasks ==> x in r.tasks && r.tasks[x] == s.tasks[x])
    && (forall f :: f in s.flights ==> f in r.flights && r.flights[f] == s.flights[f])
    && (forall e :: e in s.edges ==> e in r.edges)
    && (forall e :: e in r.edges && e !in s.edges ==> e.child !in s.tasks)
  }

  lemma StartsEmpty(cfg: Config)
    ensures Reachable(cfg, Init([], 0.0))
  {
    RunsIsExec(cfg, Init([], 0.0), [], Init([], 0.0));
  }

  /** A task without dependencies, queued at once. */
  lemma CreateQueued(cfg: Config, s: State, maxAttempts: nat, batch: Option<nat>) returns (r: State)
    requires Reachable(cfg, s)
    ensures Reachable(cfg, r) && Keeps(s, r) && r.edges == s.edges && r.nextTask == s.nextTask + 1
    ensures s.nextTask !in s.tasks && s.nextTask in r.tasks && r.tasks.Keys == s.tasks.Keys + {s.nextTask}
    ensures r.tasks[s.nextTask] == Moved(FreshRow(maxAttempts, None, batch, s.now), Queued, TaskQueued, s.now)
    ensures r.outbox == s.outbox[s.nextOutbox := OutboxRow(s.nextTask, Pending, 0, None)] && r.broker == s.broker
  {
    var op := Create(maxAttempts, None, batch, []);
    ReachableStep(cfg, s, op);
    r := Apply(cfg, s, op);
    InsertsQueued(cfg, s, op, r);
  }

  lemma InsertsQueued(cfg: Config, s: State, op: Op, r: State)
    requires Reachable(cfg, s) && op.Create? && op.scheduleAt.None? && op.dependsOn == []
    requires r == DoCreate(s, op.maxAttempts, op.scheduleAt, op.batch, op.dependsOn)
    ensures Keeps(s, r) && r.edges == s.edges && r.nextTask == s.nextTask + 1
    ensures s.nextTask !in s.tasks && s.nextTask in r.tasks && r.tasks.Keys == s.tasks.Keys + {s.nextTask}
    ensures r.tasks[s.nextTask] == Moved(FreshRow(op.maxAttempts, None, op.batch, s.now), Queued, TaskQueued, s.now)
    ensures r.outbox == s.outbox[s.nextOutbox := OutboxRow(s.nextTask, Pending, 0, None)] && r.broker == s.broker
  {
    ReachableInv(cfg, s);
    CreateStep(s, op);
    InsertedIsQueued(s, op, r);
  }

  lemma InsertedIsQueued(s: State, op: Op, r: State)
    requires op.Create? && op.scheduleAt.None? && op.dependsOn == [] && Inserted(s, op, r)
    requires TasksInv(s) && EdgesInv(s)
    ensures Keeps(s, r) && r.edges == s.edges && r.nextTask == s.nextTask + 1
    ensures s.nextTask !in s.tasks && s.nextTask in r.tasks && r.tasks.Keys == s.tasks.Keys + {s.nextTask}
    ensures r.tasks[s.nextTask] == Moved(FreshRow(op.maxAttempts, None, op.batch, s.now), Queued, TaskQueued, s.now)
    ensures r.outbox == s.outbox[s.nextOutbox := OutboxRow(s.nextTask, Pending, 0, None)] && r.broker == s.broker
  {
    assert EdgesTo(s.nextTask, WithoutRepeats([])) == [];
  }

  /** A dependent of existing tasks, blocked. */
  lemma CreateBlocked(cfg: Config, s: State, scheduleAt: Option<Time>, batch: Option<nat>, parents: seq<TaskId>) returns (r: State)
    requires Reachable(cfg, s) && parents != [] && forall p :: p in parents ==> p in s.tasks
    ensures Reachable(cfg, r) && Keeps(s, r) && r.nextTask == s.nextTask + 1
    ensures Runs(cfg, s, [Create(1, scheduleAt, batch, parents)], r) && r != s
    ensures s.nextTask !in s.tasks && s.nextTask in r.tasks
    ensures r.tasks[s.nextTask] == Blocked(FreshRow(1, scheduleAt, batch, s.now))
    ensures forall p :: Edge(p, s.nextTask) in r.edges <==> p in parents
  {
    var op := Create(1, scheduleAt, batch, parents);
    ReachableInv(cfg, s);
    ReachableStep(cfg, s, op);
    Accepted(s, scheduleAt, batch, parents);
    r := Apply(cfg, s, op);
    OneStep(cfg, s, op, r);
    CreateStep(s, op);
    RegisteredParents(s, op);
    assert CreatedRow(s, op) == Blocked(FreshRow(1, scheduleAt, batch, s.now));
  }

  lemma Accepted(s: State, scheduleAt: Option<Time>, batch: Option<nat>, parents: seq<TaskId>)
    requires DbInv(s) && parents != [] && forall p :: p in parents ==> p in s.tasks
    ensures DoCreate(s, 1, scheduleAt, batch, parents).nextTask == s.nextTask + 1
  {
    var added := Added(s, 1, scheduleAt, batch);
    NewTaskClosesNoCycle(s, WithoutRepeats(parents));
    assert Registrable(added, s.nextTask, parents);
  }

  lemma Publish(cfg: Config, s: State, row: nat) returns (r: State)
    requires Reachable(cfg, s) && row in s.outbox && s.outbox[row].status == Pending
    ensures Reachable(cfg, r) && Keeps(s, r) && r.edges == s.edges && r.nextTask == s.nextTask && r.tasks == s.tasks
    ensures r.broker[s.outbox[row].task] > 0
  {
    ReachableStep(cfg, s, Relay(row, Published));
    r := Apply(cfg, s, Relay(row, Published));
  }

  /** A worker takes the message of a queued task. */
  lemma TakeUp(cfg: Config, s: State, id: TaskId, worker: WorkerId) returns (r: State, f: Flight)
    requires Reachable(cfg, s) && id in s.tasks && s.tasks[id].status == Queued && s.broker[id] > 0
    requires Flight(id, s.tasks[id].attempts + 1) !in s.flights
    ensures Reachable(cfg, r) && r.now == s.now && r.edges == s.edges && r.nextTask == s.nextTask
    ensures r.tasks == s.tasks[id := Started(cfg, s.tasks[id], worker, s.now)]
    ensures var t := s.tasks[id];
            f == Flight(id, t.attempts + 1)
            && r.flights == s.flights[f := TaskSnapshot(worker, t.attempts + 1, t.dlqRequeueCount, t.dlqRetryAt)]
  {
    ReachableInv(cfg, s);
    assert Stamped(s.tasks[id]);
    ReachableStep(cfg, s, Receive(id, worker));
    r := Apply(cfg, s, Receive(id, worker));
    f := Flight(id, s.tasks[id].attempts + 1);
  }

  /** A new task, taken by a worker. */
  lemma CreateRunning(cfg: Config, s: State, maxAttempts: nat, worker: WorkerId) returns (r: State, f: Flight)
    requires Reachable(cfg, s)
    ensures Reachable(cfg, r) && Keeps(s, r) && r.edges == s.edges && r.nextTask == s.nextTask + 1
    ensures f == Flight(s.nextTask, 1) && f in r.flights && r.flights[f] == TaskSnapshot(worker, 1, 0, None)
    ensures s.nextTask !in s.tasks && s.nextTask in r.tasks
    ensures var t := r.tasks[s.nextTask];
            t.status == Running && t.maxAttempts == maxAttempts && t.attempts == 1 && t.leaseExpiresAt.Some? && t.dlqRequeueCount == 0
  {
    var queued := CreateQueued(cfg, s, maxAttempts, None);
    var sent := Publish(cfg, queued, s.nextOutbox);
    KeepsOn(s, queued, sent);
    NoFlightYet(cfg, s, sent);
    r, f := TakeUp(cfg, sent, s.nextTask, worker);
    TakingKeeps(s, sent, r, f);
  }

  lemma KeepsOn(s: State, here: State, r: State)
    requires Keeps(s, here) && Keeps(here, r)
    ensures Keeps(s, r)
  {
  }

  lemma TakingKeeps(s: State, here: State, r: State, f: Flight)
    requires Keeps(s, here) && r.now == here.now && r.nextTask == here.nextTask && r.edges == here.edges
    requires f !in here.flights && f in r.flights && r.flights == here.flights[f := r.flights[f]]
    requires f.task !in s.tasks && f.task in r.tasks && r.tasks == here.tasks[f.task := r.tasks[f.task]]
    ensures Keeps(s, r)
  {
  }

  lemma FlightsAreCounted(s: State, f: Flight)
    requires FlightsInv(s) && f in s.flights && f.task in s.tasks
    ensures s.tasks[f.task].attempts > 0
  {
    assert FlightInv(s, f);
  }

  lemma NoFlightYet(cfg: Config, s: State, r: State)
    requires Reachable(cfg, r) && s.nextTask in r.tasks && r.tasks[s.nextTask].attempts == 0
    ensures Flight(s.nextTask, 1) !in r.flights
  {
    ReachableInv(cfg, r);
    if Flight(s.nextTask, 1) in r.flights {
      FlightsAreCounted(r, Flight(s.nextTask, 1));
    }
  }

  /** A worker reports. */
  lemma Report(cfg: Config, s: State, f: Flight, outcome: Outcome) returns (r: State)
    requires Reachable(cfg, s) && f in s.flights && f.task in s.tasks && s.tasks[f.task].status == Running
    ensures r == Apply(cfg, s, Finish(f, outcome)) && Reachable(cfg, r)
    ensures SameGraph(s, r) && r.now == s.now && r.flights == s.flights - {f}
    ensures RowsFollow(cfg, s, Finish(f, outcome), r)
    ensures r.tasks[f.task].status == Workers.OutcomeStatus(s.tasks[f.task], f.number, outcome)
  {
    ReachableStep(cfg, s, Finish(f, outcome));
    r := Apply(cfg, s, Finish(f, outcome));
    ReportEffect(cfg, s, f, outcome);
  }

  lemma ReportEffect(cfg: Config, s: State, f: Flight, outcome: Outcome)
    requires Reachable(cfg, s) && f in s.flights && f.task in s.tasks && s.tasks[f.task].status == Running
    ensures var r := DoFinish(cfg, s, f, outcome);
            && SameGraph(s, r) && r.now == s.now && r.flights == s.flights - {f} && RowsFollow(cfg, s, Finish(f, outcome), r)
            && r.tasks[f.task].status == Workers.OutcomeStatus(s.tasks[f.task], f.number, outcome)
  {
    ReachableInv(cfg, s);
    FinishStep(cfg, s, f, outcome);
    Workers.ReportTakesEffect(cfg, s, f, outcome);
  }

  lemma Wait(cfg: Config, s: State, d: Time) returns (r: State)
    requires Reachable(cfg, s) && d >= 0.0
    ensures Reachable(cfg, r) && r == s.(now := s.now + d)
  {
    ReachableStep(cfg, s, Tick(d));
    r := Apply(cfg, s, Tick(d));
  }

  // ---------- dependents that are never freed ----------

  /** A dependent of a task that has succeeded, and a dependent of that dependent: both unfinished, and
      neither can ever succeed by the platform's own steps. */
  lemma NeverFreed(cfg: Config) returns (s: State, done: TaskId, child: TaskId, grandchild: TaskId)
    ensures Reachable(cfg, s) && done in s.tasks && child in s.tasks && grandchild in s.tasks
    ensures s.tasks[done].status == Success && s.tasks[child].status == Created && s.tasks[grandchild].status == Created
    ensures forall p :: Edge(p, child) in s.edges <==> p == done
    ensures forall p :: Edge(p, grandchild) in s.edges <==> p == child
    ensures !CanFinish(cfg, s, child) && !CanFinish(cfg, s, grandchild)
  {
    StartsEmpty(cfg);
    var running, f := CreateRunning(cfg, Init([], 0.0), 1, 0);
    done := f.task;
    var finished := Report(cfg, running, f, Completed);
    s, child, grandchild := TwoBehind(cfg, finished, done);
    NothingPromised(cfg, s, done, child, grandchild);
  }

  /** A dependent of a task, and a dependent of that dependent. */
  lemma TwoBehind(cfg: Config, before: State, first: TaskId) returns (s: State, child: TaskId, grandchild: TaskId)
    requires Reachable(cfg, before) && first in before.tasks
    ensures Reachable(cfg, s) && first in s.tasks && s.tasks[first] == before.tasks[first]
    ensures child in s.tasks && grandchild in s.tasks && child < grandchild
    ensures s.tasks[child].status == Created && s.tasks[grandchild].status == Created
    ensures forall p :: Edge(p, child) in s.edges <==> p == first
    ensures forall p :: Edge(p, grandchild) in s.edges <==> p == child
  {
    child := before.nextTask;
    var blocked := CreateBlocked(cfg, before, None, None, [first]);
    grandchild := blocked.nextTask;
    s := CreateBlocked(cfg, blocked, None, None, [child]);
    EdgesKept(blocked, s, child);
  }

  lemma EdgesKept(s: State, r: State, child: TaskId)
    requires Keeps(s, r) && child in s.tasks
    ensures forall p :: Edge(p, child) in r.edges <==> Edge(p, child) in s.edges
  {
  }

  lemma NothingPromised(cfg: Config, s: State, done: TaskId, child: TaskId, grandchild: TaskId)
    requires Reachable(cfg, s) && done in s.tasks && child in s.tasks && grandchild in s.tasks
    requires s.tasks[done].status == Success && s.tasks[child].status == Created && s.tasks[grandchild].status == Created
    requires forall p :: Edge(p, child) in s.edges <==> p == done
    requires Edge(child, grandchild) in s.edges && child < grandchild
    ensures !CanFinish(cfg, s, child) && !CanFinish(cfg, s, grandchild)
  {
    UnfinishedMeans(s, child);
    CanFinishExactlyWhenPromising(cfg, s, child);
    CanFinishExactlyWhenPromising(cfg, s, grandchild);
  }

  /** A running task, and a dependent of it and of a task that failed for good: nothing will free it. */
  lemma BehindFailure(cfg: Config) returns (s: State, failed: TaskId, f: Flight, child: TaskId)
    ensures Reachable(cfg, s) && failed in s.tasks && f in s.flights && f.task in s.tasks && child in s.tasks
    ensures s.tasks[failed].status == Failed && s.tasks[failed].finishedAt == Some(s.now)
    ensures s.tasks[f.task].status == Running && s.tasks[child].status == Created
    ensures f.task != failed && f.task != child && failed != child && !WasUnblocked(s.tasks[child])
    ensures forall p :: Edge(p, child) in s.edges <==> p == failed || p == f.task
    ensures !CanFinish(cfg, s, child)
  {
    var gaveUp: State;
    gaveUp, failed := OneFailed(cfg);
    var second: State;
    second, f := CreateRunning(cfg, gaveUp, 1, 0);
    child := second.nextTask;
    s := CreateBlocked(cfg, second, None, None, [failed, f.task]);
    BehindFailedParent(cfg, s, failed, child);
  }

  lemma OneFailed(cfg: Config) returns (s: State, failed: TaskId)
    ensures Reachable(cfg, s) && failed in s.tasks && failed < s.nextTask
    ensures s.tasks[failed].status == Failed && s.tasks[failed].finishedAt == Some(s.now)
  {
    StartsEmpty(cfg);
    var running, f := CreateRunning(cfg, Init([], 0.0), 1, 0);
    failed := f.task;
    s := Report(cfg, running, f, PermanentError);
    FailedNow(cfg, running, s, f);
  }

  lemma BehindFailedParent(cfg: Config, s: State, failed: TaskId, child: TaskId)
    requires Reachable(cfg, s) && failed in s.tasks && s.tasks[failed].status == Failed
    requires child in s.tasks && s.tasks[child].status == Created && Edge(failed, child) in s.edges
    ensures !CanFinish(cfg, s, child)
  {
    ReachableInv(cfg, s);
    ParentIsOlder(s, failed, child);
    CanFinishExactlyWhenPromising(cfg, s, child);
  }

  lemma FailedNow(cfg: Config, s: State, r: State, f: Flight)
    requires Reachable(cfg, s) && f in s.flights && f.task in s.tasks && s.tasks[f.task].status == Running
    requires f.task in r.tasks && RowFollows(cfg, s, Finish(f, PermanentError), r, f.task)
    ensures r.tasks[f.task].status == Failed && r.tasks[f.task].finishedAt == Some(s.now)
  {
    ReachableInv(cfg, s);
    assert Stamped(s.tasks[f.task]);
  }

  // ---------- a purge that opens the gate ----------

  ghost predicate NotesRun(cfg: Config, h: Chronicle, ops: seq<Op>, trace: seq<Chronicle>) {
    NoteTrace(cfg, trace, ops) && trace[0] == h && trace[|ops|].s == Exec(cfg, h.s, ops)
  }

  lemma {:induction false} NoteRun(cfg: Config, h: Chronicle, ops: seq<Op>) returns (trace: seq<Chronicle>)
    ensures NotesRun(cfg, h, ops, trace)
    decreases |ops|
  {
    if ops == [] {
      trace := [h];
    } else {
      var rest := NoteRun(cfg, NoteStep(cfg, h, ops[0]), ops[1..]);
      NoteFront(cfg, h, rest, ops);
      NoteExec(cfg, h, rest, ops);
      trace := [h] + rest;
    }
  }

  lemma NoteExec(cfg: Config, h: Chronicle, rest: seq<Chronicle>, ops: seq<Op>)
    requires ops != [] && NotesRun(cfg, NoteStep(cfg, h, ops[0]), ops[1..], rest)
    ensures ([h] + rest)[|ops|].s == Exec(cfg, h.s, ops)
  {
  }

  lemma NoteFront(cfg: Config, h: Chronicle, rest: seq<Chronicle>, ops: seq<Op>)
    requires ops != [] && NoteTrace(cfg, rest, ops[1..]) && rest[0] == NoteStep(cfg, h, ops[0])
    ensures NoteTrace(cfg, [h] + rest, ops)
  {
    forall i | 0 < i < |[h] + rest| ensures NoteAt(cfg, [h] + rest, ops, i) {
      if i > 1 {
        assert NoteAt(cfg, rest, ops[1..], i - 1);
      }
    }
  }

  /** Every reachable state has a chronicle. */
  lemma HasChronicle(cfg: Config, s: State) returns (h: Chronicle)
    requires Reachable(cfg, s)
    ensures Chronicled(cfg, h) && h.s == s
  {
    var subs, now, ops :| Runs(cfg, Init(subs, now), ops, s);
    RunsIsExec(cfg, Init(subs, now), ops, s);
    var trace := NoteRun(cfg, Begin(subs, now), ops);
    h := trace[|ops|];
    assert Noted(cfg, h, subs, now, ops);
  }

  lemma ChronicleGoesOn(cfg: Config, h: Chronicle, op: Op)
    requires Chronicled(cfg, h)
    ensures Chronicled(cfg, NoteStep(cfg, h, op))
  {
    var subs, now, ops :| Noted(cfg, h, subs, now, ops);
    var trace :| NoteTrace(cfg, trace, ops) && trace[0] == Begin(subs, now) && trace[|ops|] == h;
    var more := trace + [NoteStep(cfg, h, op)];
    forall i | 0 < i < |more| ensures NoteAt(cfg, more, ops + [op], i) {
      if i < |trace| {
        assert NoteAt(cfg, trace, ops, i);
      }
    }
    assert NoteTrace(cfg, more, ops + [op]);
    assert Noted(cfg, NoteStep(cfg, h, op), subs, now, ops + [op]);
  }

  /** Retention deletes the failed parent of a waiting task, the other parent succeeds, and the task is
      queued although one of the parents it was registered with failed. */
  lemma PurgeOpensGate(cfg: Config) returns (h: Chronicle, failed: TaskId, child: TaskId)
    requires cfg.retainDone > 0.0
    ensures Chronicled(cfg, h) && child in h.s.tasks && child in h.registered
    ensures h.s.tasks[child].status == Queued && WasUnblocked(h.s.tasks[child])
    ensures failed in h.registered[child] && failed !in h.succeeded && child in h.robbed
  {
    var s: State, f: Flight;
    s, failed, f, child := BehindFailure(cfg);
    var later := Wait(cfg, s, cfg.retainDone);
    var before := HasChronicle(cfg, later);
    ChronicleGoesOn(cfg, before, PurgeTask(failed));
    PurgeRobs(cfg, before, failed, child);
    h := FreeRobbed(cfg, NoteStep(cfg, before, PurgeTask(failed)), failed, f, child);
  }

  lemma FreeRobbed(cfg: Config, k: Chronicle, failed: TaskId, f: Flight, child: TaskId) returns (h: Chronicle)
    requires Chronicled(cfg, k) && child in k.s.tasks && k.s.tasks[child].status == Created && child in k.robbed
    requires child in k.registered && failed in k.registered[child] && failed !in k.succeeded && failed !in k.s.tasks
    requires f in k.s.flights && f.task in k.s.tasks && k.s.tasks[f.task].status == Running && child != f.task
    requires forall p :: Edge(p, child) in k.s.edges <==> p == f.task
    ensures Chronicled(cfg, h) && child in h.s.tasks && child in h.registered
    ensures h.s.tasks[child].status == Queued && WasUnblocked(h.s.tasks[child])
    ensures failed in h.registered[child] && failed !in h.succeeded && child in h.robbed
  {
    ChronicleSound(cfg, k);
    h := NoteStep(cfg, k, Finish(f, Completed));
    ChronicleGoesOn(cfg, k, Finish(f, Completed));
    LastParentFrees(cfg, k.s, f, child);
    MovedIsUnblocked(k.s.tasks[child], k.s.now);
    StepIsFollowed(cfg, k.s, Finish(f, Completed));
    StepFollowed(cfg, k, Finish(f, Completed), Apply(cfg, k.s, Finish(f, Completed)), child);
  }

  lemma PurgeRobs(cfg: Config, h: Chronicle, failed: TaskId, child: TaskId)
    requires Chronicled(cfg, h) && cfg.retainDone > 0.0 && failed in h.s.tasks && child in h.s.tasks && failed != child
    requires var t := h.s.tasks[failed]; t.status == Failed && t.finishedAt.Some? && t.finishedAt.value <= h.s.now - cfg.retainDone
    requires h.s.tasks[child].status == Created && Edge(failed, child) in h.s.edges
    ensures var k := NoteStep(cfg, h, PurgeTask(failed));
            && k.s == Deleted(h.s, failed) && child in k.robbed
            && child in k.registered && failed in k.registered[child] && failed !in k.succeeded
  {
    ChronicleSound(cfg, h);
    assert EdgeNoted(h, Edge(failed, child));
    PurgeDeletes(cfg, h.s, failed);
    assert failed !in h.succeeded;
    assert Robs(h.s, PurgeTask(failed), Apply(cfg, h.s, PurgeTask(failed)), child);
  }

  lemma PurgeDeletes(cfg: Config, s: State, id: TaskId)
    requires id in s.tasks && DonePurgeable(cfg, s.tasks[id], s.now)
    ensures Apply(cfg, s, PurgeTask(id)) == Deleted(s, id)
  {
  }

  lemma ChildIsUnblocked(cfg: Config, s: State, f: Flight, child: TaskId)
    requires f in s.flights && f.task in s.tasks && s.tasks[f.task].status == Running
    requires child in s.tasks && s.tasks[child].status == Created && child != f.task
    requires forall p :: p in s.tasks && p != f.task && Edge(p, child) in s.edges ==> s.tasks[p].status == Success
    requires Edge(f.task, child) in s.edges
    ensures ChangeOf(cfg, s, Finish(f, Completed), child) == Unblock
  {
    assert child in FreedBy(s, f.task);
  }

  /** The report of the last parent that has not succeeded frees the child. */
  lemma LastParentFrees(cfg: Config, s: State, f: Flight, child: TaskId)
    requires DbInv(s) && f in s.flights && f.task in s.tasks && s.tasks[f.task].status == Running
    requires child in s.tasks && s.tasks[child].status == Created && child != f.task
    requires forall p :: p in s.tasks && p != f.task && Edge(p, child) in s.edges ==> s.tasks[p].status == Success
    requires Edge(f.task, child) in s.edges
    ensures var r := Apply(cfg, s, Finish(f, Completed));
            child in r.tasks && r.tasks[child] == Moved(s.tasks[child], Queued, TaskUnblocked, s.now)
  {
    StepFollows(cfg, s, Finish(f, Completed));
    ChildIsUnblocked(cfg, s, f, child);
    UnblockedRow(cfg, s, Finish(f, Completed), Apply(cfg, s, Finish(f, Completed)), child);
  }

  lemma UnblockedRow(cfg: Config, s: State, op: Op, r: State, child: TaskId)
    requires child in s.tasks && RowsFollow(cfg, s, op, r) && r.tasks.Keys == s.tasks.Keys
    requires ChangeOf(cfg, s, op, child) == Unblock
    ensures child in r.tasks && r.tasks[child] == Moved(s.tasks[child], Queued, TaskUnblocked, s.now)
  {
    assert RowFollows(cfg, s, op, r, child);
  }

  lemma MovedIsUnblocked(t: Task, now: Time)
    ensures WasUnblocked(Moved(t, Queued, TaskUnblocked, now))
  {
    var u := Moved(t, Queued, TaskUnblocked, now);
    assert u.log[|t.log|].kind == TaskUnblocked;
  }

  // ---------- a worker that lost its lease ----------

  /** The lease of a running task lapses, and the sweep queues it again. */
  lemma Recover(cfg: Config, s: State, id: TaskId) returns (r: State)
    requires Reachable(cfg, s) && id in s.tasks && s.tasks[id].status == Running && IsStuck(s, id)
    ensures Reachable(cfg, r) && r.flights == s.flights && r.now == s.now
    ensures id in r.tasks && r.tasks[id].status == Queued && r.tasks[id].attempts == s.tasks[id].attempts
    ensures r.tasks[id].maxAttempts == s.tasks[id].maxAttempts && r.tasks[id].dlqRequeueCount == s.tasks[id].dlqRequeueCount
    ensures s.nextOutbox in r.outbox && r.outbox[s.nextOutbox] == OutboxRow(id, Pending, 0, None)
  {
    ReachableStep(cfg, s, RecoverTask(id));
    r := Apply(cfg, s, RecoverTask(id));
  }

  lemma LapsedLease(s: State, id: TaskId)
    requires id in s.tasks && s.tasks[id].status == Running && s.tasks[id].leaseExpiresAt.Some?
    ensures IsStuck(s.(now := s.now + Longer(s.tasks[id].leaseExpiresAt.value + 1.0, s.now)), id)
  {
  }

  lemma NoNextFlight(cfg: Config, r: State, id: TaskId)
    requires Reachable(cfg, r) && id in r.tasks
    ensures Flight(id, r.tasks[id].attempts + 1) !in r.flights
  {
    ReachableInv(cfg, r);
    if Flight(id, r.tasks[id].attempts + 1) in r.flights {
      FlightNumber(r, Flight(id, r.tasks[id].attempts + 1));
    }
  }

  lemma FlightNumber(s: State, f: Flight)
    requires FlightsInv(s) && f in s.flights && f.task in s.tasks
    ensures f.number <= s.tasks[f.task].attempts
  {
    assert FlightInv(s, f);
  }

  /** Two workers run one task; the second holds the lease, and the report of the first completes it. */
  lemma StaleWorkerCompletes(cfg: Config) returns (s: State, stale: Flight, young: Flight, r: State)
    ensures Reachable(cfg, s) && stale in s.flights && young in s.flights && stale.task == young.task && young.task in s.tasks
    ensures stale.number < young.number == s.tasks[young.task].attempts
    ensures s.tasks[young.task].status == Running && s.tasks[young.task].leaseOwner == Some(s.flights[young].worker)
    ensures s.flights[stale].worker != s.flights[young].worker
    ensures Runs(cfg, s, [Finish(stale, Completed)], r) && young in r.flights
    ensures young.task in r.tasks && r.tasks[young.task].status == Success
  {
    s, stale, young := TwoWorkers(cfg);
    r := Report(cfg, s, stale, Completed);
    OneStep(cfg, s, Finish(stale, Completed), r);
  }

  /** A task in its only attempt is recovered and taken by a second worker. */
  lemma TwoWorkers(cfg: Config) returns (s: State, stale: Flight, young: Flight)
    ensures Reachable(cfg, s) && stale in s.flights && young in s.flights && stale.task == young.task && young.task in s.tasks
    ensures stale.number == 1 && young.number == s.tasks[young.task].attempts == 2
    ensures s.flights[stale].worker != s.flights[young].worker
    ensures s.flights[stale].dlqRequeueCount == s.flights[young].dlqRequeueCount == 0
    ensures var t := s.tasks[young.task];
            t.status == Running && t.maxAttempts == 1 && t.dlqRequeueCount == 0 && t.leaseOwner == Some(s.flights[young].worker)
  {
    StartsEmpty(cfg);
    var first: State;
    first, stale := CreateRunning(cfg, Init([], 0.0), 1, 0);
    var id := stale.task;
    LapsedLease(first, id);
    var lapsed := Wait(cfg, first, Longer(first.tasks[id].leaseExpiresAt.value + 1.0, first.now));
    var queued := Recover(cfg, lapsed, id);
    var sent := Publish(cfg, queued, lapsed.nextOutbox);
    NoNextFlight(cfg, sent, id);
    s, young := TakeUp(cfg, sent, id, 1);
  }

  // ---------- a return that never comes ----------

  /** A worker that lost its lease gives a task up after its last dead-letter cycle: it knew of a cycle
      left and plans the return, but the row has none left, so no sweep ever takes the task back. */
  lemma PlannedInVain(cfg: Config) returns (s: State, f: Flight, r: State)
    requires cfg.dlqEnabled && cfg.dlqMaxCycles == 1 && cfg.dlqInterval >= 0.0
    ensures Reachable(cfg, s) && Runs(cfg, s, [Finish(f, RetryableError)], r)
    ensures f in s.flights && s.flights[f].dlqRequeueCount < cfg.dlqMaxCycles
    ensures f.task in r.tasks && r.tasks[f.task].status == DeadLetter && r.tasks[f.task].dlqRetryAt == Some(s.now + cfg.dlqInterval)
    ensures r.tasks[f.task].dlqRequeueCount >= cfg.dlqMaxCycles
  {
    s, f := LastCycle(cfg);
    r := GiveUp(cfg, s, f);
    OneStep(cfg, s, Finish(f, RetryableError), r);
  }

  /** The task is given up, comes back for its only cycle, and runs again; its first worker lives on. */
  lemma LastCycle(cfg: Config) returns (s: State, stale: Flight)
    requires cfg.dlqEnabled && cfg.dlqMaxCycles == 1 && cfg.dlqInterval >= 0.0
    ensures Reachable(cfg, s) && stale in s.flights && stale.number == 1 && s.flights[stale].dlqRequeueCount == 0
    ensures stale.task in s.tasks
    ensures var t := s.tasks[stale.task]; t.status == Running && t.maxAttempts == 1 && t.dlqRequeueCount == 1
  {
    var first: State, young: Flight;
    first, stale, young := TwoWorkers(cfg);
    var dead := GiveUp(cfg, first, young);
    s := RunAgain(cfg, dead, stale);
  }

  /** A dead letter waits for its interval, comes back and is taken by a third worker. */
  lemma RunAgain(cfg: Config, dead: State, f: Flight) returns (s: State)
    requires cfg.dlqEnabled && cfg.dlqMaxCycles == 1 && cfg.dlqInterval >= 0.0
    requires Reachable(cfg, dead) && f in dead.flights && f.task in dead.tasks
    requires var t := dead.tasks[f.task];
             t.status == DeadLetter && t.maxAttempts == 1 && t.dlqRequeueCount == 0
             && t.dlqRetryAt == Some(dead.now + cfg.dlqInterval)
    ensures Reachable(cfg, s) && f in s.flights && s.flights[f] == dead.flights[f] && f.task in s.tasks
    ensures var t := s.tasks[f.task]; t.status == Running && t.maxAttempts == 1 && t.dlqRequeueCount == 1
  {
    var due := Wait(cfg, dead, cfg.dlqInterval);
    var back := Return(cfg, due, f.task);
    var sent := Publish(cfg, back, due.nextOutbox);
    NoNextFlight(cfg, sent, f.task);
    var third: Flight;
    s, third := TakeUp(cfg, sent, f.task, 2);
  }

  /** A dead letter that is due comes back. */
  lemma Return(cfg: Config, s: State, id: TaskId) returns (r: State)
    requires Reachable(cfg, s) && IsDeadDue(cfg, s, id)
    ensures Reachable(cfg, r) && r.flights == s.flights && r.now == s.now && r.tasks.Keys == s.tasks.Keys
    ensures var t := s.tasks[id]; var u := r.tasks[id];
            u.status == Queued && u.attempts == t.attempts && u.maxAttempts == t.maxAttempts
            && u.dlqRequeueCount == t.dlqRequeueCount + 1
    ensures s.nextOutbox in r.outbox && r.outbox[s.nextOutbox] == OutboxRow(id, Pending, 0, None)
  {
    ReachableStep(cfg, s, ReleaseDeadTask(id));
    r := Apply(cfg, s, ReleaseDeadTask(id));
  }

  /** The report of a failure of the last attempt. */
  lemma GiveUp(cfg: Config, s: State, f: Flight) returns (r: State)
    requires Reachable(cfg, s) && f in s.flights && f.task in s.tasks && s.tasks[f.task].status == Running
    requires s.tasks[f.task].maxAttempts <= f.number
    ensures r == Apply(cfg, s, Finish(f, RetryableError)) && Reachable(cfg, r) && r.now == s.now && r.flights == s.flights - {f}
    ensures f.task in r.tasks && GivenUp(cfg, s.tasks[f.task], s.flights[f], s.now, r.tasks[f.task])
  {
    r := Report(cfg, s, f, RetryableError);
    GivesUp(cfg, s, f, r);
  }

  predicate GivenUp(cfg: Config, t: Task, snap: TaskSnapshot, now: Time, u: Task) {
    && u.status == DeadLetter && u.attempts == t.attempts && u.maxAttempts == t.maxAttempts
    && u.dlqRequeueCount == t.dlqRequeueCount
    && (cfg.dlqEnabled && snap.dlqRequeueCount < cfg.dlqMaxCycles ==> u.dlqRetryAt == Some(now + cfg.dlqInterval))
  }

  lemma GivesUp(cfg: Config, s: State, f: Flight, r: State)
    requires Reachable(cfg, s) && f in s.flights && f.task in s.tasks && s.tasks[f.task].status == Running
    requires s.tasks[f.task].maxAttempts <= f.number
    requires RowsFollow(cfg, s, Finish(f, RetryableError), r) && f.task in r.tasks
    ensures GivenUp(cfg, s.tasks[f.task], s.flights[f], s.now, r.tasks[f.task])
  {
    FlightKnown(cfg, s, f);
    assert RowFollows(cfg, s, Finish(f, RetryableError), r, f.task);
  }

  lemma FlightKnown(cfg: Config, s: State, f: Flight)
    requires Reachable(cfg, s) && f in s.flights
    ensures s.flights[f].attempts == f.number
  {
    ReachableInv(cfg, s);
    assert FlightInv(s, f);
  }

  // ---------- a batch whose tasks depend on each other ----------

  /** Two tasks of a batch can be cancelled, and the second, waiting for the first, is cancelled and
      reported as a conflict. */
  lemma CancelledYetConflict(cfg: Config, b: nat) returns (s: State, parent: TaskId, child: TaskId)
    ensures Reachable(cfg, s) && parent in BatchTasks(s, b) && child in BatchTasks(s, b)
    ensures CanCancel(s, parent) && CanCancel(s, child)
    ensures !CanCancel(Exec(cfg, s, Each([parent], CancelOp)), child)
    ensures child in Swept(s, [parent, child])
  {
    StartsEmpty(cfg);
    var first := CreateQueued(cfg, Init([], 0.0), 1, Some(b));
    parent := 0;
    child := first.nextTask;
    s := CreateBlocked(cfg, first, None, Some(b), [parent]);
    BlockedOneStep(s, parent, child, child);
    SecondIsReached(cfg, s, parent, child);
  }

  lemma SecondIsReached(cfg: Config, s: State, parent: TaskId, child: TaskId)
    requires CanCancel(s, parent) && CanCancel(s, child) && parent != child && BlockedBehind(s, parent, child)
    ensures !CanCancel(Exec(cfg, s, Each([parent], CancelOp)), child)
    ensures child in Swept(s, [parent, child])
  {
    var ids := [parent, child];
    assert ids[..1] == [parent];
    ConflictOfCancelled(cfg, s, ids, 1);
    assert Reaches(s, ids[0], child);
  }

  // ---------- a dead letter that will be retried ----------

  /** A task with one attempt fails: it is dead-lettered with a retry ahead, and can still succeed, but
      its dependent has been cancelled. */
  lemma DeadLetterCancels(cfg: Config) returns (s: State, dead: TaskId, child: TaskId)
    requires cfg.dlqEnabled && cfg.dlqMaxCycles > 0
    ensures Reachable(cfg, s) && dead in s.tasks && child in s.tasks && Edge(dead, child) in s.edges && dead == 0
    ensures Revivable(cfg, s.tasks[dead]) && s.tasks[dead].finishedAt == Some(s.now) && CanFinish(cfg, s, dead)
    ensures s.tasks[child].status == Cancelled && !CanFinish(cfg, s, child)
  {
    var running, blocked, f, c := BehindRunning(cfg, None);
    dead, child := f.task, c;
    s := Report(cfg, blocked, f, RetryableError);
    DeadLettered(cfg, blocked, f, s);
    ChildIsCancelled(cfg, blocked, f, child, s);
    DeadAndCancelled(cfg, s, dead, child);
  }

  lemma DeadAndCancelled(cfg: Config, s: State, dead: TaskId, child: TaskId)
    requires Reachable(cfg, s) && dead in s.tasks && child in s.tasks
    requires Revivable(cfg, s.tasks[dead]) && s.tasks[child].status == Cancelled
    ensures CanFinish(cfg, s, dead) && !CanFinish(cfg, s, child)
  {
    CanFinishExactlyWhenPromising(cfg, s, dead);
    CanFinishExactlyWhenPromising(cfg, s, child);
  }

  /** A running task with one attempt, and a dependent waiting for it. */
  lemma BehindRunning(cfg: Config, scheduleAt: Option<Time>) returns (running: State, s: State, f: Flight, child: TaskId)
    ensures Reachable(cfg, running) && child == running.nextTask && running.now == 0.0
    ensures Runs(cfg, running, [Create(1, scheduleAt, None, [f.task])], s) && s != running
    ensures Reachable(cfg, s) && f in s.flights && f.task in s.tasks && child in s.tasks && f.task == 0 && child != 0 && s.now == 0.0
    ensures var t := s.tasks[f.task]; t.status == Running && t.maxAttempts == 1 && t.dlqRequeueCount == 0
    ensures s.flights[f].attempts == 1 && s.flights[f].dlqRequeueCount == 0
    ensures s.tasks[child] == Blocked(FreshRow(1, scheduleAt, None, s.now)) && BlockedBehind(s, f.task, child)
    ensures forall p :: Edge(p, child) in s.edges <==> p == f.task
  {
    StartsEmpty(cfg);
    running, f := CreateRunning(cfg, Init([], 0.0), 1, 0);
    child := running.nextTask;
    s := CreateBlocked(cfg, running, scheduleAt, None, [f.task]);
    BlockedOneStep(s, f.task, child, child);
  }

  lemma DeadLettered(cfg: Config, s: State, f: Flight, r: State)
    requires Reachable(cfg, s) && cfg.dlqEnabled && cfg.dlqMaxCycles > 0
    requires f in s.flights && f.task in s.tasks && f.task in r.tasks && s.tasks[f.task].status == Running
    requires s.flights[f].attempts == 1 && s.flights[f].dlqRequeueCount == 0
    requires s.tasks[f.task].maxAttempts == 1 && s.tasks[f.task].dlqRequeueCount == 0
    requires RowFollows(cfg, s, Finish(f, RetryableError), r, f.task)
    ensures Revivable(cfg, r.tasks[f.task]) && r.tasks[f.task].finishedAt == Some(s.now)
  {
    ReachableInv(cfg, s);
    assert Stamped(s.tasks[f.task]);
  }

  lemma ChildIsCancelled(cfg: Config, s: State, f: Flight, child: TaskId, r: State)
    requires f in s.flights && f.task in s.tasks && s.tasks[f.task].status == Running && s.tasks[f.task].maxAttempts == 1
    requires s.flights[f].attempts == 1 && child in s.tasks && child in r.tasks && child != f.task
    requires s.tasks[child].status == Created && BlockedBehind(s, f.task, child)
    requires RowFollows(cfg, s, Finish(f, RetryableError), r, child)
    ensures r.tasks[child].status == Cancelled
  {
    assert child in Dependents(s, f.task);
  }

  /** Once the retention of finished tasks has passed, any purge deletes the dead letter before its retry
      (if that is due later), although the retention of dead letters spares it. */
  lemma PurgedBeforeRetry(cfg: Config) returns (s: State, dead: TaskId)
    requires cfg.dlqEnabled && cfg.dlqMaxCycles > 0 && cfg.retainDone > 0.0
    ensures Reachable(cfg, s) && dead in s.tasks && Revivable(cfg, s.tasks[dead]) && !DeadPurgeable(cfg, s.tasks[dead], s.now)
    ensures forall limit: nat, first, second, rows, r ::
              limit > 0 && PurgedBy(cfg, s, limit, first, second, rows, r) ==> dead !in r.tasks
  {
    var before: State, child: TaskId;
    before, dead, child := DeadLetterCancels(cfg);
    s := Wait(cfg, before, cfg.retainDone);
    forall limit: nat, first, second, rows, r | limit > 0 && PurgedBy(cfg, s, limit, first, second, rows, r)
      ensures dead !in r.tasks
    {
      assert (set y | y in DoneTasks(cfg, s) && y < dead) == {};
      RevivablePurged(cfg, s, limit, first, second, rows, r, dead);
    }
  }

  // ---------- a dependent that was given a time ----------

  /** A dependent created with a future time is queued before that time, without any retry by hand. */
  lemma QueuedBeforeItsTime(cfg: Config) returns (before: State, op: Op, created: State, s: State)
    ensures Reachable(cfg, before) && Runs(cfg, before, [op], created) && created != before
    ensures op.Create? && op.scheduleAt.Some? && before.now < op.scheduleAt.value && s.now < op.scheduleAt.value
    ensures Schedules.ContinuesUnretried(cfg, created, s, before.nextTask)
    ensures before.nextTask in s.tasks
    ensures s.tasks[before.nextTask].status == Queued && Schedules.WasQueued(s.tasks[before.nextTask])
  {
    var f: Flight, child: TaskId;
    before, created, f, child := BehindRunning(cfg, Some(1.0));
    op := Create(1, Some(1.0), None, [f.task]);
    s := Report(cfg, created, f, Completed);
    FreedRow(cfg, created, f, child);
    OneStep(cfg, created, Finish(f, Completed), s);
    assert Schedules.Unretried([Finish(f, Completed)], child);
  }

  lemma FreedRow(cfg: Config, s: State, f: Flight, child: TaskId)
    requires Reachable(cfg, s) && f in s.flights && f.task in s.tasks && s.tasks[f.task].status == Running
    requires child in s.tasks && s.tasks[child].status == Created && child != f.task
    requires forall p :: Edge(p, child) in s.edges <==> p == f.task
    ensures var r := Apply(cfg, s, Finish(f, Completed));
            child in r.tasks && r.tasks[child].status == Queued && Schedules.WasQueued(r.tasks[child])
  {
    ReachableInv(cfg, s);
    LastParentFrees(cfg, s, f, child);
    var t := Moved(s.tasks[child], Queued, TaskUnblocked, s.now);
    assert t.log[|t.log| - 1] == Event(TaskUnblocked, Created, Queued);
  }

  // ---------- a dependent retried by hand ----------

  /** A dependent of a running task is cancelled, retried by hand and started: nothing looks at its parent. */
  lemma RetriedPastItsParent(cfg: Config) returns (s: State, parent: TaskId, child: TaskId)
    ensures Reachable(cfg, s) && parent in s.tasks && child in s.tasks && Edge(parent, child) in s.edges
    ensures s.tasks[parent].status == Running && s.tasks[child].status == Running
  {
    var running, blocked, f, c := BehindRunning(cfg, None);
    parent, child := f.task, c;
    var cancelled := CancelWaiting(cfg, blocked, parent, child);
    var queued := RetryOne(cfg, cancelled, child);
    var sent := Publish(cfg, queued, cancelled.nextOutbox);
    NoFlightOf(cfg, sent, child);
    var young: Flight;
    s, young := TakeUp(cfg, sent, child, 1);
  }

  lemma CancelWaiting(cfg: Config, s: State, parent: TaskId, child: TaskId) returns (r: State)
    requires Reachable(cfg, s) && parent in s.tasks && child in s.tasks && parent != child
    requires s.tasks[parent].status == Running && s.tasks[child].status == Created
    ensures Reachable(cfg, r) && SameGraph(s, r)
    ensures r.tasks[parent] == s.tasks[parent] && r.tasks[child] == Moved(s.tasks[child], Cancelled, TaskCancelled, s.now)
  {
    r := CancelIt(cfg, s, child);
    CancelledRows(cfg, s, r, child, parent);
  }

  lemma CancelIt(cfg: Config, s: State, id: TaskId) returns (r: State)
    requires Reachable(cfg, s)
    ensures Reachable(cfg, r) && RowsFollow(cfg, s, CancelTask(id), r) && SameGraph(s, r)
  {
    ReachableStep(cfg, s, CancelTask(id));
    CancelStep(cfg, s, id);
    r := Apply(cfg, s, CancelTask(id));
  }

  lemma CancelledRows(cfg: Config, s: State, r: State, child: TaskId, parent: TaskId)
    requires parent in s.tasks && child in s.tasks && parent != child && RowsFollow(cfg, s, CancelTask(child), r) && SameGraph(s, r)
    requires s.tasks[parent].status == Running && s.tasks[child].status == Created
    ensures r.tasks[parent] == s.tasks[parent] && r.tasks[child] == Moved(s.tasks[child], Cancelled, TaskCancelled, s.now)
  {
    CancelledRow(cfg, s, r, child);
    RunningNotBehind(cfg, s, r, child, parent);
  }

  lemma CancelledRow(cfg: Config, s: State, r: State, child: TaskId)
    requires child in s.tasks && child in r.tasks && RowsFollow(cfg, s, CancelTask(child), r) && Cancelable(s.tasks[child].status)
    ensures r.tasks[child] == Moved(s.tasks[child], Cancelled, TaskCancelled, s.now)
  {
    assert RowFollows(cfg, s, CancelTask(child), r, child);
  }

  lemma RunningNotBehind(cfg: Config, s: State, r: State, child: TaskId, parent: TaskId)
    requires parent in s.tasks && parent in r.tasks && s.tasks[parent].status == Running && parent != child
    requires RowsFollow(cfg, s, CancelTask(child), r)
    ensures r.tasks[parent] == s.tasks[parent]
  {
    assert RowFollows(cfg, s, CancelTask(child), r, parent);
    if BlockedBehind(s, child, parent) {
      BehindIsCreated(s, child, parent);
    }
  }

  /** A terminal task other than a successful one is queued by hand. */
  lemma RetryOne(cfg: Config, s: State, id: TaskId) returns (r: State)
    requires Reachable(cfg, s) && id in s.tasks && Retryable(s.tasks[id].status)
    ensures Reachable(cfg, r) && r.edges == s.edges
    ensures r.tasks == s.tasks[id := Moved(s.tasks[id], Queued, TaskRetried, s.now)]
    ensures s.nextOutbox in r.outbox && r.outbox[s.nextOutbox] == OutboxRow(id, Pending, 0, None)
  {
    ReachableStep(cfg, s, RetryTask(id));
    r := Apply(cfg, s, RetryTask(id));
  }

  lemma NoFlightOf(cfg: Config, s: State, id: TaskId)
    requires Reachable(cfg, s) && id in s.tasks && s.tasks[id].attempts == 0
    ensures Flight(id, 1) !in s.flights
  {
    ReachableInv(cfg, s);
    if Flight(id, 1) in s.flights {
      FlightsAreCounted(s, Flight(id, 1));
    }
  }

  // ---------- a sweep that repeats itself ----------

  /** Two tasks whose messages were lost, and a sweep with room for one of them: as long as no worker
      takes a message, every sweep selects the older one, and the younger one stays lost. */
  lemma SweptAgainAndAgain(cfg: Config) returns (s: State, older: TaskId, younger: TaskId)
    requires cfg.reconcileSeconds >= 0.0
    ensures Reachable(cfg, s) && older in OrphanTasks(cfg, s) && younger in OrphanTasks(cfg, s)
    ensures forall rounds :: Reconcile.Sweeping(cfg, s, rounds, 1) && Reconcile.AllIdle(rounds, younger) ==>
              Lost(Reconcile.AfterRounds(cfg, s, rounds), younger)
  {
    StartsEmpty(cfg);
    var first: State, second: State;
    first, older := CreateLost(cfg, Init([], 0.0));
    var later := Wait(cfg, first, 1.0);
    second, younger := CreateLost(cfg, later);
    s := Wait(cfg, second, cfg.reconcileSeconds);
    TwoOrphans(cfg, s, older, younger);
    forall rounds | Reconcile.Sweeping(cfg, s, rounds, 1) && Reconcile.AllIdle(rounds, younger)
      ensures Lost(Reconcile.AfterRounds(cfg, s, rounds), younger)
    {
      Reconcile.SweepsRepeat(cfg, s, [older], rounds, younger);
    }
  }

  /** Every outbox row is sent, and no message is on its way. */
  ghost predicate AllSent(s: State) {
    (forall i :: i in s.outbox ==> s.outbox[i].status == Sent) && s.broker == multiset{}
  }

  /** A queued task whose message is published and lost. */
  lemma CreateLost(cfg: Config, s: State) returns (r: State, id: TaskId)
    requires Reachable(cfg, s) && AllSent(s)
    ensures Reachable(cfg, r) && AllSent(r) && r.now == s.now && id !in s.tasks
    ensures r.tasks == s.tasks[id := Moved(FreshRow(1, None, None, s.now), Queued, TaskQueued, s.now)]
  {
    id := s.nextTask;
    var queued := CreateQueued(cfg, s, 1, None);
    OneMoreTask(s, queued);
    r := PublishAndLose(cfg, queued, s.nextOutbox);
  }

  lemma PublishAndLose(cfg: Config, s: State, row: nat) returns (r: State)
    requires Reachable(cfg, s) && row in s.outbox && s.outbox[row].status == Pending && s.broker == multiset{}
    requires forall i :: i in s.outbox && i != row ==> s.outbox[i].status == Sent
    ensures Reachable(cfg, r) && AllSent(r) && r.tasks == s.tasks && r.now == s.now
  {
    var sent := DoRelay(s, row, Published);
    var id := s.outbox[row].task;
    SentAndLost(s, row);
    ReachableStep(cfg, s, Relay(row, Published));
    ReachableStep(cfg, sent, Lose(id));
    r := sent.(broker := sent.broker - multiset{id});
  }

  lemma OneMoreTask(s: State, r: State)
    requires Keeps(s, r) && r.tasks.Keys == s.tasks.Keys + {s.nextTask}
    ensures r.tasks == s.tasks[s.nextTask := r.tasks[s.nextTask]]
  {
  }

  lemma SentAndLost(s: State, row: nat)
    requires row in s.outbox && s.outbox[row].status == Pending && s.broker == multiset{}
    requires forall i :: i in s.outbox && i != row ==> s.outbox[i].status == Sent
    ensures var sent := DoRelay(s, row, Published); AllSent(sent.(broker := sent.broker - multiset{s.outbox[row].task}))
  {
  }

  lemma TwoOrphans(cfg: Config, s: State, older: TaskId, younger: TaskId)
    requires Reachable(cfg, s) && AllSent(s) && s.tasks.Keys == {older, younger} && older != younger
    requires s.tasks[older].status == Queued && s.tasks[younger].status == Queued
    requires s.tasks[older].updatedAt < s.tasks[younger].updatedAt <= s.now - cfg.reconcileSeconds
    ensures DbInv(s) && Reconcile.Stalest(cfg, s, [older]) && Lost(s, younger)
    ensures older in OrphanTasks(cfg, s) && younger in OrphanTasks(cfg, s)
  {
    ReachableInv(cfg, s);
    Reconcile.OrphansAreStale(cfg, s);
  }
}
