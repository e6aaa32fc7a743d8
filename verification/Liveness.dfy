/** Which tasks can still succeed by the platform's own steps, told from the state: exactly the
    promising ones.  The others are dead letters without a retry, failed or cancelled tasks, and
    dependents that nothing will ever free. */
module Liveness {
  import opened Rows
  import opened Store
  import opened Cascade
  import opened Dependencies
  import opened Protocol
  import opened Steps
  import opened Gate
  import Workers

  /** Steps the platform takes by itself when nothing fails. */
  predicate Automatic(op: Op) {
    || op.Tick? || (op.Relay? && op.how == Published) || op.Receive? || (op.Finish? && op.outcome == Completed)
    || op.ReleaseDueTask? || op.ReleaseDeadTask? || op.RecoverTask? || op.RepublishTask?
  }

  ghost predicate AutomaticRun(ops: seq<Op>) {
    forall i :: 0 <= i < |ops| ==> Automatic(ops[i])
  }

  predicate FailedStatus(s: Status) {
    Terminal(s) && s != Success
  }

  // ---------- what automatic runs keep ----------

  lemma AutomaticChange(cfg: Config, s: State, op: Op, id: TaskId)
    requires Automatic(op) && id in s.tasks && Enabled(cfg, ChangeOf(cfg, s, op, id), s.tasks[id], s.now)
    ensures var u := Changed(cfg, ChangeOf(cfg, s, op, id), s.tasks[id], s.now);
            FailedStatus(u.status) ==> FailedStatus(s.tasks[id].status)
  {
  }

  lemma AutomaticRow(cfg: Config, s: State, op: Op, r: State, id: TaskId)
    requires Automatic(op) && id in s.tasks && id in r.tasks && RowFollows(cfg, s, op, r, id)
    ensures FailedStatus(r.tasks[id].status) ==> FailedStatus(s.tasks[id].status)
    ensures s.tasks[id].status == Success ==> r.tasks[id].status == Success
  {
    AutomaticChange(cfg, s, op, id);
    if s.tasks[id].status == Success {
      SuccessKept(cfg, s, op, r, id);
    }
  }

  lemma AutomaticStep(cfg: Config, s: State, op: Op)
    requires DbInv(s) && Automatic(op)
    ensures Progressed(s, Apply(cfg, s, op))
  {
    StepFollows(cfg, s, op);
    forall id | id in s.tasks
      ensures FailedStatus(Apply(cfg, s, op).tasks[id].status) ==> FailedStatus(s.tasks[id].status)
      ensures s.tasks[id].status == Success ==> Apply(cfg, s, op).tasks[id].status == Success
    {
      assert RowFollows(cfg, s, op, Apply(cfg, s, op), id);
      AutomaticRow(cfg, s, op, Apply(cfg, s, op), id);
    }
  }

  /** An automatic run keeps the graph, fails nothing and undoes no success. */
  ghost predicate Progressed(s: State, r: State) {
    && SameGraph(s, r)
    && forall id :: id in s.tasks ==>
         && (FailedStatus(r.tasks[id].status) ==> FailedStatus(s.tasks[id].status))
         && (s.tasks[id].status == Success ==> r.tasks[id].status == Success)
  }

  lemma {:induction false} AutomaticKeeps(cfg: Config, s: State, ops: seq<Op>)
    requires DbInv(s) && AutomaticRun(ops)
    ensures DbInv(Exec(cfg, s, ops)) && Progressed(s, Exec(cfg, s, ops))
    decreases |ops|
  {
    if ops != [] {
      StepKeepsInv(cfg, s, ops[0]);
      AutomaticStep(cfg, s, ops[0]);
      AutomaticKeeps(cfg, Apply(cfg, s, ops[0]), ops[1..]);
    }
  }

  // ---------- driving one task that is not blocked ----------

  function Longer(a: Time, b: Time): Time {
    if a > b then a - b else 0.0
  }

  /** One more automatic step at the end of a run. */
  lemma Extend(cfg: Config, s: State, ops: seq<Op>, op: Op) returns (more: seq<Op>)
    requires DbInv(s) && AutomaticRun(ops) && Automatic(op)
    ensures more == ops + [op] && AutomaticRun(more)
    ensures Exec(cfg, s, more) == Apply(cfg, Exec(cfg, s, ops), op)
    ensures DbInv(Exec(cfg, s, more))
  {
    more := ops + [op];
    ExecSnoc(cfg, s, ops, op);
    AutomaticKeeps(cfg, s, more);
  }

  /** Let the clock run to `time`. */
  lemma WaitUntil(cfg: Config, s: State, time: Time) returns (ops: seq<Op>)
    requires DbInv(s)
    ensures AutomaticRun(ops) && DbInv(Exec(cfg, s, ops))
    ensures Exec(cfg, s, ops).now >= time && Exec(cfg, s, ops) == s.(now := Exec(cfg, s, ops).now)
  {
    assert Exec(cfg, s, []) == s;
    ops := Extend(cfg, s, [], Tick(Longer(time, s.now)));
  }

  lemma OrphanIsPublished(cfg: Config, s: State, id: TaskId) returns (ops: seq<Op>)
    requires DbInv(s) && id in s.tasks && s.tasks[id].status == Queued
    ensures AutomaticRun(ops) && DbInv(Exec(cfg, s, ops))
    ensures var r := Exec(cfg, s, ops);
            id in r.tasks && r.tasks[id].status == Queued && r.broker[id] > 0
  {
    assert Stamped(s.tasks[id]);
    ops := WaitUntil(cfg, s, s.tasks[id].updatedAt + cfg.reconcileSeconds);
    ops := DriveSweep(cfg, s, ops, id);
  }

  lemma RepublishedRow(cfg: Config, s: State, id: TaskId)
    requires IsOrphan(cfg, s, id)
    ensures var r := DoRepublish(cfg, s, id);
            && r.tasks == s.tasks && s.nextOutbox in r.outbox
            && r.outbox[s.nextOutbox].status == Pending && r.outbox[s.nextOutbox].task == id
  {
  }

  lemma DriveSweep(cfg: Config, s: State, before: seq<Op>, id: TaskId) returns (ops: seq<Op>)
    requires DbInv(s) && AutomaticRun(before) && DbInv(Exec(cfg, s, before)) && IsOrphan(cfg, Exec(cfg, s, before), id)
    ensures AutomaticRun(ops) && DbInv(Exec(cfg, s, ops))
    ensures var r := Exec(cfg, s, ops);
            id in r.tasks && r.tasks[id].status == Queued && r.broker[id] > 0
  {
    var here := Exec(cfg, s, before);
    RepublishedRow(cfg, here, id);
    ops := Extend(cfg, s, before, RepublishTask(id));
    ops := DriveRelay(cfg, s, ops, here.nextOutbox);
  }

  lemma DriveRelay(cfg: Config, s: State, before: seq<Op>, row: nat) returns (ops: seq<Op>)
    requires DbInv(s) && AutomaticRun(before)
    requires var here := Exec(cfg, s, before); row in here.outbox && here.outbox[row].status == Pending
    ensures AutomaticRun(ops) && DbInv(Exec(cfg, s, ops))
    ensures var here := Exec(cfg, s, before);
            Exec(cfg, s, ops).tasks == here.tasks && Exec(cfg, s, ops).broker[here.outbox[row].task] > 0
  {
    ops := Extend(cfg, s, before, Relay(row, Published));
  }

  lemma StartLands(cfg: Config, s: State, id: TaskId)
    requires DbInv(s) && id in s.tasks && s.tasks[id].status == Queued && s.broker[id] > 0
    ensures var r := DoReceive(cfg, s, id, 0); var f := Flight(id, s.tasks[id].attempts + 1);
            f in r.flights && id in r.tasks && r.tasks[id].status == Running
  {
    assert Stamped(s.tasks[id]);
  }

  lemma DriveQueued(cfg: Config, s: State, id: TaskId) returns (ops: seq<Op>)
    requires DbInv(s) && id in s.tasks && s.tasks[id].status == Queued
    ensures AutomaticRun(ops)
    ensures id in Exec(cfg, s, ops).tasks && Exec(cfg, s, ops).tasks[id].status == Success
  {
    ops := OrphanIsPublished(cfg, s, id);
    var f: Flight;
    ops, f := DriveStart(cfg, s, ops, id);
    ops := DriveEnd(cfg, s, ops, f);
  }

  lemma DriveEnd(cfg: Config, s: State, ops: seq<Op>, f: Flight) returns (more: seq<Op>)
    requires DbInv(s) && AutomaticRun(ops) && DbInv(Exec(cfg, s, ops))
    requires var r := Exec(cfg, s, ops); f in r.flights && f.task in r.tasks && r.tasks[f.task].status == Running
    ensures AutomaticRun(more)
    ensures var r := Exec(cfg, s, more); f.task in r.tasks && r.tasks[f.task].status == Success
  {
    SuccessLands(cfg, Exec(cfg, s, ops), f);
    more := Extend(cfg, s, ops, Finish(f, Completed));
  }

  lemma DriveStart(cfg: Config, s: State, ops: seq<Op>, id: TaskId) returns (more: seq<Op>, f: Flight)
    requires DbInv(s) && AutomaticRun(ops) && DbInv(Exec(cfg, s, ops))
    requires var r := Exec(cfg, s, ops); id in r.tasks && r.tasks[id].status == Queued && r.broker[id] > 0
    ensures AutomaticRun(more) && DbInv(Exec(cfg, s, more)) && f.task == id
    ensures var r := Exec(cfg, s, more); f in r.flights && id in r.tasks && r.tasks[id].status == Running
  {
    var r := Exec(cfg, s, ops);
    f := Flight(id, r.tasks[id].attempts + 1);
    StartLands(cfg, r, id);
    more := Extend(cfg, s, ops, Receive(id, 0));
  }

  lemma SuccessLands(cfg: Config, s: State, f: Flight)
    requires DbInv(s) && f in s.flights && f.task in s.tasks && s.tasks[f.task].status == Running
    ensures var r := DoFinish(cfg, s, f, Completed); f.task in r.tasks && r.tasks[f.task].status == Success
  {
    Workers.ReportTakesEffect(cfg, s, f, Completed);
  }

  /** Each sweep queues its task. */
  lemma SweepQueues(cfg: Config, s: State, op: Op)
    requires (op.ReleaseDueTask? && IsDue(cfg, s, op.task)) || (op.ReleaseDeadTask? && IsDeadDue(cfg, s, op.task))
             || (op.RecoverTask? && IsStuck(s, op.task) && s.tasks[op.task].status == Running)
    ensures op.task in Apply(cfg, s, op).tasks && Apply(cfg, s, op).tasks[op.task].status == Queued
  {
  }

  lemma DueIsReleased(cfg: Config, s: State, id: TaskId) returns (ops: seq<Op>)
    requires DbInv(s) && id in s.tasks && Waiting(s.tasks[id].status)
    ensures AutomaticRun(ops)
    ensures id in Exec(cfg, s, ops).tasks && Exec(cfg, s, ops).tasks[id].status == Queued
  {
    assert Stamped(s.tasks[id]);
    ops := WaitUntil(cfg, s, s.tasks[id].scheduledAt.value);
    SweepQueues(cfg, Exec(cfg, s, ops), ReleaseDueTask(id));
    ops := Extend(cfg, s, ops, ReleaseDueTask(id));
  }

  lemma SilentIsRecovered(cfg: Config, s: State, id: TaskId) returns (ops: seq<Op>)
    requires DbInv(s) && id in s.tasks && s.tasks[id].status == Running
    ensures AutomaticRun(ops)
    ensures id in Exec(cfg, s, ops).tasks && Exec(cfg, s, ops).tasks[id].status == Queued
  {
    assert Stamped(s.tasks[id]);
    ops := WaitUntil(cfg, s, s.tasks[id].leaseExpiresAt.value + 1.0);
    SweepQueues(cfg, Exec(cfg, s, ops), RecoverTask(id));
    ops := Extend(cfg, s, ops, RecoverTask(id));
  }

  lemma DeadIsRevived(cfg: Config, s: State, id: TaskId) returns (ops: seq<Op>)
    requires DbInv(s) && id in s.tasks && Revivable(cfg, s.tasks[id])
    ensures AutomaticRun(ops)
    ensures id in Exec(cfg, s, ops).tasks && Exec(cfg, s, ops).tasks[id].status == Queued
  {
    ops := WaitUntil(cfg, s, s.tasks[id].dlqRetryAt.value);
    SweepQueues(cfg, Exec(cfg, s, ops), ReleaseDeadTask(id));
    ops := Extend(cfg, s, ops, ReleaseDeadTask(id));
  }

  lemma Chain(cfg: Config, s: State, first: seq<Op>, second: seq<Op>) returns (ops: seq<Op>)
    requires AutomaticRun(first) && AutomaticRun(second)
    ensures ops == first + second && AutomaticRun(ops)
    ensures Exec(cfg, s, ops) == Exec(cfg, Exec(cfg, s, first), second)
  {
    ops := first + second;
    ExecConcat(cfg, s, first, second);
  }

  lemma DriveReady(cfg: Config, s: State, id: TaskId) returns (ops: seq<Op>)
    requires DbInv(s) && id in s.tasks && Alive(cfg, s.tasks[id]) && s.tasks[id].status != Created
    ensures AutomaticRun(ops)
    ensures id in Exec(cfg, s, ops).tasks && Exec(cfg, s, ops).tasks[id].status == Success
  {
    assert Stamped(s.tasks[id]);
    if s.tasks[id].status == Queued {
      ops := DriveQueued(cfg, s, id);
    } else {
      var first: seq<Op>;
      if Waiting(s.tasks[id].status) {
        first := DueIsReleased(cfg, s, id);
      } else if s.tasks[id].status == DeadLetter {
        first := DeadIsRevived(cfg, s, id);
      } else {
        first := SilentIsRecovered(cfg, s, id);
      }
      AutomaticKeeps(cfg, s, first);
      var second := DriveQueued(cfg, Exec(cfg, s, first), id);
      ops := Chain(cfg, s, first, second);
    }
  }

  // ---------- what is promising ----------

  /** A task that succeeded or is on its way; a blocked one only if some parent has not succeeded yet
      and every parent is promising itself. */
  ghost predicate Promising(cfg: Config, s: State, id: TaskId)
    decreases id
  {
    && id in s.tasks
    && if s.tasks[id].status == Created then
         && Unfinished(s, id) != {}
         && forall p :: p < id && p in s.tasks && Edge(p, id) in s.edges ==> Promising(cfg, s, p)
       else s.tasks[id].status == Success || Alive(cfg, s.tasks[id])
  }

  ghost function Unfinished(s: State, id: TaskId): set<TaskId> {
    set p | p in s.tasks && Edge(p, id) in s.edges && s.tasks[p].status != Success
  }

  lemma UnfinishedMeans(s: State, id: TaskId)
    ensures Unfinished(s, id) == {} <==> AllDone(s, id)
  {
    if AllDone(s, id) {
      assert Unfinished(s, id) == {};
    } else {
      var p :| p in s.tasks && Edge(p, id) in s.edges && s.tasks[p].status != Success;
      assert p in Unfinished(s, id);
    }
  }

  lemma NotCreatedKept(cfg: Config, s: State, op: Op, id: TaskId)
    requires Automatic(op) && id in s.tasks && Enabled(cfg, ChangeOf(cfg, s, op, id), s.tasks[id], s.now)
    requires s.tasks[id].status != Created && s.tasks[id].status != Timeout
    ensures var t := s.tasks[id]; var u := Changed(cfg, ChangeOf(cfg, s, op, id), t, s.now);
            u.status != Created && (u.status == Success || Alive(cfg, u) <==> t.status == Success || Alive(cfg, t))
  {
  }

  lemma AutomaticNeverCancels(cfg: Config, s: State, op: Op, id: TaskId)
    requires Automatic(op) && id in s.tasks
    ensures !ChangeOf(cfg, s, op, id).Cancel?
  {
  }

  /** What an automatic step does to one task: a blocked one stays blocked, with nothing decided, or is
      freed by its parents; another one keeps its prospects. */
  ghost predicate AdvancesRow(cfg: Config, s: State, r: State, id: TaskId)
    requires id in s.tasks && id in r.tasks
  {
    if s.tasks[id].status == Created then BlockedMovesOn(s, r, id) else StillPromises(cfg, s.tasks[id], r.tasks[id])
  }

  predicate StillPromises(cfg: Config, t: Task, u: Task) {
    u.status != Created && (u.status == Success || Alive(cfg, u) <==> t.status == Success || Alive(cfg, t))
  }

  ghost predicate BlockedMovesOn(s: State, r: State, id: TaskId)
    requires id in r.tasks
  {
    if r.tasks[id].status == Created then AllDone(s, id) <==> AllDone(r, id)
    else
      && r.tasks[id].status == Queued && Unfinished(s, id) != {}
      && forall p :: p in r.tasks && Edge(p, id) in s.edges ==> r.tasks[p].status == Success
  }

  ghost predicate Advances(cfg: Config, s: State, r: State) {
    SameGraph(s, r) && forall id :: id in s.tasks ==> AdvancesRow(cfg, s, r, id)
  }

  lemma BlockedMoves(cfg: Config, s: State, op: Op, r: State, id: TaskId)
    requires Automatic(op) && id in s.tasks && id in r.tasks && s.tasks[id].status == Created && RowFollows(cfg, s, op, r, id)
    ensures r.tasks[id].status == (if ChangeOf(cfg, s, op, id).Unblock? then Queued else Created)
  {
    AutomaticNeverCancels(cfg, s, op, id);
    LeavesCreated(cfg, ChangeOf(cfg, s, op, id), s.tasks[id], s.now);
  }

  lemma FreedAdvances(cfg: Config, s: State, op: Op, r: State, id: TaskId)
    requires EdgesInv(s) && Followed(cfg, s, op, r) && id in s.tasks && ChangeOf(cfg, s, op, id).Unblock?
    ensures Unfinished(s, id) != {}
    ensures forall p :: p in r.tasks && Edge(p, id) in s.edges ==> r.tasks[p].status == Success
  {
    UnblockMeansFreed(cfg, s, op, id);
    assert op.flight.task in Unfinished(s, id);
    forall p | p in r.tasks && Edge(p, id) in s.edges ensures r.tasks[p].status == Success {
      FreedParentsSucceed(cfg, s, op, r, id, p);
    }
  }

  lemma BlockedAdvances(cfg: Config, s: State, op: Op, r: State, id: TaskId)
    requires EdgesInv(s) && Automatic(op) && Followed(cfg, s, op, r)
    requires id in s.tasks && id in r.tasks && s.tasks[id].status == Created
    ensures AdvancesRow(cfg, s, r, id)
  {
    assert RowFollows(cfg, s, op, r, id);
    BlockedMoves(cfg, s, op, r, id);
    if ChangeOf(cfg, s, op, id).Unblock? {
      FreedAdvances(cfg, s, op, r, id);
    } else {
      StepKeepsAllDone(cfg, s, op, r, id);
    }
  }

  lemma OtherAdvances(cfg: Config, s: State, op: Op, r: State, id: TaskId)
    requires Automatic(op) && id in s.tasks && id in r.tasks && s.tasks[id].status != Created
    requires Stamped(s.tasks[id]) && RowFollows(cfg, s, op, r, id)
    ensures AdvancesRow(cfg, s, r, id)
  {
    NotCreatedKept(cfg, s, op, id);
  }

  lemma FollowedAdvances(cfg: Config, s: State, op: Op, r: State)
    requires TasksInv(s) && EdgesInv(s) && Automatic(op) && Followed(cfg, s, op, r) && SameGraph(s, r)
    ensures Advances(cfg, s, r)
  {
    forall id | id in s.tasks && s.tasks[id].status == Created ensures BlockedMovesOn(s, r, id) {
      BlockedAdvances(cfg, s, op, r, id);
    }
    forall id | id in s.tasks && s.tasks[id].status != Created ensures StillPromises(cfg, s.tasks[id], r.tasks[id]) {
      assert RowFollows(cfg, s, op, r, id) && RowInv(s.tasks[id]);
      OtherAdvances(cfg, s, op, r, id);
    }
  }

  lemma AutomaticAdvances(cfg: Config, s: State, op: Op)
    requires DbInv(s) && Automatic(op)
    ensures Advances(cfg, s, Apply(cfg, s, op))
  {
    StepIsFollowed(cfg, s, op);
    FollowedAdvances(cfg, s, op, Apply(cfg, s, op));
  }

  /** Automatic steps neither make nor break a promise. */
  lemma {:induction false} PromiseKept(cfg: Config, s: State, r: State, id: TaskId)
    requires EdgesInv(s) && Advances(cfg, s, r)
    ensures Promising(cfg, s, id) <==> Promising(cfg, r, id)
    decreases id
  {
    if id in s.tasks && s.tasks[id].status == Created {
      assert AdvancesRow(cfg, s, r, id);
      UnfinishedMeans(s, id);
      UnfinishedMeans(r, id);
      forall p: nat | p < id ensures Promising(cfg, s, p) <==> Promising(cfg, r, p) {
        PromiseKept(cfg, s, r, p);
      }
      if r.tasks[id].status == Queued {
        assert Alive(cfg, r.tasks[id]);
      }
    } else if id in s.tasks {
      assert AdvancesRow(cfg, s, r, id);
    }
  }

  lemma {:induction false} RunKeepsPromise(cfg: Config, s: State, ops: seq<Op>, id: TaskId)
    requires DbInv(s) && AutomaticRun(ops)
    ensures Promising(cfg, s, id) <==> Promising(cfg, Exec(cfg, s, ops), id)
    decreases |ops|
  {
    if ops != [] {
      StepKeepsInv(cfg, s, ops[0]);
      AutomaticAdvances(cfg, s, ops[0]);
      PromiseKept(cfg, s, Apply(cfg, s, ops[0]), id);
      RunKeepsPromise(cfg, Apply(cfg, s, ops[0]), ops[1..], id);
    }
  }

  // ---------- driving a promising task, parents first ----------

  /** A promising task can be brought to success by automatic steps alone. */
  lemma DriveToSuccess(cfg: Config, s: State, id: TaskId) returns (ops: seq<Op>)
    requires DbInv(s) && Promising(cfg, s, id)
    ensures AutomaticRun(ops)
    ensures id in Exec(cfg, s, ops).tasks && Exec(cfg, s, ops).tasks[id].status == Success
    decreases id, Unfinished(s, id)
  {
    if s.tasks[id].status == Success {
      ops := [];
    } else if s.tasks[id].status != Created {
      ops := DriveReady(cfg, s, id);
    } else {
      var p :| p in Unfinished(s, id);
      ParentIsOlder(s, p, id);
      var first := DriveToSuccess(cfg, s, p);
      var s1 := Exec(cfg, s, first);
      AutomaticKeeps(cfg, s, first);
      RunKeepsPromise(cfg, s, first, id);
      FewerUnfinished(s, s1, id, p);
      var second := DriveToSuccess(cfg, s1, id);
      ops := Chain(cfg, s, first, second);
    }
  }

  lemma FewerUnfinished(s: State, s1: State, id: TaskId, p: TaskId)
    requires Progressed(s, s1) && p in Unfinished(s, id) && p in s1.tasks && s1.tasks[p].status == Success
    ensures Unfinished(s1, id) < Unfinished(s, id)
  {
    assert p !in Unfinished(s1, id);
  }

  /** The platform's own steps can bring the task to success. */
  ghost predicate CanFinish(cfg: Config, s: State, id: TaskId) {
    exists ops, r :: FinishesIn(cfg, s, id, ops, r)
  }

  ghost predicate FinishesIn(cfg: Config, s: State, id: TaskId, ops: seq<Op>, r: State) {
    AutomaticRun(ops) && Runs(cfg, s, ops, r) && id in r.tasks && r.tasks[id].status == Success
  }

  ghost predicate Finishes(cfg: Config, s: State, id: TaskId, ops: seq<Op>) {
    AutomaticRun(ops) && id in Exec(cfg, s, ops).tasks && Exec(cfg, s, ops).tasks[id].status == Success
  }

  lemma FinishesMeans(cfg: Config, s: State, id: TaskId, ops: seq<Op>)
    requires Finishes(cfg, s, id, ops)
    ensures CanFinish(cfg, s, id)
  {
    RunsIsExec(cfg, s, ops, Exec(cfg, s, ops));
    assert FinishesIn(cfg, s, id, ops, Exec(cfg, s, ops));
  }

  /** In every reachable state, success can still be reached by automatic steps exactly for the
      promising tasks. */
  lemma CanFinishExactlyWhenPromising(cfg: Config, s: State, id: TaskId)
    requires Reachable(cfg, s)
    ensures CanFinish(cfg, s, id) <==> Promising(cfg, s, id)
  {
    ReachableInv(cfg, s);
    if Promising(cfg, s, id) {
      var ops := DriveToSuccess(cfg, s, id);
      FinishesMeans(cfg, s, id, ops);
    }
    if CanFinish(cfg, s, id) {
      var ops, r :| FinishesIn(cfg, s, id, ops, r);
      RunsIsExec(cfg, s, ops, r);
      RunKeepsPromise(cfg, s, ops, id);
    }
  }

  // ---------- registration ----------

  lemma RegisteredParents(s: State, op: Op)
    requires DbInv(s) && op.Create? && op.dependsOn != []
    requires DoCreate(s, op.maxAttempts, op.scheduleAt, op.batch, op.dependsOn) != s
    ensures var r := DoCreate(s, op.maxAttempts, op.scheduleAt, op.batch, op.dependsOn);
            && s.nextTask in r.tasks && r.tasks[s.nextTask].status == Created
            && (forall p :: Edge(p, s.nextTask) in r.edges <==> p in op.dependsOn)
            && (forall p :: p in op.dependsOn ==> p in s.tasks && p in r.tasks && r.tasks[p] == s.tasks[p])
  {
    CreateStep(s, op);
    forall e | e in s.edges ensures e.child != s.nextTask {}
    forall p ensures Edge(p, s.nextTask) in EdgesTo(s.nextTask, WithoutRepeats(op.dependsOn)) <==> p in op.dependsOn {}
  }

  /** What a caller can check before registering. */
  ghost predicate PromisingParents(cfg: Config, s: State, dependsOn: seq<TaskId>) {
    && (exists p :: p in dependsOn && p in s.tasks && s.tasks[p].status != Success)
    && (forall p :: p in dependsOn ==> Promising(cfg, s, p))
  }

  /** A registration changes nothing for the tasks that are already there. */
  lemma {:induction false} OldPromises(cfg: Config, s: State, op: Op, id: TaskId)
    requires DbInv(s) && op.Create? && id in s.tasks
    ensures var r := DoCreate(s, op.maxAttempts, op.scheduleAt, op.batch, op.dependsOn);
            Promising(cfg, s, id) <==> Promising(cfg, r, id)
    decreases id
  {
    var r := DoCreate(s, op.maxAttempts, op.scheduleAt, op.batch, op.dependsOn);
    OldGraph(s, op, id);
    forall p | p < id && p in s.tasks ensures Promising(cfg, s, p) <==> Promising(cfg, r, p) {
      OldPromises(cfg, s, op, p);
    }
  }

  lemma OldGraph(s: State, op: Op, id: TaskId)
    requires DbInv(s) && op.Create? && id in s.tasks
    ensures var r := DoCreate(s, op.maxAttempts, op.scheduleAt, op.batch, op.dependsOn);
            && id in r.tasks && r.tasks[id] == s.tasks[id] && Unfinished(r, id) == Unfinished(s, id)
            && (forall p: nat :: p < id ==> (p in r.tasks <==> p in s.tasks))
            && (forall p :: Edge(p, id) in r.edges <==> Edge(p, id) in s.edges)
  {
    CreateStep(s, op);
    CreateEdges(s, op);
    assert id < s.nextTask;
    OldUnfinished(s, DoCreate(s, op.maxAttempts, op.scheduleAt, op.batch, op.dependsOn), id);
  }

  lemma OldUnfinished(s: State, r: State, id: TaskId)
    requires EdgesInv(s) && id in s.tasks && forall x :: x in s.tasks ==> x in r.tasks && r.tasks[x] == s.tasks[x]
    requires forall p :: Edge(p, id) in r.edges <==> Edge(p, id) in s.edges
    ensures Unfinished(r, id) == Unfinished(s, id)
  {
    forall p ensures p in Unfinished(r, id) <==> p in Unfinished(s, id) {
      if Edge(p, id) in s.edges {
        ParentIsOlder(s, p, id);
      }
    }
  }

  ghost predicate SamePromises(cfg: Config, s: State, r: State, ids: seq<TaskId>) {
    forall p :: p in ids ==> p in s.tasks && p in r.tasks && r.tasks[p] == s.tasks[p] && (Promising(cfg, s, p) <==> Promising(cfg, r, p))
  }

  lemma ParentsDecide(cfg: Config, s: State, r: State, id: TaskId, dependsOn: seq<TaskId>)
    requires id in r.tasks && r.tasks[id].status == Created && SamePromises(cfg, s, r, dependsOn)
    requires forall p :: Edge(p, id) in r.edges <==> p in dependsOn
    requires forall p :: p in dependsOn ==> p < id
    ensures Promising(cfg, r, id) <==> PromisingParents(cfg, s, dependsOn)
  {
    if Unfinished(r, id) != {} {
      var p :| p in Unfinished(r, id);
      assert p in dependsOn && p in s.tasks && s.tasks[p].status != Success;
    }
    if p :| p in dependsOn && p in s.tasks && s.tasks[p].status != Success {
      assert p in Unfinished(r, id);
    }
    if Promising(cfg, r, id) {
      forall p | p in dependsOn ensures Promising(cfg, s, p) {
        assert p < id && p in r.tasks && Edge(p, id) in r.edges;
      }
    }
  }

  lemma NewPromise(cfg: Config, s: State, op: Op)
    requires DbInv(s) && op.Create? && op.dependsOn != []
    requires DoCreate(s, op.maxAttempts, op.scheduleAt, op.batch, op.dependsOn) != s
    ensures var r := DoCreate(s, op.maxAttempts, op.scheduleAt, op.batch, op.dependsOn);
            Promising(cfg, r, s.nextTask) <==> PromisingParents(cfg, s, op.dependsOn)
  {
    RegisteredParents(s, op);
    forall p | p in op.dependsOn
      ensures Promising(cfg, s, p) <==> Promising(cfg, DoCreate(s, op.maxAttempts, op.scheduleAt, op.batch, op.dependsOn), p)
    {
      OldPromises(cfg, s, op, p);
    }
    ParentsDecide(cfg, s, DoCreate(s, op.maxAttempts, op.scheduleAt, op.batch, op.dependsOn), s.nextTask, op.dependsOn);
  }

  /** A dependent that has just been registered can ever succeed by the platform's own steps exactly
      when its parents were promising and not all of them had succeeded.  Registration accepts any
      existing parents, so the others wait for nothing. */
  lemma RegistrationHonoured(cfg: Config, s: State, op: Op, r: State)
    requires Reachable(cfg, s) && op.Create? && op.dependsOn != []
    requires Runs(cfg, s, [op], r) && r != s
    ensures CanFinish(cfg, r, s.nextTask) <==> PromisingParents(cfg, s, op.dependsOn)
  {
    ReachableInv(cfg, s);
    OneStep(cfg, s, op, r);
    ReachableStep(cfg, s, op);
    NewPromise(cfg, s, op);
    CanFinishExactlyWhenPromising(cfg, r, s.nextTask);
  }

  // ---------- registrations that keep every promise ----------

  /** Nothing is deleted, and dependents are registered on promising parents only. */
  ghost predicate SoundAt(cfg: Config, trace: seq<State>, ops: seq<Op>, i: nat)
    requires i < |ops| && |trace| == |ops| + 1
  {
    !ops[i].PurgeTask? && (ops[i].Create? && ops[i].dependsOn != [] ==> PromisingParents(cfg, trace[i], ops[i].dependsOn))
  }

  ghost predicate SoundRun(cfg: Config, s: State, ops: seq<Op>, r: State) {
    exists trace :: Leads(cfg, s, ops, r, trace) && forall i :: 0 <= i < |ops| ==> SoundAt(cfg, trace, ops, i)
  }

  ghost predicate SoundlyReachable(cfg: Config, s: State) {
    exists subs, now, ops :: SoundRun(cfg, Init(subs, now), ops, s)
  }

  ghost predicate AllWait(cfg: Config, s: State) {
    forall id :: id in s.tasks && s.tasks[id].status == Created ==> Waits(cfg, s, id)
  }

  lemma {:induction false} WaitingIsPromising(cfg: Config, s: State, id: TaskId)
    requires DbInv(s) && AllWait(cfg, s) && id in s.tasks && (s.tasks[id].status == Success || Alive(cfg, s.tasks[id]))
    ensures Promising(cfg, s, id)
    decreases id
  {
    if s.tasks[id].status == Created {
      assert Waits(cfg, s, id);
      var p :| p in s.tasks && Edge(p, id) in s.edges && Alive(cfg, s.tasks[p]);
      assert p in Unfinished(s, id);
      forall p | p < id && p in s.tasks && Edge(p, id) in s.edges ensures Promising(cfg, s, p) {
        WaitingIsPromising(cfg, s, p);
      }
    }
  }

  lemma PromisingMeansAlive(cfg: Config, s: State, p: TaskId)
    requires Promising(cfg, s, p)
    ensures s.tasks[p].status == Success || Alive(cfg, s.tasks[p])
  {
  }

  lemma PromisingParentsWait(cfg: Config, s: State, op: Op)
    requires DbInv(s) && op.Create? && op.dependsOn != [] && PromisingParents(cfg, s, op.dependsOn)
    requires DoCreate(s, op.maxAttempts, op.scheduleAt, op.batch, op.dependsOn) != s
    ensures Waits(cfg, DoCreate(s, op.maxAttempts, op.scheduleAt, op.batch, op.dependsOn), s.nextTask)
  {
    var r := DoCreate(s, op.maxAttempts, op.scheduleAt, op.batch, op.dependsOn);
    RegisteredParents(s, op);
    forall p | p in op.dependsOn ensures s.tasks[p].status == Success || Alive(cfg, s.tasks[p]) {
      PromisingMeansAlive(cfg, s, p);
    }
    var p :| p in op.dependsOn && p in s.tasks && s.tasks[p].status != Success;
    assert Edge(p, s.nextTask) in r.edges && Alive(cfg, r.tasks[p]);
  }

  lemma StepKeepsAllWait(cfg: Config, s: State, op: Op)
    requires DbInv(s) && AllWait(cfg, s) && !op.PurgeTask?
    requires op.Create? && op.dependsOn != [] ==> PromisingParents(cfg, s, op.dependsOn)
    ensures AllWait(cfg, Apply(cfg, s, op))
  {
    var r := Apply(cfg, s, op);
    StepIsFollowed(cfg, s, op);
    forall id | id in r.tasks && r.tasks[id].status == Created ensures Waits(cfg, r, id) {
      if id in s.tasks {
        CreatedBefore(cfg, s, op, r, id);
        StepKeepsWaiting(cfg, s, op, r, id);
      } else {
        NextTaskGrows(cfg, s, op);
        NewTaskBlocked(s, op);
        PromisingParentsWait(cfg, s, op);
      }
    }
  }

  lemma NewTaskBlocked(s: State, op: Op)
    requires op.Create? && s.nextTask !in s.tasks
    ensures var r := DoCreate(s, op.maxAttempts, op.scheduleAt, op.batch, op.dependsOn);
            s.nextTask in r.tasks && r.tasks[s.nextTask].status == Created ==> op.dependsOn != [] && r != s
  {
    CreateStep(s, op);
  }

  lemma {:induction false} TraceKeepsAllWait(cfg: Config, trace: seq<State>, ops: seq<Op>, i: nat)
    requires Trace(cfg, trace, ops) && i <= |ops|
    requires forall j :: 0 <= j < |ops| ==> SoundAt(cfg, trace, ops, j)
    requires DbInv(trace[0]) && AllWait(cfg, trace[0])
    ensures DbInv(trace[i]) && AllWait(cfg, trace[i])
    decreases i
  {
    if i > 0 {
      TraceKeepsAllWait(cfg, trace, ops, i - 1);
      assert StepAt(cfg, trace, ops, i) && SoundAt(cfg, trace, ops, i - 1);
      StepKeepsInv(cfg, trace[i - 1], ops[i - 1]);
      StepKeepsAllWait(cfg, trace[i - 1], ops[i - 1]);
    }
  }

  /** No dead end: after any run of steps and faults in which nothing is deleted and dependents are
      registered on promising parents, every unfinished task (and every dead letter with cycles left)
      can still succeed by automatic steps. */
  lemma EveryTaskCanFinish(cfg: Config, s: State, id: TaskId)
    requires SoundlyReachable(cfg, s) && id in s.tasks && Alive(cfg, s.tasks[id])
    ensures CanFinish(cfg, s, id)
  {
    var subs, now, ops :| SoundRun(cfg, Init(subs, now), ops, s);
    var trace :| Leads(cfg, Init(subs, now), ops, s, trace) && forall i :: 0 <= i < |ops| ==> SoundAt(cfg, trace, ops, i);
    InitInv(subs, now);
    TraceKeepsAllWait(cfg, trace, ops, |ops|);
    WaitingIsPromising(cfg, s, id);
    var more := DriveToSuccess(cfg, s, id);
    FinishesMeans(cfg, s, id, more);
  }

  // ---------- the dependents that stay blocked for ever ----------

  /** The last node of a blocked path has a parent that has not succeeded. */
  lemma {:induction false} LastHop(s: State, from: TaskId, path: seq<TaskId>)
    requires from in s.tasks && s.tasks[from].status != Success
    requires path != [] && CreatedPath(s, from, path)
    ensures !AllDone(s, path[|path| - 1])
    decreases |path|
  {
    if |path| > 1 {
      LastHop(s, path[0], path[1..]);
      assert path[1..][|path| - 2] == path[|path| - 1];
    }
  }

  lemma NothingReachesDone(s: State, root: TaskId, child: TaskId)
    requires AllDone(s, child)
    requires root in s.tasks && s.tasks[root].status != Success
    ensures !BlockedBehind(s, root, child) && Edge(root, child) !in s.edges
  {
    if BlockedBehind(s, root, child) {
      var path :| Blocks(s, root, path, child);
      LastHop(s, root, path);
    }
  }

  lemma DoneStaysBlocked(cfg: Config, s: State, op: Op, r: State, child: TaskId)
    requires Followed(cfg, s, op, r) && child in s.tasks && s.tasks[child].status == Created && AllDone(s, child)
    requires !op.PurgeTask? && op != CancelTask(child)
    ensures StaysBlocked(s, r, child)
  {
    assert RowFollows(cfg, s, op, r, child);
    LeavesCreated(cfg, ChangeOf(cfg, s, op, child), s.tasks[child], s.now);
    if op.CancelTask? && op.task in s.tasks && s.tasks[op.task].status != Success {
      NothingReachesDone(s, op.task, child);
    }
    if op.Finish? && op.flight.task in s.tasks && s.tasks[op.flight.task].status != Success {
      NothingReachesDone(s, op.flight.task, child);
    }
    DoneChange(cfg, s, op, child);
  }

  lemma DoneChange(cfg: Config, s: State, op: Op, child: TaskId)
    requires child in CreatedTasks(s) && op != CancelTask(child)
    requires Enabled(cfg, ChangeOf(cfg, s, op, child), s.tasks[child], s.now)
    requires op.CancelTask? && op.task in s.tasks && s.tasks[op.task].status != Success ==> !BlockedBehind(s, op.task, child)
    requires op.Finish? && op.flight.task in s.tasks && s.tasks[op.flight.task].status != Success ==>
               !BlockedBehind(s, op.flight.task, child) && Edge(op.flight.task, child) !in s.edges
    ensures !ChangeOf(cfg, s, op, child).Cancel? && !ChangeOf(cfg, s, op, child).Unblock?
  {
  }

  lemma StepNeverFrees(cfg: Config, s: State, op: Op, child: TaskId)
    requires DbInv(s) && child in s.tasks && s.tasks[child].status == Created && AllDone(s, child)
    requires !op.PurgeTask? && op != CancelTask(child)
    ensures var r := Apply(cfg, s, op); child in r.tasks && r.tasks[child].status == Created && AllDone(r, child)
  {
    StepIsFollowed(cfg, s, op);
    DoneStaysBlocked(cfg, s, op, Apply(cfg, s, op), child);
    StepKeepsAllDone(cfg, s, op, Apply(cfg, s, op), child);
  }

  lemma {:induction false} RunNeverFrees(cfg: Config, s: State, ops: seq<Op>, child: TaskId)
    requires DbInv(s) && child in s.tasks && s.tasks[child].status == Created && AllDone(s, child)
    requires NoPurge(ops) && forall i :: 0 <= i < |ops| ==> ops[i] != CancelTask(child)
    ensures child in Exec(cfg, s, ops).tasks && Exec(cfg, s, ops).tasks[child].status == Created
    decreases |ops|
  {
    if ops != [] {
      assert !ops[0].PurgeTask?;
      StepKeepsInv(cfg, s, ops[0]);
      StepNeverFrees(cfg, s, ops[0], child);
      RunNeverFrees(cfg, Apply(cfg, s, ops[0]), ops[1..], child);
    }
  }

  /** `r` continues `s` without deleting a task and without cancelling `child` by name. */
  ghost predicate ContinuesWithout(cfg: Config, s: State, r: State, child: TaskId) {
    exists ops :: NoPurge(ops) && Spares(ops, child) && Runs(cfg, s, ops, r)
  }

  ghost predicate Spares(ops: seq<Op>, child: TaskId) {
    forall i :: 0 <= i < |ops| ==> ops[i] != CancelTask(child)
  }

  /** A dependent all of whose parents had succeeded when it was registered is never freed: it stays
      created through every continuation that neither deletes tasks nor cancels it by name. */
  lemma DoneIsNeverFreed(cfg: Config, s: State, r: State, child: TaskId)
    requires Reachable(cfg, s) && ContinuesWithout(cfg, s, r, child)
    requires child in s.tasks && s.tasks[child].status == Created && AllDone(s, child)
    ensures child in r.tasks && r.tasks[child].status == Created
  {
    ReachableInv(cfg, s);
    var ops :| NoPurge(ops) && Spares(ops, child) && Runs(cfg, s, ops, r);
    RunsIsExec(cfg, s, ops, r);
    RunNeverFrees(cfg, s, ops, child);
  }
}
