/** The gate in front of a dependent task: when it opens, and which tasks it can hold for ever. */
module Gate {
  import opened Rows
  import opened Store
  import opened Cascade
  import opened Protocol
  import opened Steps

  predicate WasUnblocked(t: Task) {
    exists i :: 0 <= i < |t.log| && t.log[i].kind == TaskUnblocked
  }

  /** Whoever went through the gate has only successful parents. */
  ghost predicate GateHeld(s: State) {
    forall e :: e in s.edges && e.child in s.tasks && e.parent in s.tasks && WasUnblocked(s.tasks[e.child]) ==>
      s.tasks[e.parent].status == Success
  }

  lemma UnblockedByChange(cfg: Config, c: Change, t: Task, now: Time)
    requires Enabled(cfg, c, t, now)
    ensures WasUnblocked(Changed(cfg, c, t, now)) <==> WasUnblocked(t) || c.Unblock?
  {
    ChangedLog(cfg, c, t, now);
    var u := Changed(cfg, c, t, now);
    var added := EventsOf(c, t);
    if WasUnblocked(t) {
      var i :| 0 <= i < |t.log| && t.log[i].kind == TaskUnblocked;
      assert u.log[i] == t.log[i];
    }
    if c.Unblock? {
      assert u.log[|t.log|] == added[0];
    }
    if WasUnblocked(u) {
      var i :| 0 <= i < |u.log| && u.log[i].kind == TaskUnblocked;
      if i < |t.log| {
        assert t.log[i] == u.log[i];
      } else {
        assert u.log[i] == added[i - |t.log|];
        AddedKinds(c, t, i - |t.log|);
      }
    }
  }

  lemma AddedKinds(c: Change, t: Task, i: nat)
    requires i < |EventsOf(c, t)| && EventsOf(c, t)[i].kind == TaskUnblocked
    ensures c.Unblock?
  {
  }

  /** `success` is never left. */
  lemma SuccessAbsorbs(cfg: Config, c: Change, t: Task, now: Time)
    requires Enabled(cfg, c, t, now) && t.status == Success
    ensures Changed(cfg, c, t, now).status == Success
  {
  }

  lemma SuccessKept(cfg: Config, s: State, op: Op, r: State, id: TaskId)
    requires id in s.tasks && s.tasks[id].status == Success && id in r.tasks && RowFollows(cfg, s, op, r, id)
    ensures r.tasks[id].status == Success
  {
    SuccessAbsorbs(cfg, ChangeOf(cfg, s, op, id), s.tasks[id], s.now);
  }

  lemma UnblockMeansFreed(cfg: Config, s: State, op: Op, id: TaskId)
    requires id in s.tasks && ChangeOf(cfg, s, op, id).Unblock?
    ensures op.Finish? && op.outcome == Completed && op.flight in s.flights && op.flight.task in s.tasks
            && s.tasks[op.flight.task].status == Running && id in FreedBy(s, op.flight.task)
  {
  }

  lemma ReporterSucceeds(cfg: Config, s: State, op: Op, r: State)
    requires op.Finish? && Reports(s, op, op.flight.task) && op.flight.task in r.tasks && RowFollows(cfg, s, op, r, op.flight.task)
    ensures r.tasks[op.flight.task].status == Success
  {
  }

  lemma FreedParentsSucceed(cfg: Config, s: State, op: Op, r: State, child: TaskId, parent: TaskId)
    requires Followed(cfg, s, op, r) && EdgesInv(s) && child in s.tasks && ChangeOf(cfg, s, op, child).Unblock?
    requires Edge(parent, child) in s.edges && parent in r.tasks
    ensures r.tasks[parent].status == Success
  {
    UnblockMeansFreed(cfg, s, op, child);
    ParentIsOlder(s, parent, child);
    assert RowFollows(cfg, s, op, r, parent);
    if parent == op.flight.task {
      ReporterSucceeds(cfg, s, op, r);
    } else {
      assert parent in ParentsOf(s.edges, child);
      SuccessKept(cfg, s, op, r, parent);
    }
  }

  lemma ParentIsOlder(s: State, p: TaskId, id: TaskId)
    requires EdgesInv(s) && Edge(p, id) in s.edges
    ensures p < id && p in s.tasks && id in s.tasks
  {
    var e := Edge(p, id);
    assert e.parent < e.child;
  }

  lemma StepHoldsGate(cfg: Config, s: State, op: Op)
    requires DbInv(s) && GateHeld(s)
    ensures GateHeld(Apply(cfg, s, op))
  {
    StepIsFollowed(cfg, s, op);
    StepKeepsEdges(cfg, s, op);
    forall id | id in Apply(cfg, s, op).tasks && id !in s.tasks ensures !WasUnblocked(Apply(cfg, s, op).tasks[id]) {
      NewIsBlocked(s, op, id);
    }
    FollowedHoldsGate(cfg, s, op, Apply(cfg, s, op));
  }

  lemma FollowedHoldsGate(cfg: Config, s: State, op: Op, r: State)
    requires EdgesInv(s) && EdgesInv(r) && GateHeld(s) && Followed(cfg, s, op, r)
    requires forall id :: id in r.tasks && id !in s.tasks ==> !WasUnblocked(r.tasks[id])
    ensures GateHeld(r)
  {
    forall e | e in r.edges && e.child in r.tasks && e.parent in r.tasks && WasUnblocked(r.tasks[e.child])
      ensures r.tasks[e.parent].status == Success
    {
      assert e == Edge(e.parent, e.child);
      HoldsFor(cfg, s, op, r, e);
    }
  }

  lemma HoldsFor(cfg: Config, s: State, op: Op, r: State, e: Edge)
    requires EdgesInv(s) && GateHeld(s) && Followed(cfg, s, op, r) && e in s.edges
    requires e.child in r.tasks && e.parent in r.tasks && WasUnblocked(r.tasks[e.child])
    ensures r.tasks[e.parent].status == Success
  {
    var c := ChangeOf(cfg, s, op, e.child);
    assert RowFollows(cfg, s, op, r, e.child) && RowFollows(cfg, s, op, r, e.parent);
    UnblockedByChange(cfg, c, s.tasks[e.child], s.now);
    assert e == Edge(e.parent, e.child);
    if c.Unblock? {
      FreedParentsSucceed(cfg, s, op, r, e.child, e.parent);
    } else {
      SuccessKept(cfg, s, op, r, e.parent);
    }
  }

  lemma NewIsBlocked(s: State, op: Op, id: TaskId)
    requires op.Create? && s.nextTask !in s.tasks && id !in s.tasks
    requires id in DoCreate(s, op.maxAttempts, op.scheduleAt, op.batch, op.dependsOn).tasks
    ensures !WasUnblocked(DoCreate(s, op.maxAttempts, op.scheduleAt, op.batch, op.dependsOn).tasks[id])
  {
    CreateStep(s, op);
  }

  lemma {:induction false} RunHoldsGate(cfg: Config, s: State, ops: seq<Op>)
    requires DbInv(s) && GateHeld(s)
    ensures DbInv(Exec(cfg, s, ops)) && GateHeld(Exec(cfg, s, ops))
    decreases |ops|
  {
    if ops != [] {
      StepKeepsInv(cfg, s, ops[0]);
      StepHoldsGate(cfg, s, ops[0]);
      RunHoldsGate(cfg, Apply(cfg, s, ops[0]), ops[1..]);
    }
  }

  /** In every reachable state, those parents of a task that was ever unblocked that were not deleted
      have succeeded. */
  lemma RemainingParentsSucceeded(cfg: Config, s: State, e: Edge)
    requires Reachable(cfg, s) && e in s.edges && e.child in s.tasks && WasUnblocked(s.tasks[e.child])
    ensures e.parent in s.tasks && s.tasks[e.parent].status == Success
  {
    var subs, now, ops :| Runs(cfg, Init(subs, now), ops, s);
    RunsIsExec(cfg, Init(subs, now), ops, s);
    InitInv(subs, now);
    RunHoldsGate(cfg, Init(subs, now), ops);
  }

  // ---------- waiting, and being stuck ----------

  /** Every parent of the task has succeeded. */
  ghost predicate AllDone(s: State, child: TaskId) {
    forall p :: p in s.tasks && Edge(p, child) in s.edges ==> s.tasks[p].status == Success
  }

  /** A dead-lettered task that the dead-letter sweep will bring back. */
  predicate Revivable(cfg: Config, t: Task) {
    cfg.dlqEnabled && t.status == DeadLetter && t.dlqRetryAt.Some? && t.dlqRequeueCount < cfg.dlqMaxCycles
  }

  predicate Alive(cfg: Config, t: Task) {
    !Terminal(t.status) || Revivable(cfg, t)
  }

  /** Some parent is still on its way, and every other one is too or has succeeded. */
  ghost predicate Waits(cfg: Config, s: State, child: TaskId) {
    && (exists p :: p in s.tasks && Edge(p, child) in s.edges && Alive(cfg, s.tasks[p]))
    && (forall p :: p in s.tasks && Edge(p, child) in s.edges ==>
          s.tasks[p].status == Success || Alive(cfg, s.tasks[p]))
  }

  /** The dependent survives the step still created. */
  predicate StaysBlocked(s: State, r: State, child: TaskId) {
    && child in s.tasks && s.tasks[child].status == Created
    && child in r.tasks && r.tasks[child].status == Created
  }

  lemma BlockedChange(cfg: Config, s: State, op: Op, r: State, child: TaskId)
    requires RowsFollow(cfg, s, op, r) && StaysBlocked(s, r, child)
    ensures ChangeOf(cfg, s, op, child) != Cancel && !ChangeOf(cfg, s, op, child).Unblock?
  {
    assert RowFollows(cfg, s, op, r, child);
    LeavesCreated(cfg, ChangeOf(cfg, s, op, child), s.tasks[child], s.now);
  }

  lemma LeavesCreated(cfg: Config, c: Change, t: Task, now: Time)
    requires Enabled(cfg, c, t, now) && t.status == Created
    ensures Changed(cfg, c, t, now).status == (if c.Cancel? then Cancelled else if c.Unblock? then Queued else Created)
  {
  }

  /** While the dependent stays blocked, none of its parents moves to a failing terminal status. */
  lemma ParentsDoNotFail(cfg: Config, s: State, op: Op, r: State, child: TaskId, p: TaskId)
    requires EdgesInv(s) && RowsFollow(cfg, s, op, r) && StaysBlocked(s, r, child) && Edge(p, child) in s.edges
    requires p in s.tasks && p in r.tasks && !Terminal(s.tasks[p].status)
    ensures Terminal(r.tasks[p].status) ==> r.tasks[p].status == Success && op.Finish? && op.flight.task == p
  {
    BlockedChange(cfg, s, op, r, child);
    assert RowFollows(cfg, s, op, r, p);
    ChildBehindParent(s, p, child);
    ParentIsOlder(s, p, child);
    FailingChange(cfg, s, op, p, child);
  }

  lemma ChildBehindParent(s: State, p: TaskId, child: TaskId)
    requires Edge(p, child) in s.edges && child in CreatedTasks(s)
    ensures BlockedBehind(s, p, child)
    ensures forall root :: BlockedBehind(s, root, p) && p in CreatedTasks(s) ==> BlockedBehind(s, root, child)
  {
    BlockedOneStep(s, p, child, child);
    forall root | BlockedBehind(s, root, p) && p in CreatedTasks(s) ensures BlockedBehind(s, root, child) {
      var path :| Blocks(s, root, path, p);
      PathExtends(s, root, path, child);
      assert Blocks(s, root, path + [child], child);
    }
  }

  lemma {:induction false} PathExtends(s: State, from: TaskId, path: seq<TaskId>, child: TaskId)
    requires path != [] && CreatedPath(s, from, path) && child in CreatedTasks(s)
    requires Edge(path[|path| - 1], child) in s.edges
    ensures CreatedPath(s, from, path + [child])
    decreases |path|
  {
    assert (path + [child])[1..] == path[1..] + [child];
    if |path| > 1 {
      PathExtends(s, path[0], path[1..], child);
    } else {
      assert path[1..] + [child] == [child];
      assert [child][1..] == [];
      assert CreatedPath(s, path[0], [child]);
    }
  }

  lemma FailingChange(cfg: Config, s: State, op: Op, p: TaskId, child: TaskId)
    requires p in s.tasks && child in CreatedTasks(s) && p < child
    requires Enabled(cfg, ChangeOf(cfg, s, op, p), s.tasks[p], s.now)
    requires BlockedBehind(s, p, child)
    requires forall root :: BlockedBehind(s, root, p) && p in CreatedTasks(s) ==> BlockedBehind(s, root, child)
    requires ChangeOf(cfg, s, op, child) != Cancel
    requires !Terminal(s.tasks[p].status)
    ensures var u := Changed(cfg, ChangeOf(cfg, s, op, p), s.tasks[p], s.now);
            Terminal(u.status) ==> u.status == Success && op.Finish? && op.flight.task == p
  {
    var c := ChangeOf(cfg, s, op, p);
    EndingChange(cfg, c, s.tasks[p], s.now);
    if c.Cancel? {
      CancelReaches(cfg, s, op, p, child);
      assert false;
    } else if c.Fail? && s.tasks[p].status == Running {
      FailSpares(cfg, s, op, p, child);
    } else if c.Succeed? {
      SucceedIsReport(cfg, s, op, p);
    }
  }

  lemma EndingChange(cfg: Config, c: Change, t: Task, now: Time)
    requires Enabled(cfg, c, t, now) && !Terminal(t.status)
    ensures var u := Changed(cfg, c, t, now);
            Terminal(u.status) ==> c.Cancel? || (c.Fail? && t.status == Running) || (c.Succeed? && u.status == Success)
  {
  }

  lemma SucceedIsReport(cfg: Config, s: State, op: Op, p: TaskId)
    requires p in s.tasks && ChangeOf(cfg, s, op, p).Succeed?
    ensures op.Finish? && op.flight.task == p
  {
  }

  /** Whoever cancels a parent cancels the child behind it. */
  lemma CancelReaches(cfg: Config, s: State, op: Op, p: TaskId, child: TaskId)
    requires p in s.tasks && child in CreatedTasks(s) && p < child && BlockedBehind(s, p, child)
    requires forall root :: BlockedBehind(s, root, p) && p in CreatedTasks(s) ==> BlockedBehind(s, root, child)
    requires ChangeOf(cfg, s, op, p).Cancel?
    ensures ChangeOf(cfg, s, op, child) == Cancel
  {
  }

  /** A report that ends its task unsuccessfully would have cancelled the child. */
  lemma FailSpares(cfg: Config, s: State, op: Op, p: TaskId, child: TaskId)
    requires p in s.tasks && child in CreatedTasks(s) && p < child && BlockedBehind(s, p, child)
    requires ChangeOf(cfg, s, op, p).Fail? && s.tasks[p].status == Running && ChangeOf(cfg, s, op, child) != Cancel
    requires Enabled(cfg, ChangeOf(cfg, s, op, p), s.tasks[p], s.now)
    ensures Changed(cfg, ChangeOf(cfg, s, op, p), s.tasks[p], s.now).status == RetryScheduled
  {
    assert child in Dependents(s, p);
  }

  /** What the step does to one parent of a task that stays blocked. */
  ghost predicate ParentKept(cfg: Config, s: State, r: State, op: Op, p: TaskId)
    requires p in s.tasks && p in r.tasks
  {
    && (s.tasks[p].status == Success ==> r.tasks[p].status == Success)
    && (Alive(cfg, s.tasks[p]) ==>
          Alive(cfg, r.tasks[p]) || (r.tasks[p].status == Success && op.Finish? && op.flight.task == p))
  }

  lemma RevivableKept(cfg: Config, c: Change, t: Task, now: Time)
    requires Enabled(cfg, c, t, now) && Revivable(cfg, t)
    ensures Alive(cfg, Changed(cfg, c, t, now))
  {
  }

  lemma OneParentKept(cfg: Config, s: State, op: Op, r: State, child: TaskId, p: TaskId)
    requires EdgesInv(s) && RowsFollow(cfg, s, op, r) && StaysBlocked(s, r, child)
    requires Edge(p, child) in s.edges && p in s.tasks && p in r.tasks
    ensures ParentKept(cfg, s, r, op, p)
  {
    assert RowFollows(cfg, s, op, r, p);
    if s.tasks[p].status == Success {
      SuccessKept(cfg, s, op, r, p);
    } else if !Terminal(s.tasks[p].status) {
      ParentsDoNotFail(cfg, s, op, r, child, p);
    } else if Revivable(cfg, s.tasks[p]) {
      RevivableKept(cfg, ChangeOf(cfg, s, op, p), s.tasks[p], s.now);
    }
  }

  lemma ParentsKept(cfg: Config, s: State, op: Op, r: State, child: TaskId)
    requires EdgesInv(s) && Followed(cfg, s, op, r) && StaysBlocked(s, r, child) && !op.PurgeTask?
    ensures forall p :: Edge(p, child) in s.edges <==> Edge(p, child) in r.edges
    ensures forall p :: Edge(p, child) in s.edges ==> p in s.tasks && p in r.tasks && ParentKept(cfg, s, r, op, p)
  {
    forall p | Edge(p, child) in s.edges ensures p in s.tasks && p in r.tasks && ParentKept(cfg, s, r, op, p) {
      ParentIsOlder(s, p, child);
      OneParentKept(cfg, s, op, r, child, p);
    }
  }

  lemma NothingDeleted(cfg: Config, s: State, op: Op)
    requires DbInv(s) && !op.PurgeTask?
    ensures s.tasks.Keys <= Apply(cfg, s, op).tasks.Keys
  {
    StepFollows(cfg, s, op);
    if op.Create? {
      CreateRows(cfg, s, op);
    }
  }

  /** A worker of the running task `p` reports success. */
  predicate Reports(s: State, op: Op, p: TaskId) {
    && op.Finish? && op.outcome == Completed && op.flight.task == p
    && op.flight in s.flights && p in s.tasks && s.tasks[p].status == Running
  }

  /** When a parent succeeds and the child stays blocked, another parent has not succeeded. */
  lemma SuccessLeavesReason(cfg: Config, s: State, op: Op, r: State, child: TaskId)
    requires EdgesInv(s) && RowsFollow(cfg, s, op, r) && StaysBlocked(s, r, child) && op.Finish?
    requires op.flight.task in s.tasks && op.flight.task in r.tasks && Edge(op.flight.task, child) in s.edges
    requires s.tasks[op.flight.task].status != Success && r.tasks[op.flight.task].status == Success
    ensures exists p :: p in s.tasks && p != op.flight.task && Edge(p, child) in s.edges && s.tasks[p].status != Success
  {
    var root := op.flight.task;
    LastParent(cfg, s, op, r, root);
    BlockedChange(cfg, s, op, r, child);
    NotFreed(cfg, s, op, child);
    var p :| p in ParentsOf(s.edges, child) && p in s.tasks && p != root && s.tasks[p].status != Success;
    assert Edge(p, child) in s.edges;
  }

  lemma NotFreed(cfg: Config, s: State, op: Op, child: TaskId)
    requires EdgesInv(s) && child in CreatedTasks(s) && !ChangeOf(cfg, s, op, child).Unblock?
    requires op.Finish? && Reports(s, op, op.flight.task) && Edge(op.flight.task, child) in s.edges
    ensures !OthersSucceeded(s, op.flight.task, child)
  {
    assert child != op.flight.task;
    assert child !in FreedBy(s, op.flight.task);
  }

  /** A dependent with a reason to wait keeps one: the step cancels it, frees it, or leaves some
      parent on its way and none failed. */
  lemma StepKeepsWaiting(cfg: Config, s: State, op: Op, r: State, child: TaskId)
    requires EdgesInv(s) && Followed(cfg, s, op, r) && StaysBlocked(s, r, child) && !op.PurgeTask? && Waits(cfg, s, child)
    ensures Waits(cfg, r, child)
  {
    ParentsKept(cfg, s, op, r, child);
    var p :| p in s.tasks && Edge(p, child) in s.edges && Alive(cfg, s.tasks[p]);
    if !Alive(cfg, r.tasks[p]) {
      SuccessLeavesReason(cfg, s, op, r, child);
      var q :| q in s.tasks && q != p && Edge(q, child) in s.edges && s.tasks[q].status != Success;
      assert ParentKept(cfg, s, r, op, q);
      assert Alive(cfg, r.tasks[q]);
    }
  }

  /** A blocked dependent all of whose parents are done had all of them done before the step:
      no step completes the set of parents without freeing the child, and none undoes it. */
  lemma StepKeepsAllDone(cfg: Config, s: State, op: Op, r: State, child: TaskId)
    requires EdgesInv(s) && Followed(cfg, s, op, r) && StaysBlocked(s, r, child) && !op.PurgeTask?
    ensures AllDone(s, child) <==> AllDone(r, child)
  {
    ParentsKept(cfg, s, op, r, child);
    if AllDone(r, child) && !AllDone(s, child) {
      var p :| p in s.tasks && Edge(p, child) in s.edges && s.tasks[p].status != Success;
      LastParent(cfg, s, op, r, p);
      SuccessLeavesReason(cfg, s, op, r, child);
      var q :| q in s.tasks && q != op.flight.task && Edge(q, child) in s.edges && s.tasks[q].status != Success;
      LastParent(cfg, s, op, r, q);
    }
  }

  /** Only the report of its own worker turns a task into a success. */
  lemma LastParent(cfg: Config, s: State, op: Op, r: State, p: TaskId)
    requires RowsFollow(cfg, s, op, r) && p in s.tasks && s.tasks[p].status != Success
    requires p in r.tasks && r.tasks[p].status == Success
    ensures Reports(s, op, p)
  {
    assert RowFollows(cfg, s, op, r, p);
    BecomesSuccess(cfg, s, op, p);
  }

  lemma BecomesSuccess(cfg: Config, s: State, op: Op, p: TaskId)
    requires p in s.tasks && s.tasks[p].status != Success
    requires Enabled(cfg, ChangeOf(cfg, s, op, p), s.tasks[p], s.now)
    requires Changed(cfg, ChangeOf(cfg, s, op, p), s.tasks[p], s.now).status == Success
    ensures Reports(s, op, p)
  {
  }

  ghost predicate NoPurge(ops: seq<Op>) {
    forall i :: 0 <= i < |ops| ==> !ops[i].PurgeTask?
  }

  /** `created` is never entered again. */
  lemma CreatedBefore(cfg: Config, s: State, op: Op, r: State, child: TaskId)
    requires RowsFollow(cfg, s, op, r) && child in s.tasks && child in r.tasks && r.tasks[child].status == Created
    ensures s.tasks[child].status == Created
  {
    assert RowFollows(cfg, s, op, r, child);
    ReentersCreated(cfg, ChangeOf(cfg, s, op, child), s.tasks[child], s.now);
  }

  lemma ReentersCreated(cfg: Config, c: Change, t: Task, now: Time)
    requires Enabled(cfg, c, t, now) && Changed(cfg, c, t, now).status == Created
    ensures t.status == Created
  {
  }

  /** What registration decides stays decided from `s` to `r`. */
  ghost predicate Decides(cfg: Config, s: State, r: State, child: TaskId) {
    && child in s.tasks && s.tasks[child].status == Created
    && (AllDone(s, child) <==> AllDone(r, child))
    && (Waits(cfg, s, child) ==> Waits(cfg, r, child))
  }

  lemma StepDecides(cfg: Config, s: State, op: Op, r: State, child: TaskId)
    requires EdgesInv(s) && Followed(cfg, s, op, r) && !op.PurgeTask? && child in s.tasks
    requires child in r.tasks && r.tasks[child].status == Created
    ensures Decides(cfg, s, r, child)
  {
    CreatedBefore(cfg, s, op, r, child);
    StepKeepsAllDone(cfg, s, op, r, child);
    if Waits(cfg, s, child) {
      StepKeepsWaiting(cfg, s, op, r, child);
    }
  }

  lemma StillDecides(cfg: Config, s: State, op: Op, last: State, child: TaskId)
    requires DbInv(s) && !op.PurgeTask? && child in s.tasks && Decides(cfg, Apply(cfg, s, op), last, child)
    ensures Decides(cfg, s, last, child)
  {
    StepIsFollowed(cfg, s, op);
    StepDecides(cfg, s, op, Apply(cfg, s, op), child);
  }

  lemma GoesOn(cfg: Config, s: State, op: Op, child: TaskId)
    requires DbInv(s) && child in s.tasks && !op.PurgeTask?
    ensures DbInv(Apply(cfg, s, op)) && child in Apply(cfg, s, op).tasks
  {
    StepKeepsInv(cfg, s, op);
    NothingDeleted(cfg, s, op);
  }

  lemma {:induction false} RunDecides(cfg: Config, s: State, ops: seq<Op>, child: TaskId)
    requires DbInv(s) && child in s.tasks && NoPurge(ops)
    requires child in Exec(cfg, s, ops).tasks && Exec(cfg, s, ops).tasks[child].status == Created
    ensures Decides(cfg, s, Exec(cfg, s, ops), child)
    decreases |ops|
  {
    if ops != [] {
      assert !ops[0].PurgeTask?;
      GoesOn(cfg, s, ops[0], child);
      RunDecides(cfg, Apply(cfg, s, ops[0]), ops[1..], child);
      StillDecides(cfg, s, ops[0], Exec(cfg, s, ops), child);
    }
  }

  /** `r` continues `s` without deleting a task. */
  ghost predicate Continues(cfg: Config, s: State, r: State) {
    exists ops :: NoPurge(ops) && Runs(cfg, s, ops, r)
  }

  /** Registration decides: in any continuation, a dependent that is still created has all its parents
      done exactly if it had them all done at the start. */
  lemma RegistrationDecides(cfg: Config, s: State, r: State, child: TaskId)
    requires Reachable(cfg, s) && child in s.tasks && Continues(cfg, s, r)
    requires child in r.tasks && r.tasks[child].status == Created
    ensures AllDone(s, child) <==> AllDone(r, child)
  {
    ReachableInv(cfg, s);
    var ops :| NoPurge(ops) && Runs(cfg, s, ops, r);
    RunsIsExec(cfg, s, ops, r);
    RunDecides(cfg, s, ops, child);
  }

  /** A dependent with a reason to wait keeps one as long as it is created: some parent on its way, and
      none that failed. */
  lemma ReasonIsKept(cfg: Config, s: State, r: State, child: TaskId)
    requires Reachable(cfg, s) && child in s.tasks && Continues(cfg, s, r) && Waits(cfg, s, child)
    requires child in r.tasks && r.tasks[child].status == Created
    ensures Waits(cfg, r, child)
  {
    ReachableInv(cfg, s);
    var ops :| NoPurge(ops) && Runs(cfg, s, ops, r);
    RunsIsExec(cfg, s, ops, r);
    RunDecides(cfg, s, ops, child);
  }
}
