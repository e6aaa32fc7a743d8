/** No queued task is lost between the database and the broker. */
module Delivery {
  import opened Rows
  import opened Store
  import opened Cascade
  import opened Protocol
  import opened Steps
  import opened Selection
  import opened Sweeps

  /** Someone is still going to be told about the task. */
  ghost predicate Announced(s: State, id: TaskId) {
    HasPending(s, id) || s.broker[id] > 0
  }

  ghost predicate NothingLost(s: State) {
    forall id :: id in s.tasks && s.tasks[id].status == Queued ==> Announced(s, id)
  }

  /** The tasks that a step moves into `queued`. */
  ghost function Queueing(s: State, r: State): set<TaskId> {
    set id | id in r.tasks && r.tasks[id].status == Queued && (id !in s.tasks || s.tasks[id].status != Queued)
  }

  predicate EntersQueue(c: Change) {
    c.Recover? || c.ReleaseDue? || c.ReleaseDeadLetter? || c.RetryByHand? || c.Unblock?
  }

  lemma ChangeEntersQueue(cfg: Config, c: Change, t: Task, now: Time)
    requires Enabled(cfg, c, t, now)
    ensures t.status != Queued && Changed(cfg, c, t, now).status == Queued <==> EntersQueue(c)
    ensures t.status == Queued && Changed(cfg, c, t, now).status != Queued <==> c.Start? || (c.Cancel? && t.status == Queued)
  {
  }

  /** The tasks whose change is an entry into `queued`. */
  ghost function QueuedBy(cfg: Config, s: State, op: Op): set<TaskId> {
    set id | id in s.tasks && EntersQueue(ChangeOf(cfg, s, op, id))
  }

  lemma QueueingByChange(cfg: Config, s: State, op: Op, r: State)
    requires RowsFollow(cfg, s, op, r) && r.tasks.Keys == s.tasks.Keys
    ensures Queueing(s, r) == QueuedBy(cfg, s, op)
  {
    forall id | id in r.tasks ensures id in Queueing(s, r) <==> EntersQueue(ChangeOf(cfg, s, op, id)) {
      assert RowFollows(cfg, s, op, r, id);
      ChangeEntersQueue(cfg, ChangeOf(cfg, s, op, id), s.tasks[id], s.now);
    }
  }

  /** An orphan republication announces a task without moving it. */
  predicate Republishes(cfg: Config, s: State, op: Op) {
    op.RepublishTask? && IsOrphan(cfg, s, op.task)
  }

  /** The books of the outbox: each entry into `queued` adds exactly one row, and only an orphan
      republication adds a row without an entry. */
  ghost predicate Booked(cfg: Config, s: State, op: Op, r: State) {
    && r.nextOutbox == s.nextOutbox + |Queueing(s, r)| + (if Republishes(cfg, s, op) then 1 else 0)
    && forall id :: id in Queueing(s, r) ==> HasPending(r, id)
  }

  lemma OneEntryBooked(cfg: Config, s: State, op: Op, r: State, id: TaskId)
    requires Queueing(s, r) == {id} && OneMoreRow(s, r, id) && !Republishes(cfg, s, op)
    ensures Booked(cfg, s, op, r)
  {
    assert r.outbox[s.nextOutbox] == OutboxRow(id, Pending, 0, None);
  }

  lemma NoEntryBooked(cfg: Config, s: State, op: Op, r: State)
    requires Queueing(s, r) == {}
    requires r.nextOutbox == s.nextOutbox + if Republishes(cfg, s, op) then 1 else 0
    ensures Booked(cfg, s, op, r)
  {
  }

  lemma CreateBooks(cfg: Config, s: State, op: Op)
    requires op.Create? && DbInv(s)
    ensures Booked(cfg, s, op, Apply(cfg, s, op))
  {
    CreateStep(s, op);
    InsertedBooks(cfg, s, op, Apply(cfg, s, op));
  }

  lemma InsertedBooks(cfg: Config, s: State, op: Op, r: State)
    requires op.Create? && s.nextTask !in s.tasks && (r == s || Inserted(s, op, r))
    ensures Booked(cfg, s, op, r)
  {
    var id := s.nextTask;
    if r != s && r.tasks[id].status == Queued {
      assert Queueing(s, r) == {id};
      OneEntryBooked(cfg, s, op, r, id);
    } else {
      assert Queueing(s, r) == {};
      NoEntryBooked(cfg, s, op, r);
    }
  }

  lemma ReleaseBooks(cfg: Config, s: State, op: Op)
    requires Releases(op) && DbInv(s)
    ensures Booked(cfg, s, op, Apply(cfg, s, op))
  {
    var r := Apply(cfg, s, op);
    StepFollows(cfg, s, op);
    QueueingByChange(cfg, s, op, r);
    if QueuedBy(cfg, s, op) == {} {
      ReleaseIdle(cfg, s, op);
      NoEntryBooked(cfg, s, op, r);
    } else {
      ReleaseEntry(cfg, s, op);
      OneEntryBooked(cfg, s, op, r, op.task);
    }
  }

  lemma ReleaseEntry(cfg: Config, s: State, op: Op)
    requires Releases(op) && QueuedBy(cfg, s, op) != {}
    ensures QueuedBy(cfg, s, op) == {op.task} && OneMoreRow(s, Apply(cfg, s, op), op.task) && !Republishes(cfg, s, op)
  {
    ReleaseChanges(cfg, s, op);
    ReleaseFrame(cfg, s, op);
  }

  /** A sweep step moves its own task, or none. */
  lemma ReleaseChanges(cfg: Config, s: State, op: Op)
    requires Releases(op)
    ensures QueuedBy(cfg, s, op) == {} || QueuedBy(cfg, s, op) == {op.task}
    ensures QueuedBy(cfg, s, op) != {} ==> !op.RepublishTask?
    ensures QueuedBy(cfg, s, op) != {} ==> Apply(cfg, s, op).nextOutbox == s.nextOutbox + 1
  {
    forall id | id in QueuedBy(cfg, s, op) ensures id == op.task {}
    if op.task in QueuedBy(cfg, s, op) {
      assert QueuedBy(cfg, s, op) == {op.task};
    } else {
      assert QueuedBy(cfg, s, op) == {};
    }
  }

  lemma ReleaseIdle(cfg: Config, s: State, op: Op)
    requires Releases(op) && TasksInv(s) && QueuedBy(cfg, s, op) == {}
    ensures Apply(cfg, s, op).nextOutbox == s.nextOutbox + if Republishes(cfg, s, op) then 1 else 0
  {
    if op.task in s.tasks {
      assert op.task !in QueuedBy(cfg, s, op);
      assert Stamped(s.tasks[op.task]);
    }
  }

  lemma FinishQueues(cfg: Config, s: State, op: Op)
    requires op.Finish?
    ensures QueuedBy(cfg, s, op)
            == if op.flight in s.flights && op.flight.task in s.tasks && s.tasks[op.flight.task].status == Running
                  && op.outcome == Completed
               then FreedBy(s, op.flight.task) else {}
  {
  }

  lemma FinishBooks(cfg: Config, s: State, op: Op)
    requires op.Finish? && DbInv(s)
    ensures Booked(cfg, s, op, Apply(cfg, s, op))
  {
    var r := Apply(cfg, s, op);
    FinishStep(cfg, s, op.flight, op.outcome);
    QueueingByChange(cfg, s, op, r);
    FinishQueues(cfg, s, op);
    FinishPays(cfg, s, op);
  }

  lemma FinishPays(cfg: Config, s: State, op: Op)
    requires op.Finish? && DbInv(s)
    ensures Apply(cfg, s, op).nextOutbox == s.nextOutbox + |QueuedBy(cfg, s, op)|
    ensures forall id :: id in QueuedBy(cfg, s, op) ==> HasPending(Apply(cfg, s, op), id)
  {
    FinishQueues(cfg, s, op);
    if op.flight in s.flights && op.flight.task in s.tasks && s.tasks[op.flight.task].status == Running {
      if op.outcome == Completed {
        FinishSuccessStep(cfg, s, op.flight);
      } else {
        FinishFailureStep(cfg, s, op.flight, op.outcome);
      }
    } else {
      FinishLateStep(cfg, s, op.flight, op.outcome);
    }
  }

  lemma OtherBooks(cfg: Config, s: State, op: Op)
    requires DbInv(s) && !op.Create? && !op.Finish? && !Releases(op)
    ensures Booked(cfg, s, op, Apply(cfg, s, op))
  {
    var r := Apply(cfg, s, op);
    StepFollows(cfg, s, op);
    NextTaskGrows(cfg, s, op);
    NobodyQueues(cfg, s, op, r);
    if op.CancelTask? {
      CancelStep(cfg, s, op.task);
    } else {
      OtherOutbox(cfg, s, op);
    }
    NoEntryBooked(cfg, s, op, r);
  }

  lemma NobodyQueues(cfg: Config, s: State, op: Op, r: State)
    requires RowsFollow(cfg, s, op, r) && r.tasks.Keys <= s.tasks.Keys
    requires !op.Create? && !op.Finish? && !Releases(op)
    ensures Queueing(s, r) == {}
  {
    forall id | id in r.tasks ensures id !in Queueing(s, r) {
      assert RowFollows(cfg, s, op, r, id);
      ChangeEntersQueue(cfg, ChangeOf(cfg, s, op, id), s.tasks[id], s.now);
      OtherChanges(cfg, s, op, id);
    }
  }

  lemma OtherChanges(cfg: Config, s: State, op: Op, id: TaskId)
    requires id in s.tasks && !op.Create? && !op.Finish? && !Releases(op)
    ensures !EntersQueue(ChangeOf(cfg, s, op, id))
  {
  }

  lemma OtherOutbox(cfg: Config, s: State, op: Op)
    requires Plain(op) || op.Receive?
    ensures Apply(cfg, s, op).nextOutbox == s.nextOutbox
  {
    match op
    case Relay(row, how) => assert DoRelay(s, row, how).nextOutbox == s.nextOutbox;
    case Receive(id, worker) => assert DoReceive(cfg, s, id, worker).nextOutbox == s.nextOutbox;
    case _ =>
  }

  /** Every step balances the books of the outbox. */
  lemma StepBooks(cfg: Config, s: State, op: Op)
    requires DbInv(s)
    ensures Booked(cfg, s, op, Apply(cfg, s, op))
  {
    if op.Create? {
      CreateBooks(cfg, s, op);
    } else if op.Finish? {
      FinishBooks(cfg, s, op);
    } else if Releases(op) {
      ReleaseBooks(cfg, s, op);
    } else {
      OtherBooks(cfg, s, op);
    }
  }

  // ---------- announcements survive ----------

  /** A pending row is still pending, or its message is on the broker. */
  ghost predicate StillPending(s: State, op: Op, r: State, i: nat)
    requires i in s.outbox
  {
    || (i in r.outbox && r.outbox[i].status == Pending && r.outbox[i].task == s.outbox[i].task)
    || (op == Relay(i, Published) && r.broker[s.outbox[i].task] > 0)
  }

  lemma PendingKept(cfg: Config, s: State, op: Op, i: nat)
    requires DbInv(s) && i in s.outbox && s.outbox[i].status == Pending
    ensures StillPending(s, op, Apply(cfg, s, op), i)
  {
    if op.Create? {
      CreateKeepsPending(s, op, i);
    } else if op.Finish? {
      FinishStep(cfg, s, op.flight, op.outcome);
    } else if op.CancelTask? {
      CancelStep(cfg, s, op.task);
    } else if op.Receive? {
      ReceiveKeepsOutbox(cfg, s, op.task, op.worker);
    } else if Releases(op) {
      ReleaseKeepsPending(cfg, s, op, i);
    } else {
      PlainKeepsPending(cfg, s, op, i);
    }
  }

  lemma CreateKeepsPending(s: State, op: Op, i: nat)
    requires op.Create? && DbInv(s) && i in s.outbox && s.outbox[i].status == Pending
    ensures StillPending(s, op, DoCreate(s, op.maxAttempts, op.scheduleAt, op.batch, op.dependsOn), i)
  {
    CreateStep(s, op);
  }

  lemma ReleaseKeepsPending(cfg: Config, s: State, op: Op, i: nat)
    requires Releases(op) && OutboxInv(s) && i in s.outbox && s.outbox[i].status == Pending
    ensures StillPending(s, op, Apply(cfg, s, op), i)
  {
    ReleaseFrame(cfg, s, op);
  }

  lemma PlainKeepsPending(cfg: Config, s: State, op: Op, i: nat)
    requires Plain(op) && i in s.outbox && s.outbox[i].status == Pending && s.outbox[i].processedAt.None?
    ensures StillPending(s, op, Apply(cfg, s, op), i)
  {
  }

  lemma MessagesKept(cfg: Config, s: State, op: Op, id: TaskId)
    requires DbInv(s) && s.broker[id] > 0 && op != Lose(id) && !(op.Receive? && op.task == id)
    ensures Apply(cfg, s, op).broker[id] > 0
  {
    if op.Create? {
      CreateStep(s, op);
    } else if op.Finish? {
      FinishStep(cfg, s, op.flight, op.outcome);
    } else if op.CancelTask? {
      CancelStep(cfg, s, op.task);
    } else if Releases(op) {
      ReleaseFrame(cfg, s, op);
    } else {
      PlainMessages(cfg, s, op, id);
    }
  }

  lemma PlainMessages(cfg: Config, s: State, op: Op, id: TaskId)
    requires (Plain(op) || op.Receive?) && s.broker[id] > 0 && op != Lose(id) && !(op.Receive? && op.task == id)
    ensures Apply(cfg, s, op).broker[id] > 0
  {
    if op.Relay? {
      RelayAdds(s, op.row, op.how, id);
    } else if op.Receive? {
      ReceiveTakes(cfg, s, op.task, op.worker, id);
    }
  }

  lemma RelayAdds(s: State, row: nat, how: RelayOutcome, id: TaskId)
    ensures DoRelay(s, row, how).broker[id] >= s.broker[id]
  {
  }

  lemma ReceiveTakes(cfg: Config, s: State, task: TaskId, worker: WorkerId, id: TaskId)
    requires task != id
    ensures DoReceive(cfg, s, task, worker).broker[id] == s.broker[id]
  {
  }

  /** Taking the message of a queued task always starts it: nothing is acknowledged in vain. */
  lemma QueuedIsTaken(cfg: Config, s: State, id: TaskId, worker: WorkerId)
    requires DbInv(s) && id in s.tasks && s.tasks[id].status == Queued && s.broker[id] > 0
    ensures DoReceive(cfg, s, id, worker).tasks[id].status == Running
  {
    assert Stamped(s.tasks[id]);
  }

  lemma StepLosesNothing(cfg: Config, s: State, op: Op)
    requires DbInv(s) && NothingLost(s) && !op.Lose?
    ensures NothingLost(Apply(cfg, s, op))
  {
    var r := Apply(cfg, s, op);
    StepBooks(cfg, s, op);
    forall id | id in r.tasks && r.tasks[id].status == Queued ensures Announced(r, id) {
      if id !in Queueing(s, r) {
        StillAnnounced(cfg, s, op, id);
      }
    }
  }

  lemma StillAnnounced(cfg: Config, s: State, op: Op, id: TaskId)
    requires DbInv(s) && !op.Lose?
    requires id in s.tasks && s.tasks[id].status == Queued && Announced(s, id)
    requires id in Apply(cfg, s, op).tasks && Apply(cfg, s, op).tasks[id].status == Queued
    ensures Announced(Apply(cfg, s, op), id)
  {
    if HasPending(s, id) {
      var i :| i in s.outbox && s.outbox[i].status == Pending && s.outbox[i].task == id;
      PendingKept(cfg, s, op, i);
    } else if op.Receive? && op.task == id {
      QueuedIsTaken(cfg, s, id, op.worker);
    } else {
      MessagesKept(cfg, s, op, id);
    }
  }

  /** The run contains no message loss. */
  ghost predicate Lossless(ops: seq<Op>) {
    forall i :: 0 <= i < |ops| ==> !ops[i].Lose?
  }

  /** Without message loss every queued task has a pending outbox row or an undelivered message,
      after any run with crashes of the relay and of the workers and with redeliveries. */
  lemma {:induction false} NoLostWork(cfg: Config, s: State, ops: seq<Op>)
    requires DbInv(s) && NothingLost(s) && Lossless(ops)
    ensures NothingLost(Exec(cfg, s, ops))
    decreases |ops|
  {
    if ops != [] {
      StepKeepsInv(cfg, s, ops[0]);
      StepLosesNothing(cfg, s, ops[0]);
      NoLostWork(cfg, Apply(cfg, s, ops[0]), ops[1..]);
    }
  }

  // ---------- after a loss ----------

  /** Republishing touches neither rows nor messages and keeps every pending row. */
  lemma {:induction false} RepublicationAnnounces(cfg: Config, s: State, ids: seq<TaskId>)
    requires OutboxInv(s)
    ensures var r := Exec(cfg, s, Each(ids, OrphanOp));
            && OutboxInv(r) && r == s.(outbox := r.outbox, nextOutbox := r.nextOutbox)
            && (forall id :: HasPending(s, id) ==> HasPending(r, id))
            && (forall id :: id in ids && IsOrphan(cfg, s, id) ==> HasPending(r, id))
    decreases |ids|
  {
    if ids != [] {
      var s1 := DoRepublish(cfg, s, ids[0]);
      assert Each(ids, OrphanOp)[1..] == Each(ids[1..], OrphanOp);
      RepublishOne(cfg, s, ids[0]);
      RepublicationAnnounces(cfg, s1, ids[1..]);
    }
  }

  lemma RepublishOne(cfg: Config, s: State, id: TaskId)
    requires OutboxInv(s)
    ensures var r := DoRepublish(cfg, s, id);
            && OutboxInv(r) && r == s.(outbox := r.outbox, nextOutbox := r.nextOutbox)
            && (forall x :: HasPending(s, x) ==> HasPending(r, x))
            && (IsOrphan(cfg, s, id) ==> HasPending(r, id))
  {
    var r := DoRepublish(cfg, s, id);
    if IsOrphan(cfg, s, id) {
      assert r.outbox[s.nextOutbox] == OutboxRow(id, Pending, 0, None);
      forall x | HasPending(s, x) ensures HasPending(r, x) {
        var i :| i in s.outbox && s.outbox[i].status == Pending && s.outbox[i].task == x;
        assert r.outbox[i] == s.outbox[i];
      }
    }
  }

  /** A queued task that nobody is going to be told about. */
  ghost predicate Lost(s: State, id: TaskId) {
    id in s.tasks && s.tasks[id].status == Queued && !Announced(s, id)
  }

  /** One orphan sweep announces every task it selects and loses none; with room for all orphans,
      only tasks that are not yet stale can remain lost. */
  lemma SweepAnnounces(cfg: Config, s: State, ids: seq<TaskId>, limit: nat)
    requires DbInv(s) && Selected(ids, OrphanTasks(cfg, s), OrphanKey(s), limit)
    ensures var r := Exec(cfg, s, Each(ids, OrphanOp));
            && r == s.(outbox := r.outbox, nextOutbox := r.nextOutbox)
            && (forall id :: Lost(r, id) ==> Lost(s, id) && id !in ids)
            && (|OrphanTasks(cfg, s)| <= limit ==>
                  forall id :: Lost(r, id) ==> s.tasks[id].updatedAt > s.now - cfg.reconcileSeconds)
  {
    RepublicationAnnounces(cfg, s, ids);
    var r := Exec(cfg, s, Each(ids, OrphanOp));
    if |OrphanTasks(cfg, s)| <= limit {
      SelectedAll(ids, OrphanTasks(cfg, s), OrphanKey(s), limit);
      forall id | Lost(r, id) ensures s.tasks[id].updatedAt > s.now - cfg.reconcileSeconds {
        if s.tasks[id].updatedAt <= s.now - cfg.reconcileSeconds {
          LostIsOrphan(cfg, s, id);
        }
      }
    }
  }

  lemma LostIsOrphan(cfg: Config, s: State, id: TaskId)
    requires DbInv(s) && Lost(s, id) && s.tasks[id].updatedAt <= s.now - cfg.reconcileSeconds
    ensures id in OrphanTasks(cfg, s)
  {
    assert Stamped(s.tasks[id]);
  }

  ghost predicate Dated(s: State) {
    forall id :: id in s.tasks ==> s.tasks[id].updatedAt <= s.now
  }

  lemma ChangedDate(cfg: Config, c: Change, t: Task, now: Time)
    requires Enabled(cfg, c, t, now)
    ensures Changed(cfg, c, t, now).updatedAt == t.updatedAt || Changed(cfg, c, t, now).updatedAt == now
  {
  }

  lemma FollowedDates(cfg: Config, s: State, op: Op, r: State)
    requires Dated(s) && RowsFollow(cfg, s, op, r) && s.now <= r.now
    requires forall id :: id in r.tasks && id !in s.tasks ==> r.tasks[id].updatedAt <= r.now
    ensures Dated(r)
  {
    forall id | id in r.tasks ensures r.tasks[id].updatedAt <= r.now {
      if id in s.tasks {
        assert RowFollows(cfg, s, op, r, id);
        ChangedDate(cfg, ChangeOf(cfg, s, op, id), s.tasks[id], s.now);
      }
    }
  }

  lemma NewDate(cfg: Config, s: State, op: Op)
    requires DbInv(s)
    ensures forall id :: id in Apply(cfg, s, op).tasks && id !in s.tasks ==> Apply(cfg, s, op).tasks[id].updatedAt <= s.now
  {
    NextTaskGrows(cfg, s, op);
    if op.Create? {
      CreateStep(s, op);
    }
  }

  lemma StepKeepsDates(cfg: Config, s: State, op: Op)
    requires DbInv(s) && Dated(s)
    ensures Dated(Apply(cfg, s, op))
  {
    StepFollows(cfg, s, op);
    TimeGrows(cfg, s, op);
    NewDate(cfg, s, op);
    FollowedDates(cfg, s, op, Apply(cfg, s, op));
  }

  lemma {:induction false} RunKeepsDates(cfg: Config, s: State, ops: seq<Op>)
    requires DbInv(s) && Dated(s)
    ensures DbInv(Exec(cfg, s, ops)) && Dated(Exec(cfg, s, ops))
    decreases |ops|
  {
    if ops != [] {
      StepKeepsInv(cfg, s, ops[0]);
      StepKeepsDates(cfg, s, ops[0]);
      RunKeepsDates(cfg, Apply(cfg, s, ops[0]), ops[1..]);
    }
  }

  ghost predicate ReachableLossless(cfg: Config, s: State) {
    exists subs, now, ops :: Lossless(ops) && Runs(cfg, Init(subs, now), ops, s)
  }

  /** From the empty platform on. */
  lemma NoLostWorkFromStart(cfg: Config, s: State)
    requires ReachableLossless(cfg, s)
    ensures NothingLost(s)
  {
    var subs, now, ops :| Lossless(ops) && Runs(cfg, Init(subs, now), ops, s);
    RunsIsExec(cfg, Init(subs, now), ops, s);
    InitInv(subs, now);
    NoLostWork(cfg, Init(subs, now), ops);
  }
}
