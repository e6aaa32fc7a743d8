/** What `schedule_at` promises.  A task without dependencies is not queued before its time; a
    dependent is queued the moment it is freed, whatever time it was given. */
module Schedules {
  import opened Rows
  import opened Store
  import opened Protocol
  import opened Steps
  import opened Delivery
  import opened Gate
  import opened Draining

  predicate WasQueued(t: Task) {
    exists i :: 0 <= i < |t.log| && t.log[i].oldStatus != Queued && t.log[i].newStatus == Queued
  }

  lemma QueuedByChange(cfg: Config, c: Change, t: Task, now: Time)
    requires Enabled(cfg, c, t, now)
    ensures WasQueued(Changed(cfg, c, t, now)) <==> WasQueued(t) || EntersQueue(c)
  {
    ChangedLog(cfg, c, t, now);
    var u := Changed(cfg, c, t, now);
    var added := EventsOf(c, t);
    AddedEntries(cfg, c, t, now);
    if WasQueued(t) {
      var i :| 0 <= i < |t.log| && t.log[i].oldStatus != Queued && t.log[i].newStatus == Queued;
      assert u.log[i] == t.log[i];
    }
    if EntersQueue(c) {
      assert u.log[|t.log|] == added[0];
    }
    if WasQueued(u) {
      var i :| 0 <= i < |u.log| && u.log[i].oldStatus != Queued && u.log[i].newStatus == Queued;
      if i < |t.log| {
        assert t.log[i] == u.log[i];
      } else {
        assert u.log[i] == added[i - |t.log|];
      }
    }
  }

  lemma AddedEntries(cfg: Config, c: Change, t: Task, now: Time)
    requires Enabled(cfg, c, t, now)
    ensures EntersQueue(c) ==> |EventsOf(c, t)| == 1 && EventsOf(c, t)[0].oldStatus != Queued && EventsOf(c, t)[0].newStatus == Queued
    ensures !EntersQueue(c) ==> forall i :: 0 <= i < |EventsOf(c, t)| ==> EventsOf(c, t)[i].newStatus != Queued
  {
  }

  /** Before `at`: either never queued and still held back, or queued by being freed. */
  predicate Planned(t: Task, at: Time) {
    && (WasQueued(t) <==> WasUnblocked(t))
    && (!WasQueued(t) ==> t.status == Created || HoldsBack(t, at))
  }

  lemma ChangePlanned(cfg: Config, c: Change, t: Task, now: Time, at: Time)
    requires Enabled(cfg, c, t, now) && Planned(t, at) && now < at && !c.RetryByHand?
    ensures Planned(Changed(cfg, c, t, now), at)
  {
    QueuedByChange(cfg, c, t, now);
    UnblockedByChange(cfg, c, t, now);
    if !WasQueued(t) {
      HeldChange(cfg, c, t, now, at);
    }
  }

  lemma HeldChange(cfg: Config, c: Change, t: Task, now: Time, at: Time)
    requires Enabled(cfg, c, t, now) && (t.status == Created || HoldsBack(t, at)) && now < at && !c.RetryByHand?
    ensures EntersQueue(c) <==> c.Unblock?
    ensures var u := Changed(cfg, c, t, now); !c.Unblock? ==> u.status == Created || HoldsBack(u, at)
  {
    if t.status != Created {
      ChangeHoldsBack(cfg, c, t, now, at);
    }
  }

  ghost predicate PlannedTask(s: State, id: TaskId, at: Time) {
    id < s.nextTask && (id in s.tasks ==> Planned(s.tasks[id], at))
  }

  lemma StepPlanned(cfg: Config, s: State, op: Op, id: TaskId, at: Time)
    requires DbInv(s) && PlannedTask(s, id, at) && s.now < at && !(op.RetryTask? && op.task == id)
    ensures PlannedTask(Apply(cfg, s, op), id, at)
  {
    var r := Apply(cfg, s, op);
    NextTaskGrows(cfg, s, op);
    if id in r.tasks {
      StepFollows(cfg, s, op);
      assert RowFollows(cfg, s, op, r, id);
      RetriedOnlyByHand(cfg, s, op, id);
      ChangePlanned(cfg, ChangeOf(cfg, s, op, id), s.tasks[id], s.now, at);
    }
  }

  ghost predicate Unretried(ops: seq<Op>, id: TaskId) {
    forall i :: 0 <= i < |ops| ==> !(ops[i].RetryTask? && ops[i].task == id)
  }

  lemma {:induction false} RunPlanned(cfg: Config, s: State, ops: seq<Op>, id: TaskId, at: Time)
    requires DbInv(s) && PlannedTask(s, id, at) && Exec(cfg, s, ops).now < at && Unretried(ops, id)
    ensures PlannedTask(Exec(cfg, s, ops), id, at)
    decreases |ops|
  {
    if ops != [] {
      assert !(ops[0].RetryTask? && ops[0].task == id);
      TimeOnlyGrows(cfg, s, ops);
      StepPlanned(cfg, s, ops[0], id, at);
      StepKeepsInv(cfg, s, ops[0]);
      RunPlanned(cfg, Apply(cfg, s, ops[0]), ops[1..], id, at);
    }
  }

  lemma NewPlanned(cfg: Config, s: State, op: Op)
    requires DbInv(s) && op.Create? && op.scheduleAt.Some? && op.scheduleAt.value > s.now && Apply(cfg, s, op) != s
    ensures PlannedTask(Apply(cfg, s, op), s.nextTask, op.scheduleAt.value)
  {
    CreateStep(s, op);
    CreatedPlanned(s, op);
  }

  lemma CreatedPlanned(s: State, op: Op)
    requires op.Create? && op.scheduleAt.Some? && op.scheduleAt.value > s.now
    ensures Planned(CreatedRow(s, op), op.scheduleAt.value)
  {
  }

  ghost predicate ContinuesUnretried(cfg: Config, s: State, r: State, id: TaskId) {
    exists ops :: Unretried(ops, id) && Runs(cfg, s, ops, r)
  }

  /** A task created with a future time has been queued before that time, unless it was retried by
      hand, exactly if it was freed as a dependent. */
  lemma QueuedEarlyExactlyWhenFreed(cfg: Config, s: State, op: Op, created: State, r: State)
    requires Reachable(cfg, s) && op.Create? && op.scheduleAt.Some? && op.scheduleAt.value > s.now
    requires Runs(cfg, s, [op], created) && created != s
    requires ContinuesUnretried(cfg, created, r, s.nextTask) && r.now < op.scheduleAt.value && s.nextTask in r.tasks
    ensures WasQueued(r.tasks[s.nextTask]) <==> WasUnblocked(r.tasks[s.nextTask])
  {
    ReachableInv(cfg, s);
    OneStep(cfg, s, op, created);
    StepKeepsInv(cfg, s, op);
    NewPlanned(cfg, s, op);
    var ops :| Unretried(ops, s.nextTask) && Runs(cfg, created, ops, r);
    RunsIsExec(cfg, created, ops, r);
    RunPlanned(cfg, created, ops, s.nextTask, op.scheduleAt.value);
  }

  /** A task created without dependencies and with a future time is never queued before that time,
      unless it was retried by hand. */
  lemma NeverQueuedEarly(cfg: Config, s: State, op: Op, created: State, r: State)
    requires Reachable(cfg, s) && op.Create? && op.dependsOn == [] && op.scheduleAt.Some? && op.scheduleAt.value > s.now
    requires Runs(cfg, s, [op], created)
    requires ContinuesUnretried(cfg, created, r, s.nextTask) && r.now < op.scheduleAt.value && s.nextTask in r.tasks
    ensures !WasQueued(r.tasks[s.nextTask])
  {
    ReachableInv(cfg, s);
    OneStep(cfg, s, op, created);
    StepKeepsInv(cfg, s, op);
    NewNeverQueued(cfg, s, op);
    var ops :| Unretried(ops, s.nextTask) && Runs(cfg, created, ops, r);
    RunsIsExec(cfg, created, ops, r);
    RunNeverQueues(cfg, created, ops, s.nextTask, op.scheduleAt.value);
  }

  ghost predicate NeverQueued(s: State, id: TaskId, at: Time) {
    StillWaits(s, id, at) && (id in s.tasks ==> !WasQueued(s.tasks[id]))
  }

  lemma NewNeverQueued(cfg: Config, s: State, op: Op)
    requires DbInv(s) && op.Create? && op.dependsOn == [] && op.scheduleAt.Some? && op.scheduleAt.value > s.now
    ensures NeverQueued(Apply(cfg, s, op), s.nextTask, op.scheduleAt.value)
  {
    CreateStep(s, op);
    FreshNeverQueued(s, op);
  }

  lemma FreshNeverQueued(s: State, op: Op)
    requires op.Create? && op.dependsOn == [] && op.scheduleAt.Some? && op.scheduleAt.value > s.now
    ensures HoldsBack(CreatedRow(s, op), op.scheduleAt.value) && !WasQueued(CreatedRow(s, op))
  {
  }

  lemma StepNeverQueues(cfg: Config, s: State, op: Op, r: State, id: TaskId, at: Time)
    requires id in s.tasks && id in r.tasks && RowFollows(cfg, s, op, r, id)
    requires HoldsBack(s.tasks[id], at) && !WasQueued(s.tasks[id]) && s.now < at && !(op.RetryTask? && op.task == id)
    ensures !WasQueued(r.tasks[id])
  {
    RetriedOnlyByHand(cfg, s, op, id);
    QueuedByChange(cfg, ChangeOf(cfg, s, op, id), s.tasks[id], s.now);
    HeldChange(cfg, ChangeOf(cfg, s, op, id), s.tasks[id], s.now, at);
  }

  lemma {:induction false} RunNeverQueues(cfg: Config, s: State, ops: seq<Op>, id: TaskId, at: Time)
    requires DbInv(s) && NeverQueued(s, id, at) && Exec(cfg, s, ops).now < at && Unretried(ops, id)
    ensures NeverQueued(Exec(cfg, s, ops), id, at)
    decreases |ops|
  {
    if ops != [] {
      var r := Apply(cfg, s, ops[0]);
      assert !(ops[0].RetryTask? && ops[0].task == id);
      TimeOnlyGrows(cfg, s, ops);
      StepStillWaits(cfg, s, ops[0], id, at);
      NextTaskGrows(cfg, s, ops[0]);
      StepFollows(cfg, s, ops[0]);
      if id in r.tasks {
        assert RowFollows(cfg, s, ops[0], r, id);
        StepNeverQueues(cfg, s, ops[0], r, id, at);
      }
      StepKeepsInv(cfg, s, ops[0]);
      RunNeverQueues(cfg, r, ops[1..], id, at);
    }
  }
}
