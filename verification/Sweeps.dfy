/** Sweeps as sequences of steps, one step per selected task. */
module Sweeps {
  import opened Rows
  import opened Store
  import opened Protocol
  import opened Steps
  import opened Selection

  function Each(ids: seq<TaskId>, make: TaskId -> Op): (ops: seq<Op>)
    ensures |ops| == |ids| && forall i :: 0 <= i < |ids| ==> ops[i] == make(ids[i])
  {
    seq(|ids|, i requires 0 <= i < |ids| => make(ids[i]))
  }

  lemma EachSnoc(cfg: Config, s: State, ids: seq<TaskId>, make: TaskId -> Op, i: nat)
    requires i < |ids|
    ensures Exec(cfg, s, Each(ids[..i + 1], make)) == Apply(cfg, Exec(cfg, s, Each(ids[..i], make)), make(ids[i]))
  {
    assert Each(ids[..i + 1], make) == Each(ids[..i], make) + [make(ids[i])];
    ExecSnoc(cfg, s, Each(ids[..i], make), make(ids[i]));
  }

  function DueOp(id: TaskId): Op { ReleaseDueTask(id) }
  function DeadOp(id: TaskId): Op { ReleaseDeadTask(id) }
  function RecoverOp(id: TaskId): Op { RecoverTask(id) }
  function OrphanOp(id: TaskId): Op { RepublishTask(id) }
  function CancelOp(id: TaskId): Op { CancelTask(id) }
  function PurgeOp(id: TaskId): Op { PurgeTask(id) }
  function PurgeRowOp(row: nat): Op { PurgeOutbox(row) }

  /** At most the row of `id` differs, and no time has passed. */
  ghost predicate OneRow(s: State, r: State, id: TaskId) {
    && r.now == s.now && r.tasks.Keys == s.tasks.Keys
    && forall x :: x in s.tasks && x != id ==> r.tasks[x] == s.tasks[x]
  }

  lemma ReleaseIsOneRow(cfg: Config, s: State, op: Op)
    requires Releases(op)
    ensures OneRow(s, Apply(cfg, s, op), op.task)
  {
    if op.RecoverTask? {
      RecoverIsOneRow(s, op.task);
    } else if op.ReleaseDeadTask? {
      DeadIsOneRow(cfg, s, op.task);
    }
  }

  lemma RecoverIsOneRow(s: State, id: TaskId)
    ensures OneRow(s, DoRecover(s, id), id)
  {
  }

  lemma DeadIsOneRow(cfg: Config, s: State, id: TaskId)
    ensures OneRow(s, DoReleaseDead(cfg, s, id), id)
  {
  }

  /** The listed rows are as they were. */
  ghost predicate Untouched(before: State, s: State, ids: seq<TaskId>) {
    s.now == before.now && forall x :: x in ids ==> x in before.tasks && x in s.tasks && s.tasks[x] == before.tasks[x]
  }

  lemma StillUntouched(before: State, s: State, r: State, ids: seq<TaskId>, i: nat)
    requires i < |ids| && Selection.Distinct(ids) && Untouched(before, s, ids[i..]) && OneRow(s, r, ids[i])
    ensures Untouched(before, r, ids[i + 1..])
  {
    assert ids[i..] == [ids[i]] + ids[i + 1..];
    assert forall x :: x in ids[i + 1..] ==> x in ids[i..] && x != ids[i];
  }

  /** One round of a sweep. */
  lemma SweepRound(cfg: Config, before: State, ids: seq<TaskId>, make: TaskId -> Op, i: nat, s: State, r: State)
    requires i < |ids| && Selection.Distinct(ids)
    requires s == Exec(cfg, before, Each(ids[..i], make)) && Untouched(before, s, ids[i..])
    requires r == Apply(cfg, s, make(ids[i])) && Releases(make(ids[i])) && make(ids[i]).task == ids[i]
    ensures r == Exec(cfg, before, Each(ids[..i + 1], make)) && Untouched(before, r, ids[i + 1..])
  {
    EachSnoc(cfg, before, ids, make, i);
    ReleaseIsOneRow(cfg, s, make(ids[i]));
    StillUntouched(before, s, r, ids, i);
  }

  function DueTasks(cfg: Config, s: State): set<TaskId> {
    set id | id in s.tasks && IsDue(cfg, s, id)
  }

  function DueKey(s: State): map<TaskId, Time> {
    map id | id in s.tasks && s.tasks[id].scheduledAt.Some? :: s.tasks[id].scheduledAt.value
  }

  function DeadDueTasks(cfg: Config, s: State): set<TaskId> {
    set id | id in s.tasks && IsDeadDue(cfg, s, id)
  }

  function DeadDueKey(s: State): map<TaskId, Time> {
    map id | id in s.tasks && s.tasks[id].dlqRetryAt.Some? :: s.tasks[id].dlqRetryAt.value
  }

  function StuckTasks(s: State): set<TaskId> {
    set id | id in s.tasks && IsStuck(s, id)
  }

  function StuckKey(s: State): map<TaskId, Time> {
    map id | id in s.tasks && s.tasks[id].leaseExpiresAt.Some? :: s.tasks[id].leaseExpiresAt.value
  }

  function OrphanTasks(cfg: Config, s: State): set<TaskId> {
    set id | id in s.tasks && IsOrphan(cfg, s, id)
  }

  function OrphanKey(s: State): map<TaskId, Time> {
    map id | id in s.tasks :: s.tasks[id].updatedAt
  }

  function PendingRows(s: State): set<nat> {
    set i | i in s.outbox && s.outbox[i].status == Pending
  }

  /** Ordering by primary key. */
  function IdKey(ids: set<nat>): map<nat, Time> {
    map i | i in ids :: i as real
  }

  // ---------- the relay ----------

  function RelayHow(published: nat -> bool, commits: bool, row: nat): RelayOutcome {
    if commits then if published(row) then Published else PublishFailed
    else if published(row) then CrashedBeforeCommit else FailedBeforeCommit
  }

  function RelayAll(rows: seq<nat>, published: nat -> bool, commits: bool): (ops: seq<Op>)
    ensures |ops| == |rows| && forall i :: 0 <= i < |rows| ==> ops[i] == Relay(rows[i], RelayHow(published, commits, rows[i]))
  {
    seq(|rows|, i requires 0 <= i < |rows| => Relay(rows[i], RelayHow(published, commits, rows[i])))
  }

  lemma RelaySnoc(cfg: Config, s: State, rows: seq<nat>, published: nat -> bool, commits: bool, i: nat)
    requires i < |rows|
    ensures Exec(cfg, s, RelayAll(rows[..i + 1], published, commits))
            == DoRelay(Exec(cfg, s, RelayAll(rows[..i], published, commits)), rows[i], RelayHow(published, commits, rows[i]))
  {
    var op := Relay(rows[i], RelayHow(published, commits, rows[i]));
    assert RelayAll(rows[..i + 1], published, commits) == RelayAll(rows[..i], published, commits) + [op];
    ExecSnoc(cfg, s, RelayAll(rows[..i], published, commits), op);
  }

  /** The state as it is going to be committed, or lost. */
  ghost function Committing(s: State, rows: map<nat, OutboxRow>, commits: bool): State {
    if commits then s.(outbox := rows) else s
  }

  lemma RelayRound(cfg: Config, before: State, rows: seq<nat>, published: nat -> bool, commits: bool, i: nat, s: State, r: State)
    requires i < |rows| && s == Exec(cfg, before, RelayAll(rows[..i], published, commits))
    requires r == DoRelay(s, rows[i], RelayHow(published, commits, rows[i]))
    ensures r == Exec(cfg, before, RelayAll(rows[..i + 1], published, commits))
  {
    RelaySnoc(cfg, before, rows, published, commits, i);
  }

  // ---------- creating a batch ----------

  datatype Spec = Spec(maxAttempts: nat, scheduleAt: Option<Time>, dependsOn: seq<TaskId>)

  function CreateAll(specs: seq<Spec>, batch: nat): (ops: seq<Op>)
    ensures |ops| == |specs|
    ensures forall i :: 0 <= i < |specs| ==>
              ops[i] == Create(specs[i].maxAttempts, specs[i].scheduleAt, Some(batch), specs[i].dependsOn)
  {
    seq(|specs|, i requires 0 <= i < |specs| =>
      Create(specs[i].maxAttempts, specs[i].scheduleAt, Some(batch), specs[i].dependsOn))
  }

  lemma CreateSnoc(cfg: Config, s: State, specs: seq<Spec>, batch: nat, i: nat)
    requires i < |specs|
    ensures Exec(cfg, s, CreateAll(specs[..i + 1], batch))
            == DoCreate(Exec(cfg, s, CreateAll(specs[..i], batch)),
                        specs[i].maxAttempts, specs[i].scheduleAt, Some(batch), specs[i].dependsOn)
  {
    var op := Create(specs[i].maxAttempts, specs[i].scheduleAt, Some(batch), specs[i].dependsOn);
    assert CreateAll(specs[..i + 1], batch) == CreateAll(specs[..i], batch) + [op];
    ExecSnoc(cfg, s, CreateAll(specs[..i], batch), op);
  }
}
