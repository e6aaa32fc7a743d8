/** How old things are when retention deletes them, told from the steps of the run: a task ages from the
    step that finished it, an outbox row from its publication. */
module Ageing {
  import opened Rows
  import opened Store
  import opened Cascade
  import opened Protocol
  import opened Steps
  import opened Selection
  import opened Sweeps
  import opened Retention
  import opened History
  import opened Delivery

  // ---------- the age of a finished task ----------

  /** Step `i` finished the task, nothing happened to its status since, and that was `age` ago. */
  ghost predicate RestsSince(trace: seq<State>, id: TaskId, i: nat, j: nat, age: Time) {
    && j < |trace| && id in trace[j].tasks && Terminal(trace[j].tasks[id].status)
    && InStatusSince(trace, id, trace[j].tasks[id].status, i, j) && trace[i].now + age <= trace[j].now
  }

  ghost predicate Rests(trace: seq<State>, id: TaskId, j: nat, age: Time) {
    exists i: nat :: RestsSince(trace, id, i, j, age)
  }

  lemma RestsExactly(cfg: Config, trace: seq<State>, ops: seq<Op>, id: TaskId, j: nat, age: Time)
    requires FromStart(cfg, trace, ops) && j <= |ops| && id in trace[j].tasks
    ensures var t := trace[j].tasks[id];
            Rests(trace, id, j, age) <==> t.finishedAt.Some? && t.finishedAt.value + age <= trace[j].now
  {
    TraceIsSound(cfg, trace, ops, j, j);
    assert Stamped(trace[j].tasks[id]);
    var st := trace[j].tasks[id].status;
    var i := SinceExists(cfg, trace, ops, id, st, j);
    SinceOrigin(cfg, trace, ops, id, st, i, j);
    if h: nat :| RestsSince(trace, id, h, j, age) {
      SinceIsUnique(trace, id, st, h, i, j);
    }
    if Terminal(st) && trace[i].now + age <= trace[j].now {
      assert RestsSince(trace, id, i, j, age);
    }
  }

  /** The tasks that finished at least the retention of finished tasks ago. */
  ghost function Ripe(cfg: Config, trace: seq<State>, j: nat): set<TaskId>
    requires j < |trace|
  {
    set id | id in trace[j].tasks && cfg.retainDone > 0.0 && Rests(trace, id, j, cfg.retainDone)
  }

  /** The dead letters without a planned return that were given up at least their retention ago. */
  ghost function RipeDead(cfg: Config, trace: seq<State>, j: nat): set<TaskId>
    requires j < |trace|
  {
    set id | id in trace[j].tasks && trace[j].tasks[id].status == DeadLetter && trace[j].tasks[id].dlqRetryAt.None?
             && cfg.retainDeadLetter > 0.0 && Rests(trace, id, j, cfg.retainDeadLetter)
  }

  lemma DoneIsRipe(cfg: Config, trace: seq<State>, ops: seq<Op>, j: nat)
    requires FromStart(cfg, trace, ops) && j <= |ops|
    ensures DoneTasks(cfg, trace[j]) == Ripe(cfg, trace, j)
  {
    forall id | id in trace[j].tasks ensures id in DoneTasks(cfg, trace[j]) <==> id in Ripe(cfg, trace, j) {
      RestsExactly(cfg, trace, ops, id, j, cfg.retainDone);
    }
  }

  lemma OldDeadIsRipe(cfg: Config, trace: seq<State>, ops: seq<Op>, j: nat)
    requires FromStart(cfg, trace, ops) && j <= |ops|
    ensures OldDeadTasks(cfg, trace[j]) == RipeDead(cfg, trace, j)
  {
    forall id | id in trace[j].tasks ensures id in OldDeadTasks(cfg, trace[j]) <==> id in RipeDead(cfg, trace, j) {
      RestsExactly(cfg, trace, ops, id, j, cfg.retainDeadLetter);
    }
  }

  // ---------- what a purge takes ----------

  /** `x` is one of the first `limit` elements. */
  ghost predicate AmongFirst(candidates: set<nat>, limit: nat, x: nat) {
    x in candidates && |set y | y in candidates && y < x| < limit
  }

  /** The dead letters that the first deletion of a purge leaves. */
  ghost function LeftDead(cfg: Config, trace: seq<State>, j: nat, limit: nat): set<TaskId>
    requires j < |trace|
  {
    set id | id in RipeDead(cfg, trace, j) && !AmongFirst(Ripe(cfg, trace, j), limit, id)
  }

  lemma TakesFirst(ids: seq<nat>, candidates: set<nat>, limit: nat, x: nat)
    requires Selected(ids, candidates, IdKey(candidates), limit)
    ensures x in Members(ids) <==> AmongFirst(candidates, limit, x)
  {
    if x in candidates {
      SelectedById(ids, candidates, limit, x);
    } else {
      InSelection(ids, candidates, IdKey(candidates), limit);
    }
  }

  lemma DeadAmongLeft(cfg: Config, s: State, gone: set<TaskId>)
    ensures OldDeadTasks(cfg, DeletedAll(s, gone)) == OldDeadTasks(cfg, s) - gone
  {
  }

  lemma SecondSelection(cfg: Config, trace: seq<State>, ops: seq<Op>, j: nat, limit: nat, done: seq<TaskId>)
    requires FromStart(cfg, trace, ops) && j <= |ops|
    requires Selected(done, DoneTasks(cfg, trace[j]), IdKey(DoneTasks(cfg, trace[j])), limit)
    ensures OldDeadTasks(cfg, DeletedAll(trace[j], Members(done))) == LeftDead(cfg, trace, j, limit)
  {
    DoneIsRipe(cfg, trace, ops, j);
    OldDeadIsRipe(cfg, trace, ops, j);
    DeadAmongLeft(cfg, trace[j], Members(done));
    forall id ensures id in Members(done) <==> AmongFirst(Ripe(cfg, trace, j), limit, id) {
      TakesFirst(done, DoneTasks(cfg, trace[j]), limit, id);
    }
  }

  /** At any moment of any run a purge deletes exactly the first `limit` tasks, by id, that finished at
      least `retainDone` ago, and of the dead letters that this leaves, that have no planned return and
      that were given up at least `retainDeadLetter` ago, the first `limit`. */
  lemma PurgeTakesTheOldest(cfg: Config, trace: seq<State>, ops: seq<Op>, j: nat, limit: nat,
                            done: seq<TaskId>, dead: seq<TaskId>, rows: seq<nat>, r: State, id: TaskId)
    requires FromStart(cfg, trace, ops) && j <= |ops| && PurgedBy(cfg, trace[j], limit, done, dead, rows, r)
    requires id in trace[j].tasks
    ensures id !in r.tasks <==> AmongFirst(Ripe(cfg, trace, j), limit, id) || AmongFirst(LeftDead(cfg, trace, j, limit), limit, id)
  {
    DoneIsRipe(cfg, trace, ops, j);
    SecondSelection(cfg, trace, ops, j, limit, done);
    TakesFirst(done, DoneTasks(cfg, trace[j]), limit, id);
    TakesFirst(dead, OldDeadTasks(cfg, DeletedAll(trace[j], Members(done))), limit, id);
  }

  lemma PurgeEffect(cfg: Config, s: State, id: TaskId)
    ensures var r := DoPurgeTask(cfg, s, id);
            if id in DoneTasks(cfg, s) + OldDeadTasks(cfg, s) then r.tasks == s.tasks - {id} else r == s
  {
  }

  lemma OnlyPurgesDelete(cfg: Config, s: State, op: Op, id: TaskId)
    requires DbInv(s) && id in s.tasks && id !in Apply(cfg, s, op).tasks
    ensures op == PurgeTask(id) && id in DoneTasks(cfg, s) + OldDeadTasks(cfg, s)
  {
    StepIsFollowed(cfg, s, op);
    DeletionIsPurge(cfg, s, op, Apply(cfg, s, op), id);
    PurgeEffect(cfg, s, op.task);
  }

  lemma DeletionIsPurge(cfg: Config, s: State, op: Op, r: State, id: TaskId)
    requires Followed(cfg, s, op, r) && id in s.tasks && id !in r.tasks
    ensures op.PurgeTask?
  {
  }

  /** No step of any run deletes a task before the retention that applies to it has passed since the step
      that finished it. */
  lemma DeletedOnlyWhenOld(cfg: Config, trace: seq<State>, ops: seq<Op>, id: TaskId, j: nat)
    requires FromStart(cfg, trace, ops) && j < |ops| && id in trace[j].tasks && id !in trace[j + 1].tasks
    ensures ops[j] == PurgeTask(id) && id in Ripe(cfg, trace, j) + RipeDead(cfg, trace, j)
  {
    DoneIsRipe(cfg, trace, ops, j);
    OldDeadIsRipe(cfg, trace, ops, j);
    TraceIsSound(cfg, trace, ops, j, j);
    assert StepAt(cfg, trace, ops, j + 1);
    OnlyPurgesDelete(cfg, trace[j], ops[j], id);
  }

  // ---------- the history of an outbox row ----------

  /** What a step does to an outbox row that stays. */
  function Relayed(o: OutboxRow, op: Op, i: nat, now: Time): OutboxRow {
    if o.status == Pending && op == Relay(i, Published) then OutboxRow(o.task, Sent, o.attempts + 1, Some(now))
    else if o.status == Pending && op == Relay(i, PublishFailed) then OutboxRow(o.task, Pending, o.attempts + 1, o.processedAt)
    else o
  }

  ghost predicate RowRelayed(s: State, op: Op, r: State, i: nat)
    requires i in r.outbox
  {
    if i in s.outbox then r.outbox[i] == Relayed(s.outbox[i], op, i, s.now)
    else i >= s.nextOutbox && r.outbox[i].(task := 0) == OutboxRow(0, Pending, 0, None)
  }

  ghost predicate RowsRelayed(s: State, op: Op, r: State) {
    forall i :: i in r.outbox ==> RowRelayed(s, op, r, i)
  }

  lemma CreateRelays(s: State, op: Op)
    requires op.Create? && s.nextTask !in s.tasks && OutboxInv(s)
    ensures RowsRelayed(s, op, DoCreate(s, op.maxAttempts, op.scheduleAt, op.batch, op.dependsOn))
  {
    CreateStep(s, op);
  }

  lemma ReleaseRelays(cfg: Config, s: State, op: Op)
    requires Releases(op) && OutboxInv(s)
    ensures RowsRelayed(s, op, Apply(cfg, s, op))
  {
    ReleaseFrame(cfg, s, op);
  }

  lemma CascadeRelays(cfg: Config, s: State, op: Op)
    requires DbInv(s) && (op.Finish? || op.CancelTask?)
    ensures RowsRelayed(s, op, Apply(cfg, s, op))
  {
    if op.Finish? {
      FinishStep(cfg, s, op.flight, op.outcome);
      GrowingRelays(s, op, Apply(cfg, s, op));
    } else {
      CancelStep(cfg, s, op.task);
    }
  }

  lemma GrowingRelays(s: State, op: Op, r: State)
    requires !op.Relay? && OutboxInv(s) && OutboxGrows(s, r)
    ensures RowsRelayed(s, op, r)
  {
    forall i | i in r.outbox ensures RowRelayed(s, op, r, i) {
      if i in s.outbox {
        assert i < s.nextOutbox;
      }
    }
  }

  lemma RelayRelays(s: State, row: nat, how: RelayOutcome)
    ensures RowsRelayed(s, Relay(row, how), DoRelay(s, row, how))
  {
  }

  lemma ShrinkingRelays(s: State, op: Op, r: State)
    requires !op.Relay? && forall i :: i in r.outbox ==> i in s.outbox && r.outbox[i] == s.outbox[i]
    ensures RowsRelayed(s, op, r)
  {
  }

  lemma PlainShrinks(cfg: Config, s: State, op: Op)
    requires Plain(op) && !op.Relay?
    ensures forall i :: i in Apply(cfg, s, op).outbox ==> i in s.outbox && Apply(cfg, s, op).outbox[i] == s.outbox[i]
  {
  }

  lemma PlainRelays(cfg: Config, s: State, op: Op)
    requires Plain(op) || op.Receive?
    ensures RowsRelayed(s, op, Apply(cfg, s, op))
  {
    if op.Relay? {
      RelayRelays(s, op.row, op.how);
    } else {
      if op.Receive? {
        ReceiveKeepsOutbox(cfg, s, op.task, op.worker);
      } else {
        PlainShrinks(cfg, s, op);
      }
      ShrinkingRelays(s, op, Apply(cfg, s, op));
    }
  }

  lemma StepRelays(cfg: Config, s: State, op: Op)
    requires DbInv(s)
    ensures RowsRelayed(s, op, Apply(cfg, s, op))
  {
    if op.Create? {
      CreateRelays(s, op);
    } else if op.Finish? || op.CancelTask? {
      CascadeRelays(cfg, s, op);
    } else if Releases(op) {
      ReleaseRelays(cfg, s, op);
    } else {
      PlainRelays(cfg, s, op);
    }
  }

  /** Step `k` tries to publish the row and commits what came of it. */
  predicate Tries(trace: seq<State>, ops: seq<Op>, i: nat, k: nat) {
    && k < |ops| && k < |trace| && (ops[k] == Relay(i, Published) || ops[k] == Relay(i, PublishFailed))
    && i in trace[k].outbox && trace[k].outbox[i].status == Pending
  }

  ghost function TriesBefore(trace: seq<State>, ops: seq<Op>, i: nat, j: nat): nat {
    if j == 0 then 0 else TriesBefore(trace, ops, i, j - 1) + if Tries(trace, ops, i, j - 1) then 1 else 0
  }

  /** Step `k` published the row. */
  predicate PublishedAt(trace: seq<State>, ops: seq<Op>, i: nat, k: nat) {
    Tries(trace, ops, i, k) && ops[k] == Relay(i, Published)
  }

  /** A row as the run tells it: sent since its publication, with every recorded try counted. */
  ghost predicate RowTold(trace: seq<State>, ops: seq<Op>, i: nat, j: nat)
    requires j < |trace| && i in trace[j].outbox
  {
    var o := trace[j].outbox[i];
    && o.attempts == TriesBefore(trace, ops, i, j)
    && (o.status == Sent <==> exists k: nat :: k < j && PublishedAt(trace, ops, i, k))
    && (forall k: nat :: k < j && PublishedAt(trace, ops, i, k) ==> o.processedAt == Some(trace[k].now))
  }

  lemma OutboxAt(cfg: Config, trace: seq<State>, ops: seq<Op>, j: nat)
    requires FromStart(cfg, trace, ops) && 0 < j <= |ops|
    ensures OutboxInv(trace[j - 1]) && trace[j - 1].nextOutbox <= trace[j].nextOutbox
    ensures RowsRelayed(trace[j - 1], ops[j - 1], trace[j])
  {
    TraceIsSound(cfg, trace, ops, j - 1, j - 1);
    assert StepAt(cfg, trace, ops, j);
    StepBooks(cfg, trace[j - 1], ops[j - 1]);
    StepRelays(cfg, trace[j - 1], ops[j - 1]);
  }

  lemma {:induction false} NothingTriedBefore(cfg: Config, trace: seq<State>, ops: seq<Op>, i: nat, j: nat)
    requires FromStart(cfg, trace, ops) && j <= |ops| && i >= trace[j].nextOutbox
    ensures TriesBefore(trace, ops, i, j) == 0 && forall k: nat :: k < j ==> !PublishedAt(trace, ops, i, k)
    decreases j
  {
    if j > 0 {
      OutboxAt(cfg, trace, ops, j);
      assert i !in trace[j - 1].outbox;
      NothingTriedBefore(cfg, trace, ops, i, j - 1);
    }
  }

  lemma ToldOn(trace: seq<State>, ops: seq<Op>, i: nat, j: nat)
    requires 0 < j < |trace| == |ops| + 1 && i in trace[j - 1].outbox && i in trace[j].outbox
    requires RowTold(trace, ops, i, j - 1) && trace[j].outbox[i] == Relayed(trace[j - 1].outbox[i], ops[j - 1], i, trace[j - 1].now)
    ensures RowTold(trace, ops, i, j)
  {
    if trace[j].outbox[i].status == Sent && !PublishedAt(trace, ops, i, j - 1) {
      var k: nat :| k < j - 1 && PublishedAt(trace, ops, i, k);
      assert k < j && PublishedAt(trace, ops, i, k);
    }
  }

  lemma ToldNew(cfg: Config, trace: seq<State>, ops: seq<Op>, i: nat, j: nat)
    requires FromStart(cfg, trace, ops) && 0 < j <= |ops| && i in trace[j].outbox && i !in trace[j - 1].outbox
    requires RowRelayed(trace[j - 1], ops[j - 1], trace[j], i)
    ensures RowTold(trace, ops, i, j)
  {
    NothingTriedBefore(cfg, trace, ops, i, j - 1);
    assert !Tries(trace, ops, i, j - 1);
  }

  /** In every run an outbox row is sent exactly if some step published it, and dated with the clock of
      that step; its attempts count the tries whose outcome was recorded. */
  lemma {:induction false} OutboxTellsTheRelay(cfg: Config, trace: seq<State>, ops: seq<Op>, i: nat, j: nat)
    requires FromStart(cfg, trace, ops) && j <= |ops| && i in trace[j].outbox
    ensures RowTold(trace, ops, i, j)
    decreases j
  {
    NoRowsAtFirst(cfg, trace, ops, i);
    OutboxAt(cfg, trace, ops, j);
    assert RowRelayed(trace[j - 1], ops[j - 1], trace[j], i);
    if i in trace[j - 1].outbox {
      OutboxTellsTheRelay(cfg, trace, ops, i, j - 1);
      ToldOn(trace, ops, i, j);
    } else {
      ToldNew(cfg, trace, ops, i, j);
    }
  }

  /** The relay finds a row pending exactly until some step published it. */
  lemma PendingExactlyUntilPublished(cfg: Config, trace: seq<State>, ops: seq<Op>, i: nat, j: nat)
    requires FromStart(cfg, trace, ops) && j <= |ops| && i in trace[j].outbox
    ensures i in PendingRows(trace[j]) <==> forall k: nat :: k < j ==> !PublishedAt(trace, ops, i, k)
  {
    OutboxTellsTheRelay(cfg, trace, ops, i, j);
  }

  lemma NoRowsAtFirst(cfg: Config, trace: seq<State>, ops: seq<Op>, i: nat)
    requires FromStart(cfg, trace, ops)
    ensures i !in trace[0].outbox
  {
  }

  /** The outbox rows that were published at least their retention ago. */
  ghost function RipeRows(cfg: Config, trace: seq<State>, ops: seq<Op>, j: nat): set<nat>
    requires j < |trace|
  {
    set i | i in trace[j].outbox && cfg.retainSent > 0.0 && PublishedFor(trace, ops, i, j, cfg.retainSent)
  }

  ghost predicate PublishedFor(trace: seq<State>, ops: seq<Op>, i: nat, j: nat, age: Time)
    requires j < |trace|
  {
    exists k: nat :: k < j && PublishedAt(trace, ops, i, k) && trace[k].now + age <= trace[j].now
  }

  lemma PublishedExactly(cfg: Config, trace: seq<State>, ops: seq<Op>, i: nat, j: nat, age: Time)
    requires FromStart(cfg, trace, ops) && j <= |ops| && i in trace[j].outbox
    ensures var o := trace[j].outbox[i];
            PublishedFor(trace, ops, i, j, age) <==> o.processedAt.Some? && o.processedAt.value + age <= trace[j].now
  {
    OutboxTellsTheRelay(cfg, trace, ops, i, j);
    SentIsDated(cfg, trace, ops, i, j);
  }

  lemma SentIsDated(cfg: Config, trace: seq<State>, ops: seq<Op>, i: nat, j: nat)
    requires FromStart(cfg, trace, ops) && j <= |ops| && i in trace[j].outbox
    ensures trace[j].outbox[i].processedAt.Some? <==> trace[j].outbox[i].status == Sent
  {
    TraceIsSound(cfg, trace, ops, j, j);
  }

  lemma OldRowsAreRipe(cfg: Config, trace: seq<State>, ops: seq<Op>, j: nat)
    requires FromStart(cfg, trace, ops) && j <= |ops|
    ensures OldRows(cfg, trace[j]) == RipeRows(cfg, trace, ops, j)
  {
    forall i | i in trace[j].outbox ensures i in OldRows(cfg, trace[j]) <==> i in RipeRows(cfg, trace, ops, j) {
      PublishedExactly(cfg, trace, ops, i, j, cfg.retainSent);
    }
  }

  /** At any moment of any run a purge deletes exactly the first `limit` outbox rows, by id, that were
      published at least their retention ago. */
  lemma PurgeTakesPublishedRows(cfg: Config, trace: seq<State>, ops: seq<Op>, j: nat, limit: nat,
                                done: seq<TaskId>, dead: seq<TaskId>, rows: seq<nat>, r: State, i: nat)
    requires FromStart(cfg, trace, ops) && j <= |ops| && PurgedBy(cfg, trace[j], limit, done, dead, rows, r)
    requires i in trace[j].outbox
    ensures i !in r.outbox <==> AmongFirst(RipeRows(cfg, trace, ops, j), limit, i)
  {
    OldRowsAreRipe(cfg, trace, ops, j);
    SameOldRows(cfg, trace[j], Members(done), Members(dead));
    TakesFirst(rows, OldRows(cfg, trace[j]), limit, i);
  }

  lemma SameOldRows(cfg: Config, s: State, first: set<TaskId>, second: set<TaskId>)
    ensures OldRows(cfg, DeletedAll(DeletedAll(s, first), second)) == OldRows(cfg, s)
    ensures DeletedAll(DeletedAll(s, first), second).outbox == s.outbox
  {
  }
}
