/** Garbage collection: what one purge deletes, and what it can never delete. */
module Retention {
  import opened Rows
  import opened Store
  import opened Protocol
  import opened Steps
  import opened Selection
  import opened Sweeps
  import opened Gate

  function DoneTasks(cfg: Config, s: State): set<TaskId> {
    set id | id in s.tasks && DonePurgeable(cfg, s.tasks[id], s.now)
  }

  function OldDeadTasks(cfg: Config, s: State): set<TaskId> {
    set id | id in s.tasks && DeadPurgeable(cfg, s.tasks[id], s.now)
  }

  function OldRows(cfg: Config, s: State): set<nat> {
    set i | i in s.outbox && SentPurgeable(cfg, s.outbox[i], s.now)
  }

  function Members(ids: seq<nat>): set<nat> {
    set i | 0 <= i < |ids| :: ids[i]
  }

  function EdgesOutside(edges: seq<Edge>, gone: set<TaskId>): (r: seq<Edge>)
    ensures forall e :: e in r <==> e in edges && e.parent !in gone && e.child !in gone
  {
    if edges == [] then []
    else
      assert edges == [edges[0]] + edges[1..];
      (if edges[0].parent !in gone && edges[0].child !in gone then [edges[0]] else []) + EdgesOutside(edges[1..], gone)
  }

  /** One deletion statement; attempts, events and edges go with the rows. */
  function DeletedAll(s: State, gone: set<TaskId>): State {
    s.(tasks := s.tasks - gone, edges := EdgesOutside(s.edges, gone))
  }

  lemma {:induction false} EdgesOneMore(edges: seq<Edge>, gone: set<TaskId>, id: TaskId)
    ensures EdgesWithout(EdgesOutside(edges, gone), id) == EdgesOutside(edges, gone + {id})
    decreases |edges|
  {
    if edges != [] {
      EdgesOneMore(edges[1..], gone, id);
      var e := edges[0];
      var rest := EdgesOutside(edges[1..], gone);
      if e.parent !in gone && e.child !in gone {
        assert ([e] + rest)[1..] == rest;
      } else {
        assert [] + rest == rest;
      }
    }
  }

  lemma {:induction false} EdgesNoneGone(edges: seq<Edge>)
    ensures EdgesOutside(edges, {}) == edges
    decreases |edges|
  {
    if edges != [] {
      EdgesNoneGone(edges[1..]);
      assert edges == [edges[0]] + edges[1..];
    }
  }

  predicate Purgeable(cfg: Config, t: Task, now: Time) {
    DonePurgeable(cfg, t, now) || DeadPurgeable(cfg, t, now)
  }

  /** A deletion statement over a selection is a run of single deletions. */
  lemma {:induction false} PurgeIsRun(cfg: Config, s: State, ids: seq<TaskId>)
    requires Distinct(ids) && forall x :: x in ids ==> x in s.tasks && Purgeable(cfg, s.tasks[x], s.now)
    ensures Exec(cfg, s, Each(ids, PurgeOp)) == DeletedAll(s, Members(ids))
    decreases |ids|
  {
    if ids == [] {
      assert Each(ids, PurgeOp) == [] && Members(ids) == {};
      EdgesNoneGone(s.edges);
      assert s.tasks - {} == s.tasks;
    } else {
      PurgeIsRun(cfg, s, ids[..|ids| - 1]);
      PurgeSnoc(cfg, s, ids, Exec(cfg, s, Each(ids[..|ids| - 1], PurgeOp)));
    }
  }

  lemma PurgeSnoc(cfg: Config, s: State, ids: seq<TaskId>, here: State)
    requires ids != [] && Distinct(ids) && forall x :: x in ids ==> x in s.tasks && Purgeable(cfg, s.tasks[x], s.now)
    requires here == Exec(cfg, s, Each(ids[..|ids| - 1], PurgeOp)) && here == DeletedAll(s, Members(ids[..|ids| - 1]))
    ensures Exec(cfg, s, Each(ids, PurgeOp)) == DeletedAll(s, Members(ids))
  {
    var last := |ids| - 1;
    assert ids[..last + 1] == ids;
    EachSnoc(cfg, s, ids, PurgeOp, last);
    MembersSnoc(ids);
    assert ids[last] in ids && ids[last] !in Members(ids[..last]);
    PurgeOneMore(cfg, s, Members(ids[..last]), ids[last]);
  }

  lemma PurgeOneMore(cfg: Config, s: State, gone: set<TaskId>, id: TaskId)
    requires id in s.tasks && id !in gone && Purgeable(cfg, s.tasks[id], s.now)
    ensures DoPurgeTask(cfg, DeletedAll(s, gone), id) == DeletedAll(s, gone + {id})
  {
    EdgesOneMore(s.edges, gone, id);
    assert s.tasks - gone - {id} == s.tasks - (gone + {id});
  }

  lemma MembersSnoc(ids: seq<nat>)
    requires ids != []
    ensures Members(ids) == Members(ids[..|ids| - 1]) + {ids[|ids| - 1]}
  {
    var last := |ids| - 1;
    forall x | x in Members(ids) ensures x in Members(ids[..last]) + {ids[last]} {
      var i :| 0 <= i < |ids| && ids[i] == x;
      if i < last {
        assert ids[..last][i] == x;
      }
    }
    forall x | x in Members(ids[..last]) ensures x in Members(ids) {
      var i :| 0 <= i < last && ids[..last][i] == x;
      assert ids[i] == x;
    }
  }

  lemma {:induction false} PurgeRowsIsRun(cfg: Config, s: State, ids: seq<nat>)
    requires Distinct(ids) && forall x :: x in ids ==> x in s.outbox && SentPurgeable(cfg, s.outbox[x], s.now)
    ensures Exec(cfg, s, Each(ids, PurgeRowOp)) == s.(outbox := s.outbox - Members(ids))
    decreases |ids|
  {
    if ids == [] {
      assert Each(ids, PurgeRowOp) == [] && Members(ids) == {};
      assert s.outbox - {} == s.outbox;
    } else {
      var last := |ids| - 1;
      var front := ids[..last];
      PurgeRowsIsRun(cfg, s, front);
      assert ids[..last + 1] == ids;
      EachSnoc(cfg, s, ids, PurgeRowOp, last);
      MembersSnoc(ids);
      assert ids[last] !in Members(front);
      assert s.outbox - Members(front) - {ids[last]} == s.outbox - Members(ids);
    }
  }

  /** What one purge of at most `limit` rows per selection leaves. */
  ghost predicate PurgedBy(cfg: Config, s: State, limit: nat, done: seq<TaskId>, dead: seq<TaskId>, rows: seq<nat>, r: State) {
    var s1 := DeletedAll(s, Members(done));
    var s2 := DeletedAll(s1, Members(dead));
    && Selected(done, DoneTasks(cfg, s), IdKey(DoneTasks(cfg, s)), limit)
    && Selected(dead, OldDeadTasks(cfg, s1), IdKey(OldDeadTasks(cfg, s1)), limit)
    && Selected(rows, OldRows(cfg, s2), IdKey(OldRows(cfg, s2)), limit)
    && r == s2.(outbox := s2.outbox - Members(rows))
  }

  /** A purge is a run of single deletions. */
  lemma PurgedIsRun(cfg: Config, s: State, limit: nat, done: seq<TaskId>, dead: seq<TaskId>, rows: seq<nat>, r: State)
    requires PurgedBy(cfg, s, limit, done, dead, rows, r)
    ensures r == Exec(cfg, s, Each(done, PurgeOp) + Each(dead, PurgeOp) + Each(rows, PurgeRowOp))
  {
    var s1 := DeletedAll(s, Members(done));
    var s2 := DeletedAll(s1, Members(dead));
    InSelection(done, DoneTasks(cfg, s), IdKey(DoneTasks(cfg, s)), limit);
    PurgeIsRun(cfg, s, done);
    InSelection(dead, OldDeadTasks(cfg, s1), IdKey(OldDeadTasks(cfg, s1)), limit);
    PurgeIsRun(cfg, s1, dead);
    InSelection(rows, OldRows(cfg, s2), IdKey(OldRows(cfg, s2)), limit);
    PurgeRowsIsRun(cfg, s2, rows);
    ExecConcat(cfg, s, Each(done, PurgeOp), Each(dead, PurgeOp));
    ExecConcat(cfg, s, Each(done, PurgeOp) + Each(dead, PurgeOp), Each(rows, PurgeRowOp));
  }

  lemma InSelection(ids: seq<nat>, candidates: set<nat>, key: map<nat, Time>, limit: nat)
    requires candidates <= key.Keys && Selected(ids, candidates, key, limit)
    ensures |ids| <= limit && forall x :: x in ids ==> x in candidates
    ensures forall x :: x in Members(ids) ==> x in candidates
  {
  }

  /** In a reachable state a purge deletes only finished tasks whose retention is over; every other
      task stays as it was, and so does every edge between two tasks that stay. */
  lemma RetentionIsSafe(cfg: Config, s: State, limit: nat, done: seq<TaskId>, dead: seq<TaskId>, rows: seq<nat>, r: State)
    requires Reachable(cfg, s) && PurgedBy(cfg, s, limit, done, dead, rows, r)
    ensures forall id :: id in s.tasks && id !in r.tasks ==>
              Terminal(s.tasks[id].status) && Purgeable(cfg, s.tasks[id], s.now)
    ensures forall id :: id in r.tasks ==> id in s.tasks && r.tasks[id] == s.tasks[id]
    ensures forall e :: e in r.edges <==> e in s.edges && e.parent in r.tasks && e.child in r.tasks
  {
    ReachableInv(cfg, s);
    var s1 := DeletedAll(s, Members(done));
    InSelection(done, DoneTasks(cfg, s), IdKey(DoneTasks(cfg, s)), limit);
    InSelection(dead, OldDeadTasks(cfg, s1), IdKey(OldDeadTasks(cfg, s1)), limit);
    forall id | id in s.tasks && id !in r.tasks
      ensures Terminal(s.tasks[id].status) && Purgeable(cfg, s.tasks[id], s.now)
    {
      assert Stamped(s.tasks[id]);
      assert id in Members(done) || id in Members(dead);
    }
    forall e | e in s.edges ensures e in r.edges <==> e.parent in r.tasks && e.child in r.tasks {}
  }

  /** In a reachable state a purge deletes only outbox rows that were sent long enough ago. */
  lemma OnlySentRowsGo(cfg: Config, s: State, limit: nat, done: seq<TaskId>, dead: seq<TaskId>, rows: seq<nat>, r: State)
    requires Reachable(cfg, s) && PurgedBy(cfg, s, limit, done, dead, rows, r)
    ensures forall i :: i in s.outbox && i !in r.outbox ==> s.outbox[i].status == Sent && SentPurgeable(cfg, s.outbox[i], s.now)
    ensures forall i :: i in r.outbox ==> i in s.outbox && r.outbox[i] == s.outbox[i]
  {
    ReachableInv(cfg, s);
    var s2 := DeletedAll(DeletedAll(s, Members(done)), Members(dead));
    InSelection(rows, OldRows(cfg, s2), IdKey(OldRows(cfg, s2)), limit);
  }

  /** A purge deletes at most `limit` rows per selection. */
  lemma PurgeIsBounded(cfg: Config, s: State, limit: nat, done: seq<TaskId>, dead: seq<TaskId>, rows: seq<nat>, r: State)
    requires PurgedBy(cfg, s, limit, done, dead, rows, r)
    ensures |s.tasks| - |r.tasks| <= 2 * limit && |s.outbox| - |r.outbox| <= limit
  {
    var s1 := DeletedAll(s, Members(done));
    var s2 := DeletedAll(s1, Members(dead));
    InSelection(done, DoneTasks(cfg, s), IdKey(DoneTasks(cfg, s)), limit);
    InSelection(dead, OldDeadTasks(cfg, s1), IdKey(OldDeadTasks(cfg, s1)), limit);
    InSelection(rows, OldRows(cfg, s2), IdKey(OldRows(cfg, s2)), limit);
    MembersSize(done);
    MembersSize(dead);
    MembersSize(rows);
    SizeAfter(s.tasks, s1.tasks, Members(done));
    SizeAfter(s1.tasks, s2.tasks, Members(dead));
    SizeAfter(s.outbox, r.outbox, Members(rows));
  }

  lemma MembersSize(ids: seq<nat>)
    requires Distinct(ids)
    ensures |Members(ids)| == |ids|
  {
    DistinctSize(ids);
  }

  lemma SizeAfter<T>(m: map<nat, T>, n: map<nat, T>, gone: set<nat>)
    requires n == m - gone
    ensures |m| - |n| <= |gone|
  {
    assert n.Keys == m.Keys - gone;
    assert |m.Keys| == |m.Keys - gone| + |m.Keys * gone|;
    Smaller(m.Keys * gone, gone);
  }

  /** A selection in the order of the primary key takes the candidates with fewer than `limit` before them. */
  lemma SelectedById(ids: seq<nat>, candidates: set<nat>, limit: nat, x: nat)
    requires Selected(ids, candidates, IdKey(candidates), limit) && x in candidates
    ensures x in ids <==> |set y | y in candidates && y < x| < limit
  {
    var before := set y | y in candidates && y < x;
    MembersSize(ids);
    if x in ids {
      var i :| 0 <= i < |ids| && ids[i] == x;
      TakenBefore(ids, candidates, limit, i);
      Smaller(before, Members(ids[..i]));
      MembersSize(ids[..i]);
    } else {
      LeftAfterAll(ids, candidates, limit, x);
      Smaller(Members(ids), before);
    }
  }

  lemma TakenBefore(ids: seq<nat>, candidates: set<nat>, limit: nat, i: nat)
    requires Selected(ids, candidates, IdKey(candidates), limit) && i < |ids|
    ensures (set y | y in candidates && y < ids[i]) <= Members(ids[..i])
  {
    forall y | y in candidates && y < ids[i] ensures y in Members(ids[..i]) {
      var key := IdKey(candidates);
      assert key[y] < key[ids[i]];
      var j :| 0 <= j < |ids| && ids[j] == y;
      assert j < i;
      assert ids[..i][j] == y;
    }
  }

  lemma LeftAfterAll(ids: seq<nat>, candidates: set<nat>, limit: nat, x: nat)
    requires Selected(ids, candidates, IdKey(candidates), limit) && x in candidates && x !in ids
    ensures |Members(ids)| == limit && Members(ids) <= (set y | y in candidates && y < x)
  {
    MembersSize(ids);
    forall y | y in Members(ids) ensures y in candidates && y < x {
      var key := IdKey(candidates);
      var j :| 0 <= j < |ids| && ids[j] == y;
      assert key[ids[j]] <= key[x];
    }
    assert Members(ids) <= candidates - {x};
    Smaller(Members(ids), candidates - {x});
  }

  /** A dead-lettered task that still has a retry ahead is deleted by a purge exactly if the retention
      of finished tasks, which does not look at the status, has run out for it and for fewer than
      `limit` older tasks.  The selection for dead letters never takes it. */
  lemma RevivablePurged(cfg: Config, s: State, limit: nat, done: seq<TaskId>, dead: seq<TaskId>, rows: seq<nat>, r: State, id: TaskId)
    requires PurgedBy(cfg, s, limit, done, dead, rows, r) && id in s.tasks && Revivable(cfg, s.tasks[id])
    ensures id !in r.tasks <==>
              DonePurgeable(cfg, s.tasks[id], s.now) && |set y | y in DoneTasks(cfg, s) && y < id| < limit
  {
    var s1 := DeletedAll(s, Members(done));
    InSelection(done, DoneTasks(cfg, s), IdKey(DoneTasks(cfg, s)), limit);
    InSelection(dead, OldDeadTasks(cfg, s1), IdKey(OldDeadTasks(cfg, s1)), limit);
    assert id !in Members(dead);
    if DonePurgeable(cfg, s.tasks[id], s.now) {
      SelectedById(done, DoneTasks(cfg, s), limit, id);
      assert id in done <==> id in Members(done);
    }
  }

  // ---------- retention and the dependency graph ----------

  /** No deletion in the run hits a task that the dead-letter sweep would still bring back. */
  ghost predicate SparesRevivable(cfg: Config, s: State, ops: seq<Op>)
    decreases |ops|
  {
    ops == [] ||
    (&& (ops[0].PurgeTask? && ops[0].task in s.tasks ==> !Revivable(cfg, s.tasks[ops[0].task]))
     && SparesRevivable(cfg, Apply(cfg, s, ops[0]), ops[1..]))
  }

  lemma AliveIsKept(cfg: Config, s: State, id: TaskId, p: TaskId)
    requires DbInv(s) && p in s.tasks && Alive(cfg, s.tasks[p])
    requires id in s.tasks ==> !Revivable(cfg, s.tasks[id])
    ensures p in DoPurgeTask(cfg, s, id).tasks && DoPurgeTask(cfg, s, id).tasks[p] == s.tasks[p]
  {
    assert Stamped(s.tasks[p]);
  }

  lemma EdgesBetweenKept(cfg: Config, s: State, id: TaskId, e: Edge)
    ensures var r := DoPurgeTask(cfg, s, id);
            && (e in r.edges ==> e in s.edges)
            && (e in s.edges && e.parent in r.tasks && e.child in r.tasks ==> e in r.edges)
            && (forall p :: p in r.tasks ==> p in s.tasks && r.tasks[p] == s.tasks[p])
  {
  }

  /** What a deletion does to the parents of a task that stays. */
  ghost predicate ParentsThinned(s: State, r: State, child: TaskId) {
    && (forall q :: Edge(q, child) in r.edges ==> Edge(q, child) in s.edges)
    && (forall q :: Edge(q, child) in s.edges && q in r.tasks ==> Edge(q, child) in r.edges)
    && (forall x :: x in r.tasks ==> x in s.tasks && r.tasks[x] == s.tasks[x])
  }

  lemma PurgeThins(cfg: Config, s: State, id: TaskId, child: TaskId)
    requires child in DoPurgeTask(cfg, s, id).tasks
    ensures ParentsThinned(s, DoPurgeTask(cfg, s, id), child)
  {
    EdgesBetweenKept(cfg, s, id, Edge(child, child));
    forall q ensures
        && (Edge(q, child) in DoPurgeTask(cfg, s, id).edges ==> Edge(q, child) in s.edges)
        && (Edge(q, child) in s.edges && q in DoPurgeTask(cfg, s, id).tasks ==> Edge(q, child) in DoPurgeTask(cfg, s, id).edges)
    {
      EdgesBetweenKept(cfg, s, id, Edge(q, child));
    }
  }

  lemma ThinnedWaits(cfg: Config, s: State, r: State, child: TaskId, p: TaskId)
    requires Waits(cfg, s, child) && ParentsThinned(s, r, child)
    requires p in r.tasks && Edge(p, child) in s.edges && Alive(cfg, r.tasks[p])
    ensures Waits(cfg, r, child)
  {
  }

  lemma PurgeKeepsWaiting(cfg: Config, s: State, id: TaskId, child: TaskId)
    requires DbInv(s) && child in s.tasks && s.tasks[child].status == Created && Waits(cfg, s, child)
    requires id in s.tasks ==> !Revivable(cfg, s.tasks[id])
    ensures child in DoPurgeTask(cfg, s, id).tasks && Waits(cfg, DoPurgeTask(cfg, s, id), child)
  {
    var p :| p in s.tasks && Edge(p, child) in s.edges && Alive(cfg, s.tasks[p]);
    AliveIsKept(cfg, s, id, p);
    AliveIsKept(cfg, s, id, child);
    PurgeThins(cfg, s, id, child);
    ThinnedWaits(cfg, s, DoPurgeTask(cfg, s, id), child, p);
  }

  /** Identities are never used twice. */
  lemma CreatedAllAlong(cfg: Config, s: State, op: Op, child: TaskId)
    requires DbInv(s) && child < s.nextTask
    requires child in Apply(cfg, s, op).tasks && Apply(cfg, s, op).tasks[child].status == Created
    ensures child in s.tasks && s.tasks[child].status == Created
  {
    StepIsFollowed(cfg, s, op);
    CreatedBefore(cfg, s, op, Apply(cfg, s, op), child);
  }

  lemma {:induction false} CreatedFromStart(cfg: Config, s: State, ops: seq<Op>, child: TaskId)
    requires DbInv(s) && child < s.nextTask
    requires child in Exec(cfg, s, ops).tasks && Exec(cfg, s, ops).tasks[child].status == Created
    ensures child in s.tasks && s.tasks[child].status == Created
    decreases |ops|
  {
    if ops != [] {
      StepKeepsInv(cfg, s, ops[0]);
      NextTaskGrows(cfg, s, ops[0]);
      CreatedFromStart(cfg, Apply(cfg, s, ops[0]), ops[1..], child);
      CreatedAllAlong(cfg, s, ops[0], child);
    }
  }

  lemma StepKeepsWaitingOrPurges(cfg: Config, s: State, op: Op, child: TaskId)
    requires DbInv(s) && StaysBlocked(s, Apply(cfg, s, op), child) && Waits(cfg, s, child)
    requires op.PurgeTask? && op.task in s.tasks ==> !Revivable(cfg, s.tasks[op.task])
    ensures Waits(cfg, Apply(cfg, s, op), child)
  {
    if op.PurgeTask? {
      PurgeKeepsWaiting(cfg, s, op.task, child);
    } else {
      OtherKeepsWaiting(cfg, s, op, child);
    }
  }

  lemma OtherKeepsWaiting(cfg: Config, s: State, op: Op, child: TaskId)
    requires DbInv(s) && StaysBlocked(s, Apply(cfg, s, op), child) && Waits(cfg, s, child) && !op.PurgeTask?
    ensures Waits(cfg, Apply(cfg, s, op), child)
  {
    StepIsFollowed(cfg, s, op);
    StepKeepsWaiting(cfg, s, op, Apply(cfg, s, op), child);
  }

  lemma {:induction false} RunKeepsReason(cfg: Config, s: State, ops: seq<Op>, child: TaskId)
    requires DbInv(s) && child in s.tasks && Waits(cfg, s, child) && SparesRevivable(cfg, s, ops)
    requires child in Exec(cfg, s, ops).tasks && Exec(cfg, s, ops).tasks[child].status == Created
    ensures Waits(cfg, Exec(cfg, s, ops), child)
    decreases |ops|
  {
    if ops != [] {
      assert child < s.nextTask;
      CreatedFromStart(cfg, s, ops, child);
      StepKeepsInv(cfg, s, ops[0]);
      NextTaskGrows(cfg, s, ops[0]);
      CreatedFromStart(cfg, Apply(cfg, s, ops[0]), ops[1..], child);
      StepKeepsWaitingOrPurges(cfg, s, ops[0], child);
      RunKeepsReason(cfg, Apply(cfg, s, ops[0]), ops[1..], child);
    }
  }

  ghost predicate ContinuesSparing(cfg: Config, s: State, r: State) {
    exists ops :: SparesRevivable(cfg, s, ops) && Runs(cfg, s, ops, r)
  }

  /** Retention may delete the finished parents of a blocked dependent: as long as it spares the
      dead letters that will be retried, a dependent that is still created keeps a parent that is
      on its way, and none that failed. */
  lemma WaitingSurvivesRetention(cfg: Config, s: State, r: State, child: TaskId)
    requires Reachable(cfg, s) && ContinuesSparing(cfg, s, r)
    requires child in s.tasks && Waits(cfg, s, child)
    requires child in r.tasks && r.tasks[child].status == Created
    ensures Waits(cfg, r, child)
  {
    ReachableInv(cfg, s);
    var ops :| SparesRevivable(cfg, s, ops) && Runs(cfg, s, ops, r);
    RunsIsExec(cfg, s, ops, r);
    RunKeepsReason(cfg, s, ops, child);
  }
}
