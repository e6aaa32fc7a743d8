/** Cancelling many tasks in one go, while each cancellation cascades, and the progress of a batch. */
module Batches {
  import opened Rows
  import opened Store
  import opened Cascade
  import opened Protocol
  import opened Steps
  import opened Sweeps
  import History
  import Selection

  // ---------- cancelling a list of tasks ----------

  /** Cancelling `id` takes effect and reaches `x`. */
  ghost predicate Reaches(s: State, id: TaskId, x: TaskId) {
    id in s.tasks && Cancelable(s.tasks[id].status) && (x == id || BlockedBehind(s, id, x))
  }

  /** The tasks that end up cancelled, told from the statuses before the first cancellation. */
  ghost function Swept(s: State, ids: seq<TaskId>): set<TaskId> {
    set x | x in s.tasks && Cancelable(s.tasks[x].status) && exists i :: 0 <= i < |ids| && Reaches(s, ids[i], x)
  }

  ghost predicate SweptRows(s: State, gone: set<TaskId>, r: State) {
    && r == s.(tasks := r.tasks, hooks := r.hooks) && r.tasks.Keys == s.tasks.Keys
    && forall x :: x in s.tasks ==>
         r.tasks[x] == if x in gone then Moved(s.tasks[x], Cancelled, TaskCancelled, s.now) else s.tasks[x]
  }

  lemma {:induction false} PathConcat(s: State, from: TaskId, path: seq<TaskId>, more: seq<TaskId>)
    requires path != [] && CreatedPath(s, from, path) && CreatedPath(s, path[|path| - 1], more)
    ensures CreatedPath(s, from, path + more)
    decreases |path|
  {
    assert (path + more)[1..] == path[1..] + more;
    if |path| > 1 {
      PathConcat(s, path[0], path[1..], more);
    } else {
      assert path[1..] + more == more;
    }
  }

  lemma BehindTransitive(s: State, a: TaskId, b: TaskId, c: TaskId)
    requires BlockedBehind(s, a, b) && BlockedBehind(s, b, c)
    ensures BlockedBehind(s, a, c)
  {
    var path :| Blocks(s, a, path, b);
    var more :| Blocks(s, b, more, c);
    PathConcat(s, a, path, more);
    assert Blocks(s, a, path + more, c);
  }

  lemma ReachesTransitive(s: State, a: TaskId, b: TaskId, c: TaskId)
    requires Reaches(s, a, b) && (c == b || BlockedBehind(s, b, c))
    ensures Reaches(s, a, c)
  {
    if c != b && b != a {
      BehindTransitive(s, a, b, c);
    }
  }

  lemma BehindIsCreated(s: State, a: TaskId, x: TaskId)
    requires BlockedBehind(s, a, x)
    ensures x in CreatedTasks(s)
  {
    var path :| Blocks(s, a, path, x);
    LastIsCreated(s, a, path);
  }

  lemma SweptBy(s: State, ids: seq<TaskId>, b: TaskId, c: TaskId)
    requires b in Swept(s, ids) && (c == b || BlockedBehind(s, b, c))
    ensures c in Swept(s, ids)
  {
    var i :| 0 <= i < |ids| && Reaches(s, ids[i], b);
    ReachesTransitive(s, ids[i], b, c);
    if c != b {
      BehindIsCreated(s, b, c);
    }
  }

  lemma SweptSnoc(s: State, ids: seq<TaskId>, y: TaskId, x: TaskId)
    ensures x in Swept(s, ids + [y])
            <==> x in Swept(s, ids) || (x in s.tasks && Cancelable(s.tasks[x].status) && Reaches(s, y, x))
  {
    var all := ids + [y];
    assert all[|ids|] == y;
    if x in Swept(s, ids) {
      var i :| 0 <= i < |ids| && Reaches(s, ids[i], x);
      assert all[i] == ids[i];
    }
    if x in Swept(s, all) {
      var i :| 0 <= i < |all| && Reaches(s, all[i], x);
      if i < |ids| {
        assert ids[i] == all[i];
      }
    }
  }

  lemma StillCreated(s: State, gone: set<TaskId>, r: State)
    requires SweptRows(s, gone, r)
    ensures CreatedTasks(r) == CreatedTasks(s) - gone
  {
    forall x ensures x in CreatedTasks(r) <==> x in CreatedTasks(s) - gone {
      if x in s.tasks {}
    }
  }

  /** A waiting path to a task that is still there was not cut by the earlier cancellations. */
  lemma {:induction false} PathNotCut(s: State, ids: seq<TaskId>, r: State, from: TaskId, path: seq<TaskId>, x: TaskId)
    requires SweptRows(s, Swept(s, ids), r) && x !in Swept(s, ids)
    requires path != [] && CreatedPath(s, from, path) && path[|path| - 1] == x
    ensures CreatedPath(r, from, path)
    decreases |path|
  {
    StillCreated(s, Swept(s, ids), r);
    var next := path[0];
    if |path| > 1 {
      PathNotCut(s, ids, r, next, path[1..], x);
      assert Blocks(s, next, path[1..], x);
      if next in Swept(s, ids) {
        SweptBy(s, ids, next, x);
      }
    }
    assert next in CreatedTasks(r);
  }

  lemma DependentsLeft(s: State, ids: seq<TaskId>, r: State, y: TaskId, x: TaskId)
    requires SweptRows(s, Swept(s, ids), r) && y in s.tasks
    ensures x in Dependents(r, y) <==> x != y && x !in Swept(s, ids) && BlockedBehind(s, y, x)
  {
    StillCreated(s, Swept(s, ids), r);
    if x in Dependents(r, y) {
      BlockedEarlier(s, r, y, x);
    }
    if x != y && x !in Swept(s, ids) && BlockedBehind(s, y, x) {
      var path :| Blocks(s, y, path, x);
      PathNotCut(s, ids, r, y, path, x);
      assert Blocks(r, y, path, x);
      BehindIsCreated(s, y, x);
    }
  }

  /** One more cancellation. */
  lemma CancelOneMore(cfg: Config, s: State, ids: seq<TaskId>, r: State, y: TaskId)
    requires SweptRows(s, Swept(s, ids), r)
    ensures SweptRows(s, Swept(s, ids + [y]), DoCancel(r, y))
    ensures y in r.tasks && Cancelable(r.tasks[y].status)
            <==> y in s.tasks && Cancelable(s.tasks[y].status) && y !in Swept(s, ids)
  {
    var r' := DoCancel(r, y);
    if y in s.tasks && Cancelable(s.tasks[y].status) && y !in Swept(s, ids) {
      FailureCascade(r, y, Cancelled, TaskCancelled);
      forall x | x in s.tasks
        ensures r'.tasks[x] == if x in Swept(s, ids + [y]) then Moved(s.tasks[x], Cancelled, TaskCancelled, s.now) else s.tasks[x]
      {
        DependentsLeft(s, ids, r, y, x);
        SweptSnoc(s, ids, y, x);
        if BlockedBehind(s, y, x) {
          BehindIsCreated(s, y, x);
        }
      }
    } else {
      assert r' == r;
      forall x ensures x in Swept(s, ids + [y]) <==> x in Swept(s, ids) {
        SweptSnoc(s, ids, y, x);
        if Reaches(s, y, x) {
          SweptBy(s, ids, y, x);
        }
      }
      assert Swept(s, ids + [y]) == Swept(s, ids);
    }
  }

  /** The i-th cancellation takes effect exactly if its task could be cancelled at the start and no
      earlier cancellation had reached it. */
  ghost predicate EffectToldFromStart(cfg: Config, s: State, ids: seq<TaskId>, i: nat)
    requires i < |ids|
  {
    CanCancel(Exec(cfg, s, Each(ids[..i], CancelOp)), ids[i]) <==> TakesEffect(s, ids, i)
  }

  lemma EarlierEffect(cfg: Config, s: State, ids: seq<TaskId>, last: nat, i: nat)
    requires i < last <= |ids| && EffectToldFromStart(cfg, s, ids[..last], i)
    ensures EffectToldFromStart(cfg, s, ids, i)
  {
    assert ids[..last][..i] == ids[..i];
  }

  lemma CancelLast(cfg: Config, s: State, ids: seq<TaskId>, last: nat, here: State)
    requires last < |ids| && here == Exec(cfg, s, Each(ids[..last], CancelOp))
    requires SweptRows(s, Swept(s, ids[..last]), here)
    ensures SweptRows(s, Swept(s, ids[..last + 1]), Exec(cfg, s, Each(ids[..last + 1], CancelOp)))
    ensures EffectToldFromStart(cfg, s, ids, last)
  {
    assert ids[..last + 1] == ids[..last] + [ids[last]];
    EachSnoc(cfg, s, ids, CancelOp, last);
    CancelOneMore(cfg, s, ids[..last], here, ids[last]);
  }

  /** Cancelling any list of tasks, one after the other: exactly the tasks that could be cancelled at
      the start and were listed, or waited behind such a task, end up cancelled, once each, whatever
      the order of the list; no other row changes. */
  lemma {:induction false} CancelAll(cfg: Config, s: State, ids: seq<TaskId>)
    ensures SweptRows(s, Swept(s, ids), Exec(cfg, s, Each(ids, CancelOp)))
    ensures forall i :: 0 <= i < |ids| ==> EffectToldFromStart(cfg, s, ids, i)
    decreases |ids|
  {
    if ids == [] {
      assert Each(ids, CancelOp) == [] && Swept(s, ids) == {};
    } else {
      var last := |ids| - 1;
      CancelAll(cfg, s, ids[..last]);
      CancelLast(cfg, s, ids, last, Exec(cfg, s, Each(ids[..last], CancelOp)));
      assert ids[..last + 1] == ids;
      forall i | 0 <= i < last ensures EffectToldFromStart(cfg, s, ids, i) {
        EarlierEffect(cfg, s, ids, last, i);
      }
    }
  }

  lemma EffectTold(cfg: Config, s: State, ids: seq<TaskId>, i: nat)
    requires i < |ids|
    ensures CanCancel(Exec(cfg, s, Each(ids[..i], CancelOp)), ids[i]) <==> TakesEffect(s, ids, i)
  {
    CancelAll(cfg, s, ids);
    assert EffectToldFromStart(cfg, s, ids, i);
  }

  predicate CanCancel(s: State, id: TaskId) {
    id in s.tasks && Cancelable(s.tasks[id].status)
  }

  // ---------- cancelling a batch ----------

  function BatchTasks(s: State, b: nat): set<TaskId> {
    set id | id in s.tasks && s.tasks[id].batch == Some(b)
  }

  /** How many of the cancellations take effect. */
  ghost function CancelCount(cfg: Config, s: State, ids: seq<TaskId>): nat {
    if ids == [] then 0
    else
      var last := |ids| - 1;
      CancelCount(cfg, s, ids[..last])
      + if CanCancel(Exec(cfg, s, Each(ids[..last], CancelOp)), ids[last]) then 1 else 0
  }

  /** The listed tasks whose cancellation does not take effect, in order. */
  ghost function Refused(cfg: Config, s: State, ids: seq<TaskId>): seq<TaskId> {
    if ids == [] then []
    else
      var last := |ids| - 1;
      Refused(cfg, s, ids[..last])
      + if CanCancel(Exec(cfg, s, Each(ids[..last], CancelOp)), ids[last]) then [] else [ids[last]]
  }

  /** The state, the count and the conflicts after the first `i` cancellations. */
  ghost predicate CancelledSoFar(cfg: Config, s: State, ids: seq<TaskId>, i: nat, r: State, cancelled: nat, conflicts: seq<TaskId>)
    requires i <= |ids|
  {
    && r == Exec(cfg, s, Each(ids[..i], CancelOp))
    && cancelled == CancelCount(cfg, s, ids[..i]) && conflicts == Refused(cfg, s, ids[..i])
  }

  /** One round of the loop that cancels the listed tasks. */
  lemma CancelRound(cfg: Config, s: State, ids: seq<TaskId>, i: nat, here: State, cancelled: nat, conflicts: seq<TaskId>, r: State)
    requires i < |ids| && CancelledSoFar(cfg, s, ids, i, here, cancelled, conflicts) && r == DoCancel(here, ids[i])
    ensures if CanCancel(here, ids[i]) then CancelledSoFar(cfg, s, ids, i + 1, r, cancelled + 1, conflicts)
            else CancelledSoFar(cfg, s, ids, i + 1, r, cancelled, conflicts + [ids[i]])
  {
    OneMoreCancelled(cfg, s, ids, i, here, r);
    CountsSnoc(cfg, s, ids, i, here);
    if CanCancel(here, ids[i]) {
      assert CancelledSoFar(cfg, s, ids, i + 1, r, cancelled + 1, conflicts);
    }
  }

  lemma OneMoreCancelled(cfg: Config, s: State, ids: seq<TaskId>, i: nat, here: State, r: State)
    requires i < |ids| && here == Exec(cfg, s, Each(ids[..i], CancelOp)) && r == DoCancel(here, ids[i])
    ensures r == Exec(cfg, s, Each(ids[..i + 1], CancelOp))
  {
    EachSnoc(cfg, s, ids, CancelOp, i);
  }

  lemma CountsSnoc(cfg: Config, s: State, ids: seq<TaskId>, i: nat, here: State)
    requires i < |ids| && here == Exec(cfg, s, Each(ids[..i], CancelOp))
    ensures CancelCount(cfg, s, ids[..i + 1]) == CancelCount(cfg, s, ids[..i]) + (if CanCancel(here, ids[i]) then 1 else 0)
    ensures Refused(cfg, s, ids[..i + 1]) == Refused(cfg, s, ids[..i]) + (if CanCancel(here, ids[i]) then [] else [ids[i]])
  {
    assert ids[..i + 1][..i] == ids[..i];
  }

  lemma NothingCancelled(cfg: Config, s: State, ids: seq<TaskId>)
    ensures CancelledSoFar(cfg, s, ids, 0, s, 0, [])
  {
    assert Each(ids[..0], CancelOp) == [];
  }

  /** The positions at which a cancellation takes effect, told from the start: the task could be
      cancelled and no earlier cancellation reaches it. */
  ghost function EffectiveAt(s: State, ids: seq<TaskId>): set<nat> {
    set i | 0 <= i < |ids| && TakesEffect(s, ids, i)
  }

  ghost predicate TakesEffect(s: State, ids: seq<TaskId>, i: nat)
    requires i < |ids|
  {
    CanCancel(s, ids[i]) && ids[i] !in Swept(s, ids[..i])
  }

  lemma SamePrefix(s: State, ids: seq<TaskId>, n: nat, i: nat)
    requires i < n <= |ids|
    ensures TakesEffect(s, ids[..n], i) <==> TakesEffect(s, ids, i)
  {
    assert ids[..n][..i] == ids[..i];
  }

  lemma EffectiveSnoc(s: State, ids: seq<TaskId>)
    requires ids != []
    ensures var last := |ids| - 1;
            |EffectiveAt(s, ids)| == |EffectiveAt(s, ids[..last])| + if TakesEffect(s, ids, last) then 1 else 0
  {
    var last := |ids| - 1;
    var front := EffectiveAt(s, ids[..last]);
    forall i: nat ensures i in EffectiveAt(s, ids) <==> i in front || (i == last && TakesEffect(s, ids, last)) {
      if i < last {
        SamePrefix(s, ids, last, i);
      }
    }
    if TakesEffect(s, ids, last) {
      assert EffectiveAt(s, ids) == front + {last};
    } else {
      assert EffectiveAt(s, ids) == front;
    }
  }

  /** The number of cancelled tasks is the number of listed tasks that could be cancelled at the start
      and that no earlier cancellation reaches; everything else in the list is a conflict. */
  lemma {:induction false} CancelledMeans(cfg: Config, s: State, ids: seq<TaskId>)
    ensures CancelCount(cfg, s, ids) == |EffectiveAt(s, ids)|
    ensures |Refused(cfg, s, ids)| == |ids| - |EffectiveAt(s, ids)|
    decreases |ids|
  {
    CountsAddUp(cfg, s, ids);
    if ids != [] {
      CancelledMeans(cfg, s, ids[..|ids| - 1]);
      EffectTold(cfg, s, ids, |ids| - 1);
      EffectiveSnoc(s, ids);
    }
  }

  lemma {:induction false} CountsAddUp(cfg: Config, s: State, ids: seq<TaskId>)
    ensures CancelCount(cfg, s, ids) + |Refused(cfg, s, ids)| == |ids|
    decreases |ids|
  {
    if ids != [] {
      CountsAddUp(cfg, s, ids[..|ids| - 1]);
    }
  }

  /** What a batch cancellation does to one row: inside the batch it is cancelled exactly if it could
      be, outside exactly if it waited behind a task of the batch that could be. */
  ghost predicate BatchRow(s: State, b: nat, r: State, x: TaskId)
    requires x in s.tasks && x in r.tasks
  {
    if if x in BatchTasks(s, b) then Cancelable(s.tasks[x].status) else BehindBatch(s, b, x)
    then r.tasks[x] == Moved(s.tasks[x], Cancelled, TaskCancelled, s.now)
    else r.tasks[x] == s.tasks[x]
  }

  ghost predicate BehindBatch(s: State, b: nat, x: TaskId) {
    exists y :: y in BatchTasks(s, b) && Reaches(s, y, x)
  }

  lemma InsideBatch(s: State, b: nat, ids: seq<TaskId>, x: TaskId)
    requires forall y :: y in ids <==> y in BatchTasks(s, b)
    requires x in BatchTasks(s, b)
    ensures x in Swept(s, ids) <==> Cancelable(s.tasks[x].status)
  {
    assert x in ids;
    var i :| 0 <= i < |ids| && ids[i] == x;
    assert Cancelable(s.tasks[x].status) ==> Reaches(s, ids[i], x);
  }

  lemma BatchRowOf(s: State, b: nat, ids: seq<TaskId>, r: State, x: TaskId)
    requires forall y :: y in ids <==> y in BatchTasks(s, b)
    requires SweptRows(s, Swept(s, ids), r) && x in s.tasks
    ensures BatchRow(s, b, r, x) && r.tasks[x].batch == s.tasks[x].batch
    ensures x !in BatchTasks(s, b) && BehindBatch(s, b, x) ==> s.tasks[x].status == Created
  {
    if x in BatchTasks(s, b) {
      InsideBatch(s, b, ids, x);
    } else {
      OutsideBatch(s, b, ids, x);
    }
  }

  /** After a batch cancellation no task of the batch can be cancelled any more, every one that could
      be at the start is cancelled even when an earlier cascade reached it first, the others are as
      they were, and outside the batch only created tasks that waited behind the batch changed. */
  lemma BatchIsCancelled(cfg: Config, s: State, b: nat, ids: seq<TaskId>, r: State, x: TaskId)
    requires forall y :: y in ids <==> y in BatchTasks(s, b)
    requires x in s.tasks && Runs(cfg, s, Each(ids, CancelOp), r)
    ensures r.tasks.Keys == s.tasks.Keys && BatchRow(s, b, r, x)
    ensures x in BatchTasks(s, b) ==> x in BatchTasks(r, b) && !Cancelable(r.tasks[x].status)
    ensures x !in BatchTasks(s, b) && BehindBatch(s, b, x) ==> s.tasks[x].status == Created
  {
    RunsIsExec(cfg, s, Each(ids, CancelOp), r);
    CancelAll(cfg, s, ids);
    BatchRowMeans(s, b, ids, r, x);
  }

  /** In a reachable state every task of the batch is terminal afterwards: cancelled, unless it was
      terminal already. */
  lemma BatchIsTerminal(cfg: Config, s: State, b: nat, ids: seq<TaskId>, r: State, x: TaskId)
    requires Reachable(cfg, s) && forall y :: y in ids <==> y in BatchTasks(s, b)
    requires x in BatchTasks(s, b) && Runs(cfg, s, Each(ids, CancelOp), r)
    ensures x in r.tasks && Terminal(r.tasks[x].status)
    ensures if Terminal(s.tasks[x].status) then r.tasks[x] == s.tasks[x] else r.tasks[x].status == Cancelled
  {
    ReachableInv(cfg, s);
    assert Stamped(s.tasks[x]);
    BatchIsCancelled(cfg, s, b, ids, r, x);
  }

  /** The tasks of a batch are those that exist and were created for it. */
  lemma BatchExactly(cfg: Config, trace: seq<State>, ops: seq<Op>, b: nat, id: TaskId, j: nat)
    requires FromStart(cfg, trace, ops) && j <= |ops| && id in trace[j].tasks
    ensures id in BatchTasks(trace[j], b)
            <==> exists k: nat :: k < j && History.CreatedAt(trace, ops, id, k, trace[j].tasks[id]) && ops[k].batch == Some(b)
  {
    var k := History.EveryTaskIsAsRequested(cfg, trace, ops, id, j);
  }

  /** In a reachable state cancelling a task takes effect exactly if it is not terminal. */
  lemma CancelTakesEffect(cfg: Config, s: State, id: TaskId, r: State)
    requires Reachable(cfg, s) && id in s.tasks && Runs(cfg, s, [CancelTask(id)], r)
    ensures CanTransition(s.tasks[id].status, Cancelled) <==> !Terminal(s.tasks[id].status)
    ensures if Terminal(s.tasks[id].status) then r == s else id in r.tasks && r.tasks[id].status == Cancelled
  {
    ReachableStamped(cfg, s, id);
    OneStep(cfg, s, CancelTask(id), r);
    CancelEffect(s, id);
  }

  lemma ReachableStamped(cfg: Config, s: State, id: TaskId)
    requires Reachable(cfg, s) && id in s.tasks
    ensures Stamped(s.tasks[id])
  {
    ReachableInv(cfg, s);
  }

  lemma CancelEffect(s: State, id: TaskId)
    requires id in s.tasks && s.tasks[id].status != Timeout
    ensures CanTransition(s.tasks[id].status, Cancelled) <==> !Terminal(s.tasks[id].status)
    ensures var r := DoCancel(s, id);
            if Terminal(s.tasks[id].status) then r == s else id in r.tasks && r.tasks[id].status == Cancelled
  {
    StatusesTold(s.tasks[id].status);
    if Cancelable(s.tasks[id].status) {
      CancelMoves(s, id);
    }
  }

  lemma CancelMoves(s: State, id: TaskId)
    requires id in s.tasks && Cancelable(s.tasks[id].status)
    ensures id in DoCancel(s, id).tasks && DoCancel(s, id).tasks[id].status == Cancelled
  {
    FailureCascade(s, id, Cancelled, TaskCancelled);
  }

  lemma BatchRowMeans(s: State, b: nat, ids: seq<TaskId>, r: State, x: TaskId)
    requires forall y :: y in ids <==> y in BatchTasks(s, b)
    requires SweptRows(s, Swept(s, ids), r) && x in s.tasks
    ensures r.tasks.Keys == s.tasks.Keys && BatchRow(s, b, r, x)
    ensures x in BatchTasks(s, b) ==> x in BatchTasks(r, b) && !Cancelable(r.tasks[x].status)
    ensures x !in BatchTasks(s, b) && BehindBatch(s, b, x) ==> s.tasks[x].status == Created
  {
    BatchRowOf(s, b, ids, r, x);
  }

  lemma OutsideBatch(s: State, b: nat, ids: seq<TaskId>, x: TaskId)
    requires forall y :: y in ids <==> y in BatchTasks(s, b)
    requires x in s.tasks && x !in BatchTasks(s, b)
    ensures BehindBatch(s, b, x) <==> x in Swept(s, ids)
    ensures BehindBatch(s, b, x) ==> s.tasks[x].status == Created
  {
    if y :| y in BatchTasks(s, b) && Reaches(s, y, x) {
      BehindIsCreated(s, y, x);
      var i :| 0 <= i < |ids| && ids[i] == y;
      assert Reaches(s, ids[i], x);
    }
    if x in Swept(s, ids) {
      var i :| 0 <= i < |ids| && Reaches(s, ids[i], x);
      assert ids[i] in BatchTasks(s, b);
    }
  }

  lemma SweptEarlier(s: State, ids: seq<TaskId>, i: nat)
    requires i < |ids| && CanCancel(s, ids[i])
    requires forall j :: 0 <= j < i ==> ids[j] != ids[i]
    ensures ids[i] in Swept(s, ids[..i])
            <==> exists j :: 0 <= j < i && CanCancel(s, ids[j]) && BlockedBehind(s, ids[j], ids[i])
  {
    var front := ids[..i];
    if ids[i] in Swept(s, front) {
      var j :| 0 <= j < |front| && Reaches(s, front[j], ids[i]);
      assert front[j] == ids[j];
    }
    if j :| 0 <= j < i && CanCancel(s, ids[j]) && BlockedBehind(s, ids[j], ids[i]) {
      assert front[j] == ids[j] && Reaches(s, front[j], ids[i]);
    }
  }

  /** A task that could be cancelled is nevertheless reported as a conflict exactly if it waited behind
      a task that was cancelled before it. */
  lemma ConflictOfCancelled(cfg: Config, s: State, ids: seq<TaskId>, i: nat)
    requires i < |ids| && CanCancel(s, ids[i])
    requires forall j :: 0 <= j < i ==> ids[j] != ids[i]
    ensures !CanCancel(Exec(cfg, s, Each(ids[..i], CancelOp)), ids[i])
            <==> exists j :: 0 <= j < i && CanCancel(s, ids[j]) && BlockedBehind(s, ids[j], ids[i])
  {
    EffectTold(cfg, s, ids, i);
    SweptEarlier(s, ids, i);
  }

  // ---------- progress ----------

  datatype Progress = Progress(
    total: nat, queued: nat, running: nat, succeeded: nat, failed: nat, cancelled: nat, pending: nat, completed: nat)

  function InStatus(s: State, b: nat, status: Status): set<TaskId> {
    set id | id in s.tasks && s.tasks[id].batch == Some(b) && s.tasks[id].status == status
  }

  function Statuses(): seq<Status> {
    [Created, Queued, Running, RetryScheduled, Scheduled, Success, Failed, Cancelled, DeadLetter, Timeout]
  }

  /** The tasks of a batch with one of the first `n` statuses, counted status by status. */
  function SumUpTo(s: State, b: nat, n: nat): nat
    requires n <= 10
  {
    if n == 0 then 0 else SumUpTo(s, b, n - 1) + |InStatus(s, b, Statuses()[n - 1])|
  }

  function InStatuses(s: State, b: nat, statuses: seq<Status>): set<TaskId> {
    set id | id in BatchTasks(s, b) && s.tasks[id].status in statuses
  }

  lemma OneStatusMore(s: State, b: nat, statuses: seq<Status>, st: Status)
    requires st !in statuses
    ensures |InStatuses(s, b, statuses + [st])| == |InStatuses(s, b, statuses)| + |InStatus(s, b, st)|
  {
    var fewer, more := InStatuses(s, b, statuses), InStatus(s, b, st);
    assert InStatuses(s, b, statuses + [st]) == fewer + more;
    assert fewer !! more;
  }

  lemma AllDifferent(i: nat, j: nat)
    requires i < j < 10
    ensures Statuses()[i] != Statuses()[j]
  {
  }

  lemma {:induction false} SumIsCount(s: State, b: nat, n: nat)
    requires n <= 10
    ensures SumUpTo(s, b, n) == |InStatuses(s, b, Statuses()[..n])|
    decreases n
  {
    if n == 0 {
      assert InStatuses(s, b, Statuses()[..0]) == {};
    } else {
      SumIsCount(s, b, n - 1);
      var fewer := Statuses()[..n - 1];
      assert Statuses()[..n] == fewer + [Statuses()[n - 1]];
      forall i | 0 <= i < n - 1 ensures fewer[i] != Statuses()[n - 1] {
        AllDifferent(i, n - 1);
      }
      OneStatusMore(s, b, fewer, Statuses()[n - 1]);
    }
  }

  /** What the progress of a batch says: every task is in exactly one bucket, dead letters count as
      pending, and the batch looks complete exactly if nothing in it will move or is dead-lettered. */
  ghost predicate ReportsProgress(s: State, b: nat, p: Progress) {
    && p.total == |BatchTasks(s, b)|
    && p.total == p.queued + p.running + p.succeeded + p.failed + p.cancelled + p.pending
    && p.completed == p.succeeded + p.failed + p.cancelled
    && p.queued == |InStatus(s, b, Queued)| && p.running == |InStatus(s, b, Running)|
    && p.succeeded == |InStatus(s, b, Success)| && p.cancelled == |InStatus(s, b, Cancelled)|
    && p.failed == |InStatus(s, b, Failed)| + |InStatus(s, b, Timeout)|
    && (p.completed == p.total <==>
          forall id :: id in BatchTasks(s, b) ==> s.tasks[id].status in {Success, Failed, Cancelled, Timeout})
  }

  function CountOf(counts: map<Status, nat>, status: Status): nat {
    if status in counts then counts[status] else 0
  }

  /** The rows of the grouped count: only statuses that occur. */
  ghost predicate Grouped(s: State, b: nat, counts: map<Status, nat>) {
    forall st :: CountOf(counts, st) == |InStatus(s, b, st)|
  }

  function StatusAmong(s: State, ids: seq<TaskId>, status: Status): set<TaskId> {
    set id | id in ids && id in s.tasks && s.tasks[id].status == status
  }

  /** `counts` holds the statuses of the listed tasks. */
  ghost predicate Counted(s: State, ids: seq<TaskId>, counts: map<Status, nat>) {
    forall st :: CountOf(counts, st) == |StatusAmong(s, ids, st)|
  }

  lemma OneMoreCounted(s: State, ids: seq<TaskId>, i: nat, counts: map<Status, nat>)
    requires i < |ids| && Selection.Distinct(ids) && ids[i] in s.tasks && Counted(s, ids[..i], counts)
    ensures var own := s.tasks[ids[i]].status; Counted(s, ids[..i + 1], counts[own := CountOf(counts, own) + 1])
  {
    var own := s.tasks[ids[i]].status;
    var after := counts[own := CountOf(counts, own) + 1];
    assert ids[..i + 1] == ids[..i] + [ids[i]];
    forall st ensures CountOf(after, st) == |StatusAmong(s, ids[..i + 1], st)| {
      if st == own {
        assert StatusAmong(s, ids[..i + 1], st) == StatusAmong(s, ids[..i], st) + {ids[i]};
        assert ids[i] !in StatusAmong(s, ids[..i], st);
      } else {
        assert StatusAmong(s, ids[..i + 1], st) == StatusAmong(s, ids[..i], st);
      }
    }
  }

  /** The counts of the grouped query suffice for the whole report. */
  lemma ProgressPartitions(s: State, b: nat, counts: map<Status, nat>, total: nat, pending: nat)
    requires Grouped(s, b, counts)
    requires total == SumUpTo(s, b, 10)
    requires pending == CountOf(counts, Created) + CountOf(counts, RetryScheduled) + CountOf(counts, Scheduled)
                        + CountOf(counts, DeadLetter)
    ensures var succeeded := CountOf(counts, Success);
            var failed := CountOf(counts, Failed) + CountOf(counts, Timeout);
            var cancelled := CountOf(counts, Cancelled);
            ReportsProgress(s, b, Progress(total, CountOf(counts, Queued), CountOf(counts, Running), succeeded, failed, cancelled,
                                           pending, succeeded + failed + cancelled))
  {
    SumIsCount(s, b, 10);
    assert Statuses()[..10] == Statuses();
    EveryStatus(s, b);
    FiveTerms(s, b);
    TenTerms(s, b);
    Finished(s, b);
  }

  lemma EveryStatus(s: State, b: nat)
    ensures InStatuses(s, b, Statuses()) == BatchTasks(s, b)
  {
    forall st: Status ensures st in Statuses() {
      match st
      case Created => assert Statuses()[0] == st;
      case Queued => assert Statuses()[1] == st;
      case Running => assert Statuses()[2] == st;
      case RetryScheduled => assert Statuses()[3] == st;
      case Scheduled => assert Statuses()[4] == st;
      case Success => assert Statuses()[5] == st;
      case Failed => assert Statuses()[6] == st;
      case Cancelled => assert Statuses()[7] == st;
      case DeadLetter => assert Statuses()[8] == st;
      case Timeout => assert Statuses()[9] == st;
    }
  }

  lemma FiveTerms(s: State, b: nat)
    ensures SumUpTo(s, b, 5)
            == |InStatus(s, b, Created)| + |InStatus(s, b, Queued)| + |InStatus(s, b, Running)|
               + |InStatus(s, b, RetryScheduled)| + |InStatus(s, b, Scheduled)|
  {
    assert SumUpTo(s, b, 1) == |InStatus(s, b, Created)|;
    assert SumUpTo(s, b, 2) == SumUpTo(s, b, 1) + |InStatus(s, b, Queued)|;
    assert SumUpTo(s, b, 3) == SumUpTo(s, b, 2) + |InStatus(s, b, Running)|;
    assert SumUpTo(s, b, 4) == SumUpTo(s, b, 3) + |InStatus(s, b, RetryScheduled)|;
  }

  lemma TenTerms(s: State, b: nat)
    ensures SumUpTo(s, b, 10)
            == SumUpTo(s, b, 5) + |InStatus(s, b, Success)| + |InStatus(s, b, Failed)|
               + |InStatus(s, b, Cancelled)| + |InStatus(s, b, DeadLetter)| + |InStatus(s, b, Timeout)|
  {
    assert SumUpTo(s, b, 6) == SumUpTo(s, b, 5) + |InStatus(s, b, Success)|;
    assert SumUpTo(s, b, 7) == SumUpTo(s, b, 6) + |InStatus(s, b, Failed)|;
    assert SumUpTo(s, b, 8) == SumUpTo(s, b, 7) + |InStatus(s, b, Cancelled)|;
    assert SumUpTo(s, b, 9) == SumUpTo(s, b, 8) + |InStatus(s, b, DeadLetter)|;
  }

  lemma NoneInStatus(s: State, b: nat, st: Status)
    requires forall id :: id in BatchTasks(s, b) ==> s.tasks[id].status != st
    ensures InStatus(s, b, st) == {}
  {
    assert InStatus(s, b, st) <= BatchTasks(s, b);
  }

  lemma Finished(s: State, b: nat)
    ensures (forall id :: id in BatchTasks(s, b) ==> s.tasks[id].status in {Success, Failed, Cancelled, Timeout})
            <==> |InStatus(s, b, Queued)| + |InStatus(s, b, Running)| + |InStatus(s, b, Created)|
                 + |InStatus(s, b, RetryScheduled)| + |InStatus(s, b, Scheduled)| + |InStatus(s, b, DeadLetter)| == 0
  {
    if forall id :: id in BatchTasks(s, b) ==> s.tasks[id].status in {Success, Failed, Cancelled, Timeout} {
      forall st | st !in {Success, Failed, Cancelled, Timeout} ensures InStatus(s, b, st) == {} {
        NoneInStatus(s, b, st);
      }
    }
    if id :| id in BatchTasks(s, b) && s.tasks[id].status !in {Success, Failed, Cancelled, Timeout} {
      assert id in InStatus(s, b, s.tasks[id].status);
      assert |InStatus(s, b, s.tasks[id].status)| > 0;
    }
  }
}
