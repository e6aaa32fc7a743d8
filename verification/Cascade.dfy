/** What a terminal status does to the rest of the dependency graph, stated without
    reference to the order in which the recursion visits it. */
module Cascade {
  import opened Rows
  import opened Store

  /** A dependency path leaving `from` whose nodes are all still `created`. */
  ghost predicate CreatedPath(s: State, from: TaskId, path: seq<TaskId>)
    decreases |path|
  {
    if path == [] then true
    else
      && path[0] in s.tasks && s.tasks[path[0]].status == Created
      && Edge(from, path[0]) in s.edges
      && CreatedPath(s, path[0], path[1..])
  }

  ghost predicate Blocks(s: State, from: TaskId, path: seq<TaskId>, id: TaskId) {
    path != [] && CreatedPath(s, from, path) && path[|path| - 1] == id
  }

  /** `id` waits, directly or through other waiting tasks, for `from`. */
  ghost predicate BlockedBehind(s: State, from: TaskId, id: TaskId) {
    exists path :: Blocks(s, from, path, id)
  }

  ghost function Cut(s: State, r: State): set<TaskId> {
    CreatedTasks(s) - CreatedTasks(r)
  }

  /** From `s` to `r` some created tasks were cancelled and nothing else happened. */
  ghost predicate OnlyCancels(s: State, r: State) {
    && r == s.(tasks := r.tasks, hooks := r.hooks)
    && r.tasks.Keys == s.tasks.Keys
    && forall id :: id in s.tasks ==>
         r.tasks[id] == if id in Cut(s, r) then Moved(s.tasks[id], Cancelled, TaskCancelled, s.now) else s.tasks[id]
  }

  lemma OnlyCancelsTransitive(a: State, b: State, c: State)
    requires OnlyCancels(a, b) && OnlyCancels(b, c)
    ensures OnlyCancels(a, c) && Cut(a, c) == Cut(a, b) + Cut(b, c)
  {
  }

  lemma PutCancels(s: State, id: TaskId)
    requires id in s.tasks && s.tasks[id].status == Created
    ensures OnlyCancels(s, Put(s, id, Cancelled, TaskCancelled))
    ensures Cut(s, Put(s, id, Cancelled, TaskCancelled)) == {id}
  {
  }

  lemma AdvanceChildCancels(s: State, reached: Status, child: TaskId)
    requires reached != Success && child in CreatedTasks(s)
    ensures AdvanceChild(s, reached, child)
            == Advance(Put(s, child, Cancelled, TaskCancelled), Cancelled, ChildrenOf(s.edges, child))
  {
  }

  lemma {:induction false} AdvanceOnlyCancels(s: State, reached: Status, kids: seq<TaskId>)
    requires reached != Success
    ensures OnlyCancels(s, Advance(s, reached, kids))
    decreases CreatedTasks(s), |kids|
  {
    if kids != [] {
      var s1 := AdvanceChild(s, reached, kids[0]);
      if kids[0] in CreatedTasks(s) {
        CancelOnlyCancels(s, kids[0]);
      }
      AdvanceOnlyCancels(s1, reached, kids[1..]);
      OnlyCancelsTransitive(s, s1, Advance(s1, reached, kids[1..]));
    }
  }

  lemma {:induction false} CancelOnlyCancels(s: State, id: TaskId)
    requires id in CreatedTasks(s)
    ensures OnlyCancels(s, SetStatus(s, id, Cancelled, TaskCancelled))
    ensures id in Cut(s, SetStatus(s, id, Cancelled, TaskCancelled))
    decreases CreatedTasks(s), 0
  {
    var moved := Put(s, id, Cancelled, TaskCancelled);
    PutCancels(s, id);
    AdvanceOnlyCancels(moved, Cancelled, ChildrenOf(s.edges, id));
    OnlyCancelsTransitive(s, moved, SetStatus(s, id, Cancelled, TaskCancelled));
  }

  // ---------- soundness: only tasks that wait behind the root ----------

  lemma {:induction false} PathSurvivesBackwards(s: State, r: State, from: TaskId, path: seq<TaskId>)
    requires CreatedTasks(r) <= CreatedTasks(s) && r.edges == s.edges
    requires CreatedPath(r, from, path)
    ensures CreatedPath(s, from, path)
    decreases |path|
  {
    if path != [] {
      assert path[0] in CreatedTasks(r);
      PathSurvivesBackwards(s, r, path[0], path[1..]);
    }
  }

  lemma BlockedEarlier(s: State, r: State, from: TaskId, id: TaskId)
    requires CreatedTasks(r) <= CreatedTasks(s) && r.edges == s.edges
    requires BlockedBehind(r, from, id)
    ensures BlockedBehind(s, from, id)
  {
    var path :| Blocks(r, from, path, id);
    PathSurvivesBackwards(s, r, from, path);
    assert Blocks(s, from, path, id);
  }

  lemma BlockedOneStep(s: State, from: TaskId, child: TaskId, id: TaskId)
    requires child in CreatedTasks(s) && Edge(from, child) in s.edges
    requires id == child || BlockedBehind(s, child, id)
    ensures BlockedBehind(s, from, id)
  {
    if id == child {
      assert CreatedPath(s, child, []);
      assert [child][1..] == [];
      assert Blocks(s, from, [child], id);
    } else {
      var path :| Blocks(s, child, path, id);
      assert ([child] + path)[1..] == path;
      assert Blocks(s, from, [child] + path, id);
    }
  }

  lemma {:induction false} AdvanceSound(s: State, from: TaskId, reached: Status, kids: seq<TaskId>, id: TaskId)
    requires reached != Success
    requires forall k :: k in kids ==> Edge(from, k) in s.edges
    requires id in Cut(s, Advance(s, reached, kids))
    ensures BlockedBehind(s, from, id)
    decreases CreatedTasks(s), |kids|
  {
    var s1 := AdvanceChild(s, reached, kids[0]);
    if id in CreatedTasks(s1) {
      AdvanceSound(s1, from, reached, kids[1..], id);
      BlockedEarlier(s, s1, from, id);
    } else {
      ChildSound(s, from, reached, kids[0], id);
    }
  }

  lemma {:induction false} ChildSound(s: State, from: TaskId, reached: Status, child: TaskId, id: TaskId)
    requires reached != Success && Edge(from, child) in s.edges
    requires id in Cut(s, AdvanceChild(s, reached, child))
    ensures BlockedBehind(s, from, id)
    decreases CreatedTasks(s), 0
  {
    if id != child {
      var moved := Put(s, child, Cancelled, TaskCancelled);
      AdvanceChildCancels(s, reached, child);
      PutCancels(s, child);
      AdvanceSound(moved, child, Cancelled, ChildrenOf(s.edges, child), id);
      BlockedEarlier(s, moved, child, id);
    }
    BlockedOneStep(s, from, child, id);
  }

  // ---------- completeness: every task that waits behind the root ----------

  /** Nobody waits behind a task that was cut. */
  ghost predicate Closed(s: State, r: State) {
    forall e :: e in s.edges && e.parent in Cut(s, r) ==> e.child !in CreatedTasks(r)
  }

  lemma ClosedTransitive(a: State, b: State, c: State)
    requires Closed(a, b) && Closed(b, c) && a.edges == b.edges
    requires CreatedTasks(c) <= CreatedTasks(b)
    ensures Closed(a, c)
  {
    forall e | e in a.edges && e.parent in Cut(a, c) ensures e.child !in CreatedTasks(c) {
      assert e.parent in Cut(a, b) || e.parent in Cut(b, c);
    }
  }

  lemma {:induction false} AdvanceClosed(s: State, reached: Status, kids: seq<TaskId>)
    requires reached != Success
    ensures Closed(s, Advance(s, reached, kids))
    ensures forall k :: k in kids ==> k !in CreatedTasks(Advance(s, reached, kids))
    decreases CreatedTasks(s), |kids|
  {
    if kids != [] {
      var s1 := AdvanceChild(s, reached, kids[0]);
      ChildClosed(s, reached, kids[0]);
      AdvanceClosed(s1, reached, kids[1..]);
      ClosedTransitive(s, s1, Advance(s1, reached, kids[1..]));
    }
  }

  lemma {:induction false} ChildClosed(s: State, reached: Status, child: TaskId)
    requires reached != Success
    ensures Closed(s, AdvanceChild(s, reached, child)) && child !in CreatedTasks(AdvanceChild(s, reached, child))
    decreases CreatedTasks(s), 0
  {
    if child in CreatedTasks(s) {
      var moved := Put(s, child, Cancelled, TaskCancelled);
      var kids := ChildrenOf(s.edges, child);
      AdvanceChildCancels(s, reached, child);
      PutCancels(s, child);
      AdvanceClosed(moved, Cancelled, kids);
      ClosedOneMore(s, moved, Advance(moved, Cancelled, kids), child);
    }
  }

  lemma ClosedOneMore(s: State, moved: State, r: State, child: TaskId)
    requires Cut(s, moved) == {child} && CreatedTasks(moved) <= CreatedTasks(s) && moved.edges == s.edges
    requires Closed(moved, r) && CreatedTasks(r) <= CreatedTasks(moved)
    requires forall k :: k in ChildrenOf(s.edges, child) ==> k !in CreatedTasks(r)
    ensures Closed(s, r)
  {
    forall e | e in s.edges && e.parent in Cut(s, r) ensures e.child !in CreatedTasks(r) {
      if e.parent == child {
        assert e == Edge(child, e.child);
      } else {
        assert e.parent !in Cut(s, moved);
        assert e.parent in Cut(moved, r);
      }
    }
  }

  lemma {:induction false} PathIsCut(s: State, r: State, from: TaskId, path: seq<TaskId>)
    requires Closed(s, r)
    requires path != [] && CreatedPath(s, from, path)
    requires path[0] !in CreatedTasks(r)
    ensures path[|path| - 1] in Cut(s, r)
    decreases |path|
  {
    assert path[0] in Cut(s, r);
    if |path| > 1 {
      assert path[1..][0] == path[1];
      assert Edge(path[0], path[1]) in s.edges;
      PathIsCut(s, r, path[0], path[1..]);
    }
  }

  /** The set of tasks a failing terminal status cancels, exactly. */
  lemma CutExact(moved: State, from: TaskId, reached: Status)
    requires reached != Success
    ensures forall id :: id in Cut(moved, Advance(moved, reached, ChildrenOf(moved.edges, from)))
                    <==> BlockedBehind(moved, from, id)
  {
    var kids := ChildrenOf(moved.edges, from);
    var r := Advance(moved, reached, kids);
    AdvanceClosed(moved, reached, kids);
    forall id ensures id in Cut(moved, r) <==> BlockedBehind(moved, from, id) {
      if id in Cut(moved, r) {
        AdvanceSound(moved, from, reached, kids, id);
      }
      if BlockedBehind(moved, from, id) {
        var path :| Blocks(moved, from, path, id);
        PathIsCut(moved, r, from, path);
      }
    }
  }

  // ---------- success: exactly the children whose parents are all done ----------

  lemma GateMeaning(s: State, child: TaskId)
    ensures AllParentsSucceeded(s, child) <==>
            || ParentsOf(s.edges, child) == []
            || (&& (exists p :: p in ParentsOf(s.edges, child) && p in s.tasks)
                && forall p :: p in ParentsOf(s.edges, child) && p in s.tasks ==> s.tasks[p].status == Success)
  {
    var parents := ParentsOf(s.edges, child);
    var found := StatusesOf(s.tasks, parents);
    forall p | p in parents && p in s.tasks ensures s.tasks[p].status in found {}
    if found == {Success} {
      assert Success in found;
    }
    if exists p :: p in parents && p in s.tasks {
      var p :| p in parents && p in s.tasks;
      assert s.tasks[p].status in found;
      if forall q :: q in parents && q in s.tasks ==> s.tasks[q].status == Success {
        assert found == {Success};
      }
    }
  }

  lemma GateStable(s: State, r: State, child: TaskId)
    requires r.edges == s.edges && r.tasks.Keys == s.tasks.Keys
    requires forall id :: id in s.tasks ==> (s.tasks[id].status == Success <==> r.tasks[id].status == Success)
    ensures AllParentsSucceeded(s, child) == AllParentsSucceeded(r, child)
  {
    GateMeaning(s, child);
    GateMeaning(r, child);
  }

  ghost predicate HasPending(s: State, id: TaskId) {
    exists i :: i in s.outbox && s.outbox[i].status == Pending && s.outbox[i].task == id
  }

  /** Outbox rows are only added: the old ones stay as they were. */
  ghost predicate OutboxGrows(s: State, r: State) {
    && s.nextOutbox <= r.nextOutbox
    && (forall i :: i in s.outbox && i < s.nextOutbox ==> i in r.outbox && r.outbox[i] == s.outbox[i])
    && (forall i :: i in r.outbox ==>
          i in s.outbox || (s.nextOutbox <= i < r.nextOutbox && r.outbox[i].(task := 0) == OutboxRow(0, Pending, 0, None)))
  }

  ghost predicate OutboxInv(s: State) {
    && (forall i :: i in s.outbox ==> i < s.nextOutbox)
    && (forall i :: i in s.outbox ==> (s.outbox[i].processedAt.Some? <==> s.outbox[i].status == Sent))
  }

  /** From `s` to `r` the tasks of `freed` were released and nothing else happened. */
  ghost predicate OnlyReleases(s: State, r: State, freed: set<TaskId>) {
    && r == s.(tasks := r.tasks, hooks := r.hooks, outbox := r.outbox, nextOutbox := r.nextOutbox)
    && r.tasks.Keys == s.tasks.Keys
    && OutboxGrows(s, r)
    && r.nextOutbox == s.nextOutbox + |freed|
    && freed <= CreatedTasks(s)
    && (forall id :: id in s.tasks ==>
          r.tasks[id] == if id in freed then Moved(s.tasks[id], Queued, TaskUnblocked, s.now) else s.tasks[id])
    && (forall id :: id in freed ==> HasPending(r, id))
  }

  ghost function Opened(s: State, kids: seq<TaskId>): set<TaskId> {
    set id | id in CreatedTasks(s) && id in kids && AllParentsSucceeded(s, id)
  }

  lemma ReleaseOpens(s: State, child: TaskId)
    requires OutboxInv(s) && child in CreatedTasks(s)
    ensures OnlyReleases(s, Release(s, child, TaskUnblocked), {child})
    ensures OutboxInv(Release(s, child, TaskUnblocked))
  {
    var r := Release(s, child, TaskUnblocked);
    assert r.outbox[s.nextOutbox] == OutboxRow(child, Pending, 0, None);
  }

  lemma PendingStays(a: State, b: State, id: TaskId)
    requires OutboxInv(a) && OutboxGrows(a, b) && HasPending(a, id)
    ensures HasPending(b, id)
  {
    var i :| i in a.outbox && a.outbox[i].status == Pending && a.outbox[i].task == id;
    assert b.outbox[i] == a.outbox[i];
  }

  lemma GrowsTransitive(a: State, b: State, c: State)
    requires OutboxInv(a) && OutboxInv(b) && OutboxGrows(a, b) && OutboxGrows(b, c)
    ensures OutboxGrows(a, c)
  {
  }

  lemma ReleasedOnce(a: State, b: State, first: set<TaskId>, second: set<TaskId>)
    requires OnlyReleases(a, b, first) && second <= CreatedTasks(b)
    ensures first !! second && second <= CreatedTasks(a) && |first + second| == |first| + |second|
  {
    forall id | id in first ensures id !in second {
      assert b.tasks[id].status == Queued;
    }
    forall id | id in second ensures id in CreatedTasks(a) {
      assert b.tasks[id] == a.tasks[id];
    }
  }

  lemma OnlyReleasesTransitive(a: State, b: State, c: State, first: set<TaskId>, second: set<TaskId>)
    requires OutboxInv(a) && OutboxInv(b)
    requires OnlyReleases(a, b, first) && OnlyReleases(b, c, second)
    ensures OnlyReleases(a, c, first + second)
  {
    ReleasedOnce(a, b, first, second);
    GrowsTransitive(a, b, c);
    forall id | id in first ensures HasPending(c, id) {
      PendingStays(b, c, id);
    }
  }

  lemma {:induction false} AdvanceOpens(s: State, kids: seq<TaskId>)
    requires OutboxInv(s)
    ensures OnlyReleases(s, Advance(s, Success, kids), Opened(s, kids))
    ensures OutboxInv(Advance(s, Success, kids))
    decreases |kids|
  {
    if kids == [] {
      assert Opened(s, kids) == {};
    } else {
      var s1 := AdvanceChild(s, Success, kids[0]);
      ChildOpens(s, kids[0]);
      AdvanceOpens(s1, kids[1..]);
      OpenedSplit(s, s1, kids);
      OnlyReleasesTransitive(s, s1, Advance(s1, Success, kids[1..]), Opened(s, [kids[0]]), Opened(s1, kids[1..]));
    }
  }

  lemma ChildOpens(s: State, child: TaskId)
    requires OutboxInv(s)
    ensures OnlyReleases(s, AdvanceChild(s, Success, child), Opened(s, [child]))
    ensures OutboxInv(AdvanceChild(s, Success, child))
  {
    if child in CreatedTasks(s) && AllParentsSucceeded(s, child) {
      ReleaseOpens(s, child);
      assert Opened(s, [child]) == {child};
    } else {
      assert Opened(s, [child]) == {};
    }
  }

  lemma OpenedSplit(s: State, s1: State, kids: seq<TaskId>)
    requires kids != [] && OnlyReleases(s, s1, Opened(s, [kids[0]]))
    ensures Opened(s, kids) == Opened(s, [kids[0]]) + Opened(s1, kids[1..])
  {
    forall id | id in s.tasks ensures AllParentsSucceeded(s, id) == AllParentsSucceeded(s1, id) {
      GateStable(s, s1, id);
    }
  }

  // ---------- webhook deliveries are conserved ----------

  function MatchCount(subs: seq<Subscription>, kind: EventKind): nat {
    if subs == [] then 0
    else
      var last := |subs| - 1;
      MatchCount(subs[..last], kind) + if subs[last].active && Matches(subs[last], kind) then 1 else 0
  }

  lemma DeliveriesForCount(subs: seq<Subscription>, kind: EventKind, task: TaskId, reported: Status, now: Time)
    ensures |DeliveriesFor(subs, kind, task, reported, now)| == MatchCount(subs, kind)
  {
  }

  ghost predicate HooksPaid(s: State, r: State) {
    |r.hooks| == |s.hooks| + MatchCount(s.subs, TaskCancelled) * |Cut(s, r)|
  }

  lemma CutSizes(a: State, b: State, c: State)
    requires CreatedTasks(c) <= CreatedTasks(b) <= CreatedTasks(a)
    ensures |Cut(a, c)| == |Cut(a, b)| + |Cut(b, c)|
  {
    DifferenceSizes(CreatedTasks(a), CreatedTasks(b), CreatedTasks(c));
  }

  lemma DifferenceSizes(a: set<TaskId>, b: set<TaskId>, c: set<TaskId>)
    requires c <= b <= a
    ensures |a - c| == |a - b| + |b - c|
  {
    assert a - c == (a - b) + (b - c);
    assert (a - b) !! (b - c);
  }

  lemma Distributes(m: nat, x: nat, y: nat)
    ensures m * (x + y) == m * x + m * y
  {
  }

  lemma HooksPaidTransitive(a: State, b: State, c: State)
    requires CreatedTasks(c) <= CreatedTasks(b) <= CreatedTasks(a) && a.subs == b.subs
    requires HooksPaid(a, b) && HooksPaid(b, c)
    ensures HooksPaid(a, c)
  {
    CutSizes(a, b, c);
    Distributes(MatchCount(a.subs, TaskCancelled), |Cut(a, b)|, |Cut(b, c)|);
  }

  lemma {:induction false} AdvanceHooks(s: State, reached: Status, kids: seq<TaskId>)
    requires reached != Success
    ensures HooksPaid(s, Advance(s, reached, kids))
    decreases CreatedTasks(s), |kids|
  {
    if kids == [] {
      assert Cut(s, s) == {};
    } else {
      var s1 := AdvanceChild(s, reached, kids[0]);
      ChildHooks(s, reached, kids[0]);
      AdvanceHooks(s1, reached, kids[1..]);
      ChildKeepsSubs(s, reached, kids[0]);
      HooksPaidTransitive(s, s1, Advance(s1, reached, kids[1..]));
    }
  }

  lemma ChildKeepsSubs(s: State, reached: Status, child: TaskId)
    requires reached != Success
    ensures AdvanceChild(s, reached, child).subs == s.subs
  {
    if child in CreatedTasks(s) {
      CancelOnlyCancels(s, child);
    }
  }

  lemma {:induction false} ChildHooks(s: State, reached: Status, child: TaskId)
    requires reached != Success
    ensures HooksPaid(s, AdvanceChild(s, reached, child))
    decreases CreatedTasks(s), 0
  {
    if child in CreatedTasks(s) {
      var moved := Put(s, child, Cancelled, TaskCancelled);
      var kids := ChildrenOf(s.edges, child);
      AdvanceChildCancels(s, reached, child);
      PutPays(s, child);
      AdvanceHooks(moved, Cancelled, kids);
      HooksPaidTransitive(s, moved, Advance(moved, Cancelled, kids));
    } else {
      assert Cut(s, s) == {};
    }
  }

  lemma OnePays(s: State, moved: State, child: TaskId)
    requires child in CreatedTasks(s) && CreatedTasks(moved) == CreatedTasks(s) - {child}
    requires |moved.hooks| == |s.hooks| + MatchCount(s.subs, TaskCancelled)
    ensures HooksPaid(s, moved)
  {
    assert Cut(s, moved) == {child};
  }

  lemma PutPays(s: State, child: TaskId)
    requires child in CreatedTasks(s)
    ensures HooksPaid(s, Put(s, child, Cancelled, TaskCancelled))
    ensures CreatedTasks(Put(s, child, Cancelled, TaskCancelled)) < CreatedTasks(s)
  {
    PutCreated(s, child, Cancelled, TaskCancelled);
    OnePays(s, Put(s, child, Cancelled, TaskCancelled), child);
  }

  // ---------- the cascade, exactly ----------

  lemma {:induction false} PathAvoidsRoot(s: State, moved: State, root: TaskId, from: TaskId, path: seq<TaskId>)
    requires moved.edges == s.edges && CreatedTasks(moved) == CreatedTasks(s) - {root}
    requires CreatedPath(s, from, path)
    requires path != [] ==> path[|path| - 1] != root
    ensures CreatedPath(moved, from, path) || BlockedBehind(moved, root, path[|path| - 1])
    decreases |path|
  {
    if path != [] {
      var rest := path[1..];
      PathAvoidsRoot(s, moved, root, path[0], rest);
      if path[0] == root {
        assert rest[|rest| - 1] == path[|path| - 1];
        if CreatedPath(moved, root, rest) {
          assert Blocks(moved, root, rest, path[|path| - 1]);
        }
      } else {
        assert path[0] in CreatedTasks(moved);
      }
    }
  }

  lemma BlockedAfterMove(s: State, moved: State, root: TaskId, id: TaskId)
    requires moved.edges == s.edges && CreatedTasks(moved) == CreatedTasks(s) - {root}
    ensures BlockedBehind(moved, root, id) <==> id != root && BlockedBehind(s, root, id)
  {
    if BlockedBehind(moved, root, id) {
      BlockedEarlier(s, moved, root, id);
      var path :| Blocks(moved, root, path, id);
      LastIsCreated(moved, root, path);
    }
    if id != root && BlockedBehind(s, root, id) {
      var path :| Blocks(s, root, path, id);
      PathAvoidsRoot(s, moved, root, root, path);
      if CreatedPath(moved, root, path) {
        assert Blocks(moved, root, path, id);
      }
    }
  }

  lemma {:induction false} LastIsCreated(s: State, from: TaskId, path: seq<TaskId>)
    requires path != [] && CreatedPath(s, from, path)
    ensures path[|path| - 1] in CreatedTasks(s)
    decreases |path|
  {
    if |path| > 1 {
      LastIsCreated(s, path[0], path[1..]);
    }
  }

  lemma PutCreated(s: State, id: TaskId, next: Status, kind: EventKind)
    requires Applies(s, id, next)
    ensures CreatedTasks(Put(s, id, next, kind)) == CreatedTasks(s) - {id}
    ensures |Put(s, id, next, kind).hooks| == |s.hooks| + MatchCount(s.subs, kind)
  {
    DeliveriesForCount(s.subs, kind, id, next, s.now);
  }

  /** A status that applies is written, and passed on if it is terminal. */
  lemma SetStatusUnfolds(s: State, id: TaskId, next: Status, kind: EventKind)
    requires Applies(s, id, next)
    ensures SetStatus(s, id, next, kind)
            == if Terminal(next) then Advance(Put(s, id, next, kind), next, ChildrenOf(s.edges, id)) else Put(s, id, next, kind)
  {
  }

  /** The tasks, other than the root itself, that wait behind the root. */
  ghost function Dependents(s: State, root: TaskId): set<TaskId> {
    set id | id in CreatedTasks(s) && id != root && BlockedBehind(s, root, id)
  }

  /** From `s` to `r` the root moved to `next`, its dependents were cancelled, and no other row changed. */
  ghost predicate CancelledBehind(s: State, root: TaskId, next: Status, kind: EventKind, r: State)
    requires root in s.tasks
  {
    && r.tasks.Keys == s.tasks.Keys
    && forall id :: id in s.tasks ==>
         r.tasks[id] ==
           if id == root then Moved(s.tasks[root], next, kind, s.now)
           else if id in Dependents(s, root) then Moved(s.tasks[id], Cancelled, TaskCancelled, s.now)
           else s.tasks[id]
  }

  /** Putting a task into a failing terminal status cancels exactly the created tasks that wait
      behind it, each once, and changes nothing else; every status written queues one delivery
      per matching active subscription. */
  lemma FailureCascade(s: State, root: TaskId, next: Status, kind: EventKind)
    requires Applies(s, root, next) && Terminal(next) && next != Success
    ensures var r := SetStatus(s, root, next, kind);
            && r == s.(tasks := r.tasks, hooks := r.hooks)
            && CancelledBehind(s, root, next, kind, r)
            && |r.hooks| == |s.hooks| + MatchCount(s.subs, kind)
                            + MatchCount(s.subs, TaskCancelled) * |Dependents(s, root)|
  {
    var moved := Put(s, root, next, kind);
    PutCreated(s, root, next, kind);
    var kids := ChildrenOf(s.edges, root);
    var r := Advance(moved, next, kids);
    AdvanceOnlyCancels(moved, next, kids);
    AdvanceHooks(moved, next, kids);
    CutIsDependents(s, moved, root, next);
    CascadeRows(s, root, next, kind, moved, r);
  }

  lemma CascadeRows(s: State, root: TaskId, next: Status, kind: EventKind, moved: State, r: State)
    requires root in s.tasks && moved == Put(s, root, next, kind)
    requires OnlyCancels(moved, r) && Cut(moved, r) == Dependents(s, root)
    ensures r == s.(tasks := r.tasks, hooks := r.hooks) && CancelledBehind(s, root, next, kind, r)
  {
    DependentsStay(s, root);
  }

  lemma CutIsDependents(s: State, moved: State, root: TaskId, next: Status)
    requires root in s.tasks && next != Success
    requires moved.edges == s.edges && CreatedTasks(moved) == CreatedTasks(s) - {root}
    ensures Cut(moved, Advance(moved, next, ChildrenOf(s.edges, root))) == Dependents(s, root)
  {
    CutExact(moved, root, next);
    forall id ensures id in Cut(moved, Advance(moved, next, ChildrenOf(s.edges, root))) <==> id in Dependents(s, root) {
      BlockedAfterMove(s, moved, root, id);
    }
  }

  lemma DependentsStay(s: State, root: TaskId)
    ensures root !in Dependents(s, root) && Dependents(s, root) <= s.tasks.Keys
  {
  }

  /** The children a success sets free: still created, with every parent done once the root is. */
  ghost function FreedBy(s: State, root: TaskId): set<TaskId> {
    set id | id in CreatedTasks(s) && id != root && Edge(root, id) in s.edges && OthersSucceeded(s, root, id)
  }

  ghost predicate OthersSucceeded(s: State, root: TaskId, child: TaskId) {
    forall p :: p in ParentsOf(s.edges, child) && p in s.tasks && p != root ==> s.tasks[p].status == Success
  }

  /** From `s` to `r` the root succeeded, the children it frees were queued, and no other row changed. */
  ghost predicate FreedBehind(s: State, root: TaskId, kind: EventKind, r: State)
    requires root in s.tasks
  {
    && r.tasks.Keys == s.tasks.Keys
    && forall id :: id in s.tasks ==>
         r.tasks[id] ==
           if id == root then Moved(s.tasks[root], Success, kind, s.now)
           else if id in FreedBy(s, root) then Moved(s.tasks[id], Queued, TaskUnblocked, s.now)
           else s.tasks[id]
  }

  /** A success releases exactly the created children all of whose parents have now succeeded,
      each with its own pending outbox row, and changes nothing else. */
  lemma SuccessCascade(s: State, root: TaskId, kind: EventKind)
    requires OutboxInv(s) && Applies(s, root, Success)
    ensures var r := SetStatus(s, root, Success, kind);
            && r == s.(tasks := r.tasks, hooks := r.hooks, outbox := r.outbox, nextOutbox := r.nextOutbox)
            && FreedBehind(s, root, kind, r)
            && OutboxInv(r) && OutboxGrows(s, r)
            && r.nextOutbox == s.nextOutbox + |FreedBy(s, root)|
            && (forall id :: id in FreedBy(s, root) ==> HasPending(r, id))
  {
    var moved := Put(s, root, Success, kind);
    PutCreated(s, root, Success, kind);
    var kids := ChildrenOf(s.edges, root);
    AdvanceOpens(moved, kids);
    OpenedAreFreed(s, moved, root);
  }

  lemma OpenedAreFreed(s: State, moved: State, root: TaskId)
    requires moved.edges == s.edges && moved.tasks.Keys == s.tasks.Keys && root in s.tasks
    requires moved.tasks[root].status == Success
    requires forall id :: id in s.tasks && id != root ==> moved.tasks[id] == s.tasks[id]
    requires CreatedTasks(moved) == CreatedTasks(s) - {root}
    ensures Opened(moved, ChildrenOf(s.edges, root)) == FreedBy(s, root)
  {
    var kids := ChildrenOf(s.edges, root);
    forall id ensures id in Opened(moved, kids) <==> id in FreedBy(s, root) {
      GateMeaning(moved, id);
      if Edge(root, id) in s.edges {
        assert root in ParentsOf(moved.edges, id);
      }
    }
  }
}
