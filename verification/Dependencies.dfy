/** Registering dependency edges: the upward search for a cycle, and why a
    registration that passes it keeps the graph acyclic. */
module Dependencies {
  import opened Rows
  import opened Store

  /** A walk that follows edges upwards, from child to parent. */
  ghost predicate Climbs(edges: seq<Edge>, walk: seq<TaskId>) {
    forall i :: 0 <= i < |walk| - 1 ==> Edge(walk[i + 1], walk[i]) in edges
  }

  ghost predicate Walk(edges: seq<Edge>, from: TaskId, to: TaskId, walk: seq<TaskId>) {
    walk != [] && walk[0] == from && walk[|walk| - 1] == to && Climbs(edges, walk)
  }

  /** `ancestor` is `node` itself or above it. */
  ghost predicate Above(edges: seq<Edge>, node: TaskId, ancestor: TaskId) {
    exists walk :: Walk(edges, node, ancestor, walk)
  }

  /** No edge is closed into a cycle by a walk back up from its parent to its child. */
  ghost predicate Acyclic(edges: seq<Edge>) {
    forall e :: e in edges ==> !Above(edges, e.parent, e.child)
  }

  ghost predicate AboveSome(edges: seq<Edge>, parents: seq<TaskId>, x: TaskId) {
    exists p :: p in parents && Above(edges, p, x)
  }

  /** `task` is one of the parents or above one of them. */
  ghost predicate ClosesCycle(edges: seq<Edge>, task: TaskId, parents: seq<TaskId>) {
    AboveSome(edges, parents, task)
  }

  function EdgesTo(task: TaskId, parents: seq<TaskId>): (r: seq<Edge>)
    ensures forall e :: e in r <==> e.child == task && e.parent in parents
  {
    if parents == [] then []
    else
      assert parents == [parents[0]] + parents[1..];
      [Edge(parents[0], task)] + EdgesTo(task, parents[1..])
  }

  /** The first occurrence of each element, in order. */
  function WithoutRepeats(ids: seq<TaskId>): (r: seq<TaskId>)
    ensures forall x :: x in r <==> x in ids
    ensures forall i, j :: 0 <= i < j < |r| ==> r[i] != r[j]
    ensures ids == [] <==> r == []
  {
    if ids == [] then []
    else
      var last := |ids| - 1;
      assert ids == ids[..last] + [ids[last]];
      if ids[last] in ids[..last] then WithoutRepeats(ids[..last]) else WithoutRepeats(ids[..last]) + [ids[last]]
  }

  // ---------- walks ----------

  lemma AboveSelf(edges: seq<Edge>, node: TaskId)
    ensures Above(edges, node, node)
  {
    assert Walk(edges, node, node, [node]);
  }

  lemma AboveStep(edges: seq<Edge>, node: TaskId, ancestor: TaskId, parent: TaskId)
    requires Above(edges, node, ancestor) && Edge(parent, ancestor) in edges
    ensures Above(edges, node, parent)
  {
    var walk :| Walk(edges, node, ancestor, walk);
    assert Walk(edges, node, parent, walk + [parent]);
  }

  lemma AboveTransitive(edges: seq<Edge>, a: TaskId, b: TaskId, c: TaskId)
    requires Above(edges, a, b) && Above(edges, b, c)
    ensures Above(edges, a, c)
  {
    var first :| Walk(edges, a, b, first);
    var second :| Walk(edges, b, c, second);
    var joined := first + second[1..];
    forall i | 0 <= i < |joined| - 1 ensures Edge(joined[i + 1], joined[i]) in edges {
      if i >= |first| - 1 {
        assert joined[i] == second[i - (|first| - 1)];
        assert joined[i + 1] == second[i + 1 - (|first| - 1)];
      }
    }
    assert Walk(edges, a, c, joined);
  }

  lemma AboveMonotone(edges: seq<Edge>, more: seq<Edge>, node: TaskId, ancestor: TaskId)
    requires Above(edges, node, ancestor)
    ensures Above(edges + more, node, ancestor)
  {
    var walk :| Walk(edges, node, ancestor, walk);
    assert Walk(edges + more, node, ancestor, walk);
  }

  /** A set that contains a node and all parents of its members contains everything above the node. */
  lemma {:induction false} ClosedUpwards(edges: seq<Edge>, seen: set<TaskId>, walk: seq<TaskId>)
    requires walk != [] && Climbs(edges, walk) && walk[0] in seen
    requires forall e :: e in edges && e.child in seen ==> e.parent in seen
    ensures walk[|walk| - 1] in seen
  {
    if |walk| > 1 {
      var e := Edge(walk[1], walk[0]);
      assert e in edges;
      ClosedUpwards(edges, seen, walk[1..]);
    }
  }

  // ---------- the search ----------

  ghost function Nodes(edges: seq<Edge>, ids: seq<TaskId>): set<TaskId> {
    (set id | id in ids) + (set e | e in edges :: e.parent)
  }

  lemma LastSplitsOff(ids: seq<TaskId>)
    requires ids != []
    ensures ids == ids[..|ids| - 1] + [ids[|ids| - 1]]
  {
  }

  lemma PrefixGrows(rest: seq<TaskId>, ids: seq<TaskId>, i: nat)
    requires i < |ids|
    ensures rest + ids[..i + 1] == rest + ids[..i] + [ids[i]]
  {
    assert ids[..i + 1] == ids[..i] + [ids[i]];
  }

  /** What has been visited and what is still waiting, between two rounds of the search. */
  ghost predicate Frontier(edges: seq<Edge>, parents: seq<TaskId>, seen: set<TaskId>, queue: seq<TaskId>) {
    && seen <= Nodes(edges, parents)
    && (forall x :: x in queue ==> x in Nodes(edges, parents))
    && (forall p :: p in parents ==> p in seen || p in queue)
    && (forall e :: e in edges && e.child in seen ==> e.parent in seen || e.parent in queue)
    && (forall x :: x in seen || x in queue ==> AboveSome(edges, parents, x))
  }

  lemma FrontierStarts(edges: seq<Edge>, parents: seq<TaskId>)
    ensures Frontier(edges, parents, {}, parents)
  {
    forall p | p in parents ensures AboveSome(edges, parents, p) { AboveSelf(edges, p); }
  }

  lemma FrontierHead(edges: seq<Edge>, parents: seq<TaskId>, seen: set<TaskId>, rest: seq<TaskId>, current: TaskId)
    requires Frontier(edges, parents, seen, rest + [current])
    ensures current in Nodes(edges, parents) && AboveSome(edges, parents, current)
  {
    assert current in rest + [current];
  }

  lemma FrontierSkips(edges: seq<Edge>, parents: seq<TaskId>, seen: set<TaskId>, rest: seq<TaskId>, current: TaskId)
    requires Frontier(edges, parents, seen, rest + [current]) && current in seen
    ensures Frontier(edges, parents, seen, rest)
  {
    forall x | x in rest ensures x in rest + [current] {}
  }

  lemma FrontierExpands(edges: seq<Edge>, parents: seq<TaskId>, seen: set<TaskId>, rest: seq<TaskId>, current: TaskId)
    requires Frontier(edges, parents, seen, rest + [current])
    ensures Frontier(edges, parents, seen + {current}, rest + ParentsOf(edges, current))
  {
    var above := ParentsOf(edges, current);
    assert current in rest + [current];
    forall x | x in rest ensures x in rest + [current] {}
    forall x | x in above ensures x in Nodes(edges, parents) && AboveSome(edges, parents, x) {
      assert Edge(x, current) in edges;
      CurrentSteps(edges, parents, current, x);
    }
    forall e | e in edges && e.child in seen + {current}
      ensures e.parent in seen + {current} || e.parent in rest + above
    {
      if e.child == current {
        assert e == Edge(e.parent, current);
      }
    }
  }

  lemma CurrentSteps(edges: seq<Edge>, parents: seq<TaskId>, current: TaskId, parent: TaskId)
    requires AboveSome(edges, parents, current) && Edge(parent, current) in edges
    ensures AboveSome(edges, parents, parent)
  {
    var p :| p in parents && Above(edges, p, current);
    AboveStep(edges, p, current, parent);
  }

  lemma FrontierExhausted(edges: seq<Edge>, task: TaskId, parents: seq<TaskId>, seen: set<TaskId>)
    requires Frontier(edges, parents, seen, [])
    requires ClosesCycle(edges, task, parents)
    ensures task in seen
  {
    var p :| p in parents && Above(edges, p, task);
    var walk :| Walk(edges, p, task, walk);
    ClosedUpwards(edges, seen, walk);
  }

  /** The parents of a node go onto the worklist, unless the task itself is among them. */
  method PushParents(rest: seq<TaskId>, above: seq<TaskId>, task: TaskId) returns (queue: seq<TaskId>, found: bool)
    ensures found <==> task in above
    ensures !found ==> queue == rest + above
  {
    queue := rest;
    var i := 0;
    while i < |above|
      invariant 0 <= i <= |above| && queue == rest + above[..i] && task !in above[..i]
    {
      if above[i] == task {
        return queue, true;
      }
      PrefixGrows(rest, above, i);
      queue := queue + [above[i]];
      i := i + 1;
    }
    assert above[..i] == above;
    return queue, false;
  }

  /** The search upwards; `ok` is false exactly when `task` is one of the parents or above one. */
  method EnsureNoCycle(edges: seq<Edge>, task: TaskId, parents: seq<TaskId>) returns (ok: bool)
    ensures ok <==> !ClosesCycle(edges, task, parents)
  {
    var seen: set<TaskId> := {};
    var queue := parents;
    FrontierStarts(edges, parents);
    while queue != []
      invariant task !in seen
      invariant Frontier(edges, parents, seen, queue)
      decreases Nodes(edges, parents) - seen, |queue|
    {
      var current := queue[|queue| - 1];
      var rest := queue[..|queue| - 1];
      LastSplitsOff(queue);
      FrontierHead(edges, parents, seen, rest, current);
      queue := rest;
      if current == task {
        return false;
      }
      if current in seen {
        FrontierSkips(edges, parents, seen, rest, current);
        continue;
      }
      FrontierExpands(edges, parents, seen, rest, current);
      seen := seen + {current};
      var above := ParentsOf(edges, current);
      var found: bool;
      queue, found := PushParents(rest, above, task);
      if found {
        CurrentSteps(edges, parents, current, task);
        return false;
      }
    }
    if ClosesCycle(edges, task, parents) {
      FrontierExhausted(edges, task, parents, seen);
    }
    return true;
  }

  // ---------- registration keeps the graph acyclic ----------

  /** A walk through the extended graph is an old walk, or it passes through `task`. */
  lemma {:induction false} SplitWalk(edges: seq<Edge>, task: TaskId, parents: seq<TaskId>, from: TaskId, to: TaskId, walk: seq<TaskId>)
    requires Walk(edges + EdgesTo(task, parents), from, to, walk)
    ensures Above(edges, from, to)
            || (Above(edges, from, task) && exists p :: p in parents && Above(edges, p, to))
    decreases |walk|
  {
    if |walk| == 1 {
      AboveSelf(edges, from);
    } else {
      var next := walk[1];
      var e := Edge(next, from);
      assert e in edges + EdgesTo(task, parents);
      assert Walk(edges + EdgesTo(task, parents), next, to, walk[1..]);
      SplitWalk(edges, task, parents, next, to, walk[1..]);
      AboveSelf(edges, from);
      if e in edges {
        AboveStep(edges, from, from, next);
        if Above(edges, next, to) {
          AboveTransitive(edges, from, next, to);
        } else {
          AboveTransitive(edges, from, next, task);
        }
      } else {
        assert e in EdgesTo(task, parents);
      }
    }
  }

  /** Adding the edges keeps an acyclic graph acyclic exactly when the search raises no alarm. */
  lemma RegistrationAcyclic(edges: seq<Edge>, task: TaskId, parents: seq<TaskId>)
    requires Acyclic(edges)
    ensures Acyclic(edges + EdgesTo(task, parents)) <==> !ClosesCycle(edges, task, parents)
  {
    var all := edges + EdgesTo(task, parents);
    if ClosesCycle(edges, task, parents) {
      var p :| p in parents && Above(edges, p, task);
      var e := Edge(p, task);
      assert e in EdgesTo(task, parents);
      assert e in all;
      AboveMonotone(edges, EdgesTo(task, parents), p, task);
    } else {
      forall e | e in all ensures !Above(all, e.parent, e.child) {
        if Above(all, e.parent, e.child) {
          NewCycle(edges, task, parents, e);
          assert false;
        }
      }
    }
  }

  lemma NewCycle(edges: seq<Edge>, task: TaskId, parents: seq<TaskId>, e: Edge)
    requires Acyclic(edges)
    requires e in edges + EdgesTo(task, parents)
    requires Above(edges + EdgesTo(task, parents), e.parent, e.child)
    ensures ClosesCycle(edges, task, parents)
  {
    var walk :| Walk(edges + EdgesTo(task, parents), e.parent, e.child, walk);
    SplitWalk(edges, task, parents, e.parent, e.child, walk);
    if e in edges {
      var p :| p in parents && Above(edges, p, e.child);
      assert e == Edge(e.parent, e.child);
      AboveStep(edges, p, e.child, e.parent);
      AboveTransitive(edges, p, e.parent, task);
    }
  }
}
