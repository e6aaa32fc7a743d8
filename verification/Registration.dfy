/** What became of the parents a task was registered with.  The edges alone cannot tell: a purged
    parent takes its edges with it.  So a run is chronicled: who was registered on whom, who ever
    succeeded, and from whom a purge took a parent that had not. */
module Registration {
  import opened Rows
  import opened Store
  import opened Dependencies
  import opened Protocol
  import opened Steps
  import opened Gate

  datatype Chronicle = Chronicle(
    s: State, registered: map<TaskId, set<TaskId>>, succeeded: set<TaskId>, robbed: set<TaskId>)

  function Succeeded(s: State): set<TaskId> {
    set id | id in s.tasks && s.tasks[id].status == Success
  }

  /** A purge deletes a task that has not succeeded, while `c` is created and waits for it. */
  ghost predicate Robs(s: State, op: Op, r: State, c: TaskId) {
    && op.PurgeTask? && op.task in s.tasks && op.task !in r.tasks
    && s.tasks[op.task].status != Success
    && c in s.tasks && s.tasks[c].status == Created && Edge(op.task, c) in s.edges
  }

  predicate Registers(s: State, op: Op, r: State) {
    op.Create? && s.nextTask in r.tasks && s.nextTask !in s.tasks
  }

  /** The chronicle after a step that leads to `r`. */
  ghost function NoteAfter(h: Chronicle, op: Op, r: State): Chronicle {
    Chronicle(r,
      if Registers(h.s, op, r) then h.registered[h.s.nextTask := set p | p in op.dependsOn] else h.registered,
      h.succeeded + Succeeded(r),
      h.robbed + set c | c in h.s.tasks && Robs(h.s, op, r, c))
  }

  ghost function NoteStep(cfg: Config, h: Chronicle, op: Op): Chronicle {
    NoteAfter(h, op, Apply(cfg, h.s, op))
  }

  ghost predicate NoteAt(cfg: Config, trace: seq<Chronicle>, ops: seq<Op>, i: nat)
    requires 0 < i < |trace| == |ops| + 1
  {
    trace[i] == NoteStep(cfg, trace[i - 1], ops[i - 1])
  }

  ghost predicate NoteTrace(cfg: Config, trace: seq<Chronicle>, ops: seq<Op>) {
    |trace| == |ops| + 1 && forall i :: 0 < i < |trace| ==> NoteAt(cfg, trace, ops, i)
  }

  function Begin(subs: seq<Subscription>, now: Time): Chronicle {
    Chronicle(State(map[], [], map[], subs, [], multiset{}, map[], 0, 0, now), map[], {}, {})
  }

  ghost predicate Noted(cfg: Config, h: Chronicle, subs: seq<Subscription>, now: Time, ops: seq<Op>) {
    exists trace :: NoteTrace(cfg, trace, ops) && trace[0] == Begin(subs, now) && trace[|ops|] == h
  }

  /** A run of the empty platform, chronicled. */
  ghost predicate Chronicled(cfg: Config, h: Chronicle) {
    exists subs, now, ops :: Noted(cfg, h, subs, now, ops)
  }

  // ---------- which registrations are refused ----------

  lemma {:induction false} WalkStaysOld(s: State, walk: seq<TaskId>, i: nat)
    requires EdgesInv(s) && TasksInv(s) && Climbs(s.edges, walk) && i < |walk| && walk[0] < s.nextTask
    ensures walk[i] < s.nextTask
    decreases i
  {
    if i > 0 {
      WalkStaysOld(s, walk, i - 1);
      assert Edge(walk[i - 1 + 1], walk[i - 1]) in s.edges;
    }
  }

  lemma NewTaskClosesNoCycle(s: State, parents: seq<TaskId>)
    requires EdgesInv(s) && TasksInv(s) && forall p :: p in parents ==> p < s.nextTask
    ensures !ClosesCycle(s.edges, s.nextTask, parents)
  {
    forall p | p in parents ensures !Above(s.edges, p, s.nextTask) {
      if walk :| Walk(s.edges, p, s.nextTask, walk) {
        WalkStaysOld(s, walk, |walk| - 1);
      }
    }
  }

  /** In a reachable state a creation is refused exactly if some parent does not exist. */
  lemma RefusedExactlyWhenUnknown(cfg: Config, s: State, op: Op, r: State)
    requires Reachable(cfg, s) && op.Create? && Runs(cfg, s, [op], r)
    ensures r == s <==> exists p :: p in op.dependsOn && p !in s.tasks
  {
    ReachableInv(cfg, s);
    OneStep(cfg, s, op, r);
    CreateStep(s, op);
    if forall p :: p in op.dependsOn ==> p in s.tasks {
      NotRefused(s, op);
    }
  }

  lemma NotRefused(s: State, op: Op)
    requires DbInv(s) && op.Create? && forall p :: p in op.dependsOn ==> p in s.tasks
    ensures DoCreate(s, op.maxAttempts, op.scheduleAt, op.batch, op.dependsOn) != s
  {
    if op.dependsOn == [] {
      CreateStep(s, op);
    } else {
      NewTaskClosesNoCycle(s, WithoutRepeats(op.dependsOn));
      assert Registrable(Added(s, op.maxAttempts, op.scheduleAt, op.batch), s.nextTask, op.dependsOn);
    }
  }

  // ---------- the graph and the registrations ----------

  /** The edge was registered. */
  ghost predicate EdgeNoted(h: Chronicle, e: Edge) {
    e.child in h.registered && e.parent in h.registered[e.child]
  }

  /** The registration is still an edge, unless the parent was deleted. */
  ghost predicate ParentNoted(h: Chronicle, c: TaskId, p: TaskId) {
    p < h.s.nextTask && (p in h.s.tasks ==> Edge(p, c) in h.s.edges)
  }

  ghost predicate GraphNoted(h: Chronicle) {
    && h.s.tasks.Keys <= h.registered.Keys
    && (forall e :: e in h.s.edges ==> EdgeNoted(h, e))
    && (forall c, p :: c in h.s.tasks && p in h.registered[c] ==> ParentNoted(h, c, p))
  }

  ghost predicate SuccessNoted(h: Chronicle) {
    && (forall p :: p in h.succeeded ==> p < h.s.nextTask && (p in h.s.tasks ==> h.s.tasks[p].status == Success))
    && Succeeded(h.s) <= h.succeeded
  }

  /** Some registered parent was deleted without ever having succeeded. */
  ghost predicate Lacking(h: Chronicle, c: TaskId)
    requires c in h.registered
  {
    exists p :: p in h.registered[c] && p !in h.s.tasks && p !in h.succeeded
  }

  ghost predicate TaskNoted(h: Chronicle, c: TaskId)
    requires c in h.s.tasks && c in h.registered
  {
    && (c in h.robbed ==> Lacking(h, c))
    && (h.s.tasks[c].status == Created && Lacking(h, c) ==> c in h.robbed)
    && (WasUnblocked(h.s.tasks[c]) && c !in h.robbed ==> h.registered[c] <= h.succeeded)
  }

  ghost predicate WellNoted(h: Chronicle) {
    && DbInv(h.s) && GraphNoted(h) && SuccessNoted(h)
    && (forall c :: c in h.robbed ==> c < h.s.nextTask)
    && forall c :: c in h.s.tasks ==> TaskNoted(h, c)
  }

  /** What is needed of a step: creations insert, purges delete, all else keeps the graph. */
  ghost predicate Happened(cfg: Config, s: State, op: Op, r: State) {
    && Followed(cfg, s, op, r)
    && (op.Create? ==> r == s || (Inserted(s, op, r) && !WasUnblocked(r.tasks[s.nextTask])))
    && (op.PurgeTask? ==> r == s || (op.task in s.tasks && r == Deleted(s, op.task)))
  }

  lemma StepHappens(cfg: Config, s: State, op: Op)
    requires DbInv(s)
    ensures Happened(cfg, s, op, Apply(cfg, s, op))
  {
    StepIsFollowed(cfg, s, op);
    if op.Create? {
      CreateStep(s, op);
      if Apply(cfg, s, op) != s {
        NewIsBlocked(s, op, s.nextTask);
      }
    }
  }

  lemma CreateKeepsGraph(cfg: Config, h: Chronicle, op: Op, r: State)
    requires EdgesInv(h.s) && TasksInv(h.s) && GraphNoted(h) && op.Create? && Happened(cfg, h.s, op, r)
    ensures GraphNoted(NoteAfter(h, op, r))
  {
    if r != h.s {
      CreationInserts(h, op, r, NoteAfter(h, op, r));
      InsertKeepsGraph(h, NoteAfter(h, op, r), op.dependsOn);
    } else {
      SameKeepsGraph(h, NoteAfter(h, op, r));
    }
  }

  lemma CreationInserts(h: Chronicle, op: Op, r: State, k: Chronicle)
    requires TasksInv(h.s) && op.Create? && Inserted(h.s, op, r) && k == NoteAfter(h, op, r)
    ensures k.s.edges == h.s.edges + EdgesTo(h.s.nextTask, Dependencies.WithoutRepeats(op.dependsOn))
    ensures k.s.tasks.Keys == h.s.tasks.Keys + {h.s.nextTask} && k.s.nextTask == h.s.nextTask + 1
    ensures k.registered == h.registered[h.s.nextTask := set p | p in op.dependsOn]
  {
  }

  lemma InsertKeepsGraph(h: Chronicle, k: Chronicle, dependsOn: seq<TaskId>)
    requires EdgesInv(h.s) && TasksInv(h.s) && GraphNoted(h)
    requires k.s.edges == h.s.edges + EdgesTo(h.s.nextTask, Dependencies.WithoutRepeats(dependsOn))
    requires k.s.tasks.Keys == h.s.tasks.Keys + {h.s.nextTask} && k.s.nextTask == h.s.nextTask + 1
    requires k.registered == h.registered[h.s.nextTask := set p | p in dependsOn]
    requires forall p :: p in dependsOn ==> p in h.s.tasks
    ensures GraphNoted(k)
  {
    forall e | e in k.s.edges ensures EdgeNoted(k, e) {
      InsertedEdge(h, k, dependsOn, e);
    }
    forall c, p | c in k.s.tasks && p in k.registered[c] ensures ParentNoted(k, c, p) {
      InsertedParent(h, k, dependsOn, c, p);
    }
  }

  lemma InsertedEdge(h: Chronicle, k: Chronicle, dependsOn: seq<TaskId>, e: Edge)
    requires EdgesInv(h.s) && TasksInv(h.s) && GraphNoted(h)
    requires k.registered == h.registered[h.s.nextTask := set p | p in dependsOn]
    requires e in h.s.edges || e in EdgesTo(h.s.nextTask, Dependencies.WithoutRepeats(dependsOn))
    ensures EdgeNoted(k, e)
  {
    if e in h.s.edges {
      assert EdgeNoted(h, e);
      assert e.child in h.s.tasks && e.child < h.s.nextTask;
    }
  }

  lemma InsertedParent(h: Chronicle, k: Chronicle, dependsOn: seq<TaskId>, c: TaskId, p: TaskId)
    requires TasksInv(h.s) && GraphNoted(h)
    requires k.s.edges == h.s.edges + EdgesTo(h.s.nextTask, Dependencies.WithoutRepeats(dependsOn))
    requires k.s.tasks.Keys == h.s.tasks.Keys + {h.s.nextTask} && k.s.nextTask == h.s.nextTask + 1
    requires k.registered == h.registered[h.s.nextTask := set p | p in dependsOn]
    requires forall p :: p in dependsOn ==> p in h.s.tasks
    requires c in k.s.tasks && c in k.registered && p in k.registered[c]
    ensures ParentNoted(k, c, p)
  {
    if c == h.s.nextTask {
      assert p in dependsOn && p in h.s.tasks && p < h.s.nextTask;
      assert Edge(p, c) in EdgesTo(c, Dependencies.WithoutRepeats(dependsOn));
    } else {
      assert c in h.s.tasks && ParentNoted(h, c, p);
    }
  }

  lemma SameKeepsGraph(h: Chronicle, k: Chronicle)
    requires GraphNoted(h) && SameGraph(h.s, k.s) && k.registered == h.registered
    ensures GraphNoted(k)
  {
    forall e | e in k.s.edges ensures EdgeNoted(k, e) {
      assert EdgeNoted(h, e);
    }
    forall c, p | c in k.s.tasks && p in k.registered[c] ensures ParentNoted(k, c, p) {
      assert c in h.s.tasks && ParentNoted(h, c, p);
    }
  }

  lemma PurgedGraph(h: Chronicle, k: Chronicle, id: TaskId, r: State)
    requires GraphNoted(h) && k.s == r && k.registered == h.registered && (r == h.s || r == Deleted(h.s, id))
    ensures GraphNoted(k)
  {
    forall e | e in k.s.edges ensures EdgeNoted(k, e) {
      assert EdgeNoted(h, e);
    }
    forall c, p | c in k.s.tasks && p in k.registered[c] ensures ParentNoted(k, c, p) {
      assert c in h.s.tasks && ParentNoted(h, c, p);
    }
  }

  lemma StepKeepsGraph(cfg: Config, h: Chronicle, op: Op, r: State)
    requires EdgesInv(h.s) && TasksInv(h.s) && GraphNoted(h) && Happened(cfg, h.s, op, r)
    ensures GraphNoted(NoteAfter(h, op, r))
  {
    if op.Create? {
      CreateKeepsGraph(cfg, h, op, r);
    } else if op.PurgeTask? {
      PurgedGraph(h, NoteAfter(h, op, r), op.task, r);
    } else {
      SameKeepsGraph(h, NoteAfter(h, op, r));
    }
  }

  lemma StepKeepsSuccess(cfg: Config, h: Chronicle, op: Op, r: State)
    requires Followed(cfg, h.s, op, r) && TasksInv(r) && SuccessNoted(h)
    ensures SuccessNoted(NoteAfter(h, op, r))
  {
    var k := NoteAfter(h, op, r);
    forall p | p in k.succeeded ensures p < r.nextTask && (p in r.tasks ==> r.tasks[p].status == Success) {
      if p in h.succeeded && p in r.tasks {
        assert p in h.s.tasks && RowFollows(cfg, h.s, op, r, p);
        SuccessKept(cfg, h.s, op, r, p);
      }
    }
  }

  // ---------- one step ----------

  /** What a step can do to one chronicled task. */
  ghost predicate Follows(h: Chronicle, k: Chronicle, c: TaskId)
    requires c in h.registered
  {
    && c in k.registered && k.registered[c] == h.registered[c] && h.succeeded <= k.succeeded && h.robbed <= k.robbed
    && (forall p :: p in h.registered[c] && p !in h.s.tasks && p !in h.succeeded ==> p !in k.s.tasks && p !in k.succeeded)
  }

  lemma StepFollowed(cfg: Config, h: Chronicle, op: Op, r: State, c: TaskId)
    requires GraphNoted(h) && Followed(cfg, h.s, op, r) && c in h.s.tasks && c < h.s.nextTask
    ensures Follows(h, NoteAfter(h, op, r), c)
  {
    var k := NoteAfter(h, op, r);
    SameRegistration(h, op, r, c);
    forall p | p in h.registered[c] && p !in h.s.tasks && p !in h.succeeded ensures p !in k.s.tasks && p !in k.succeeded {
      assert ParentNoted(h, c, p);
      GoneStaysGone(cfg, h, op, r, p);
    }
  }

  lemma GoneStaysGone(cfg: Config, h: Chronicle, op: Op, r: State, p: TaskId)
    requires Followed(cfg, h.s, op, r) && p !in h.s.tasks && p < h.s.nextTask && p !in h.succeeded
    ensures p !in r.tasks && p !in NoteAfter(h, op, r).succeeded
  {
  }

  lemma SameRegistration(h: Chronicle, op: Op, r: State, c: TaskId)
    requires c < h.s.nextTask && c in h.registered
    ensures c in NoteAfter(h, op, r).registered && NoteAfter(h, op, r).registered[c] == h.registered[c]
  {
  }

  lemma RobbedLacks(h: Chronicle, op: Op, r: State, c: TaskId)
    requires GraphNoted(h) && SuccessNoted(h) && c in h.s.tasks && TaskNoted(h, c)
    requires Follows(h, NoteAfter(h, op, r), c) && c in NoteAfter(h, op, r).robbed
    ensures Lacking(NoteAfter(h, op, r), c)
  {
    var k := NoteAfter(h, op, r);
    if c in h.robbed {
      var p :| p in h.registered[c] && p !in h.s.tasks && p !in h.succeeded;
      assert p in k.registered[c] && p !in k.s.tasks && p !in k.succeeded;
    } else {
      var p := op.task;
      assert EdgeNoted(h, Edge(p, c));
      assert p in k.registered[c] && p !in k.s.tasks && p !in k.succeeded;
    }
  }

  lemma PurgeTakesParent(h: Chronicle, op: Op, r: State, c: TaskId, p: TaskId)
    requires GraphNoted(h) && SuccessNoted(h) && c in h.s.tasks && h.s.tasks[c].status == Created
    requires p in h.s.tasks && p !in r.tasks && p !in h.succeeded && p in h.registered[c]
    requires op == PurgeTask(p)
    ensures c in NoteAfter(h, op, r).robbed
  {
    assert ParentNoted(h, c, p);
    assert Robs(h.s, op, r, c);
  }

  /** A created task that lacks a parent was robbed of it. */
  lemma LackingIsRobbed(cfg: Config, h: Chronicle, op: Op, r: State, c: TaskId)
    requires GraphNoted(h) && SuccessNoted(h) && c in h.s.tasks && TaskNoted(h, c) && Followed(cfg, h.s, op, r)
    requires Follows(h, NoteAfter(h, op, r), c) && c in r.tasks && r.tasks[c].status == Created
    requires op.PurgeTask? ==> r == h.s || (op.task in h.s.tasks && r == Deleted(h.s, op.task))
    requires Lacking(NoteAfter(h, op, r), c)
    ensures c in NoteAfter(h, op, r).robbed
  {
    var k := NoteAfter(h, op, r);
    CreatedBefore(cfg, h.s, op, r, c);
    var p :| p in k.registered[c] && p !in k.s.tasks && p !in k.succeeded;
    if p in h.s.tasks {
      assert op == PurgeTask(p);
      PurgeTakesParent(h, op, r, c, p);
    } else {
      assert Lacking(h, c);
    }
  }

  /** A task that was freed without having been robbed has only parents that succeeded. */
  lemma FreedIsServed(cfg: Config, h: Chronicle, op: Op, r: State, c: TaskId)
    requires EdgesInv(h.s) && GraphNoted(h) && c in h.s.tasks && TaskNoted(h, c) && Followed(cfg, h.s, op, r)
    requires Follows(h, NoteAfter(h, op, r), c) && c in r.tasks
    requires WasUnblocked(r.tasks[c]) && c !in NoteAfter(h, op, r).robbed
    ensures h.registered[c] <= NoteAfter(h, op, r).succeeded
  {
    assert RowFollows(cfg, h.s, op, r, c);
    UnblockedByChange(cfg, ChangeOf(cfg, h.s, op, c), h.s.tasks[c], h.s.now);
    if !WasUnblocked(h.s.tasks[c]) {
      forall p | p in h.registered[c] ensures p in NoteAfter(h, op, r).succeeded {
        UnblockServes(cfg, h, op, r, c, p);
      }
    }
  }

  lemma UnblockServes(cfg: Config, h: Chronicle, op: Op, r: State, c: TaskId, p: TaskId)
    requires EdgesInv(h.s) && GraphNoted(h) && Followed(cfg, h.s, op, r)
    requires c in h.s.tasks && TaskNoted(h, c) && ChangeOf(cfg, h.s, op, c).Unblock? && c !in h.robbed
    requires c in r.tasks && p in h.registered[c]
    ensures p in NoteAfter(h, op, r).succeeded
  {
    UnblockMeansFreed(cfg, h.s, op, c);
    if p in h.s.tasks {
      assert ParentNoted(h, c, p);
      FreedParentsSucceed(cfg, h.s, op, r, c, p);
    } else {
      assert h.s.tasks[c].status == Created;
      assert !Lacking(h, c);
    }
  }

  lemma OldNoted(cfg: Config, h: Chronicle, op: Op, r: State, c: TaskId)
    requires WellNoted(h) && Happened(cfg, h.s, op, r) && c in h.s.tasks && c in r.tasks
    ensures c in NoteAfter(h, op, r).registered && TaskNoted(NoteAfter(h, op, r), c)
  {
    var k := NoteAfter(h, op, r);
    assert TaskNoted(h, c) && c < h.s.nextTask;
    StepFollowed(cfg, h, op, r, c);
    if c in k.robbed {
      RobbedLacks(h, op, r, c);
    } else {
      if k.s.tasks[c].status == Created && Lacking(k, c) {
        LackingIsRobbed(cfg, h, op, r, c);
      }
      if WasUnblocked(k.s.tasks[c]) {
        FreedIsServed(cfg, h, op, r, c);
      }
    }
  }

  lemma NewNoted(cfg: Config, h: Chronicle, op: Op, r: State, c: TaskId)
    requires Happened(cfg, h.s, op, r) && c !in h.s.tasks && c in r.tasks
    requires forall x :: x in h.robbed ==> x < h.s.nextTask
    ensures c in NoteAfter(h, op, r).registered && TaskNoted(NoteAfter(h, op, r), c)
  {
    var k := NoteAfter(h, op, r);
    assert c == h.s.nextTask && c !in k.robbed;
    assert k.registered[c] == set p | p in op.dependsOn;
    assert !Lacking(k, c);
  }

  lemma HappenedKeepsNoted(cfg: Config, h: Chronicle, op: Op, r: State)
    requires WellNoted(h) && Happened(cfg, h.s, op, r) && DbInv(r)
    ensures WellNoted(NoteAfter(h, op, r))
  {
    var k := NoteAfter(h, op, r);
    StepKeepsGraph(cfg, h, op, r);
    StepKeepsSuccess(cfg, h, op, r);
    forall c | c in k.robbed ensures c < k.s.nextTask {}
    forall c | c in k.s.tasks ensures TaskNoted(k, c) {
      if c in h.s.tasks {
        OldNoted(cfg, h, op, r, c);
      } else {
        NewNoted(cfg, h, op, r, c);
      }
    }
  }

  lemma StepKeepsNoted(cfg: Config, h: Chronicle, op: Op)
    requires WellNoted(h)
    ensures WellNoted(NoteStep(cfg, h, op))
  {
    StepHappens(cfg, h.s, op);
    StepKeepsInv(cfg, h.s, op);
    HappenedKeepsNoted(cfg, h, op, Apply(cfg, h.s, op));
  }

  lemma {:induction false} TraceIsNoted(cfg: Config, trace: seq<Chronicle>, ops: seq<Op>, i: nat)
    requires NoteTrace(cfg, trace, ops) && i <= |ops| && WellNoted(trace[0])
    ensures WellNoted(trace[i])
    decreases i
  {
    if i > 0 {
      TraceIsNoted(cfg, trace, ops, i - 1);
      NotedAt(cfg, trace, ops, i);
    }
  }

  lemma NotedAt(cfg: Config, trace: seq<Chronicle>, ops: seq<Op>, i: nat)
    requires NoteTrace(cfg, trace, ops) && 0 < i <= |ops| && WellNoted(trace[i - 1])
    ensures WellNoted(trace[i])
  {
    assert NoteAt(cfg, trace, ops, i);
    StepKeepsNoted(cfg, trace[i - 1], ops[i - 1]);
  }

  lemma ChronicleSound(cfg: Config, h: Chronicle)
    requires Chronicled(cfg, h)
    ensures WellNoted(h)
  {
    var subs, now, ops :| Noted(cfg, h, subs, now, ops);
    var trace :| NoteTrace(cfg, trace, ops) && trace[0] == Begin(subs, now) && trace[|ops|] == h;
    assert WellNoted(trace[0]);
    TraceIsNoted(cfg, trace, ops, |ops|);
  }

  /** In every run a task that was ever freed had only successful registered parents, exactly unless a
      purge deleted one of its parents, not successful, while it was waiting. */
  lemma DependencyGate(cfg: Config, h: Chronicle, c: TaskId)
    requires Chronicled(cfg, h) && c in h.s.tasks && WasUnblocked(h.s.tasks[c])
    ensures c in h.registered
    ensures h.registered[c] <= h.succeeded <==> c !in h.robbed
  {
    ChronicleSound(cfg, h);
    assert TaskNoted(h, c);
  }

  // ---------- starting ----------

  predicate RetriedByHand(t: Task) {
    TallyOf(t.log).manual > 0
  }

  /** A dependent gets past `created` by being freed or, after a cancellation, by hand. */
  predicate Gated(t: Task) {
    WasUnblocked(t) || RetriedByHand(t) || (t.attempts == 0 && (t.status == Created || t.status == Cancelled))
  }

  lemma ManualCounted(cfg: Config, c: Change, t: Task, now: Time)
    requires Enabled(cfg, c, t, now)
    ensures TallyOf(Changed(cfg, c, t, now).log).manual == TallyOf(t.log).manual + if c.RetryByHand? then 1 else 0
  {
    ChangedTally(cfg, c, t, now);
    ManualBump(cfg, c, t, now, TallyOf(t.log));
  }

  lemma ManualBump(cfg: Config, c: Change, t: Task, now: Time, y: Tally)
    requires Enabled(cfg, c, t, now)
    ensures (if EventsOf(c, t) == [] then y else Bump(y, EventsOf(c, t)[0])).manual == y.manual + if c.RetryByHand? then 1 else 0
  {
  }

  lemma WayPast(cfg: Config, c: Change, t: Task, now: Time)
    requires Enabled(cfg, c, t, now) && !c.Unblock? && !c.RetryByHand?
    requires t.attempts == 0 && (t.status == Created || t.status == Cancelled)
    ensures var u := Changed(cfg, c, t, now); u.attempts == 0 && (u.status == Created || u.status == Cancelled)
  {
  }

  lemma ChangeGated(cfg: Config, c: Change, t: Task, now: Time)
    requires Enabled(cfg, c, t, now) && Gated(t)
    ensures Gated(Changed(cfg, c, t, now))
  {
    UnblockedByChange(cfg, c, t, now);
    ManualCounted(cfg, c, t, now);
    if !c.Unblock? && !c.RetryByHand? && !WasUnblocked(t) && !RetriedByHand(t) {
      WayPast(cfg, c, t, now);
    }
  }

  ghost predicate GatesNoted(h: Chronicle) {
    forall c :: c in h.s.tasks && c in h.registered && h.registered[c] != {} ==> Gated(h.s.tasks[c])
  }

  lemma NewGated(cfg: Config, h: Chronicle, op: Op, r: State, c: TaskId)
    requires Happened(cfg, h.s, op, r) && c in r.tasks && c !in h.s.tasks
    requires c in NoteAfter(h, op, r).registered && NoteAfter(h, op, r).registered[c] != {}
    ensures Gated(r.tasks[c])
  {
    assert op.Create? && c == h.s.nextTask;
    assert op.dependsOn != [];
  }

  lemma OldGated(cfg: Config, h: Chronicle, op: Op, r: State, c: TaskId)
    requires RowsFollow(cfg, h.s, op, r) && c in h.s.tasks && c in r.tasks && Gated(h.s.tasks[c])
    ensures Gated(r.tasks[c])
  {
    assert RowFollows(cfg, h.s, op, r, c);
    ChangeGated(cfg, ChangeOf(cfg, h.s, op, c), h.s.tasks[c], h.s.now);
  }

  lemma StepKeepsGates(cfg: Config, h: Chronicle, op: Op, r: State)
    requires TasksInv(h.s) && h.s.tasks.Keys <= h.registered.Keys && GatesNoted(h) && Happened(cfg, h.s, op, r)
    ensures GatesNoted(NoteAfter(h, op, r))
  {
    var k := NoteAfter(h, op, r);
    forall c | c in r.tasks && c in k.registered && k.registered[c] != {} ensures Gated(r.tasks[c]) {
      if c in h.s.tasks {
        SameRegistration(h, op, r, c);
        OldGated(cfg, h, op, r, c);
      } else {
        NewGated(cfg, h, op, r, c);
      }
    }
  }

  lemma GatesAt(cfg: Config, trace: seq<Chronicle>, ops: seq<Op>, i: nat)
    requires NoteTrace(cfg, trace, ops) && 0 < i <= |ops| && WellNoted(trace[i - 1]) && GatesNoted(trace[i - 1])
    ensures GatesNoted(trace[i])
  {
    assert NoteAt(cfg, trace, ops, i);
    StepHappens(cfg, trace[i - 1].s, ops[i - 1]);
    StepKeepsGates(cfg, trace[i - 1], ops[i - 1], Apply(cfg, trace[i - 1].s, ops[i - 1]));
  }

  lemma {:induction false} TraceKeepsGates(cfg: Config, trace: seq<Chronicle>, ops: seq<Op>, i: nat)
    requires NoteTrace(cfg, trace, ops) && i <= |ops| && WellNoted(trace[0]) && GatesNoted(trace[0])
    ensures GatesNoted(trace[i])
    decreases i
  {
    if i > 0 {
      TraceKeepsGates(cfg, trace, ops, i - 1);
      TraceIsNoted(cfg, trace, ops, i - 1);
      GatesAt(cfg, trace, ops, i);
    }
  }

  /** In every run a task that was ever started, and never retried by hand, had only successful registered
      parents, exactly unless a purge deleted one of them, not successful, while it was waiting. */
  lemma StartGate(cfg: Config, h: Chronicle, c: TaskId)
    requires Chronicled(cfg, h) && c in h.s.tasks && h.s.tasks[c].attempts > 0 && !RetriedByHand(h.s.tasks[c])
    ensures c in h.registered
    ensures h.registered[c] <= h.succeeded <==> c !in h.robbed
  {
    ChronicleSound(cfg, h);
    assert TaskNoted(h, c);
    var subs, now, ops :| Noted(cfg, h, subs, now, ops);
    var trace :| NoteTrace(cfg, trace, ops) && trace[0] == Begin(subs, now) && trace[|ops|] == h;
    TraceKeepsGates(cfg, trace, ops, |ops|);
    if h.registered[c] != {} {
      assert Gated(h.s.tasks[c]);
      DependencyGate(cfg, h, c);
    }
  }
}
