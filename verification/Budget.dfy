/** How often a task can run, and why it comes to rest. */
module Budget {
  import opened Rows
  import opened Store
  import opened Selection
  import opened Protocol
  import opened Steps

  // ---------- the attempt budget ----------

  /** Attempts below the retry limit whose worker is no longer in flight. */
  ghost function Landed(s: State, id: TaskId): set<nat>
    requires id in s.tasks
  {
    set k: nat | 1 <= k <= s.tasks[id].attempts && k < s.tasks[id].maxAttempts && Flight(id, k) !in s.flights
  }

  /** Each backoff was decided by the report of a different attempt below the retry limit. */
  ghost predicate BackoffsPaid(s: State, id: TaskId)
    requires id in s.tasks
  {
    TallyOf(s.tasks[id].log).backoffs <= |Landed(s, id)|
  }

  ghost predicate BudgetInv(cfg: Config, s: State) {
    forall id :: id in s.tasks ==> BackoffsPaid(s, id) && s.tasks[id].dlqRequeueCount <= cfg.dlqMaxCycles
  }

  predicate BacksOff(c: Change, t: Task) {
    c.Fail? && t.status == Running && FailureStatus(t.maxAttempts, c.snap, c.retryable) == RetryScheduled
  }

  lemma ChangedBackoffs(cfg: Config, c: Change, t: Task, now: Time)
    requires Enabled(cfg, c, t, now)
    ensures TallyOf(Changed(cfg, c, t, now).log).backoffs == TallyOf(t.log).backoffs + if BacksOff(c, t) then 1 else 0
    ensures Changed(cfg, c, t, now).maxAttempts == t.maxAttempts
  {
    ChangedTally(cfg, c, t, now);
    BackoffCounted(cfg, c, t, now, TallyOf(t.log), TallyOf(Changed(cfg, c, t, now).log));
    ChangeKeepsLimit(cfg, c, t, now);
  }

  lemma BackoffCounted(cfg: Config, c: Change, t: Task, now: Time, y: Tally, z: Tally)
    requires Enabled(cfg, c, t, now)
    requires z == if EventsOf(c, t) == [] then y else Bump(y, EventsOf(c, t)[0])
    ensures z.backoffs == y.backoffs + if BacksOff(c, t) then 1 else 0
  {
  }

  lemma ChangeKeepsLimit(cfg: Config, c: Change, t: Task, now: Time)
    requires Enabled(cfg, c, t, now)
    ensures Changed(cfg, c, t, now).maxAttempts == t.maxAttempts
  {
  }

  lemma LandedKept(cfg: Config, s: State, op: Op, r: State, id: TaskId)
    requires id in s.tasks && id in r.tasks && RowSteps(cfg, s, op, r, id) && FlightsFollow(cfg, s, op, r)
    requires r.tasks[id].maxAttempts == s.tasks[id].maxAttempts
    ensures Landed(s, id) <= Landed(r, id)
  {
  }

  /** The numbers that have landed stay landed, and a backoff lands one more. */
  lemma LandedGrows(cfg: Config, s: State, op: Op, r: State, id: TaskId)
    requires id in s.tasks && id in r.tasks && RowSteps(cfg, s, op, r, id) && FlightsFollow(cfg, s, op, r) && FlightsInv(s)
    requires r.tasks[id].maxAttempts == s.tasks[id].maxAttempts
    ensures |Landed(s, id)| <= |Landed(r, id)|
    ensures BacksOff(ChangeOf(cfg, s, op, id), s.tasks[id]) ==> |Landed(s, id)| < |Landed(r, id)|
  {
    LandedKept(cfg, s, op, r, id);
    Smaller(Landed(s, id), Landed(r, id));
    if BacksOff(ChangeOf(cfg, s, op, id), s.tasks[id]) {
      BackoffIsReport(cfg, s, op, id);
      BackoffLands(cfg, s, op, r, id, op.flight.number);
      Smaller(Landed(s, id) + {op.flight.number}, Landed(r, id));
    }
  }

  lemma BackoffLands(cfg: Config, s: State, op: Op, r: State, id: TaskId, k: nat)
    requires id in s.tasks && id in r.tasks && RowSteps(cfg, s, op, r, id) && FlightsFollow(cfg, s, op, r) && FlightsInv(s)
    requires r.tasks[id].maxAttempts == s.tasks[id].maxAttempts
    requires op.Finish? && op.flight in s.flights && op.flight == Flight(id, k)
    requires s.flights[op.flight].attempts < s.tasks[id].maxAttempts
    ensures k in Landed(r, id) && k !in Landed(s, id)
  {
    assert FlightInv(s, op.flight);
  }

  lemma BackoffIsReport(cfg: Config, s: State, op: Op, id: TaskId)
    requires id in s.tasks && BacksOff(ChangeOf(cfg, s, op, id), s.tasks[id])
    ensures op.Finish? && op.flight in s.flights && op.flight.task == id
    ensures s.flights[op.flight].attempts < s.tasks[id].maxAttempts
  {
  }

  lemma OldBudget(cfg: Config, s: State, op: Op, r: State, id: TaskId)
    requires id in s.tasks && id in r.tasks && RowFollows(cfg, s, op, r, id)
    requires RowSteps(cfg, s, op, r, id) && FlightsFollow(cfg, s, op, r) && FlightsInv(s)
    requires BackoffsPaid(s, id)
    ensures BackoffsPaid(r, id)
  {
    var c := ChangeOf(cfg, s, op, id);
    ChangedBackoffs(cfg, c, s.tasks[id], s.now);
    ChangeKeepsLimit(cfg, c, s.tasks[id], s.now);
    LandedGrows(cfg, s, op, r, id);
    PaidAfter(cfg, s, op, r, id);
  }

  lemma PaidAfter(cfg: Config, s: State, op: Op, r: State, id: TaskId)
    requires id in s.tasks && id in r.tasks && BackoffsPaid(s, id)
    requires TallyOf(r.tasks[id].log).backoffs
             == TallyOf(s.tasks[id].log).backoffs + if BacksOff(ChangeOf(cfg, s, op, id), s.tasks[id]) then 1 else 0
    requires |Landed(s, id)| <= |Landed(r, id)|
    requires BacksOff(ChangeOf(cfg, s, op, id), s.tasks[id]) ==> |Landed(s, id)| < |Landed(r, id)|
    ensures BackoffsPaid(r, id)
  {
  }

  lemma DeadLetterCycles(cfg: Config, c: Change, t: Task, now: Time)
    requires Enabled(cfg, c, t, now) && t.dlqRequeueCount <= cfg.dlqMaxCycles
    ensures Changed(cfg, c, t, now).dlqRequeueCount <= cfg.dlqMaxCycles
  {
  }

  lemma NewBudget(cfg: Config, s: State, op: Op, id: TaskId)
    requires DbInv(s) && op.Create? && id !in s.tasks && id in Apply(cfg, s, op).tasks
    ensures BackoffsPaid(Apply(cfg, s, op), id) && Apply(cfg, s, op).tasks[id].dlqRequeueCount == 0
  {
    FreshHasNoBackoffs(s, op);
    CreateStep(s, op);
  }

  lemma FollowedBudget(cfg: Config, s: State, op: Op, r: State, id: TaskId)
    requires DbInv(s) && BudgetInv(cfg, s) && id in s.tasks && id in r.tasks
    requires RowFollows(cfg, s, op, r, id) && FlightsFollow(cfg, s, op, r)
    ensures BackoffsPaid(r, id) && r.tasks[id].dlqRequeueCount <= cfg.dlqMaxCycles
  {
    assert BackoffsPaid(s, id) && RowInv(s.tasks[id]);
    FollowedRow(cfg, s, op, r, id);
    DeadLetterCycles(cfg, ChangeOf(cfg, s, op, id), s.tasks[id], s.now);
    OldBudget(cfg, s, op, r, id);
  }

  lemma StepKeepsBudget(cfg: Config, s: State, op: Op)
    requires DbInv(s) && BudgetInv(cfg, s)
    ensures BudgetInv(cfg, Apply(cfg, s, op))
  {
    var r := Apply(cfg, s, op);
    StepIsFollowed(cfg, s, op);
    FlightsOf(cfg, s, op);
    forall id | id in r.tasks ensures BackoffsPaid(r, id) && r.tasks[id].dlqRequeueCount <= cfg.dlqMaxCycles {
      if id in s.tasks {
        assert RowFollows(cfg, s, op, r, id);
        FollowedBudget(cfg, s, op, r, id);
      } else {
        NewBudget(cfg, s, op, id);
      }
    }
  }

  lemma FreshHasNoBackoffs(s: State, op: Op)
    requires op.Create?
    ensures TallyOf(CreatedRow(s, op).log).backoffs == 0
    ensures CreatedRow(s, op).dlqRequeueCount == 0
  {
    var row := FreshRow(op.maxAttempts, op.scheduleAt, op.batch, s.now);
    assert [] + [row.log[0]] == row.log;
    TallyOfAppend([], row.log[0]);
    TallyOfAppend(row.log, Event(TaskBlocked, Created, Created));
    TallyOfAppend(row.log, Event(TaskQueued, Created, Queued));
    TallyOfAppend(row.log, Event(TaskScheduled, Created, Scheduled));
  }

  lemma {:induction false} RunKeepsBudget(cfg: Config, s: State, ops: seq<Op>)
    requires DbInv(s) && BudgetInv(cfg, s)
    ensures DbInv(Exec(cfg, s, ops)) && BudgetInv(cfg, Exec(cfg, s, ops))
    decreases |ops|
  {
    if ops != [] {
      StepKeepsInv(cfg, s, ops[0]);
      StepKeepsBudget(cfg, s, ops[0]);
      RunKeepsBudget(cfg, Apply(cfg, s, ops[0]), ops[1..]);
    }
  }

  lemma {:induction false} BelowSize(a: set<nat>, m: nat)
    requires forall k :: k in a ==> 1 <= k < m
    ensures |a| <= if m == 0 then 0 else m - 1
  {
    if m > 1 {
      BelowSize(a - {m - 1}, m - 1);
      if m - 1 in a {
        assert a == (a - {m - 1}) + {m - 1};
      } else {
        assert a == a - {m - 1};
      }
    } else {
      assert a == {};
    }
  }

  function AtLeastOne(n: nat): nat {
    if n == 0 then 1 else n
  }

  /** Over any run, with crashes, redeliveries and stale workers: a task is started at most
      `max_attempts` times, plus once per dead-letter cycle, manual retry and lease recovery. */
  lemma AttemptBudget(cfg: Config, s: State, id: TaskId)
    requires Reachable(cfg, s) && id in s.tasks
    ensures var t := s.tasks[id]; var y := TallyOf(t.log);
            && t.attempts <= AtLeastOne(t.maxAttempts) + t.dlqRequeueCount + y.manual + y.recovered
            && t.attempts == y.starts == |t.rows|
            && t.dlqRequeueCount <= cfg.dlqMaxCycles
  {
    var subs, now, ops :| Runs(cfg, Init(subs, now), ops, s);
    RunsIsExec(cfg, Init(subs, now), ops, s);
    InitInv(subs, now);
    RunKeepsBudget(cfg, Init(subs, now), ops);
    assert RowInv(s.tasks[id]) && BackoffsPaid(s, id);
    BelowSize(Landed(s, id), s.tasks[id].maxAttempts);
  }

  // ---------- coming to rest ----------

  /** The step recovers no lease and retries nothing by hand. */
  predicate Unattended(s: State, op: Op) {
    && !(op.RecoverTask? && IsStuck(s, op.task))
    && !(op.RetryTask? && op.task in s.tasks && Retryable(s.tasks[op.task].status))
  }

  ghost predicate UnattendedAt(trace: seq<State>, ops: seq<Op>, i: nat)
    requires i < |ops| && |trace| == |ops| + 1
  {
    Unattended(trace[i], ops[i])
  }

  ghost predicate UnattendedRun(cfg: Config, s: State, ops: seq<Op>, r: State) {
    exists trace :: Leads(cfg, s, ops, r, trace) && forall i :: 0 <= i < |ops| ==> UnattendedAt(trace, ops, i)
  }

  /** In such runs only the current attempt of a running task is in flight, or the task was cancelled. */
  predicate Fresh(s: State, f: Flight) {
    f.task in s.tasks ==>
      s.tasks[f.task].status == Cancelled
      || (s.tasks[f.task].status == Running && s.tasks[f.task].attempts == f.number)
  }

  ghost predicate FreshFlights(s: State) {
    forall f :: f in s.flights ==> Fresh(s, f)
  }

  lemma FreshRowKept(cfg: Config, s: State, op: Op, id: TaskId)
    requires Unattended(s, op) && id in s.tasks && Enabled(cfg, ChangeOf(cfg, s, op, id), s.tasks[id], s.now)
    requires op.Finish? && op.flight in s.flights ==> op.flight.task != id || s.tasks[id].status == Cancelled
    ensures var t := s.tasks[id]; var u := Changed(cfg, ChangeOf(cfg, s, op, id), t, s.now);
            && (t.status == Cancelled ==> u.status == Cancelled)
            && (t.status == Running ==> u.status == Cancelled || (u.status == Running && u.attempts == t.attempts))
  {
  }

  lemma OldFlightFresh(cfg: Config, s: State, op: Op, r: State, f: Flight)
    requires DbInv(s) && FreshFlights(s) && Unattended(s, op)
    requires f in s.flights && (op.Finish? ==> op.flight != f)
    requires f.task in s.tasks && f.task in r.tasks && RowFollows(cfg, s, op, r, f.task)
    ensures Fresh(r, f)
  {
    assert FlightInv(s, f) && Fresh(s, f);
    assert op.Finish? && op.flight in s.flights ==> FlightInv(s, op.flight) && Fresh(s, op.flight);
    FreshRowKept(cfg, s, op, f.task);
  }

  lemma NewFlightFresh(cfg: Config, s: State, op: Op, r: State)
    requires Starts(cfg, s, op) && op.task in r.tasks && RowFollows(cfg, s, op, r, op.task)
    ensures Fresh(r, Flight(op.task, s.tasks[op.task].attempts + 1))
  {
    StartChange(cfg, s, op, op.task);
  }

  lemma FollowedFresh(cfg: Config, s: State, op: Op, r: State)
    requires DbInv(s) && FreshFlights(s) && Unattended(s, op) && RowsFollow(cfg, s, op, r) && FlightsFollow(cfg, s, op, r)
    requires forall f :: f in s.flights && f.task in r.tasks ==> f.task in s.tasks
    ensures FreshFlights(r)
  {
    forall f | f in r.flights && f.task in r.tasks ensures Fresh(r, f) {
      if Starts(cfg, s, op) && f == Flight(op.task, s.tasks[op.task].attempts + 1) {
        assert RowFollows(cfg, s, op, r, op.task);
        NewFlightFresh(cfg, s, op, r);
      } else {
        assert f in s.flights && RowFollows(cfg, s, op, r, f.task);
        OldFlightFresh(cfg, s, op, r, f);
      }
    }
  }

  lemma StepKeepsFresh(cfg: Config, s: State, op: Op)
    requires DbInv(s) && FreshFlights(s) && Unattended(s, op)
    ensures FreshFlights(Apply(cfg, s, op))
  {
    StepIsFollowed(cfg, s, op);
    FlightsOf(cfg, s, op);
    forall f | f in s.flights && f.task in Apply(cfg, s, op).tasks ensures f.task in s.tasks {
      assert FlightInv(s, f);
    }
    FollowedFresh(cfg, s, op, Apply(cfg, s, op));
  }

  function Monus(a: nat, b: nat): nat {
    if a <= b then 0 else a - b
  }

  function Rank(s: Status): nat {
    match s
    case Created => 4
    case Scheduled => 3
    case RetryScheduled => 3
    case Queued => 2
    case Running => 1
    case _ => 0
  }

  /** Remaining backoffs and dead-letter cycles, then how far the status is from rest. */
  function Remaining(cfg: Config, t: Task): nat {
    3 * Monus(t.maxAttempts, if t.status == Running then t.attempts else t.attempts + 1)
    + 3 * Monus(cfg.dlqMaxCycles, t.dlqRequeueCount)
    + Rank(t.status)
  }

  lemma ChangedHops(cfg: Config, c: Change, t: Task, now: Time)
    requires Enabled(cfg, c, t, now)
    ensures TallyOf(Changed(cfg, c, t, now).log).hops
            == TallyOf(t.log).hops + if Changed(cfg, c, t, now).status != t.status then 1 else 0
  {
    ChangedTally(cfg, c, t, now);
    HopCounted(cfg, c, t, now, TallyOf(t.log), TallyOf(Changed(cfg, c, t, now).log));
  }

  lemma HopCounted(cfg: Config, c: Change, t: Task, now: Time, y: Tally, z: Tally)
    requires Enabled(cfg, c, t, now)
    requires z == if EventsOf(c, t) == [] then y else Bump(y, EventsOf(c, t)[0])
    ensures z.hops == y.hops + if Changed(cfg, c, t, now).status != t.status then 1 else 0
  {
  }

  /** Every status change uses up some of what remains. */
  lemma ChangeUsesUp(cfg: Config, c: Change, t: Task, now: Time)
    requires Enabled(cfg, c, t, now) && !c.Recover? && !c.RetryByHand?
    requires c.Fail? && t.status == Running ==> c.snap.attempts == t.attempts
    ensures var u := Changed(cfg, c, t, now);
            Remaining(cfg, u) + (if u.status != t.status then 1 else 0) <= Remaining(cfg, t)
  {
  }

  function RestBound(cfg: Config, maxAttempts: nat): nat {
    3 * Monus(maxAttempts, 1) + 3 * cfg.dlqMaxCycles + 4
  }

  ghost predicate RestRow(cfg: Config, t: Task) {
    TallyOf(t.log).hops + Remaining(cfg, t) <= RestBound(cfg, t.maxAttempts)
  }

  ghost predicate RestInv(cfg: Config, s: State) {
    forall id :: id in s.tasks ==> RestRow(cfg, s.tasks[id])
  }

  lemma NoEffectiveRetry(cfg: Config, s: State, op: Op, id: TaskId)
    requires Unattended(s, op) && id in s.tasks
    ensures !ChangeOf(cfg, s, op, id).Recover? && !ChangeOf(cfg, s, op, id).RetryByHand?
  {
  }

  lemma FailIsReport(cfg: Config, s: State, op: Op, id: TaskId)
    requires id in s.tasks && ChangeOf(cfg, s, op, id).Fail?
    ensures op.Finish? && op.flight in s.flights && ChangeOf(cfg, s, op, id) == FinishChange(s, op.flight, op.outcome, id)
  {
  }

  lemma UnattendedChange(cfg: Config, s: State, op: Op, id: TaskId)
    requires DbInv(s) && FreshFlights(s) && Unattended(s, op) && id in s.tasks
    ensures var c := ChangeOf(cfg, s, op, id);
            && !c.Recover? && !c.RetryByHand?
            && (c.Fail? && s.tasks[id].status == Running ==> c.snap.attempts == s.tasks[id].attempts)
  {
    NoEffectiveRetry(cfg, s, op, id);
    if ChangeOf(cfg, s, op, id).Fail? {
      FailIsReport(cfg, s, op, id);
      assert FlightInv(s, op.flight) && Fresh(s, op.flight);
      UnattendedFinish(s, op.flight, op.outcome, id);
    }
  }

  lemma UnattendedFinish(s: State, f: Flight, outcome: Outcome, id: TaskId)
    requires f in s.flights && FlightInv(s, f) && Fresh(s, f) && id in s.tasks
    ensures var c := FinishChange(s, f, outcome, id);
            && !c.Recover? && !c.RetryByHand?
            && (c.Fail? && s.tasks[id].status == Running ==> c.snap.attempts == s.tasks[id].attempts)
  {
  }

  lemma StepKeepsRest(cfg: Config, s: State, op: Op)
    requires DbInv(s) && FreshFlights(s) && RestInv(cfg, s) && Unattended(s, op)
    ensures RestInv(cfg, Apply(cfg, s, op))
  {
    var r := Apply(cfg, s, op);
    StepFollows(cfg, s, op);
    NextTaskGrows(cfg, s, op);
    forall id | id in r.tasks ensures RestRow(cfg, r.tasks[id]) {
      if id in s.tasks {
        assert RowFollows(cfg, s, op, r, id);
        assert RestRow(cfg, s.tasks[id]);
        UnattendedChange(cfg, s, op, id);
        ChangeUsesUp(cfg, ChangeOf(cfg, s, op, id), s.tasks[id], s.now);
        ChangedHops(cfg, ChangeOf(cfg, s, op, id), s.tasks[id], s.now);
        ChangeKeepsLimit(cfg, ChangeOf(cfg, s, op, id), s.tasks[id], s.now);
      } else {
        CreateStep(s, op);
        FreshRest(cfg, s, op);
      }
    }
  }

  lemma FirstHops(maxAttempts: nat, scheduleAt: Option<Time>, batch: Option<nat>, now: Time, e: Event)
    requires e.oldStatus == Created
    ensures TallyOf(FreshRow(maxAttempts, scheduleAt, batch, now).log + [e]).hops == if e.newStatus == Created then 0 else 1
  {
    var row := FreshRow(maxAttempts, scheduleAt, batch, now);
    assert [] + [row.log[0]] == row.log;
    TallyOfAppend([], row.log[0]);
    TallyOfAppend(row.log, e);
  }

  lemma FreshRest(cfg: Config, s: State, op: Op)
    requires op.Create?
    ensures RestRow(cfg, CreatedRow(s, op))
  {
    FirstHops(op.maxAttempts, op.scheduleAt, op.batch, s.now, Event(TaskBlocked, Created, Created));
    FirstHops(op.maxAttempts, op.scheduleAt, op.batch, s.now, Event(TaskQueued, Created, Queued));
    FirstHops(op.maxAttempts, op.scheduleAt, op.batch, s.now, Event(TaskScheduled, Created, Scheduled));
  }

  lemma {:induction false} TraceKeepsRest(cfg: Config, trace: seq<State>, ops: seq<Op>, i: nat)
    requires Trace(cfg, trace, ops) && i <= |ops| && forall j :: 0 <= j < |ops| ==> UnattendedAt(trace, ops, j)
    requires DbInv(trace[0]) && FreshFlights(trace[0]) && RestInv(cfg, trace[0])
    ensures DbInv(trace[i]) && FreshFlights(trace[i]) && RestInv(cfg, trace[i])
    decreases i
  {
    if i > 0 {
      TraceKeepsRest(cfg, trace, ops, i - 1);
      RestAt(cfg, trace, ops, i);
    }
  }

  lemma RestAt(cfg: Config, trace: seq<State>, ops: seq<Op>, i: nat)
    requires Trace(cfg, trace, ops) && 0 < i <= |ops| && UnattendedAt(trace, ops, i - 1)
    requires DbInv(trace[i - 1]) && FreshFlights(trace[i - 1]) && RestInv(cfg, trace[i - 1])
    ensures DbInv(trace[i]) && FreshFlights(trace[i]) && RestInv(cfg, trace[i])
  {
    assert StepAt(cfg, trace, ops, i);
    StepKeepsInv(cfg, trace[i - 1], ops[i - 1]);
    StepKeepsFresh(cfg, trace[i - 1], ops[i - 1]);
    StepKeepsRest(cfg, trace[i - 1], ops[i - 1]);
  }

  ghost predicate ReachableUnattended(cfg: Config, s: State) {
    exists subs, now, ops :: UnattendedRun(cfg, Init(subs, now), ops, s)
  }

  /** As long as no lease is recovered and nothing is retried by hand, a task changes its status only a
      bounded number of times, linear in its attempts and in the dead-letter cycles, and a task that has
      used up its changes is in a terminal status. */
  lemma ComesToRest(cfg: Config, s: State, id: TaskId)
    requires ReachableUnattended(cfg, s) && id in s.tasks
    ensures var t := s.tasks[id]; var bound := 3 * Monus(t.maxAttempts, 1) + 3 * cfg.dlqMaxCycles + 4;
            && TallyOf(t.log).hops + Remaining(cfg, t) <= bound
            && (TallyOf(t.log).hops == bound || Remaining(cfg, t) == 0 ==> Terminal(t.status))
  {
    var subs, now, ops :| UnattendedRun(cfg, Init(subs, now), ops, s);
    var trace :| Leads(cfg, Init(subs, now), ops, s, trace) && forall i :: 0 <= i < |ops| ==> UnattendedAt(trace, ops, i);
    InitInv(subs, now);
    TraceKeepsRest(cfg, trace, ops, |ops|);
    assert RestRow(cfg, s.tasks[id]) && Stamped(s.tasks[id]);
  }
}
