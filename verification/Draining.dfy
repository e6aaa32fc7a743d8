/** The due sweep: nothing is released early, and repeated ticks drain what is due. */
module Draining {
  import opened Rows
  import opened Store
  import opened Protocol
  import opened Steps
  import opened Selection
  import opened Sweeps
  import opened Retention

  // ---------- not before its time ----------

  /** The step leaves the waiting row alone, cancels it, or releases it when its time has come. */
  lemma WaitingChange(cfg: Config, c: Change, t: Task, now: Time)
    requires Enabled(cfg, c, t, now) && Waiting(t.status) && t.scheduledAt.Some?
    ensures var u := Changed(cfg, c, t, now);
            || (u.status == t.status && u.scheduledAt == t.scheduledAt)
            || u.status == Cancelled
            || (u.status == Queued && t.scheduledAt.value <= now)
  {
  }

  lemma CancelledChange(cfg: Config, c: Change, t: Task, now: Time)
    requires Enabled(cfg, c, t, now) && t.status == Cancelled && !c.RetryByHand?
    ensures Changed(cfg, c, t, now).status == Cancelled
  {
  }

  predicate HoldsBack(t: Task, at: Time) {
    t.status == Cancelled || (Waiting(t.status) && t.scheduledAt == Some(at))
  }

  lemma ChangeHoldsBack(cfg: Config, c: Change, t: Task, now: Time, at: Time)
    requires Enabled(cfg, c, t, now) && HoldsBack(t, at) && now < at && !c.RetryByHand?
    ensures HoldsBack(Changed(cfg, c, t, now), at)
  {
    if Waiting(t.status) {
      WaitingChange(cfg, c, t, now);
    } else {
      CancelledChange(cfg, c, t, now);
    }
  }

  /** The task is gone, cancelled, or still waits for the same time. */
  ghost predicate StillWaits(s: State, id: TaskId, at: Time) {
    id < s.nextTask && (id in s.tasks ==> HoldsBack(s.tasks[id], at))
  }

  lemma RetriedOnlyByHand(cfg: Config, s: State, op: Op, id: TaskId)
    requires id in s.tasks && !(op.RetryTask? && op.task == id)
    ensures !ChangeOf(cfg, s, op, id).RetryByHand?
  {
  }

  lemma StepStillWaits(cfg: Config, s: State, op: Op, id: TaskId, at: Time)
    requires DbInv(s) && StillWaits(s, id, at) && s.now < at && !(op.RetryTask? && op.task == id)
    ensures StillWaits(Apply(cfg, s, op), id, at)
  {
    var r := Apply(cfg, s, op);
    NextTaskGrows(cfg, s, op);
    if id in r.tasks {
      StepFollows(cfg, s, op);
      assert RowFollows(cfg, s, op, r, id);
      RetriedOnlyByHand(cfg, s, op, id);
      ChangeHoldsBack(cfg, ChangeOf(cfg, s, op, id), s.tasks[id], s.now, at);
    }
  }

  lemma {:induction false} TimeOnlyGrows(cfg: Config, s: State, ops: seq<Op>)
    requires DbInv(s)
    ensures s.now <= Exec(cfg, s, ops).now
    decreases |ops|
  {
    if ops != [] {
      StepKeepsInv(cfg, s, ops[0]);
      TimeGrows(cfg, s, ops[0]);
      TimeOnlyGrows(cfg, Apply(cfg, s, ops[0]), ops[1..]);
    }
  }

  /** In every run that ends before its time, and in which nobody retries it by hand after a
      cancellation, a scheduled or rescheduled task is never released. */
  lemma {:induction false} NotBeforeItsTime(cfg: Config, s: State, ops: seq<Op>, id: TaskId, at: Time)
    requires DbInv(s) && StillWaits(s, id, at) && Exec(cfg, s, ops).now < at
    requires forall i :: 0 <= i < |ops| ==> !(ops[i].RetryTask? && ops[i].task == id)
    ensures StillWaits(Exec(cfg, s, ops), id, at)
    decreases |ops|
  {
    if ops != [] {
      TimeOnlyGrows(cfg, s, ops);
      StepStillWaits(cfg, s, ops[0], id, at);
      StepKeepsInv(cfg, s, ops[0]);
      NotBeforeItsTime(cfg, Apply(cfg, s, ops[0]), ops[1..], id, at);
    }
  }

  // ---------- ticks of the due sweep ----------

  /** What a sweep over `gone` leaves: those rows are queued, all others as they were. */
  ghost predicate Released(cfg: Config, s: State, gone: set<TaskId>, r: State) {
    && r.now == s.now && r.tasks.Keys == s.tasks.Keys
    && (forall id :: id in s.tasks && id in gone ==>
          r.tasks[id].status == Queued && r.tasks[id].scheduledAt.None? && r.tasks[id].attempts == s.tasks[id].attempts)
    && (forall id :: id in s.tasks && id !in gone ==> r.tasks[id] == s.tasks[id])
  }

  lemma OneReleased(cfg: Config, s: State, gone: set<TaskId>, r: State, id: TaskId)
    requires Released(cfg, s, gone, r) && id in DueTasks(cfg, s) && id !in gone
    ensures Released(cfg, s, gone + {id}, DoReleaseDue(cfg, r, id))
  {
  }

  lemma {:induction false} SweepReleases(cfg: Config, s: State, ids: seq<TaskId>)
    requires Distinct(ids) && forall x :: x in ids ==> x in DueTasks(cfg, s)
    ensures Released(cfg, s, Members(ids), Exec(cfg, s, Each(ids, DueOp)))
    decreases |ids|
  {
    if ids == [] {
      assert Each(ids, DueOp) == [] && Members(ids) == {};
    } else {
      var last := |ids| - 1;
      SweepReleases(cfg, s, ids[..last]);
      assert ids[..last + 1] == ids;
      EachSnoc(cfg, s, ids, DueOp, last);
      MembersSnoc(ids);
      assert ids[last] !in Members(ids[..last]);
      OneReleased(cfg, s, Members(ids[..last]), Exec(cfg, s, Each(ids[..last], DueOp)), ids[last]);
    }
  }

  /** One tick releases exactly the selected tasks, the earliest ones; the others stay due. */
  lemma TickReleases(cfg: Config, s: State, ids: seq<TaskId>, limit: nat)
    requires Selected(ids, DueTasks(cfg, s), DueKey(s), limit)
    ensures var r := Exec(cfg, s, Each(ids, DueOp));
            Released(cfg, s, Members(ids), r) && DueTasks(cfg, r) == DueTasks(cfg, s) - Members(ids)
  {
    SweepReleases(cfg, s, ids);
    LeftDue(cfg, s, Members(ids), Exec(cfg, s, Each(ids, DueOp)));
  }

  lemma DueHasKey(cfg: Config, s: State)
    ensures DueTasks(cfg, s) <= DueKey(s).Keys
  {
  }

  lemma FewerLeft(ids: seq<nat>, candidates: set<nat>, key: map<nat, Time>, limit: nat, left: set<nat>)
    requires candidates <= key.Keys && Selected(ids, candidates, key, limit) && left == candidates - Members(ids)
    ensures |left| == |candidates| - Least(limit, |candidates|)
  {
    InSelection(ids, candidates, key, limit);
    MembersSize(ids);
    assert Members(ids) <= candidates;
    assert |candidates - Members(ids)| == |candidates| - |Members(ids)|;
  }

  lemma LeftDue(cfg: Config, s: State, gone: set<TaskId>, r: State)
    requires Released(cfg, s, gone, r)
    ensures DueTasks(cfg, r) == DueTasks(cfg, s) - gone
  {
    forall id ensures id in DueTasks(cfg, r) <==> id in DueTasks(cfg, s) - gone {
      if id in s.tasks && id in gone {
        assert r.tasks[id].status == Queued;
      }
    }
  }

  /** `rounds` are the selections of consecutive ticks. */
  ghost predicate Ticks(cfg: Config, s: State, rounds: seq<seq<TaskId>>, limit: nat)
    decreases |rounds|
  {
    rounds == [] ||
    (&& Selected(rounds[0], DueTasks(cfg, s), DueKey(s), limit)
     && Ticks(cfg, Exec(cfg, s, Each(rounds[0], DueOp)), rounds[1..], limit))
  }

  ghost function AfterTicks(cfg: Config, s: State, rounds: seq<seq<TaskId>>): State
    decreases |rounds|
  {
    if rounds == [] then s else AfterTicks(cfg, Exec(cfg, s, Each(rounds[0], DueOp)), rounds[1..])
  }

  /** What is left of `total` when each tick takes `limit` off it, as long as anything is left. */
  function LeftAfter(total: nat, ticks: nat, limit: nat): (left: nat) {
    if ticks == 0 then total
    else
      var left := LeftAfter(total, ticks - 1, limit);
      left - Least(limit, left)
  }

  lemma {:induction false} LeftIs(total: nat, ticks: nat, limit: nat)
    ensures LeftAfter(total, ticks, limit) == if ticks * limit <= total then total - ticks * limit else 0
    decreases ticks
  {
    if ticks > 0 {
      LeftIs(total, ticks - 1, limit);
      assert ticks * limit == (ticks - 1) * limit + limit;
    }
  }

  lemma {:induction false} OneTickMore(total: nat, ticks: nat, limit: nat)
    ensures LeftAfter(total - Least(limit, total), ticks, limit) == LeftAfter(total, ticks + 1, limit)
    decreases ticks
  {
    if ticks > 0 {
      OneTickMore(total, ticks - 1, limit);
    }
  }

  lemma {:induction false} TicksLeave(cfg: Config, s: State, rounds: seq<seq<TaskId>>, limit: nat)
    requires Ticks(cfg, s, rounds, limit)
    ensures |DueTasks(cfg, AfterTicks(cfg, s, rounds))| == LeftAfter(|DueTasks(cfg, s)|, |rounds|, limit)
    decreases |rounds|
  {
    if rounds != [] {
      var r := Exec(cfg, s, Each(rounds[0], DueOp));
      TickReleases(cfg, s, rounds[0], limit);
      DueHasKey(cfg, s);
      FewerLeft(rounds[0], DueTasks(cfg, s), DueKey(s), limit, DueTasks(cfg, r));
      TicksLeave(cfg, r, rounds[1..], limit);
      OneTickMore(|DueTasks(cfg, s)|, |rounds[1..]|, limit);
    }
  }

  /** Each tick takes its limit off what is due, until nothing is: the ticks drain what is due exactly
      if together they have room for it. */
  lemma TicksDrain(cfg: Config, s: State, rounds: seq<seq<TaskId>>, limit: nat)
    requires Ticks(cfg, s, rounds, limit)
    ensures var left := DueTasks(cfg, AfterTicks(cfg, s, rounds)); var total := |DueTasks(cfg, s)|;
            && |left| == (if |rounds| * limit <= total then total - |rounds| * limit else 0)
            && (left == {} <==> |rounds| * limit >= total)
  {
    TicksLeave(cfg, s, rounds, limit);
    LeftIs(|DueTasks(cfg, s)|, |rounds|, limit);
  }

  // ---------- ticks of the due sweep among everything else ----------

  /** The waiting tasks whose time had come by `t0`. */
  function DueBy(s: State, t0: Time): set<TaskId> {
    set id | id in s.tasks && Waiting(s.tasks[id].status) && s.tasks[id].scheduledAt.Some? && s.tasks[id].scheduledAt.value <= t0
  }

  predicate PositiveDelays(cfg: Config) {
    cfg.retryBase > 0.0 && cfg.retryFactor > 0.0 && cfg.retryMaxDelay > 0.0
  }

  lemma {:induction false} PowerPositive(base: real, n: nat)
    requires base > 0.0
    ensures Power(base, n) > 0.0
    decreases n
  {
    if n > 0 {
      PowerPositive(base, n - 1);
    }
  }

  lemma DelayPositive(cfg: Config, attempts: Pos)
    requires PositiveDelays(cfg)
    ensures RetryDelay(cfg, attempts) > 0.0
  {
    PowerPositive(cfg.retryFactor, attempts - 1);
  }

  /** A row becomes due only after the present. */
  lemma ChangeDueLater(cfg: Config, c: Change, t: Task, now: Time, t0: Time)
    requires Enabled(cfg, c, t, now) && PositiveDelays(cfg) && t0 <= now
    ensures var u := Changed(cfg, c, t, now);
            Waiting(u.status) && u.scheduledAt.Some? && u.scheduledAt.value <= t0 ==>
              Waiting(t.status) && t.scheduledAt == u.scheduledAt
  {
    if c.Fail? {
      DelayPositive(cfg, c.snap.attempts);
    }
  }

  lemma FollowedDueBy(cfg: Config, s: State, op: Op, r: State, t0: Time)
    requires RowsFollow(cfg, s, op, r) && PositiveDelays(cfg) && t0 <= s.now
    requires forall id :: id in r.tasks && id !in s.tasks ==> id !in DueBy(r, t0)
    ensures DueBy(r, t0) <= DueBy(s, t0)
  {
    forall id | id in DueBy(r, t0) ensures id in DueBy(s, t0) {
      assert RowFollows(cfg, s, op, r, id);
      ChangeDueLater(cfg, ChangeOf(cfg, s, op, id), s.tasks[id], s.now, t0);
    }
  }

  lemma NobodyNewIsDue(cfg: Config, s: State, op: Op, t0: Time)
    requires DbInv(s) && t0 <= s.now
    ensures forall id :: id in Apply(cfg, s, op).tasks && id !in s.tasks ==> id !in DueBy(Apply(cfg, s, op), t0)
  {
    NextTaskGrows(cfg, s, op);
    if op.Create? {
      CreateStep(s, op);
      NewDueLater(s, op, t0);
    }
  }

  lemma StepDueBy(cfg: Config, s: State, op: Op, t0: Time)
    requires DbInv(s) && PositiveDelays(cfg) && t0 <= s.now
    ensures DueBy(Apply(cfg, s, op), t0) <= DueBy(s, t0)
  {
    StepFollows(cfg, s, op);
    NobodyNewIsDue(cfg, s, op, t0);
    FollowedDueBy(cfg, s, op, Apply(cfg, s, op), t0);
  }

  lemma NewDueLater(s: State, op: Op, t0: Time)
    requires op.Create? && t0 <= s.now
    ensures var row := CreatedRow(s, op);
            !(Waiting(row.status) && row.scheduledAt.Some? && row.scheduledAt.value <= t0)
  {
  }

  lemma SweepDueBy(cfg: Config, s: State, ids: seq<TaskId>, limit: nat, t0: Time)
    requires Selected(ids, DueTasks(cfg, s), DueKey(s), limit) && t0 <= s.now
    ensures var r := Exec(cfg, s, Each(ids, DueOp));
            r.now == s.now && |DueBy(r, t0)| <= |DueBy(s, t0)| - Least(limit, |DueBy(s, t0)|)
  {
    TickReleases(cfg, s, ids, limit);
    var r := Exec(cfg, s, Each(ids, DueOp));
    DueHasKey(cfg, s);
    ReleasedDueBy(cfg, s, Members(ids), r, t0);
    EarliestFirst(ids, DueTasks(cfg, s), DueKey(s), limit, DueBy(s, t0), t0);
    Smaller(DueBy(r, t0), DueBy(s, t0) - Members(ids));
  }

  lemma ReleasedDueBy(cfg: Config, s: State, gone: set<TaskId>, r: State, t0: Time)
    requires Released(cfg, s, gone, r) && t0 <= s.now
    ensures DueBy(r, t0) <= DueBy(s, t0) - gone && DueBy(s, t0) <= DueTasks(cfg, s)
    ensures forall id :: id in DueTasks(cfg, s) && id !in DueBy(s, t0) ==> DueKey(s)[id] > t0
    ensures forall id :: id in DueBy(s, t0) ==> id in DueKey(s) && DueKey(s)[id] <= t0
  {
    forall id | id in DueBy(r, t0) ensures id in DueBy(s, t0) - gone {
      if id in gone {
        assert r.tasks[id].status == Queued;
      }
    }
  }

  /** A selection in the order of the key takes from the early candidates first. */
  lemma EarliestFirst(ids: seq<nat>, candidates: set<nat>, key: map<nat, Time>, limit: nat, early: set<nat>, t0: Time)
    requires candidates <= key.Keys && Selected(ids, candidates, key, limit) && early <= candidates
    requires forall x :: x in candidates ==> (x in early <==> key[x] <= t0)
    ensures |early - Members(ids)| <= |early| - Least(limit, |early|)
  {
    MembersSize(ids);
    Smaller(early, candidates);
    if Members(ids) <= early {
      assert |early - Members(ids)| == |early| - |Members(ids)|;
    } else {
      AllEarlyTaken(ids, candidates, key, limit, early, t0);
      assert early - Members(ids) == {};
    }
  }

  lemma AllEarlyTaken(ids: seq<nat>, candidates: set<nat>, key: map<nat, Time>, limit: nat, early: set<nat>, t0: Time)
    requires candidates <= key.Keys && Selected(ids, candidates, key, limit) && early <= candidates
    requires forall x :: x in candidates ==> (x in early <==> key[x] <= t0)
    requires !(Members(ids) <= early)
    ensures early <= Members(ids)
  {
    var late :| late in Members(ids) && late !in early;
    var i :| 0 <= i < |ids| && ids[i] == late;
    forall c | c in early ensures c in Members(ids) {
      assert key[ids[i]] > key[c];
      assert c in ids;
    }
  }

  /** A run of the platform in which the due sweep ticks now and then. */
  datatype Happening = Step(op: Op) | Sweep(ids: seq<TaskId>)

  ghost predicate HappensTo(cfg: Config, s: State, h: Happening, limit: nat, r: State) {
    match h
    case Step(op) => r == Apply(cfg, s, op)
    case Sweep(ids) => Selected(ids, DueTasks(cfg, s), DueKey(s), limit) && r == Exec(cfg, s, Each(ids, DueOp))
  }

  ghost predicate HappensAt(cfg: Config, trace: seq<State>, run: seq<Happening>, limit: nat, i: nat)
    requires 0 < i < |trace| == |run| + 1
  {
    HappensTo(cfg, trace[i - 1], run[i - 1], limit, trace[i])
  }

  ghost predicate Happens(cfg: Config, trace: seq<State>, run: seq<Happening>, limit: nat) {
    |trace| == |run| + 1 && forall i :: 0 < i < |trace| ==> HappensAt(cfg, trace, run, limit, i)
  }

  function SweepsIn(run: seq<Happening>): nat {
    if run == [] then 0 else SweepsIn(run[..|run| - 1]) + if run[|run| - 1].Sweep? then 1 else 0
  }

  lemma LeftMonotone(x: nat, total: nat, ticks: nat, limit: nat)
    requires x <= LeftAfter(total, ticks, limit)
    ensures x - Least(limit, x) <= LeftAfter(total, ticks + 1, limit)
  {
  }

  /** Time goes on, and what was due at the start gets no more. */
  ghost predicate Draining(cfg: Config, s: State, t0: Time, left: nat) {
    DbInv(s) && t0 <= s.now && |DueBy(s, t0)| <= left
  }

  lemma SweepDrains(cfg: Config, s: State, ids: seq<TaskId>, limit: nat, t0: Time, total: nat, ticks: nat)
    requires Selected(ids, DueTasks(cfg, s), DueKey(s), limit) && Draining(cfg, s, t0, LeftAfter(total, ticks, limit))
    ensures Draining(cfg, Exec(cfg, s, Each(ids, DueOp)), t0, LeftAfter(total, ticks + 1, limit))
  {
    RunKeepsInv(cfg, s, Each(ids, DueOp));
    SweepDueBy(cfg, s, ids, limit, t0);
    LeftMonotone(|DueBy(s, t0)|, total, ticks, limit);
  }

  lemma StepDrains(cfg: Config, s: State, op: Op, t0: Time, left: nat)
    requires PositiveDelays(cfg) && Draining(cfg, s, t0, left)
    ensures Draining(cfg, Apply(cfg, s, op), t0, left)
  {
    StepKeepsInv(cfg, s, op);
    TimeGrows(cfg, s, op);
    StepDueBy(cfg, s, op, t0);
    Smaller(DueBy(Apply(cfg, s, op), t0), DueBy(s, t0));
  }

  lemma HappeningDrains(cfg: Config, s: State, h: Happening, limit: nat, r: State, t0: Time, total: nat, ticks: nat, more: nat)
    requires HappensTo(cfg, s, h, limit, r) && PositiveDelays(cfg) && more == if h.Sweep? then ticks + 1 else ticks
    requires Draining(cfg, s, t0, LeftAfter(total, ticks, limit))
    ensures Draining(cfg, r, t0, LeftAfter(total, more, limit))
  {
    match h
    case Step(op) => StepDrains(cfg, s, op, t0, LeftAfter(total, ticks, limit));
    case Sweep(ids) => SweepDrains(cfg, s, ids, limit, t0, total, ticks);
  }

  /** After `i` happenings the sweeps among them have done their part. */
  ghost predicate Drained(cfg: Config, trace: seq<State>, run: seq<Happening>, limit: nat, i: nat, t0: Time, total: nat)
    requires i <= |run| && |trace| == |run| + 1
  {
    Draining(cfg, trace[i], t0, LeftAfter(total, SweepsIn(run[..i]), limit))
  }

  lemma DrainsAt(cfg: Config, trace: seq<State>, run: seq<Happening>, limit: nat, i: nat, t0: Time, total: nat)
    requires Happens(cfg, trace, run, limit) && 0 < i <= |run| && PositiveDelays(cfg)
    requires Drained(cfg, trace, run, limit, i - 1, t0, total)
    ensures Drained(cfg, trace, run, limit, i, t0, total)
  {
    OneMoreHappening(run, i);
    assert HappensAt(cfg, trace, run, limit, i);
    HappeningDrains(cfg, trace[i - 1], run[i - 1], limit, trace[i], t0, total, SweepsIn(run[..i - 1]), SweepsIn(run[..i]));
  }

  lemma DrainedAtFirst(cfg: Config, trace: seq<State>, run: seq<Happening>, limit: nat, t0: Time, total: nat)
    requires |trace| == |run| + 1 && Draining(cfg, trace[0], t0, total)
    ensures Drained(cfg, trace, run, limit, 0, t0, total)
  {
    assert SweepsIn(run[..0]) == 0;
  }

  lemma OneMoreHappening(run: seq<Happening>, i: nat)
    requires 0 < i <= |run|
    ensures SweepsIn(run[..i]) == if run[i - 1].Sweep? then SweepsIn(run[..i - 1]) + 1 else SweepsIn(run[..i - 1])
  {
    assert run[..i][..i - 1] == run[..i - 1];
  }

  lemma {:induction false} RunDrains(cfg: Config, trace: seq<State>, run: seq<Happening>, limit: nat, i: nat, t0: Time, total: nat)
    requires Happens(cfg, trace, run, limit) && i <= |run| && PositiveDelays(cfg)
    requires Draining(cfg, trace[0], t0, total)
    ensures Drained(cfg, trace, run, limit, i, t0, total)
    decreases i
  {
    if i > 0 {
      RunDrains(cfg, trace, run, limit, i - 1, t0, total);
      DrainsAt(cfg, trace, run, limit, i, t0, total);
    } else {
      DrainedAtFirst(cfg, trace, run, limit, t0, total);
    }
  }

  /** Whatever else happens in between, new tasks, failures and the passing of time included: the
      sweeps of a run take the tasks that were due at its start off the waiting list, `limit` at a time
      or all that are left, and once they had room for all of them none is left. */
  lemma DueTasksDrain(cfg: Config, trace: seq<State>, run: seq<Happening>, limit: nat)
    requires Happens(cfg, trace, run, limit) && PositiveDelays(cfg) && Reachable(cfg, trace[0])
    ensures var left := DueBy(trace[|run|], trace[0].now); var total := |DueTasks(cfg, trace[0])|;
            && |left| <= LeftAfter(total, SweepsIn(run), limit)
            && (SweepsIn(run) * limit >= total ==> left == {})
  {
    ReachableInv(cfg, trace[0]);
    DueAtStart(cfg, trace[0]);
    RunLeaves(cfg, trace, run, limit);
    if SweepsIn(run) * limit >= |DueTasks(cfg, trace[0])| {
      NoneLeft(|DueTasks(cfg, trace[0])|, SweepsIn(run), limit);
    }
  }

  lemma DueAtStart(cfg: Config, s: State)
    ensures DueBy(s, s.now) == DueTasks(cfg, s)
  {
  }

  lemma RunLeaves(cfg: Config, trace: seq<State>, run: seq<Happening>, limit: nat)
    requires Happens(cfg, trace, run, limit) && PositiveDelays(cfg) && DbInv(trace[0])
    ensures |DueBy(trace[|run|], trace[0].now)| <= LeftAfter(|DueBy(trace[0], trace[0].now)|, SweepsIn(run), limit)
  {
    RunDrains(cfg, trace, run, limit, |run|, trace[0].now, |DueBy(trace[0], trace[0].now)|);
    assert run[..|run|] == run;
  }

  lemma NoneLeft(total: nat, ticks: nat, limit: nat)
    requires ticks * limit >= total
    ensures LeftAfter(total, ticks, limit) == 0
  {
    LeftIs(total, ticks, limit);
  }
}
