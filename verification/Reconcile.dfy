/** The orphan sweep in the long run.  It selects the stalest orphans first and leaves their rows as they
    are, so it moves on to others exactly as far as workers take what it has published. */
module Reconcile {
  import opened Rows
  import opened Store
  import opened Protocol
  import opened Steps
  import opened Selection
  import opened Sweeps
  import opened Delivery

  // ---------- losses are stale ----------

  /** Every lost task was last written at `at` or before. */
  ghost predicate LostBefore(s: State, at: Time) {
    forall id :: Lost(s, id) ==> s.tasks[id].updatedAt <= at
  }

  lemma QueuedKeepsDate(cfg: Config, c: Change, t: Task, now: Time)
    requires Enabled(cfg, c, t, now) && t.status == Queued && Changed(cfg, c, t, now).status == Queued
    ensures Changed(cfg, c, t, now).updatedAt == t.updatedAt
  {
  }

  /** Without message loss nothing is newly lost. */
  lemma StillLost(cfg: Config, s: State, op: Op, id: TaskId)
    requires DbInv(s) && !op.Lose? && Lost(Apply(cfg, s, op), id)
    ensures Lost(s, id) && Apply(cfg, s, op).tasks[id].updatedAt == s.tasks[id].updatedAt
  {
    StepBooks(cfg, s, op);
    assert id !in Queueing(s, Apply(cfg, s, op));
    if Announced(s, id) {
      StillAnnounced(cfg, s, op, id);
    }
    StepFollows(cfg, s, op);
    DateKept(cfg, s, op, Apply(cfg, s, op), id);
  }

  lemma DateKept(cfg: Config, s: State, op: Op, r: State, id: TaskId)
    requires RowsFollow(cfg, s, op, r) && id in s.tasks && id in r.tasks
    requires s.tasks[id].status == Queued && r.tasks[id].status == Queued
    ensures r.tasks[id].updatedAt == s.tasks[id].updatedAt
  {
    assert RowFollows(cfg, s, op, r, id);
    QueuedKeepsDate(cfg, ChangeOf(cfg, s, op, id), s.tasks[id], s.now);
  }

  lemma {:induction false} RunLosesNoMore(cfg: Config, s: State, ops: seq<Op>, at: Time)
    requires DbInv(s) && LostBefore(s, at) && Lossless(ops)
    ensures DbInv(Exec(cfg, s, ops)) && LostBefore(Exec(cfg, s, ops), at)
    decreases |ops|
  {
    if ops != [] {
      forall id | Lost(Apply(cfg, s, ops[0]), id) ensures Apply(cfg, s, ops[0]).tasks[id].updatedAt <= at {
        StillLost(cfg, s, ops[0], id);
      }
      StepKeepsInv(cfg, s, ops[0]);
      RunLosesNoMore(cfg, Apply(cfg, s, ops[0]), ops[1..], at);
    }
  }

  /** `s` is reachable, and no message has been lost for at least the reconcile time. */
  ghost predicate Calm(cfg: Config, s: State) {
    exists a, ops :: CalmSince(cfg, a, ops, s)
  }

  ghost predicate CalmSince(cfg: Config, a: State, ops: seq<Op>, s: State) {
    Reachable(cfg, a) && Lossless(ops) && Runs(cfg, a, ops, s) && a.now + cfg.reconcileSeconds <= s.now
  }

  lemma CalmMeansStale(cfg: Config, s: State)
    requires Calm(cfg, s)
    ensures DbInv(s) && LostBefore(s, s.now - cfg.reconcileSeconds)
  {
    var a, ops :| CalmSince(cfg, a, ops, s);
    var subs, now, before :| Runs(cfg, Init(subs, now), before, a);
    RunsIsExec(cfg, Init(subs, now), before, a);
    InitInv(subs, now);
    RunKeepsDates(cfg, Init(subs, now), before);
    RunsIsExec(cfg, a, ops, s);
    RunLosesNoMore(cfg, a, ops, a.now);
  }

  /** Whatever was lost, once no message has been lost for the reconcile time, while anything else may
      have happened: one orphan sweep with room for all orphans leaves no queued task without a pending
      row or a message. */
  lemma LossIsRepaired(cfg: Config, s: State, ids: seq<TaskId>, limit: nat)
    requires Calm(cfg, s)
    requires Selected(ids, OrphanTasks(cfg, s), OrphanKey(s), limit) && |OrphanTasks(cfg, s)| <= limit
    ensures NothingLost(Exec(cfg, s, Each(ids, OrphanOp)))
  {
    CalmMeansStale(cfg, s);
    SweepAnnounces(cfg, s, ids, limit);
    NoneLost(Exec(cfg, s, Each(ids, OrphanOp)));
  }

  lemma NoneLost(s: State)
    requires forall id :: !Lost(s, id)
    ensures NothingLost(s)
  {
    forall id | id in s.tasks && s.tasks[id].status == Queued ensures Announced(s, id) {
      assert !Lost(s, id);
    }
  }

  // ---------- sweeping in rounds ----------

  /** One orphan sweep, and what happens until the next one. */
  datatype Round = Round(ids: seq<TaskId>, ops: seq<Op>)

  ghost function AfterSweep(cfg: Config, s: State, round: Round): State {
    Exec(cfg, s, Each(round.ids, OrphanOp))
  }

  ghost function AfterRound(cfg: Config, s: State, round: Round): State {
    Exec(cfg, AfterSweep(cfg, s, round), round.ops)
  }

  ghost function AfterRounds(cfg: Config, s: State, rounds: seq<Round>): State
    decreases |rounds|
  {
    if rounds == [] then s else AfterRounds(cfg, AfterRound(cfg, s, rounds[0]), rounds[1..])
  }

  /** Each round sweeps with the same limit. */
  ghost predicate Sweeping(cfg: Config, s: State, rounds: seq<Round>, limit: nat)
    decreases |rounds|
  {
    rounds == [] ||
    (&& Selected(rounds[0].ids, OrphanTasks(cfg, s), OrphanKey(s), limit)
     && Sweeping(cfg, AfterRound(cfg, s, rounds[0]), rounds[1..], limit))
  }

  lemma SweptIsQuiet(cfg: Config, s: State, round: Round)
    requires DbInv(s)
    ensures var r := AfterSweep(cfg, s, round);
            r == s.(outbox := r.outbox, nextOutbox := r.nextOutbox) && DbInv(r)
  {
    RepublicationAnnounces(cfg, s, round.ids);
    RunKeepsInv(cfg, s, Each(round.ids, OrphanOp));
  }

  // ---------- workers take what is published ----------

  /** The tasks that have been queued since `at` or before. */
  ghost function QueuedSince(s: State, at: Time): set<TaskId> {
    set id | id in s.tasks && s.tasks[id].status == Queued && s.tasks[id].updatedAt <= at
  }

  lemma OrphansAreStale(cfg: Config, s: State)
    requires DbInv(s)
    ensures OrphanTasks(cfg, s) == QueuedSince(s, s.now - cfg.reconcileSeconds)
  {
    forall id | id in s.tasks ensures id in OrphanTasks(cfg, s) <==> id in QueuedSince(s, s.now - cfg.reconcileSeconds) {
      assert Stamped(s.tasks[id]);
    }
  }

  lemma ChangeKeepsFresh(cfg: Config, c: Change, t: Task, now: Time, at: Time)
    requires Enabled(cfg, c, t, now) && at < now
    requires Changed(cfg, c, t, now).status == Queued && Changed(cfg, c, t, now).updatedAt <= at
    ensures t.status == Queued && t.updatedAt <= at
  {
  }

  lemma StepKeepsFresh(cfg: Config, s: State, op: Op, at: Time)
    requires DbInv(s) && at < s.now
    ensures QueuedSince(Apply(cfg, s, op), at) <= QueuedSince(s, at)
  {
    StepFollows(cfg, s, op);
    NewIsFresh(cfg, s, op, at);
    RowsKeepFresh(cfg, s, op, Apply(cfg, s, op), at);
  }

  lemma NewIsFresh(cfg: Config, s: State, op: Op, at: Time)
    requires DbInv(s) && at < s.now
    ensures forall id :: id in Apply(cfg, s, op).tasks && id !in s.tasks ==> Apply(cfg, s, op).tasks[id].updatedAt > at
  {
    NextTaskGrows(cfg, s, op);
    if op.Create? {
      CreateStep(s, op);
    }
  }

  lemma RowsKeepFresh(cfg: Config, s: State, op: Op, r: State, at: Time)
    requires RowsFollow(cfg, s, op, r) && at < s.now
    requires forall id :: id in r.tasks && id !in s.tasks ==> r.tasks[id].updatedAt > at
    ensures QueuedSince(r, at) <= QueuedSince(s, at)
  {
    forall id | id in QueuedSince(r, at) ensures id in QueuedSince(s, at) {
      assert RowFollows(cfg, s, op, r, id);
      ChangeKeepsFresh(cfg, ChangeOf(cfg, s, op, id), s.tasks[id], s.now, at);
    }
  }

  lemma {:induction false} RunKeepsFresh(cfg: Config, s: State, ops: seq<Op>, at: Time)
    requires DbInv(s) && at < s.now
    ensures var r := Exec(cfg, s, ops); DbInv(r) && s.now <= r.now && QueuedSince(r, at) <= QueuedSince(s, at)
    decreases |ops|
  {
    if ops != [] {
      StepKeepsInv(cfg, s, ops[0]);
      TimeGrows(cfg, s, ops[0]);
      StepKeepsFresh(cfg, s, ops[0], at);
      RunKeepsFresh(cfg, Apply(cfg, s, ops[0]), ops[1..], at);
    }
  }

  /** During `ops` some worker takes a message of the task. */
  ghost predicate TakenAt(cfg: Config, s: State, ops: seq<Op>, id: TaskId, j: nat) {
    j < |ops| && ops[j].Receive? && ops[j].task == id && Exec(cfg, s, ops[..j]).broker[id] > 0
  }

  ghost predicate Taken(cfg: Config, s: State, ops: seq<Op>, id: TaskId) {
    exists j: nat :: TakenAt(cfg, s, ops, id, j)
  }

  lemma TakingFrees(cfg: Config, s: State, id: TaskId, worker: WorkerId, at: Time)
    requires DbInv(s) && s.broker[id] > 0
    ensures id !in QueuedSince(Apply(cfg, s, Receive(id, worker)), at)
  {
    if id in s.tasks && s.tasks[id].status == Queued {
      QueuedIsTaken(cfg, s, id, worker);
    } else {
      ReceiveFrame(cfg, s, id, worker);
    }
  }

  /** A task whose message has been taken is no longer one that was queued all along. */
  lemma TakenLeaves(cfg: Config, s: State, ops: seq<Op>, id: TaskId, at: Time)
    requires DbInv(s) && at < s.now && Taken(cfg, s, ops, id)
    ensures id !in QueuedSince(Exec(cfg, s, ops), at)
  {
    var j: nat :| TakenAt(cfg, s, ops, id, j);
    var here := Exec(cfg, s, ops[..j]);
    assert ops == ops[..j] + [ops[j]] + ops[j + 1..];
    ExecConcat(cfg, s, ops[..j] + [ops[j]], ops[j + 1..]);
    ExecSnoc(cfg, s, ops[..j], ops[j]);
    RunKeepsFresh(cfg, s, ops[..j], at);
    TakingFrees(cfg, here, id, ops[j].worker, at);
    StepKeepsInv(cfg, here, ops[j]);
    TimeGrows(cfg, here, ops[j]);
    RunKeepsFresh(cfg, Apply(cfg, here, ops[j]), ops[j + 1..], at);
  }

  /** In each round a worker takes a message of every task swept, and no message is lost. */
  ghost predicate Consumed(cfg: Config, s: State, rounds: seq<Round>)
    decreases |rounds|
  {
    rounds == [] ||
    (&& Lossless(rounds[0].ops)
     && (forall id :: id in rounds[0].ids ==> Taken(cfg, AfterSweep(cfg, s, rounds[0]), rounds[0].ops, id))
     && Consumed(cfg, AfterRound(cfg, s, rounds[0]), rounds[1..]))
  }

  /** The earliest `limit` candidates contain all early ones, or are early themselves. */
  lemma EarliestAreEarly(ids: seq<nat>, candidates: set<nat>, key: map<nat, Time>, limit: nat, early: set<nat>, at: Time)
    requires candidates <= key.Keys && Selected(ids, candidates, key, limit)
    requires early == set c | c in candidates && key[c] <= at
    ensures |early - Members(ids)| == 0 || |early - Members(ids)| + limit <= |early|
  {
    if c :| c in early && c !in ids {
      SomeoneLeftOut(ids, candidates, limit, c);
      forall x | x in Members(ids) ensures x in early {
        var i :| 0 <= i < |ids| && ids[i] == x;
        assert key[ids[i]] <= key[c];
      }
      DistinctSize(ids);
      assert Members(ids) == set i | 0 <= i < |ids| :: ids[i];
      assert |early - Members(ids)| == |early| - |Members(ids)|;
    } else {
      assert early - Members(ids) == {};
    }
  }

  function Members(ids: seq<nat>): set<nat> {
    set x | x in ids
  }

  lemma MembersSize(ids: seq<nat>)
    requires Distinct(ids)
    ensures |Members(ids)| == |ids|
  {
    DistinctSize(ids);
    assert Members(ids) == set i | 0 <= i < |ids| :: ids[i];
  }

  lemma SomeoneLeftOut(ids: seq<nat>, candidates: set<nat>, limit: nat, c: nat)
    requires Distinct(ids) && |ids| == Least(limit, |candidates|) && (forall i :: 0 <= i < |ids| ==> ids[i] in candidates)
    requires c in candidates && c !in ids
    ensures |ids| == limit
  {
    MembersSize(ids);
    Smaller(Members(ids) + {c}, candidates);
  }

  /** One round takes `limit` of the stale tasks away, or all of them. */
  lemma RoundTakes(cfg: Config, s: State, round: Round, limit: nat, at: Time)
    requires DbInv(s) && cfg.reconcileSeconds > 0.0 && at <= s.now - cfg.reconcileSeconds
    requires Selected(round.ids, OrphanTasks(cfg, s), OrphanKey(s), limit)
    requires forall id :: id in round.ids ==> Taken(cfg, AfterSweep(cfg, s, round), round.ops, id)
    ensures var r := AfterRound(cfg, s, round);
            && DbInv(r) && s.now <= r.now
            && TakenAway(|QueuedSince(s, at)|, |QueuedSince(r, at)|, 1, limit)
  {
    var r := AfterRound(cfg, s, round);
    SweptIsQuiet(cfg, s, round);
    assert QueuedSince(AfterSweep(cfg, s, round), at) == QueuedSince(s, at);
    RunKeepsFresh(cfg, AfterSweep(cfg, s, round), round.ops, at);
    forall id | id in round.ids ensures id !in QueuedSince(r, at) {
      TakenLeaves(cfg, AfterSweep(cfg, s, round), round.ops, id, at);
    }
    StaleFirst(cfg, s, round.ids, limit, at);
    Smaller(QueuedSince(r, at), QueuedSince(s, at) - Members(round.ids));
  }

  lemma StaleAreEarly(cfg: Config, s: State, at: Time)
    requires DbInv(s) && at <= s.now - cfg.reconcileSeconds
    ensures OrphanTasks(cfg, s) <= OrphanKey(s).Keys
    ensures QueuedSince(s, at) == set c | c in OrphanTasks(cfg, s) && OrphanKey(s)[c] <= at
  {
    OrphansAreStale(cfg, s);
  }

  lemma StaleFirst(cfg: Config, s: State, ids: seq<TaskId>, limit: nat, at: Time)
    requires DbInv(s) && at <= s.now - cfg.reconcileSeconds && Selected(ids, OrphanTasks(cfg, s), OrphanKey(s), limit)
    ensures var left := |QueuedSince(s, at) - Members(ids)|; left == 0 || left + limit <= |QueuedSince(s, at)|
  {
    StaleAreEarly(cfg, s, at);
    EarliestAreEarly(ids, OrphanTasks(cfg, s), OrphanKey(s), limit, QueuedSince(s, at), at);
  }

  /** Of `start` tasks none is left, or `n` rounds took their limit away. */
  predicate TakenAway(start: nat, left: nat, n: nat, limit: nat) {
    left == 0 || left + n * limit <= start
  }

  lemma CountedDown(start: nat, next: nat, left: nat, n: nat, limit: nat)
    requires TakenAway(start, next, 1, limit) && TakenAway(next, left, n, limit)
    ensures TakenAway(start, left, n + 1, limit)
  {
    assert (n + 1) * limit == n * limit + limit;
    assert n * limit >= 0;
  }

  lemma {:induction false} RoundsTake(cfg: Config, s: State, rounds: seq<Round>, limit: nat, at: Time)
    requires DbInv(s) && cfg.reconcileSeconds > 0.0 && at <= s.now - cfg.reconcileSeconds
    requires Sweeping(cfg, s, rounds, limit) && Consumed(cfg, s, rounds)
    ensures TakenAway(|QueuedSince(s, at)|, |QueuedSince(AfterRounds(cfg, s, rounds), at)|, |rounds|, limit)
    decreases |rounds|
  {
    if rounds != [] {
      var r := AfterRound(cfg, s, rounds[0]);
      RoundTakes(cfg, s, rounds[0], limit, at);
      RoundsTake(cfg, r, rounds[1..], limit, at);
      CountedDown(|QueuedSince(s, at)|, |QueuedSince(r, at)|, |QueuedSince(AfterRounds(cfg, s, rounds), at)|,
                  |rounds| - 1, limit);
    }
  }

  lemma RoundLosesNoMore(cfg: Config, s: State, round: Round, at: Time)
    requires DbInv(s) && LostBefore(s, at) && Lossless(round.ops)
    ensures DbInv(AfterRound(cfg, s, round)) && LostBefore(AfterRound(cfg, s, round), at)
  {
    assert Lossless(Each(round.ids, OrphanOp));
    RunLosesNoMore(cfg, s, Each(round.ids, OrphanOp), at);
    RunLosesNoMore(cfg, AfterSweep(cfg, s, round), round.ops, at);
  }

  lemma {:induction false} RoundsLoseNoMore(cfg: Config, s: State, rounds: seq<Round>, at: Time)
    requires DbInv(s) && LostBefore(s, at) && Consumed(cfg, s, rounds)
    ensures LostBefore(AfterRounds(cfg, s, rounds), at)
    decreases |rounds|
  {
    if rounds != [] {
      RoundLosesNoMore(cfg, s, rounds[0], at);
      RoundsLoseNoMore(cfg, AfterRound(cfg, s, rounds[0]), rounds[1..], at);
    }
  }

  lemma NoneStaleNoneLost(s: State, at: Time)
    requires LostBefore(s, at) && |QueuedSince(s, at)| == 0
    ensures NothingLost(s)
  {
    assert QueuedSince(s, at) == {};
    forall id ensures !Lost(s, id) {
      assert id !in QueuedSince(s, at);
    }
    NoneLost(s);
  }

  /** However small the limit: as workers take a message of every task swept before the next sweep, while
      anything else may happen except another loss, the sweeps leave nothing lost once together they had
      room for the orphans there were at the start. */
  lemma LossIsRepairedInRounds(cfg: Config, s: State, rounds: seq<Round>, limit: nat)
    requires Calm(cfg, s) && cfg.reconcileSeconds > 0.0
    requires Sweeping(cfg, s, rounds, limit) && Consumed(cfg, s, rounds)
    requires rounds != [] && |OrphanTasks(cfg, s)| <= |rounds| * limit
    ensures NothingLost(AfterRounds(cfg, s, rounds))
  {
    var at := s.now - cfg.reconcileSeconds;
    CalmMeansStale(cfg, s);
    OrphansAreStale(cfg, s);
    RoundsTake(cfg, s, rounds, limit, at);
    RoundsLoseNoMore(cfg, s, rounds, at);
    NoneStaleNoneLost(AfterRounds(cfg, s, rounds), at);
  }

  // ---------- nobody takes what is published ----------

  /** The listed tasks are orphans, and strictly the stalest ones. */
  ghost predicate Stalest(cfg: Config, s: State, ids: seq<TaskId>) {
    && (forall x :: x in ids ==> x in OrphanTasks(cfg, s))
    && (forall x, c :: x in ids && c in OrphanTasks(cfg, s) && c !in ids ==> s.tasks[x].updatedAt < s.tasks[c].updatedAt)
  }

  lemma StillStalest(cfg: Config, s: State, r: State, ids: seq<TaskId>)
    requires DbInv(s) && DbInv(r) && Stalest(cfg, s, ids) && r.tasks == s.tasks && s.now <= r.now
    ensures Stalest(cfg, r, ids)
  {
    OrphansAreStale(cfg, s);
    OrphansAreStale(cfg, r);
  }

  lemma EarlierIsSelected(candidates: set<nat>, key: map<nat, Time>, again: seq<nat>, limit: nat, x: nat, y: nat)
    requires candidates <= key.Keys && Selected(again, candidates, key, limit)
    requires x in again && y in candidates && key[y] < key[x]
    ensures y in again
  {
    var i :| 0 <= i < |again| && again[i] == x;
  }

  lemma SelectedAgain(ids: seq<nat>, candidates: set<nat>, key: map<nat, Time>, again: seq<nat>)
    requires candidates <= key.Keys && Distinct(ids) && Members(ids) <= candidates
    requires forall x, c :: x in ids && c in candidates && c !in ids ==> key[x] < key[c]
    requires Selected(again, candidates, key, |ids|)
    ensures Members(again) == Members(ids)
  {
    MembersSize(ids);
    MembersSize(again);
    Smaller(Members(ids), candidates);
    if x :| x in again && x !in ids {
      forall y | y in ids ensures y in again {
        assert y in Members(ids);
        EarlierIsSelected(candidates, key, again, |ids|, x, y);
      }
      SameSize(Members(ids), Members(again));
    } else {
      SameSize(Members(again), Members(ids));
    }
  }

  /** Nobody takes a message and the task is not announced: the clock runs, the relay publishes, and
      messages are lost, or delivered again for other tasks. */
  ghost predicate Idle(ops: seq<Op>, id: TaskId) {
    forall i :: 0 <= i < |ops| ==> IdleOp(ops[i], id)
  }

  predicate IdleOp(op: Op, id: TaskId) {
    Quiet(op) && !(op.RepublishTask? && op.task == id) && !(op.Redeliver? && op.task == id)
  }

  ghost predicate AllIdle(rounds: seq<Round>, id: TaskId) {
    forall i :: 0 <= i < |rounds| ==> Idle(rounds[i].ops, id)
  }

  lemma IdleStep(cfg: Config, s: State, op: Op)
    requires DbInv(s) && Quiet(op)
    ensures var r := Apply(cfg, s, op); DbInv(r) && r.tasks == s.tasks && s.now <= r.now
  {
    QuietRows(cfg, s, op);
    StepKeepsInv(cfg, s, op);
    TimeGrows(cfg, s, op);
  }

  lemma LostStaysLost(cfg: Config, s: State, op: Op, id: TaskId)
    requires DbInv(s) && IdleOp(op, id) && Lost(s, id)
    ensures Lost(Apply(cfg, s, op), id)
  {
    QuietRows(cfg, s, op);
    NothingAnnounced(cfg, s, op, id);
  }

  lemma NothingAnnounced(cfg: Config, s: State, op: Op, id: TaskId)
    requires IdleOp(op, id) && !Announced(s, id)
    ensures !Announced(Apply(cfg, s, op), id)
  {
    var r := Apply(cfg, s, op);
    forall i | i in r.outbox && r.outbox[i].status == Pending ensures r.outbox[i].task != id {
      if i in s.outbox && r.outbox[i] == s.outbox[i] {
        assert s.outbox[i].task != id;
      }
    }
  }

  lemma {:induction false} IdleRun(cfg: Config, s: State, ops: seq<Op>, id: TaskId)
    requires DbInv(s) && Idle(ops, id)
    ensures var r := Exec(cfg, s, ops); DbInv(r) && r.tasks == s.tasks && s.now <= r.now && (Lost(s, id) ==> Lost(r, id))
    decreases |ops|
  {
    if ops != [] {
      assert IdleOp(ops[0], id);
      IdleStep(cfg, s, ops[0]);
      if Lost(s, id) {
        LostStaysLost(cfg, s, ops[0], id);
      }
      IdleRun(cfg, Apply(cfg, s, ops[0]), ops[1..], id);
    }
  }

  lemma IdleRound(cfg: Config, s: State, round: Round, id: TaskId)
    requires DbInv(s) && Idle(round.ops, id) && id !in round.ids
    ensures var r := AfterRound(cfg, s, round);
            DbInv(r) && r.tasks == s.tasks && s.now <= r.now && (Lost(s, id) ==> Lost(r, id))
  {
    IdleRun(cfg, s, Each(round.ids, OrphanOp), id);
    IdleRun(cfg, AfterSweep(cfg, s, round), round.ops, id);
  }

  /** Sweeping alone does not move on: as long as no worker takes a message, every sweep selects the same
      tasks again, and what is lost beyond them stays lost for ever. */
  lemma {:induction false} SweepsRepeat(cfg: Config, s: State, ids: seq<TaskId>, rounds: seq<Round>, id: TaskId)
    requires DbInv(s) && Distinct(ids) && Stalest(cfg, s, ids) && id !in ids
    requires Sweeping(cfg, s, rounds, |ids|) && AllIdle(rounds, id)
    ensures forall i :: 0 <= i < |rounds| ==> Members(rounds[i].ids) == Members(ids)
    ensures Lost(s, id) ==> Lost(AfterRounds(cfg, s, rounds), id)
    decreases |rounds|
  {
    if rounds != [] {
      var round := rounds[0];
      var r := AfterRound(cfg, s, round);
      SelectedAgain(ids, OrphanTasks(cfg, s), OrphanKey(s), round.ids);
      assert id !in Members(ids);
      assert Idle(rounds[0].ops, id);
      IdleRound(cfg, s, round, id);
      StillStalest(cfg, s, r, ids);
      SweepsRepeat(cfg, r, ids, rounds[1..], id);
      forall i | 0 <= i < |rounds| ensures Members(rounds[i].ids) == Members(ids) {
        if i > 0 {
          assert rounds[i] == rounds[1..][i - 1];
        }
      }
    }
  }
}
