/** When a replica asks the shared limiter again after a failure, told from the calls. */
module Fallback {
  import opened Rows
  import opened RateLimit

  ghost function Before(cfg: RateLimit.Config, f: Fleet, calls: seq<Call>, k: nat): Fleet
    requires k <= |calls|
  {
    Served(cfg, f, calls[..k])
  }

  function ClockOf(f: Fleet, call: Call): Time {
    f.now + call.delay
  }

  lemma {:induction false} ServedSnoc(cfg: RateLimit.Config, f: Fleet, calls: seq<Call>, call: Call)
    ensures Served(cfg, f, calls + [call]) == Serve(cfg, Served(cfg, f, calls), call)
    decreases |calls|
  {
    if calls == [] {
      assert [call][1..] == [];
    } else {
      assert (calls + [call])[1..] == calls[1..] + [call];
      ServedSnoc(cfg, Serve(cfg, f, calls[0]), calls[1..], call);
    }
  }

  lemma NextCall(cfg: RateLimit.Config, f: Fleet, calls: seq<Call>, k: nat)
    requires k < |calls|
    ensures Before(cfg, f, calls, k + 1) == Serve(cfg, Before(cfg, f, calls, k), calls[k])
  {
    assert calls[..k + 1] == calls[..k] + [calls[k]];
    ServedSnoc(cfg, f, calls[..k], calls[k]);
  }

  // ---------- failures, told from the calls ----------

  /** When call `k` is made. */
  ghost function TimeOf(cfg: RateLimit.Config, f: Fleet, calls: seq<Call>, k: nat): Time
    requires k < |calls|
  {
    ClockOf(Before(cfg, f, calls, k), calls[k])
  }

  /** Call `k` is made to one of `n` replicas, in the order of time. */
  predicate Made(n: nat, calls: seq<Call>, k: nat) {
    k < |calls| && calls[k].replica < n && calls[k].delay >= 0.0
  }

  /** Call `k` asks the shared limiter in vain: its replica did not do so in the 30 seconds before. */
  ghost predicate Fails(cfg: RateLimit.Config, f: Fleet, calls: seq<Call>, k: nat)
    decreases k
  {
    && cfg.redisEnabled && Made(|f.own|, calls, k) && calls[k].line != Answers
    && forall i: nat :: i < k && Fails(cfg, f, calls, i) && calls[i].replica == calls[k].replica ==>
         TimeOf(cfg, f, calls, k) > TimeOf(cfg, f, calls, i) + 30.0
  }

  /** The replica of call `k` asked in vain at most 30 seconds before. */
  ghost predicate Silenced(cfg: RateLimit.Config, f: Fleet, calls: seq<Call>, k: nat)
    requires k < |calls|
  {
    exists i: nat :: i < k && FailsOn(cfg, f, calls, i, calls[k].replica)
                     && TimeOf(cfg, f, calls, k) <= TimeOf(cfg, f, calls, i) + 30.0
  }

  ghost predicate FailsOn(cfg: RateLimit.Config, f: Fleet, calls: seq<Call>, i: nat, replica: nat) {
    i < |calls| && Fails(cfg, f, calls, i) && calls[i].replica == replica
  }

  /** `last` is the time of the replica's last vain call before call `k`, if there was one. */
  ghost predicate LastFailed(cfg: RateLimit.Config, f: Fleet, calls: seq<Call>, k: nat, replica: nat, last: Option<Time>) {
    && (forall i: nat :: i < k && FailsOn(cfg, f, calls, i, replica) ==> last.Some? && TimeOf(cfg, f, calls, i) <= last.value)
    && (last.Some? ==> exists i: nat :: i < k && FailsOn(cfg, f, calls, i, replica) && TimeOf(cfg, f, calls, i) == last.value)
  }

  // ---------- one call ----------

  /** A replica knows the failure that this call makes, or else what it knew before. */
  lemma DecideFails(cfg: RateLimit.Config, v: View, now: Time, line: Line)
    ensures var asks := cfg.redisEnabled && (v.lastFailure.None? || now > v.lastFailure.value + 30.0);
            Decide(cfg, v, now, line).view.lastFailure == if asks && line != Answers then Some(now) else v.lastFailure
  {
  }

  /** What a call does to one key of one replica, `asks` telling whether the shared limiter is asked. */
  predicate Decided(cfg: RateLimit.Config, v: View, now: Time, line: Line, asks: bool, d: Verdict) {
    var shared, own := Fits(v.shared, now, cfg.window, cfg.max), Fits(v.own, now, cfg.window, cfg.max);
    && d.view.shared == (if asks && line != Unreachable then Answered(v.shared, now, shared) else v.shared)
    && d.view.own == (if asks && line == Answers then v.own else Answered(v.own, now, own))
    && (d.admitted.Some? <==> if asks && line == Answers then shared else own)
  }

  lemma DecideTold(cfg: RateLimit.Config, v: View, now: Time, line: Line)
    ensures var asks := cfg.redisEnabled && (v.lastFailure.None? || now > v.lastFailure.value + 30.0);
            Decided(cfg, v, now, line, asks, Decide(cfg, v, now, line))
  {
  }

  /** A fleet keeps its size, and its clock never runs backwards. */
  ghost predicate Grown(n: nat, f: Fleet, r: Fleet) {
    |r.own| == |r.failures| == n && f.now <= r.now
  }

  lemma ServeGrows(cfg: RateLimit.Config, n: nat, f: Fleet, call: Call)
    requires |f.own| == |f.failures| == n
    ensures Grown(n, f, Serve(cfg, f, call))
    ensures call.replica < n && call.delay >= 0.0 ==> Serve(cfg, f, call).now == ClockOf(f, call)
  {
  }

  lemma {:induction false} Grows(cfg: RateLimit.Config, f: Fleet, calls: seq<Call>, i: nat, k: nat)
    requires |f.own| == |f.failures| && i <= k <= |calls|
    ensures Grown(|f.own|, Before(cfg, f, calls, i), Before(cfg, f, calls, k))
    decreases k
  {
    if k == 0 {
      assert calls[..0] == [];
    } else if i == k {
      Grows(cfg, f, calls, k - 1, k - 1);
      NextCall(cfg, f, calls, k - 1);
      ServeGrows(cfg, |f.own|, Before(cfg, f, calls, k - 1), calls[k - 1]);
    } else {
      Grows(cfg, f, calls, i, k - 1);
      NextCall(cfg, f, calls, k - 1);
      ServeGrows(cfg, |f.own|, Before(cfg, f, calls, k - 1), calls[k - 1]);
    }
  }

  lemma EarlierIsEarlier(cfg: RateLimit.Config, f: Fleet, calls: seq<Call>, i: nat, k: nat)
    requires |f.own| == |f.failures| && i < k < |calls| && Made(|f.own|, calls, i) && Made(|f.own|, calls, k)
    ensures TimeOf(cfg, f, calls, i) <= TimeOf(cfg, f, calls, k)
  {
    Grows(cfg, f, calls, i, i);
    Grows(cfg, f, calls, i + 1, k);
    NextCall(cfg, f, calls, i);
    ServeGrows(cfg, |f.own|, Before(cfg, f, calls, i), calls[i]);
  }

  // ---------- the failures a fleet knows ----------

  ghost predicate FailuresKnown(cfg: RateLimit.Config, f: Fleet, calls: seq<Call>, k: nat)
    requires k <= |calls|
  {
    var g := Before(cfg, f, calls, k);
    forall replica: nat :: replica < |g.failures| ==> LastFailed(cfg, f, calls, k, replica, g.failures[replica])
  }

  lemma FailsTold(cfg: RateLimit.Config, f: Fleet, calls: seq<Call>, k: nat)
    requires k < |calls|
    ensures Fails(cfg, f, calls, k)
            <==> cfg.redisEnabled && Made(|f.own|, calls, k) && calls[k].line != Answers && !Silenced(cfg, f, calls, k)
  {
    if !Silenced(cfg, f, calls, k) {
      forall i: nat | i < k && Fails(cfg, f, calls, i) && calls[i].replica == calls[k].replica
        ensures TimeOf(cfg, f, calls, k) > TimeOf(cfg, f, calls, i) + 30.0
      {
        assert FailsOn(cfg, f, calls, i, calls[k].replica);
      }
    }
  }

  /** Whether a call asks the shared limiter is told by the earlier calls of its replica. */
  lemma SilencedTold(cfg: RateLimit.Config, f: Fleet, calls: seq<Call>, k: nat, last: Option<Time>)
    requires k < |calls| && LastFailed(cfg, f, calls, k, calls[k].replica, last)
    ensures Silenced(cfg, f, calls, k) <==> last.Some? && TimeOf(cfg, f, calls, k) <= last.value + 30.0
  {
    if Silenced(cfg, f, calls, k) {
      var i: nat :| i < k && FailsOn(cfg, f, calls, i, calls[k].replica)
                    && TimeOf(cfg, f, calls, k) <= TimeOf(cfg, f, calls, i) + 30.0;
    }
    if last.Some? && TimeOf(cfg, f, calls, k) <= last.value + 30.0 {
      var i: nat :| i < k && FailsOn(cfg, f, calls, i, calls[k].replica) && TimeOf(cfg, f, calls, i) == last.value;
      assert Silenced(cfg, f, calls, k);
    }
  }

  lemma LastFailedOther(cfg: RateLimit.Config, f: Fleet, calls: seq<Call>, k: nat, replica: nat, last: Option<Time>)
    requires k < |calls| && LastFailed(cfg, f, calls, k, replica, last) && !FailsOn(cfg, f, calls, k, replica)
    ensures LastFailed(cfg, f, calls, k + 1, replica, last)
  {
  }

  lemma LastFailedNow(cfg: RateLimit.Config, f: Fleet, calls: seq<Call>, k: nat, replica: nat)
    requires |f.own| == |f.failures| && k < |calls| && FailsOn(cfg, f, calls, k, replica)
    ensures LastFailed(cfg, f, calls, k + 1, replica, Some(TimeOf(cfg, f, calls, k)))
  {
    forall i: nat | i < k + 1 && FailsOn(cfg, f, calls, i, replica)
      ensures TimeOf(cfg, f, calls, i) <= TimeOf(cfg, f, calls, k)
    {
      if i < k {
        EarlierIsEarlier(cfg, f, calls, i, k);
      }
    }
  }

  lemma FailureOf(cfg: RateLimit.Config, g: Fleet, call: Call, replica: nat)
    requires Proper(g, call) && replica < |g.failures|
    ensures var now := ClockOf(g, call); var last := g.failures[call.replica];
            Serve(cfg, g, call).failures[replica]
            == if replica == call.replica && cfg.redisEnabled && (last.None? || now > last.value + 30.0) && call.line != Answers
               then Some(now) else g.failures[replica]
  {
    DecideFails(cfg, View(At(g.shared, call.key), At(g.own[call.replica], call.key), g.failures[call.replica]),
                ClockOf(g, call), call.line);
  }

  lemma KnownNext(cfg: RateLimit.Config, f: Fleet, calls: seq<Call>, k: nat, replica: nat)
    requires |f.own| == |f.failures| && k < |calls| && FailuresKnown(cfg, f, calls, k) && replica < |f.failures|
    ensures replica < |Before(cfg, f, calls, k + 1).failures|
    ensures LastFailed(cfg, f, calls, k + 1, replica, Before(cfg, f, calls, k + 1).failures[replica])
  {
    var g := Before(cfg, f, calls, k);
    Grows(cfg, f, calls, k, k + 1);
    Grows(cfg, f, calls, k, k);
    NextCall(cfg, f, calls, k);
    if Made(|f.own|, calls, k) {
      FailureOf(cfg, g, calls[k], replica);
      SilencedTold(cfg, f, calls, k, g.failures[calls[k].replica]);
    }
    FailsTold(cfg, f, calls, k);
    if FailsOn(cfg, f, calls, k, replica) {
      LastFailedNow(cfg, f, calls, k, replica);
    } else {
      LastFailedOther(cfg, f, calls, k, replica, g.failures[replica]);
    }
  }

  lemma {:induction false} AllKnown(cfg: RateLimit.Config, n: nat, start: Time, calls: seq<Call>, k: nat)
    requires k <= |calls|
    ensures FailuresKnown(cfg, Fresh(n, start), calls, k)
    decreases k
  {
    var f := Fresh(n, start);
    if k == 0 {
      assert calls[..0] == [];
    } else {
      AllKnown(cfg, n, start, calls, k - 1);
      Grows(cfg, f, calls, k, k);
      forall replica: nat | replica < n
        ensures LastFailed(cfg, f, calls, k, replica, Before(cfg, f, calls, k).failures[replica])
      {
        KnownNext(cfg, f, calls, k - 1, replica);
      }
    }
  }

  // ---------- who decides ----------

  /** The call is decided by the shared list if it asks and is answered, and by the replica's own list
      otherwise; only a script that runs touches the shared list. */
  ghost predicate DecidedBy(cfg: RateLimit.Config, g: Fleet, r: Fleet, call: Call, asks: bool)
    requires Proper(g, call) && |r.own| == |g.own|
  {
    var now, key := ClockOf(g, call), call.key;
    var shared := Fits(At(g.shared, key), now, cfg.window, cfg.max);
    var own := Fits(At(g.own[call.replica], key), now, cfg.window, cfg.max);
    && At(r.shared, key) == (if asks && call.line != Unreachable then Answered(At(g.shared, key), now, shared) else At(g.shared, key))
    && At(r.own[call.replica], key)
       == (if asks && call.line == Answers then At(g.own[call.replica], key) else Answered(At(g.own[call.replica], key), now, own))
    && At(r.admitted, key) == Answered(At(g.admitted, key), now, if asks && call.line == Answers then shared else own)
  }

  lemma ServeDecides(cfg: RateLimit.Config, g: Fleet, call: Call)
    requires Proper(g, call)
    ensures var last := g.failures[call.replica];
            DecidedBy(cfg, g, Serve(cfg, g, call), call,
                      cfg.redisEnabled && (last.None? || ClockOf(g, call) > last.value + 30.0))
  {
    DecideTold(cfg, View(At(g.shared, call.key), At(g.own[call.replica], call.key), g.failures[call.replica]),
               ClockOf(g, call), call.line);
  }

  /** Every call of an enabled replica asks the shared limiter, exactly unless the replica asked in vain at
      most 30 seconds before. */
  lemma AsksExactlyUnlessSilenced(cfg: RateLimit.Config, n: nat, start: Time, calls: seq<Call>, k: nat)
    requires Made(n, calls, k)
    ensures var f := Fresh(n, start); var g := Before(cfg, f, calls, k);
            && Proper(g, calls[k]) && |Before(cfg, f, calls, k + 1).own| == |g.own|
            && DecidedBy(cfg, g, Before(cfg, f, calls, k + 1), calls[k], cfg.redisEnabled && !Silenced(cfg, f, calls, k))
  {
    var f := Fresh(n, start);
    var g := Before(cfg, f, calls, k);
    Grows(cfg, f, calls, k, k);
    Grows(cfg, f, calls, k, k + 1);
    AllKnown(cfg, n, start, calls, k);
    SilencedTold(cfg, f, calls, k, g.failures[calls[k].replica]);
    NextCall(cfg, f, calls, k);
    ServeDecides(cfg, g, calls[k]);
  }

  // ---------- the limit after a failure ----------

  /** Every call later than 30 seconds before `lo` is answered. */
  ghost predicate AnsweredSince(cfg: RateLimit.Config, f: Fleet, calls: seq<Call>, lo: Time) {
    forall k: nat :: Made(|f.own|, calls, k) && TimeOf(cfg, f, calls, k) > lo - 30.0 ==> calls[k].line == Answers
  }

  /** Since `lo` only the shared list has let requests of the key through. */
  predicate SharedSince(cfg: RateLimit.Config, f: Fleet, key: Key, lo: Time, hi: Time) {
    ListLegal(cfg, At(f.shared, key), f.now) && CountIn(At(f.admitted, key), lo, hi) <= CountIn(At(f.shared, key), lo, hi)
  }

  lemma OtherKeyShared(cfg: RateLimit.Config, g: Fleet, call: Call, key: Key, lo: Time, hi: Time)
    requires Proper(g, call) && SharedSince(cfg, g, key, lo, hi) && key != call.key
    ensures SharedSince(cfg, Serve(cfg, g, call), key, lo, hi)
  {
    RecordedLists(g, call, VerdictOn(cfg, g, call), key);
    LegalLater(cfg, At(g.shared, key), g.now, ClockOf(g, call));
  }

  lemma EnteredShared(cfg: RateLimit.Config, shared: seq<Time>, admitted: seq<Time>, was: Time, now: Time, ok: bool,
                      entered: bool, through: bool, lo: Time, hi: Time)
    requires ListLegal(cfg, shared, was) && was <= now && ok == Fits(shared, now, cfg.window, cfg.max)
    requires CountIn(admitted, lo, hi) <= CountIn(shared, lo, hi) && (now > lo ==> entered && through == ok)
    ensures var list := if entered then Answered(shared, now, ok) else shared;
            ListLegal(cfg, list, now) && CountIn(Answered(admitted, now, through), lo, hi) <= CountIn(list, lo, hi)
  {
    ListShared(cfg, shared, was, now, ok);
    CountAnswered(shared, now, ok, lo, hi);
    CountAnswered(admitted, now, through, lo, hi);
  }

  lemma OwnKeyShared(cfg: RateLimit.Config, g: Fleet, r: Fleet, call: Call, asks: bool, lo: Time, hi: Time)
    requires Proper(g, call) && |r.own| == |g.own| && r.now == ClockOf(g, call) && DecidedBy(cfg, g, r, call, asks)
    requires SharedSince(cfg, g, call.key, lo, hi) && (ClockOf(g, call) > lo ==> asks && call.line == Answers)
    ensures SharedSince(cfg, r, call.key, lo, hi)
  {
    var now := ClockOf(g, call);
    var shared := Fits(At(g.shared, call.key), now, cfg.window, cfg.max);
    var own := Fits(At(g.own[call.replica], call.key), now, cfg.window, cfg.max);
    EnteredShared(cfg, At(g.shared, call.key), At(g.admitted, call.key), g.now, now, shared, asks && call.line != Unreachable,
                  if asks && call.line == Answers then shared else own, lo, hi);
  }

  /** Long after every failure nobody is silenced. */
  lemma NobodySilenced(cfg: RateLimit.Config, f: Fleet, calls: seq<Call>, k: nat, lo: Time)
    requires k < |calls| && AnsweredSince(cfg, f, calls, lo) && TimeOf(cfg, f, calls, k) > lo
    ensures !Silenced(cfg, f, calls, k)
  {
  }

  lemma CallShared(cfg: RateLimit.Config, n: nat, start: Time, calls: seq<Call>, k: nat, key: Key, lo: Time, hi: Time)
    requires cfg.redisEnabled && AnsweredSince(cfg, Fresh(n, start), calls, lo) && k < |calls|
    requires SharedSince(cfg, Before(cfg, Fresh(n, start), calls, k), key, lo, hi)
    ensures SharedSince(cfg, Before(cfg, Fresh(n, start), calls, k + 1), key, lo, hi)
  {
    var f := Fresh(n, start);
    var g := Before(cfg, f, calls, k);
    Grows(cfg, f, calls, k, k);
    NextCall(cfg, f, calls, k);
    if Made(n, calls, k) {
      if key == calls[k].key {
        AsksExactlyUnlessSilenced(cfg, n, start, calls, k);
        if TimeOf(cfg, f, calls, k) > lo {
          NobodySilenced(cfg, f, calls, k, lo);
        }
        ServeGrows(cfg, n, g, calls[k]);
        OwnKeyShared(cfg, g, Before(cfg, f, calls, k + 1), calls[k], !Silenced(cfg, f, calls, k), lo, hi);
      } else {
        OtherKeyShared(cfg, g, calls[k], key, lo, hi);
      }
    }
  }

  lemma {:induction false} CallsShared(cfg: RateLimit.Config, n: nat, start: Time, calls: seq<Call>, k: nat, key: Key, lo: Time, hi: Time)
    requires cfg.redisEnabled && AnsweredSince(cfg, Fresh(n, start), calls, lo) && k <= |calls|
    ensures SharedSince(cfg, Before(cfg, Fresh(n, start), calls, k), key, lo, hi)
    decreases k
  {
    if k == 0 {
      assert calls[..0] == [];
    } else {
      CallsShared(cfg, n, start, calls, k - 1, key, lo, hi);
      CallShared(cfg, n, start, calls, k - 1, key, lo, hi);
    }
  }

  /** Failures are forgotten: if every call since 30 seconds before `lo` is answered, all replicas together
      keep the limit of one in the window that starts at `lo`, whatever happened before. */
  lemma SharedBoundAfterFailures(cfg: RateLimit.Config, n: nat, start: Time, calls: seq<Call>, key: Key, lo: Time)
    requires cfg.redisEnabled && AnsweredSince(cfg, Fresh(n, start), calls, lo)
    ensures CountIn(At(Served(cfg, Fresh(n, start), calls).admitted, key), lo, lo + cfg.window) <= cfg.max
  {
    CallsShared(cfg, n, start, calls, |calls|, key, lo, lo + cfg.window);
    assert calls[..|calls|] == calls;
    WindowBound(At(Served(cfg, Fresh(n, start), calls).shared, key), cfg.window, cfg.max, lo);
  }
}
