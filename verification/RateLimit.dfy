/** The sliding-window rate limiter: a pruned list per process, an equivalent script on a shared
    server, and the fallback that combines them. */
module RateLimit {
  import opened Rows

  type Key = string

  // ---------- the specification: a count over the full history ----------

  /** The admissions after `cutoff`. */
  function Recent(history: seq<Time>, cutoff: Time): seq<Time> {
    if history == [] then []
    else
      var last := |history| - 1;
      Recent(history[..last], cutoff) + if history[last] > cutoff then [history[last]] else []
  }

  predicate Fits(history: seq<Time>, now: Time, window: Time, max: nat) {
    |Recent(history, now - window)| < max
  }

  /** The history of a limiter that admits only what fits, under a clock that never goes back. */
  predicate Legal(history: seq<Time>, window: Time, max: nat)
    decreases |history|
  {
    history == [] ||
    (var last := |history| - 1;
     && Legal(history[..last], window, max)
     && (last > 0 ==> history[last - 1] <= history[last])
     && Fits(history[..last], history[last], window, max))
  }

  predicate UpTo(history: seq<Time>, now: Time) {
    forall i :: 0 <= i < |history| ==> history[i] <= now
  }

  /** The admissions in the half-open interval (lo, hi]. */
  function CountIn(history: seq<Time>, lo: Time, hi: Time): nat {
    if history == [] then 0
    else
      var last := |history| - 1;
      CountIn(history[..last], lo, hi) + if lo < history[last] <= hi then 1 else 0
  }

  lemma {:induction false} CountIsRecent(history: seq<Time>, lo: Time, hi: Time, cutoff: Time)
    requires cutoff <= lo
    ensures CountIn(history, lo, hi) <= |Recent(history, cutoff)|
    decreases |history|
  {
    if history != [] {
      CountIsRecent(history[..|history| - 1], lo, hi, cutoff);
    }
  }

  /** No interval of the window's length ever holds more than `max` admissions. */
  lemma {:induction false} WindowBound(history: seq<Time>, window: Time, max: nat, lo: Time)
    requires Legal(history, window, max)
    ensures CountIn(history, lo, lo + window) <= max
    decreases |history|
  {
    if history != [] {
      var last := |history| - 1;
      WindowBound(history[..last], window, max, lo);
      if lo < history[last] <= lo + window {
        CountIsRecent(history[..last], lo, lo + window, history[last] - window);
      }
    }
  }

  lemma LegalSnoc(history: seq<Time>, now: Time, window: Time, max: nat)
    requires Legal(history, window, max) && UpTo(history, now) && Fits(history, now, window, max)
    ensures Legal(history + [now], window, max) && UpTo(history + [now], now)
  {
    assert (history + [now])[..|history|] == history;
  }

  lemma {:induction false} RecentBounded(history: seq<Time>, window: Time, max: nat, now: Time)
    requires Legal(history, window, max) && UpTo(history, now)
    ensures |Recent(history, now - window)| == CountIn(history, now - window, now) <= max
    decreases |history|
  {
    WindowBound(history, window, max, now - window);
    RecentIsCount(history, now - window, now);
  }

  lemma {:induction false} RecentIsCount(history: seq<Time>, lo: Time, now: Time)
    requires UpTo(history, now)
    ensures |Recent(history, lo)| == CountIn(history, lo, now)
    decreases |history|
  {
    if history != [] {
      RecentIsCount(history[..|history| - 1], lo, now);
    }
  }

  /** A request is refused exactly when the last window already holds `max` admissions. */
  lemma RefusedExactlyWhenFull(history: seq<Time>, window: Time, max: nat, now: Time)
    requires Legal(history, window, max) && UpTo(history, now)
    ensures !Fits(history, now, window, max) <==> CountIn(history, now - window, now) == max
  {
    RecentBounded(history, window, max, now);
  }

  lemma {:induction false} RecentTwice(history: seq<Time>, a: Time, b: Time)
    requires a <= b
    ensures Recent(Recent(history, a), b) == Recent(history, b)
    decreases |history|
  {
    if history != [] {
      var last := |history| - 1;
      RecentTwice(history[..last], a, b);
      var front := Recent(history[..last], a);
      if history[last] > a {
        assert (front + [history[last]])[..|front|] == front;
      } else {
        assert front + [] == front;
      }
    }
  }

  lemma {:induction false} NothingRecent(history: seq<Time>, cutoff: Time)
    requires UpTo(history, cutoff)
    ensures Recent(history, cutoff) == []
    decreases |history|
  {
    if history != [] {
      NothingRecent(history[..|history| - 1], cutoff);
    }
  }

  lemma RecentSnoc(history: seq<Time>, now: Time, cutoff: Time)
    ensures Recent(history + [now], cutoff) == Recent(history, cutoff) + if now > cutoff then [now] else []
  {
    assert (history + [now])[..|history|] == history;
  }

  function At<T>(m: map<Key, seq<T>>, key: Key): seq<T> {
    if key in m then m[key] else []
  }

  // ---------- the in-process limiter ----------

  /** From `cutoff` on, the pruned list and the full history hold the same admissions. */
  ghost predicate Holds(hits: seq<Time>, history: seq<Time>, cutoff: Time) {
    forall c :: c >= cutoff ==> Recent(hits, c) == Recent(history, c)
  }

  lemma PruneHolds(hits: seq<Time>, history: seq<Time>, cutoff: Time, now: Time)
    requires Holds(hits, history, cutoff) && cutoff <= now
    ensures Recent(hits, now) == Recent(history, now)
    ensures Holds(Recent(hits, now), history, now)
  {
    forall c | c >= now ensures Recent(Recent(hits, now), c) == Recent(history, c) {
      RecentTwice(hits, now, c);
    }
  }

  lemma AdmitHolds(hits: seq<Time>, history: seq<Time>, cutoff: Time, now: Time)
    requires Holds(hits, history, cutoff)
    ensures Holds(hits + [now], history + [now], cutoff)
  {
    forall c | c >= cutoff ensures Recent(hits + [now], c) == Recent(history + [now], c) {
      RecentSnoc(hits, now, c);
      RecentSnoc(history, now, c);
    }
  }

  /** What the limiter remembers of one key is enough, and the key was never over its limit. */
  ghost predicate Sound(hits: seq<Time>, history: seq<Time>, clock: Time, window: Time, max: nat) {
    Holds(hits, history, clock - window) && Legal(history, window, max) && UpTo(history, clock)
  }

  lemma SoundLater(hits: seq<Time>, history: seq<Time>, clock: Time, now: Time, window: Time, max: nat)
    requires Sound(hits, history, clock, window, max) && clock <= now
    ensures Sound(hits, history, now, window, max)
  {
  }

  /** Pruning and deciding on the pruned list is deciding on the full history. */
  lemma DecideSound(hits: seq<Time>, history: seq<Time>, now: Time, window: Time, max: nat)
    requires Sound(hits, history, now, window, max)
    ensures var kept := Recent(hits, now - window);
            && (|kept| < max <==> Fits(history, now, window, max))
            && Sound(kept, history, now, window, max)
            && (|kept| < max ==> Sound(kept + [now], history + [now], now, window, max))
  {
    PruneHolds(hits, history, now - window, now - window);
    AdmitHolds(Recent(hits, now - window), history, now - window, now);
    if Fits(history, now, window, max) {
      LegalSnoc(history, now, window, max);
    }
  }

  method Prune(hits: seq<Time>, cutoff: Time) returns (kept: seq<Time>)
    ensures kept == Recent(hits, cutoff)
  {
    kept := [];
    var i := 0;
    while i < |hits|
      invariant 0 <= i <= |hits| && kept == Recent(hits[..i], cutoff)
    {
      assert hits[..i + 1][..i] == hits[..i];
      if hits[i] > cutoff {
        kept := kept + [hits[i]];
      }
      i := i + 1;
    }
    assert hits[..i] == hits;
  }

  ghost predicate AllSound(hits: map<Key, seq<Time>>, history: map<Key, seq<Time>>, clock: Time, window: Time, max: nat) {
    forall key :: Sound(At(hits, key), At(history, key), clock, window, max)
  }

  /** An entry after an answer. */
  function Answered(entry: seq<Time>, now: Time, ok: bool): seq<Time> {
    if ok then entry + [now] else entry
  }

  lemma AllSoundNext(hits: map<Key, seq<Time>>, history: map<Key, seq<Time>>, clock: Time, window: Time, max: nat,
                     key: Key, now: Time, kept: seq<Time>, ok: bool)
    requires AllSound(hits, history, clock, window, max) && clock <= now
    requires kept == Recent(At(hits, key), now - window) && ok == (|kept| < max)
    ensures ok == Fits(At(history, key), now, window, max)
    ensures AllSound(hits[key := Answered(kept, now, ok)], history[key := Answered(At(history, key), now, ok)], now, window, max)
  {
    assert Sound(At(hits, key), At(history, key), clock, window, max);
    SoundLater(At(hits, key), At(history, key), clock, now, window, max);
    DecideSound(At(hits, key), At(history, key), now, window, max);
    var hits' := hits[key := Answered(kept, now, ok)];
    var history' := history[key := Answered(At(history, key), now, ok)];
    forall k ensures Sound(At(hits', k), At(history', k), now, window, max) {
      if k != key {
        assert Sound(At(hits, k), At(history, k), clock, window, max);
        assert At(hits', k) == At(hits, k) && At(history', k) == At(history, k);
        SoundLater(At(hits, k), At(history, k), clock, now, window, max);
      }
    }
  }

  lemma AllSoundWithout(hits: map<Key, seq<Time>>, history: map<Key, seq<Time>>, clock: Time, window: Time, max: nat, gone: set<Key>)
    requires AllSound(hits, history, clock, window, max)
    ensures AllSound(hits - gone, history - gone, clock, window, max)
    ensures AllSound(map[], map[], clock, window, max)
  {
    var hits', history' := hits - gone, history - gone;
    forall k ensures Sound(At(hits', k), At(history', k), clock, window, max) {
      if k !in gone {
        assert Sound(At(hits, k), At(history, k), clock, window, max);
        assert At(hits', k) == At(hits, k) && At(history', k) == At(history, k);
      }
    }
  }

  class LocalRateLimiter {
    const max: nat
    const window: Time
    var hits: map<Key, seq<Time>>
    ghost var history: map<Key, seq<Time>>
    ghost var clock: Time

    ghost predicate Valid()
      reads this
    {
      AllSound(hits, history, clock, window, max)
    }

    constructor (max: nat, window: Time, now: Time)
      ensures Valid() && this.max == max && this.window == window && history == map[] && clock == now
    {
      this.max, this.window, hits, history, clock := max, window, map[], map[], now;
    }

    /** The pruned list decides like the full history of admissions. */
    method Allow(key: Key, now: Time) returns (ok: bool)
      requires Valid() && now >= clock
      modifies this
      ensures Valid() && clock == now
      ensures ok == Fits(At(old(history), key), now, window, max)
      ensures history == old(history)[key := Answered(At(old(history), key), now, ok)]
    {
      var timestamps := Prune(if key in hits then hits[key] else [], now - window);
      ok := |timestamps| < max;
      AllSoundNext(hits, history, clock, window, max, key, now, timestamps, ok);
      if ok {
        timestamps := timestamps + [now];
      }
      hits := hits[key := timestamps];
      history := history[key := Answered(At(history, key), now, ok)];
      clock := now;
    }

    /** Forgetting a key starts its history afresh. */
    method Reset(key: Option<Key>)
      requires Valid()
      modifies this
      ensures Valid() && clock == old(clock)
      ensures history == if key.None? then map[] else old(history) - {key.value}
    {
      AllSoundWithout(hits, history, clock, window, max, if key.None? then {} else {key.value});
      if key.None? {
        hits, history := map[], map[];
      } else {
        hits, history := hits - {key.value}, history - {key.value};
      }
    }
  }

  // ---------- the script on the shared server ----------

  /** An entry that is dropped at `expiry` has nothing recent in it from then on. */
  ghost predicate ExpiresSafely(history: seq<Time>, expiry: Time, window: Time) {
    UpTo(history, expiry - window)
  }

  lemma ExpiredSound(history: seq<Time>, expiry: Time, now: Time, window: Time, max: nat)
    requires ExpiresSafely(history, expiry, window) && now >= expiry
    requires Legal(history, window, max) && UpTo(history, now)
    ensures Sound([], history, now, window, max)
  {
    forall c | c >= now - window ensures Recent([], c) == Recent(history, c) {
      NothingRecent(history, c);
    }
  }

  ghost predicate AllExpireSafely(expiry: map<Key, Time>, history: map<Key, seq<Time>>, window: Time) {
    forall key :: key in expiry ==> ExpiresSafely(At(history, key), expiry[key], window)
  }

  lemma DropExpired(scores: map<Key, seq<Time>>, expiry: map<Key, Time>, history: map<Key, seq<Time>>,
                    clock: Time, window: Time, max: nat, key: Key, now: Time)
    requires AllSound(scores, history, clock, window, max) && AllExpireSafely(expiry, history, window)
    requires key in expiry && clock <= now && expiry[key] <= now
    ensures AllSound(scores - {key}, history, now, window, max)
  {
    var scores' := scores - {key};
    forall k ensures Sound(At(scores', k), At(history, k), now, window, max) {
      assert Sound(At(scores, k), At(history, k), clock, window, max);
      SoundLater(At(scores, k), At(history, k), clock, now, window, max);
      if k == key {
        ExpiredSound(At(history, k), expiry[k], now, window, max);
      } else {
        assert At(scores', k) == At(scores, k);
      }
    }
  }

  lemma AllExpireNext(scores: map<Key, seq<Time>>, expiry: map<Key, Time>, history: map<Key, seq<Time>>,
                      window: Time, max: nat, key: Key, now: Time, ok: bool)
    requires AllExpireSafely(expiry, history, window) && AllSound(scores, history, now, window, max)
    ensures AllExpireSafely(if ok then expiry[key := now + window] else expiry,
                            history[key := Answered(At(history, key), now, ok)], window)
  {
    assert Sound(At(scores, key), At(history, key), now, window, max);
  }

  /** One sorted set per key; the scores are the admission times. */
  class RedisServer {
    const max: nat
    const window: Time
    var scores: map<Key, seq<Time>>
    var expiry: map<Key, Time>
    ghost var history: map<Key, seq<Time>>
    ghost var clock: Time

    ghost predicate Valid()
      reads this
    {
      AllSound(scores, history, clock, window, max) && AllExpireSafely(expiry, history, window)
    }

    constructor (max: nat, window: Time, now: Time)
      ensures Valid() && this.max == max && this.window == window && history == map[] && clock == now
    {
      this.max, this.window, scores, expiry, history, clock := max, window, map[], map[], map[], now;
    }

    /** The server drops a key when its time to live is over. */
    method Expire(key: Key, now: Time)
      requires Valid() && now >= clock
      modifies this
      ensures Valid() && clock == now && history == old(history)
    {
      if key in expiry && expiry[key] <= now {
        DropExpired(scores, expiry, history, clock, window, max, key, now);
        scores, expiry := scores - {key}, expiry - {key};
      } else {
        AllSoundLater(scores, history, clock, now, window, max);
      }
      clock := now;
    }

    /** A call decides like the full history of admissions, whatever has expired. */
    method Eval(key: Key, now: Time) returns (ok: bool)
      requires Valid() && now >= clock
      modifies this
      ensures Valid() && clock == now
      ensures ok == Fits(At(old(history), key), now, window, max)
      ensures history == old(history)[key := Answered(At(old(history), key), now, ok)]
    {
      Expire(key, now);
      ok := Script(key, now);
    }

    method Script(key: Key, now: Time) returns (ok: bool)
      requires Valid() && now == clock
      modifies `scores, `expiry, `history
      ensures Valid()
      ensures ok == Fits(At(old(history), key), now, window, max)
      ensures history == old(history)[key := Answered(At(old(history), key), now, ok)]
    {
      var kept := Prune(if key in scores then scores[key] else [], now - window);
      ok := |kept| < max;
      AllSoundNext(scores, history, clock, window, max, key, now, kept, ok);
      AllExpireNext(scores, expiry, history, window, max, key, now, ok);
      if ok {
        kept := kept + [now];
        expiry := expiry[key := now + window];
      }
      scores := scores[key := kept];
      history := history[key := Answered(At(history, key), now, ok)];
    }
  }

  lemma AllSoundLater(hits: map<Key, seq<Time>>, history: map<Key, seq<Time>>, clock: Time, now: Time, window: Time, max: nat)
    requires AllSound(hits, history, clock, window, max) && clock <= now
    ensures AllSound(hits, history, now, window, max)
  {
    forall k ensures Sound(At(hits, k), At(history, k), now, window, max) {
      assert Sound(At(hits, k), At(history, k), clock, window, max);
      SoundLater(At(hits, k), At(history, k), clock, now, window, max);
    }
  }

  // ---------- the fallback ----------

  datatype Config = Config(max: nat, window: Time, redisEnabled: bool)

  /** What happens to a call of the shared server: it answers, cannot be reached, or executes the
      script and the answer is lost. */
  datatype Line = Answers | Unreachable | AnswerLost

  /** One replica's view of one key. */
  datatype View = View(shared: seq<Time>, own: seq<Time>, lastFailure: Option<Time>)

  datatype Source = Shared | Own

  datatype Verdict = Verdict(view: View, admitted: Option<Source>)

  predicate Available(lastFailure: Option<Time>, now: Time) {
    lastFailure.None? || now - lastFailure.value > 30.0
  }

  function AskLocal(cfg: Config, v: View, now: Time): Verdict {
    var ok := Fits(v.own, now, cfg.window, cfg.max);
    Verdict(v.(own := Answered(v.own, now, ok)), if ok then Some(Own) else None)
  }

  /** The decision of one replica, told on the full histories. */
  function Decide(cfg: Config, v: View, now: Time, line: Line): Verdict {
    if !cfg.redisEnabled || !Available(v.lastFailure, now) then AskLocal(cfg, v, now)
    else
      var ok := Fits(v.shared, now, cfg.window, cfg.max);
      match line
      case Answers => Verdict(v.(shared := Answered(v.shared, now, ok)), if ok then Some(Shared) else None)
      case Unreachable => AskLocal(cfg, v.(lastFailure := Some(now)), now)
      case AnswerLost => AskLocal(cfg, v.(shared := Answered(v.shared, now, ok), lastFailure := Some(now)), now)
  }

  class RateLimiter {
    const cfg: Config
    const local: LocalRateLimiter
    const server: RedisServer
    var lastFailure: Option<Time>

    constructor (cfg: Config, server: RedisServer, now: Time)
      ensures this.cfg == cfg && this.server == server && lastFailure.None? && fresh(local)
      ensures local.Valid() && local.history == map[] && local.clock == now
      ensures local.max == cfg.max && local.window == cfg.window
    {
      this.cfg, this.server, lastFailure := cfg, server, None;
      local := new LocalRateLimiter(cfg.max, cfg.window, now);
    }

    ghost predicate Valid()
      reads this, local, server
    {
      && local.Valid() && server.Valid()
      && local.max == server.max == cfg.max && local.window == server.window == cfg.window
    }

    ghost function ViewOf(key: Key): View
      reads this, local, server
    {
      View(At(server.history, key), At(local.history, key), lastFailure)
    }

    /** The answer of the shared server, if it is asked and answers. */
    method AskRedis(key: Key, now: Time, line: Line) returns (r: Option<bool>)
      requires Valid() && now >= server.clock
      modifies `lastFailure, server
      ensures Valid() && server.clock <= now
      ensures var v := old(ViewOf(key)); var ok := Fits(v.shared, now, cfg.window, cfg.max);
              if !Available(v.lastFailure, now) then r.None? && ViewOf(key) == v
              else match line
                   case Answers => r == Some(ok) && ViewOf(key) == v.(shared := Answered(v.shared, now, ok))
                   case Unreachable => r.None? && ViewOf(key) == v.(lastFailure := Some(now))
                   case AnswerLost =>
                     r.None? && ViewOf(key) == v.(shared := Answered(v.shared, now, ok), lastFailure := Some(now))
      ensures forall k :: k != key ==> At(server.history, k) == At(old(server.history), k)
    {
      if lastFailure.Some? && now - lastFailure.value <= 30.0 {
        return None;
      }
      if line == Unreachable {
        lastFailure := Some(now);
        return None;
      }
      var allowed := server.Eval(key, now);
      if line == AnswerLost {
        lastFailure := Some(now);
        return None;
      }
      return Some(allowed);
    }

    method Allow(key: Key, now: Time, line: Line) returns (ok: bool)
      requires Valid() && now >= server.clock && now >= local.clock
      modifies this, local, server
      ensures Valid() && server.clock <= now && local.clock <= now
      ensures var d := Decide(cfg, old(ViewOf(key)), now, line); ViewOf(key) == d.view && ok == d.admitted.Some?
      ensures forall k :: k != key ==>
                At(server.history, k) == At(old(server.history), k) && At(local.history, k) == At(old(local.history), k)
    {
      if cfg.redisEnabled {
        var result := AskRedis(key, now, line);
        if result.Some? {
          return result.value;
        }
      }
      ok := local.Allow(key, now);
    }
  }

  // ---------- several replicas ----------

  /** Several replicas and their shared server, and the requests that were let through.  A replica
      has one failure time for all keys. */
  datatype Fleet = Fleet(
    shared: map<Key, seq<Time>>, own: seq<map<Key, seq<Time>>>, failures: seq<Option<Time>>, now: Time,
    admitted: map<Key, seq<Time>>)

  /** A request to one replica, some time after the previous one. */
  datatype Call = Call(key: Key, replica: nat, delay: Time, line: Line)

  predicate Proper(f: Fleet, call: Call) {
    call.replica < |f.own| == |f.failures| && call.delay >= 0.0
  }

  function VerdictOn(cfg: Config, f: Fleet, call: Call): Verdict
    requires Proper(f, call)
  {
    Decide(cfg, View(At(f.shared, call.key), At(f.own[call.replica], call.key), f.failures[call.replica]),
           f.now + call.delay, call.line)
  }

  function Recorded(f: Fleet, call: Call, d: Verdict): Fleet
    requires Proper(f, call)
  {
    var now := f.now + call.delay;
    Fleet(f.shared[call.key := d.view.shared],
          f.own[call.replica := f.own[call.replica][call.key := d.view.own]],
          f.failures[call.replica := d.view.lastFailure], now,
          f.admitted[call.key := Answered(At(f.admitted, call.key), now, d.admitted.Some?)])
  }

  function Serve(cfg: Config, f: Fleet, call: Call): Fleet {
    if Proper(f, call) then Recorded(f, call, VerdictOn(cfg, f, call)) else f
  }

  function Served(cfg: Config, f: Fleet, calls: seq<Call>): Fleet
    decreases |calls|
  {
    if calls == [] then f else Served(cfg, Serve(cfg, f, calls[0]), calls[1..])
  }

  function Fresh(n: nat, now: Time): Fleet {
    Fleet(map[], seq(n, _ => map[]), seq(n, _ => None), now, map[])
  }

  /** What concerns one key. */
  datatype Cluster = Cluster(shared: seq<Time>, own: seq<seq<Time>>, now: Time, admitted: seq<Time>)

  function OfKey(f: Fleet, key: Key): Cluster {
    Cluster(At(f.shared, key), seq(|f.own|, i requires 0 <= i < |f.own| => At(f.own[i], key)), f.now, At(f.admitted, key))
  }

  function Entered(c: Cluster, replica: nat, now: Time, d: Verdict): Cluster
    requires replica < |c.own|
  {
    Cluster(d.view.shared, c.own[replica := d.view.own], now, Answered(c.admitted, now, d.admitted.Some?))
  }

  /** A request concerns its own key only, except for the clock. */
  lemma RecordedOfKey(f: Fleet, call: Call, d: Verdict, key: Key)
    requires Proper(f, call)
    ensures OfKey(Recorded(f, call, d), key)
            == if key == call.key then Entered(OfKey(f, key), call.replica, f.now + call.delay, d)
               else OfKey(f, key).(now := f.now + call.delay)
  {
    var r := Recorded(f, call, d);
    assert |OfKey(r, key).own| == |f.own|;
    if key == call.key {
      assert OfKey(r, key).own == OfKey(f, key).own[call.replica := d.view.own];
    } else {
      assert OfKey(r, key).own == OfKey(f, key).own;
    }
  }

  function SumIn(lists: seq<seq<Time>>, lo: Time, hi: Time): nat {
    if lists == [] then 0 else SumIn(lists[..|lists| - 1], lo, hi) + CountIn(lists[|lists| - 1], lo, hi)
  }

  lemma {:induction false} SumUpdate(lists: seq<seq<Time>>, i: nat, list: seq<Time>, lo: Time, hi: Time)
    requires i < |lists|
    ensures SumIn(lists[i := list], lo, hi) + CountIn(lists[i], lo, hi) == SumIn(lists, lo, hi) + CountIn(list, lo, hi)
    decreases |lists|
  {
    var last := |lists| - 1;
    if i < last {
      assert lists[i := list][..last] == lists[..last][i := list];
      SumUpdate(lists[..last], i, list, lo, hi);
    } else {
      assert lists[i := list][..last] == lists[..last];
    }
  }

  lemma CountAnswered(entry: seq<Time>, now: Time, ok: bool, lo: Time, hi: Time)
    ensures CountIn(Answered(entry, now, ok), lo, hi) == CountIn(entry, lo, hi) + if ok && lo < now <= hi then 1 else 0
  {
    assert (entry + [now])[..|entry|] == entry;
  }

  predicate ListLegal(cfg: Config, list: seq<Time>, now: Time) {
    Legal(list, cfg.window, cfg.max) && UpTo(list, now)
  }

  lemma LegalLater(cfg: Config, list: seq<Time>, now: Time, later: Time)
    requires ListLegal(cfg, list, now) && now <= later
    ensures ListLegal(cfg, list, later)
  {
  }

  /** Every list is the history of a limiter on its own. */
  predicate ListsLegal(cfg: Config, c: Cluster) {
    ListLegal(cfg, c.shared, c.now) && forall i :: 0 <= i < |c.own| ==> ListLegal(cfg, c.own[i], c.now)
  }

  /** Every request let through is entered in some list. */
  predicate Covered(c: Cluster, lo: Time, hi: Time) {
    CountIn(c.admitted, lo, hi) <= CountIn(c.shared, lo, hi) + SumIn(c.own, lo, hi)
  }

  lemma AnsweredLegal(cfg: Config, entry: seq<Time>, now: Time, ok: bool)
    requires Legal(entry, cfg.window, cfg.max) && UpTo(entry, now)
    requires ok ==> Fits(entry, now, cfg.window, cfg.max)
    ensures Legal(Answered(entry, now, ok), cfg.window, cfg.max) && UpTo(Answered(entry, now, ok), now)
  {
    if ok {
      LegalSnoc(entry, now, cfg.window, cfg.max);
    }
  }

  lemma DecideLegal(cfg: Config, v: View, now: Time, line: Line, d: Verdict)
    requires ListLegal(cfg, v.shared, now) && ListLegal(cfg, v.own, now) && d == Decide(cfg, v, now, line)
    ensures ListLegal(cfg, d.view.shared, now) && ListLegal(cfg, d.view.own, now)
  {
    AnsweredLegal(cfg, v.shared, now, Fits(v.shared, now, cfg.window, cfg.max));
    AnsweredLegal(cfg, v.own, now, Fits(v.own, now, cfg.window, cfg.max));
  }

  predicate Pays(v: View, d: Verdict, now: Time, lo: Time, hi: Time) {
    CountIn(v.shared, lo, hi) + CountIn(v.own, lo, hi) + (if d.admitted.Some? && lo < now <= hi then 1 else 0)
    <= CountIn(d.view.shared, lo, hi) + CountIn(d.view.own, lo, hi)
  }

  /** Whatever the line does, an admission is entered in one of the two lists. */
  lemma DecideCounts(cfg: Config, v: View, now: Time, line: Line, d: Verdict, lo: Time, hi: Time)
    requires d == Decide(cfg, v, now, line)
    ensures Pays(v, d, now, lo, hi)
  {
    CountAnswered(v.shared, now, Fits(v.shared, now, cfg.window, cfg.max), lo, hi);
    CountAnswered(v.own, now, Fits(v.own, now, cfg.window, cfg.max), lo, hi);
  }

  lemma EnteredLegal(cfg: Config, c: Cluster, replica: nat, now: Time, d: Verdict)
    requires ListsLegal(cfg, c) && replica < |c.own| && c.now <= now
    requires ListLegal(cfg, d.view.shared, now) && ListLegal(cfg, d.view.own, now)
    ensures ListsLegal(cfg, Entered(c, replica, now, d))
  {
    var own := c.own[replica := d.view.own];
    forall i | 0 <= i < |own| ensures ListLegal(cfg, own[i], now) {
      if i != replica {
        LegalLater(cfg, c.own[i], c.now, now);
      }
    }
  }

  lemma EnteredCovers(c: Cluster, replica: nat, now: Time, d: Verdict, v: View, lo: Time, hi: Time)
    requires Covered(c, lo, hi) && replica < |c.own| && v.shared == c.shared && v.own == c.own[replica]
    requires Pays(v, d, now, lo, hi)
    ensures Covered(Entered(c, replica, now, d), lo, hi)
  {
    SumUpdate(c.own, replica, d.view.own, lo, hi);
    CountAnswered(c.admitted, now, d.admitted.Some?, lo, hi);
  }

  lemma OthersLegal(cfg: Config, c: Cluster, now: Time)
    requires ListsLegal(cfg, c) && c.now <= now
    ensures ListsLegal(cfg, c.(now := now))
  {
    LegalLater(cfg, c.shared, c.now, now);
    forall i | 0 <= i < |c.own| ensures ListLegal(cfg, c.own[i], now) {
      LegalLater(cfg, c.own[i], c.now, now);
    }
  }

  lemma EnteredGood(cfg: Config, c: Cluster, replica: nat, now: Time, v: View, line: Line, d: Verdict, lo: Time, hi: Time)
    requires Good(cfg, c, lo, hi) && replica < |c.own| && c.now <= now
    requires v.shared == c.shared && v.own == c.own[replica] && d == Decide(cfg, v, now, line)
    ensures Good(cfg, Entered(c, replica, now, d), lo, hi)
  {
    LegalLater(cfg, v.shared, c.now, now);
    LegalLater(cfg, v.own, c.now, now);
    DecideLegal(cfg, v, now, line, d);
    EnteredLegal(cfg, c, replica, now, d);
    DecideCounts(cfg, v, now, line, d, lo, hi);
    EnteredCovers(c, replica, now, d, v, lo, hi);
  }

  predicate Good(cfg: Config, c: Cluster, lo: Time, hi: Time) {
    ListsLegal(cfg, c) && Covered(c, lo, hi)
  }

  lemma ServeGood(cfg: Config, f: Fleet, call: Call, d: Verdict, key: Key, lo: Time, hi: Time)
    requires Proper(f, call) && d == VerdictOn(cfg, f, call) && Good(cfg, OfKey(f, key), lo, hi)
    ensures Good(cfg, OfKey(Recorded(f, call, d), key), lo, hi)
  {
    var now := f.now + call.delay;
    RecordedOfKey(f, call, d, key);
    if key == call.key {
      EnteredGood(cfg, OfKey(f, key), call.replica, now,
                  View(At(f.shared, key), At(f.own[call.replica], key), f.failures[call.replica]), call.line, d, lo, hi);
    } else {
      OthersLegal(cfg, OfKey(f, key), now);
    }
  }

  lemma {:induction false} ServedGood(cfg: Config, f: Fleet, calls: seq<Call>, key: Key, lo: Time, hi: Time)
    requires Good(cfg, OfKey(f, key), lo, hi)
    ensures Good(cfg, OfKey(Served(cfg, f, calls), key), lo, hi) && |Served(cfg, f, calls).own| == |f.own|
    decreases |calls|
  {
    if calls != [] {
      if Proper(f, calls[0]) {
        ServeGood(cfg, f, calls[0], VerdictOn(cfg, f, calls[0]), key, lo, hi);
      }
      ServedGood(cfg, Serve(cfg, f, calls[0]), calls[1..], key, lo, hi);
    }
  }

  lemma OneMoreTimes(n: nat, max: nat)
    ensures (n + 1) * max == n * max + max
  {
  }

  lemma {:induction false} SumBound(lists: seq<seq<Time>>, window: Time, max: nat, lo: Time)
    requires forall i :: 0 <= i < |lists| ==> Legal(lists[i], window, max)
    ensures SumIn(lists, lo, lo + window) <= |lists| * max
    decreases |lists|
  {
    if lists != [] {
      var last := |lists| - 1;
      SumBound(lists[..last], window, max, lo);
      WindowBound(lists[last], window, max, lo);
      OneMoreTimes(last, max);
    }
  }

  lemma {:induction false} NothingSummed(n: nat, lo: Time, hi: Time)
    ensures SumIn(seq(n, _ => []), lo, hi) == 0
    decreases n
  {
    if n > 0 {
      var lists: seq<seq<Time>> := seq(n, _ => []);
      assert lists[..n - 1] == seq(n - 1, _ => []);
      NothingSummed(n - 1, lo, hi);
    }
  }

  lemma FreshGood(cfg: Config, n: nat, start: Time, key: Key, lo: Time, hi: Time)
    ensures Good(cfg, OfKey(Fresh(n, start), key), lo, hi)
  {
    NothingSummed(n, lo, hi);
    assert OfKey(Fresh(n, start), key).own == seq(n, _ => []);
  }

  lemma GoodBound(cfg: Config, c: Cluster, lo: Time)
    requires Good(cfg, c, lo, lo + cfg.window)
    ensures CountIn(c.admitted, lo, lo + cfg.window) <= (|c.own| + 1) * cfg.max
  {
    WindowBound(c.shared, cfg.window, cfg.max, lo);
    SumBound(c.own, cfg.window, cfg.max, lo);
    OneMoreTimes(|c.own|, cfg.max);
  }

  /** With `n` replicas, whatever the shared server does and however requests of all keys are spread: no
      interval of the window's length ever sees more than (n + 1) * max requests of one key let through. */
  lemma FallbackBound(cfg: Config, n: nat, start: Time, calls: seq<Call>, key: Key, lo: Time)
    ensures CountIn(At(Served(cfg, Fresh(n, start), calls).admitted, key), lo, lo + cfg.window) <= (n + 1) * cfg.max
  {
    FreshGood(cfg, n, start, key, lo, lo + cfg.window);
    ServedGood(cfg, Fresh(n, start), calls, key, lo, lo + cfg.window);
    GoodBound(cfg, OfKey(Served(cfg, Fresh(n, start), calls), key), lo);
  }

  /** No replica has seen the shared server fail, and every request let through is in its list. */
  predicate SharedOnly(cfg: Config, f: Fleet, key: Key) {
    && (forall i :: 0 <= i < |f.failures| ==> f.failures[i].None?)
    && At(f.admitted, key) == At(f.shared, key) && ListLegal(cfg, At(f.shared, key), f.now)
  }

  /** An available server that answers decides alone. */
  lemma AnsweredVerdict(cfg: Config, v: View, now: Time, d: Verdict)
    requires cfg.redisEnabled && v.lastFailure.None? && d == Decide(cfg, v, now, Answers)
    ensures var ok := Fits(v.shared, now, cfg.window, cfg.max);
            d.view == v.(shared := Answered(v.shared, now, ok)) && d.admitted.Some? == ok
  {
  }

  lemma RecordedFailures(f: Fleet, call: Call, d: Verdict)
    requires Proper(f, call) && d.view.lastFailure.None?
    requires forall i :: 0 <= i < |f.failures| ==> f.failures[i].None?
    ensures var failures := Recorded(f, call, d).failures; forall i :: 0 <= i < |failures| ==> failures[i].None?
  {
  }

  lemma RecordedLists(f: Fleet, call: Call, d: Verdict, key: Key)
    requires Proper(f, call)
    ensures var r := Recorded(f, call, d); var now := f.now + call.delay;
            && r.now == now
            && At(r.shared, key) == (if key == call.key then d.view.shared else At(f.shared, key))
            && At(r.admitted, key)
               == (if key == call.key then Answered(At(f.admitted, key), now, d.admitted.Some?) else At(f.admitted, key))
  {
  }

  /** The server's list after a request, as far as one key is concerned. */
  lemma ListShared(cfg: Config, list: seq<Time>, was: Time, now: Time, ok: bool)
    requires ListLegal(cfg, list, was) && was <= now && ok == Fits(list, now, cfg.window, cfg.max)
    ensures ListLegal(cfg, Answered(list, now, ok), now) && ListLegal(cfg, list, now)
  {
    LegalLater(cfg, list, was, now);
    AnsweredLegal(cfg, list, now, ok);
  }

  lemma RecordedShared(cfg: Config, f: Fleet, call: Call, d: Verdict, key: Key, ok: bool)
    requires Proper(f, call) && SharedOnly(cfg, f, key)
    requires ok == Fits(At(f.shared, call.key), f.now + call.delay, cfg.window, cfg.max)
    requires d.view.shared == Answered(At(f.shared, call.key), f.now + call.delay, ok)
    requires d.view.lastFailure.None? && d.admitted.Some? == ok
    ensures SharedOnly(cfg, Recorded(f, call, d), key)
  {
    RecordedFailures(f, call, d);
    RecordedLists(f, call, d, key);
    ListShared(cfg, At(f.shared, key), f.now, f.now + call.delay,
               Fits(At(f.shared, key), f.now + call.delay, cfg.window, cfg.max));
  }

  lemma ServeShared(cfg: Config, f: Fleet, call: Call, key: Key)
    requires cfg.redisEnabled && call.line == Answers && SharedOnly(cfg, f, key)
    ensures SharedOnly(cfg, Serve(cfg, f, call), key)
  {
    if Proper(f, call) {
      var d := VerdictOn(cfg, f, call);
      AnsweredVerdict(cfg, View(At(f.shared, call.key), At(f.own[call.replica], call.key), f.failures[call.replica]),
                      f.now + call.delay, d);
      RecordedShared(cfg, f, call, d, key,
                     Fits(At(f.shared, call.key), f.now + call.delay, cfg.window, cfg.max));
    }
  }

  lemma {:induction false} ServedShared(cfg: Config, f: Fleet, calls: seq<Call>, key: Key)
    requires cfg.redisEnabled && SharedOnly(cfg, f, key) && forall i :: 0 <= i < |calls| ==> calls[i].line == Answers
    ensures SharedOnly(cfg, Served(cfg, f, calls), key)
    decreases |calls|
  {
    if calls != [] {
      ServeShared(cfg, f, calls[0], key);
      ServedShared(cfg, Serve(cfg, f, calls[0]), calls[1..], key);
    }
  }

  /** While the shared server always answers, all replicas together keep the limit of one. */
  lemma SharedBound(cfg: Config, n: nat, start: Time, calls: seq<Call>, key: Key, lo: Time)
    requires cfg.redisEnabled && forall i :: 0 <= i < |calls| ==> calls[i].line == Answers
    ensures CountIn(At(Served(cfg, Fresh(n, start), calls).admitted, key), lo, lo + cfg.window) <= cfg.max
  {
    ServedShared(cfg, Fresh(n, start), calls, key);
    WindowBound(At(Served(cfg, Fresh(n, start), calls).shared, key), cfg.window, cfg.max, lo);
  }
}
