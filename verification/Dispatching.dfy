/** What becomes of a webhook delivery, told from the answers of its receiver. */
module Dispatching {
  import opened Rows
  import opened Store
  import opened Protocol
  import opened Webhooks

  // ---------- the run of one delivery ----------

  /** Step `m - 1` queued the delivery. */
  ghost predicate QueuedBefore(trace: seq<State>, i: nat, m: nat) {
    0 < m < |trace| && |trace[m - 1].hooks| <= i < |trace[m].hooks|
  }

  /** Step `k` turns to the delivery while it is pending and due, and commits what comes of it. */
  predicate TurnsTo(s: State, step: Step, i: nat) {
    && step.Dispatch? && step.delivery == i && step.commits && i < |s.hooks|
    && s.hooks[i].status == DeliveryPending && s.hooks[i].nextRetryAt <= s.now
  }

  /** Step `k` sent the delivery, and the answer `ok` was recorded. */
  predicate AnsweredAt(trace: seq<State>, steps: seq<Step>, i: nat, k: nat, ok: bool) {
    k < |steps| && k < |trace| && Sends(trace[k], steps[k], i) && steps[k].commits && steps[k].ok == ok
  }

  /** At step `k` there was no active subscription to send the delivery to. */
  predicate DroppedAt(trace: seq<State>, steps: seq<Step>, i: nat, k: nat) {
    && k < |steps| && k < |trace| && TurnsTo(trace[k], steps[k], i)
    && !SubAt(trace[k].subs, trace[k].hooks[i].subscription).active
  }

  ghost predicate Accepted(trace: seq<State>, steps: seq<Step>, i: nat, m: nat, n: nat) {
    exists k: nat :: m <= k < n && AnsweredAt(trace, steps, i, k, true)
  }

  ghost predicate Dropped(trace: seq<State>, steps: seq<Step>, i: nat, m: nat, n: nat) {
    exists k: nat :: m <= k < n && DroppedAt(trace, steps, i, k)
  }

  /** The recorded refusals from position `m` to position `n`. */
  ghost function Refusals(trace: seq<State>, steps: seq<Step>, i: nat, m: nat, n: nat): nat {
    if n <= m then 0 else Refusals(trace, steps, i, m, n - 1) + if AnsweredAt(trace, steps, i, n - 1, false) then 1 else 0
  }

  /** When the delivery is due: at once at first, and after its k-th refusal 2^(k-1) backoffs later. */
  ghost function DueTime(cfg: Config, trace: seq<State>, steps: seq<Step>, i: nat, m: nat, n: nat): Time
    requires 0 < m <= |trace| && n <= |trace|
  {
    if n <= m then trace[m - 1].now
    else if AnsweredAt(trace, steps, i, n - 1, false)
    then trace[n - 1].now + cfg.webhookBackoff * Power(2.0, Refusals(trace, steps, i, m, n - 1))
    else DueTime(cfg, trace, steps, i, m, n - 1)
  }

  /** The row of the delivery as its run tells it. */
  ghost predicate DeliveryTold(cfg: Config, trace: seq<State>, steps: seq<Step>, i: nat, m: nat, n: nat)
    requires 0 < m <= n < |trace| && i < |trace[n].hooks|
  {
    var d := trace[n].hooks[i];
    && d.attempts == Refusals(trace, steps, i, m, n)
    && (d.status == DeliverySent <==> Accepted(trace, steps, i, m, n))
    && (d.status == DeliveryFailed <==> Dropped(trace, steps, i, m, n) || Refusals(trace, steps, i, m, n) >= MaxSends(cfg))
    && (d.status == DeliveryPending ==> d.nextRetryAt == DueTime(cfg, trace, steps, i, m, n))
  }

  // ---------- one step ----------

  /** What a turn makes of a pending delivery. */
  predicate Turned(cfg: Config, active: bool, ok: bool, now: Time, d: Delivery, e: Delivery) {
    if !active then e.status == DeliveryFailed && e.attempts == d.attempts
    else if ok then e.status == DeliverySent && e.attempts == d.attempts
    else
      && e.attempts == d.attempts + 1
      && (if e.attempts >= MaxSends(cfg) then e.status == DeliveryFailed
          else e.status == DeliveryPending && e.nextRetryAt == now + cfg.webhookBackoff * Power(2.0, d.attempts))
  }

  lemma DispatchTurns(cfg: Config, subs: seq<Subscription>, d: Delivery, ok: bool, now: Time)
    requires d.status == DeliveryPending
    ensures Turned(cfg, SubAt(subs, d.subscription).active, ok, now, d, Dispatched(cfg, subs, d, ok, now))
  {
  }

  ghost predicate StepTurns(cfg: Config, s: State, step: Step, r: State, i: nat)
    requires i < |s.hooks|
  {
    && i < |r.hooks|
    && if TurnsTo(s, step, i)
       then Turned(cfg, SubAt(s.subs, s.hooks[i].subscription).active, step.ok, s.now, s.hooks[i], r.hooks[i])
       else r.hooks[i] == s.hooks[i]
  }

  lemma NextTurns(cfg: Config, s: State, step: Step, i: nat)
    requires i < |s.hooks|
    ensures StepTurns(cfg, s, step, Next(cfg, s, step), i)
  {
    if step.Platform? {
      StepAppends(cfg, s, step.op);
      assert Next(cfg, s, step).hooks[i] == Next(cfg, s, step).hooks[..|s.hooks|][i];
    } else if TurnsTo(s, step, i) {
      DispatchTurns(cfg, s.subs, s.hooks[i], step.ok, s.now);
    }
  }

  lemma NextQueues(cfg: Config, s: State, step: Step, i: nat)
    requires |s.hooks| <= i < |Next(cfg, s, step).hooks|
    ensures Unsent(Next(cfg, s, step).hooks[i], s.now)
  {
    assert step.Platform?;
    StepAppends(cfg, s, step.op);
  }

  // ---------- over runs ----------

  lemma TurnsAt(cfg: Config, trace: seq<State>, steps: seq<Step>, i: nat, n: nat)
    requires NextTrace(cfg, trace, steps) && 0 < n <= |steps|
    ensures i < |trace[n - 1].hooks| ==> StepTurns(cfg, trace[n - 1], steps[n - 1], trace[n], i)
    ensures |trace[n - 1].hooks| <= i < |trace[n].hooks| ==> Unsent(trace[n].hooks[i], trace[n - 1].now)
  {
    assert NextAt(cfg, trace, steps, n);
    if i < |trace[n - 1].hooks| {
      NextTurns(cfg, trace[n - 1], steps[n - 1], i);
    } else if i < |trace[n].hooks| {
      NextQueues(cfg, trace[n - 1], steps[n - 1], i);
    }
  }

  lemma AcceptedSnoc(trace: seq<State>, steps: seq<Step>, i: nat, m: nat, n: nat)
    requires m < n
    ensures Accepted(trace, steps, i, m, n) <==> Accepted(trace, steps, i, m, n - 1) || AnsweredAt(trace, steps, i, n - 1, true)
  {
  }

  lemma DroppedSnoc(trace: seq<State>, steps: seq<Step>, i: nat, m: nat, n: nat)
    requires m < n
    ensures Dropped(trace, steps, i, m, n) <==> Dropped(trace, steps, i, m, n - 1) || DroppedAt(trace, steps, i, n - 1)
  {
  }

  lemma ToldNext(cfg: Config, trace: seq<State>, steps: seq<Step>, i: nat, m: nat, n: nat)
    requires 0 < m < n < |trace| == |steps| + 1 && i < |trace[n - 1].hooks|
    requires DeliveryTold(cfg, trace, steps, i, m, n - 1) && StepTurns(cfg, trace[n - 1], steps[n - 1], trace[n], i)
    ensures DeliveryTold(cfg, trace, steps, i, m, n)
  {
    AcceptedSnoc(trace, steps, i, m, n);
    DroppedSnoc(trace, steps, i, m, n);
  }

  lemma {:induction false} ToldSince(cfg: Config, trace: seq<State>, steps: seq<Step>, i: nat, m: nat, n: nat)
    requires NextTrace(cfg, trace, steps) && QueuedBefore(trace, i, m) && m <= n <= |steps|
    ensures i < |trace[n].hooks| && DeliveryTold(cfg, trace, steps, i, m, n)
    decreases n
  {
    if n == m {
      TurnsAt(cfg, trace, steps, i, n);
    } else {
      ToldSince(cfg, trace, steps, i, m, n - 1);
      TurnsAt(cfg, trace, steps, i, n);
      ToldNext(cfg, trace, steps, i, m, n);
    }
  }

  /** In every run a delivery is sent exactly if a receiver accepted it, given up exactly if it was
      dropped or refused as often as allowed, and otherwise pending until its doubling backoff is over;
      only answers whose transaction was committed count. */
  lemma {:induction false} EveryDeliveryIsTold(cfg: Config, subs: seq<Subscription>, now: Time, trace: seq<State>, steps: seq<Step>,
                                               i: nat, n: nat) returns (m: nat)
    requires NextTrace(cfg, trace, steps) && trace[0] == Init(subs, now) && n <= |steps| && i < |trace[n].hooks|
    ensures QueuedBefore(trace, i, m) && m <= n && DeliveryTold(cfg, trace, steps, i, m, n)
    decreases n
  {
    assert n > 0;
    if i < |trace[n - 1].hooks| {
      m := EveryDeliveryIsTold(cfg, subs, now, trace, steps, i, n - 1);
    } else {
      m := n;
    }
    ToldSince(cfg, trace, steps, i, m, n);
  }

  /** The dispatcher finds a delivery due exactly if nobody accepted it, it was neither dropped nor refused
      too often, and its backoff is over. */
  lemma DispatchedExactlyWhenDue(cfg: Config, trace: seq<State>, steps: seq<Step>, i: nat, m: nat, n: nat)
    requires NextTrace(cfg, trace, steps) && QueuedBefore(trace, i, m) && m <= n <= |steps|
    ensures i in DueDeliveries(trace[n])
            <==> !Accepted(trace, steps, i, m, n) && !Dropped(trace, steps, i, m, n)
                 && Refusals(trace, steps, i, m, n) < MaxSends(cfg) && DueTime(cfg, trace, steps, i, m, n) <= trace[n].now
  {
    ToldSince(cfg, trace, steps, i, m, n);
  }
}
