/** Admission control: the queue cap and the lazily refilled token bucket
    (src/llm_runtime/core/admission.py). */
module Admission {
  import opened Common

  datatype AdmissionDecision = AdmissionDecision(accepted: bool, reason: string, detail: string, statusCode: int)

  const ACCEPTED := AdmissionDecision(true, "", "", 200)
  const QUEUE_FULL := AdmissionDecision(false, "queue_full", "scheduler queue is full", 503)
  const RATE_LIMITED := AdmissionDecision(false, "rate_limited", "request rate limit exceeded", 429)

  /** The immutable settings of a controller. */
  datatype Limits = Limits(maxQueueSize: int, rate: real, capacity: int)

  /** The mutable part of a controller. */
  datatype Bucket = Bucket(tokens: real, last: real)

  datatype Call = Call(now: real, queueSize: int)

  function Min(x: real, y: real): real { if x <= y then x else y }

  function Max(x: real, y: real): real { if x >= y then x else y }

  /** No limit, no bucket; otherwise the burst setting if there is one, else the rate rounded up, and at least 1. */
  function BucketCapacity(rate: real, burst: int): (c: int)
    ensures rate <= 0.0 ==> c == 0
    ensures rate > 0.0 ==> c >= 1 && (burst > 0 ==> c == burst)
    ensures rate > 0.0 && burst <= 0 ==> rate <= c as real < Max(1.0, rate + 1.0)
  {
    if rate <= 0.0 then 0
    else if burst > 0 then burst
    else if Ceiling(rate) >= 1 then Ceiling(rate) else 1
  }

  function Refill(l: Limits, b: Bucket, now: real): Bucket {
    Bucket(Min(l.capacity as real, b.tokens + Max(0.0, now - b.last) * l.rate), now)
  }

  predicate Full(l: Limits, c: Call) { l.maxQueueSize > 0 && c.queueSize >= l.maxQueueSize }

  function Decide(l: Limits, b: Bucket, c: Call): AdmissionDecision {
    if Full(l, c) then QUEUE_FULL
    else if l.rate <= 0.0 then ACCEPTED
    else if Refill(l, b, c.now).tokens < 1.0 then RATE_LIMITED
    else ACCEPTED
  }

  function After(l: Limits, b: Bucket, c: Call): Bucket {
    if Full(l, c) || l.rate <= 0.0 then b
    else
      var r := Refill(l, b, c.now);
      if r.tokens < 1.0 then r else r.(tokens := r.tokens - 1.0)
  }

  class AdmissionController {
    const limits: Limits
    const timeFn: nat -> real // the k-th reading of the injected clock
    var ticks: nat
    var tokens: real
    var lastRefillAt: real

    ghost function State(): Bucket
      reads this
    {
      Bucket(tokens, lastRefillAt)
    }

    constructor (maxQueueSize: int, rate: real, burst: int, timeFn: nat -> real)
      ensures limits == Limits(maxQueueSize, rate, BucketCapacity(rate, burst))
      ensures this.timeFn == timeFn && ticks == 1
      ensures State() == Bucket(limits.capacity as real, timeFn(0))
    {
      limits := Limits(maxQueueSize, rate, BucketCapacity(rate, burst));
      this.timeFn := timeFn;
      tokens := BucketCapacity(rate, burst) as real;
      lastRefillAt := timeFn(0);
      ticks := 1;
    }

    method Admit(queueSize: int) returns (d: AdmissionDecision)
      modifies this
      ensures d == Decide(limits, old(State()), Call(timeFn(old(ticks)), queueSize))
      ensures State() == After(limits, old(State()), Call(timeFn(old(ticks)), queueSize))
      ensures d == QUEUE_FULL <==> limits.maxQueueSize > 0 && queueSize >= limits.maxQueueSize
      ensures d == QUEUE_FULL ==> State() == old(State()) && ticks == old(ticks)
      ensures d == ACCEPTED || d == QUEUE_FULL || d == RATE_LIMITED
    {
      if limits.maxQueueSize > 0 && queueSize >= limits.maxQueueSize {
        return QUEUE_FULL;
      }
      if limits.rate <= 0.0 {
        return ACCEPTED;
      }
      RefillLocked();
      if tokens < 1.0 {
        return RATE_LIMITED;
      }
      tokens := tokens - 1.0;
      return ACCEPTED;
    }

    method RefillLocked()
      modifies this
      ensures State() == Refill(limits, old(State()), timeFn(old(ticks)))
      ensures ticks == old(ticks) + 1
    {
      var now := timeFn(ticks);
      ticks := ticks + 1;
      var elapsed := Max(0.0, now - lastRefillAt);
      lastRefillAt := now;
      tokens := Min(limits.capacity as real, tokens + elapsed * limits.rate);
    }
  }

  // ---------------------------------------------------------------------
  // Whole runs. Index 0 of every sequence stands for the construction of the
  // controller (never an acceptance); index k > 0 is the k-th call of admit.

  ghost predicate Nondecreasing(ts: seq<real>) {
    forall i, j :: 0 <= i <= j < |ts| ==> ts[i] <= ts[j]
  }

  ghost predicate Limiting(l: Limits) { l.rate > 0.0 && l.capacity >= 1 }

  /** How many acceptances fall in the half-open window [i, j). */
  function Count(taken: seq<bool>, i: nat, j: nat): (n: nat)
    requires i <= j <= |taken|
  {
    if i == j then 0 else Count(taken, i, j - 1) + if taken[j - 1] then 1 else 0
  }

  /** What the window [i, j) leaves over of a full bucket plus its refill. */
  ghost function Slack(l: Limits, ts: seq<real>, taken: seq<bool>, i: nat, j: nat): real
    requires i <= j < |ts| == |taken|
  {
    l.capacity as real + (ts[j] - ts[i]) * l.rate - Count(taken, i, j) as real
  }

  /** Tokens of a bucket that starts full and is drained by `taken`, seen just after a refill at call j. */
  ghost function Level(l: Limits, ts: seq<real>, taken: seq<bool>, j: nat): real
    requires j < |ts| == |taken|
  {
    if j == 0 then l.capacity as real
    else NextLevel(l, Level(l, ts, taken, j - 1), taken[j - 1], ts[j] - ts[j - 1])
  }

  ghost function NextLevel(l: Limits, level: real, took: bool, length: real): real {
    Min(l.capacity as real, level - (if took then 1.0 else 0.0) + length * l.rate)
  }

  lemma SlackStep(l: Limits, ts: seq<real>, taken: seq<bool>, i: nat, j: nat)
    requires i < j < |ts| == |taken|
    ensures Slack(l, ts, taken, i, j)
         == Slack(l, ts, taken, i, j - 1) - (if taken[j - 1] then 1.0 else 0.0) + (ts[j] - ts[j - 1]) * l.rate
  {
    assert (ts[j] - ts[i]) * l.rate == (ts[j - 1] - ts[i]) * l.rate + (ts[j] - ts[j - 1]) * l.rate;
  }

  lemma LevelBelowSlack(l: Limits, ts: seq<real>, taken: seq<bool>, i: nat, j: nat)
    requires i <= j < |ts| == |taken|
    ensures Level(l, ts, taken, j) <= Slack(l, ts, taken, i, j)
  {
    if i < j {
      LevelBelowSlack(l, ts, taken, i, j - 1);
      SlackStep(l, ts, taken, i, j);
    }
  }

  lemma {:induction false} LevelAttained(l: Limits, ts: seq<real>, taken: seq<bool>, j: nat) returns (w: nat)
    requires j < |ts| == |taken|
    ensures w <= j && Level(l, ts, taken, j) == Slack(l, ts, taken, w, j)
  {
    if j == 0 || Level(l, ts, taken, j) == l.capacity as real {
      w := j;
    } else {
      w := LevelAttained(l, ts, taken, j - 1);
      SlackStep(l, ts, taken, w, j);
    }
  }

  /** Min-plus characterisation: the level is exactly the least slack over all windows ending at j. */
  lemma LevelIsLeastSlack(l: Limits, ts: seq<real>, taken: seq<bool>, j: nat) returns (w: nat)
    requires j < |ts| == |taken|
    ensures w <= j && Level(l, ts, taken, j) == Slack(l, ts, taken, w, j)
    ensures forall i: nat :: i <= j ==> Level(l, ts, taken, j) <= Slack(l, ts, taken, i, j)
  {
    w := LevelAttained(l, ts, taken, j);
    forall i: nat | i <= j ensures Level(l, ts, taken, j) <= Slack(l, ts, taken, i, j) {
      LevelBelowSlack(l, ts, taken, i, j);
    }
  }

  /** A window overflows at j when one more acceptance there would exceed capacity + rate * length. */
  ghost predicate Overflows(l: Limits, ts: seq<real>, taken: seq<bool>, i: nat, j: nat)
    requires i <= j < |ts| == |taken|
  {
    Count(taken, i, j) as real + 1.0 > l.capacity as real + (ts[j] - ts[i]) * l.rate
  }

  ghost predicate SomeWindowOverflows(l: Limits, ts: seq<real>, taken: seq<bool>, j: nat)
    requires j < |ts| == |taken|
  {
    exists i: nat :: i <= j && Overflows(l, ts, taken, i, j)
  }

  lemma LevelBelowOneIffOverflow(l: Limits, ts: seq<real>, taken: seq<bool>, j: nat)
    requires j < |ts| == |taken|
    ensures Level(l, ts, taken, j) < 1.0 <==> SomeWindowOverflows(l, ts, taken, j)
  {
    var w := LevelIsLeastSlack(l, ts, taken, j);
    if Level(l, ts, taken, j) < 1.0 {
      assert Overflows(l, ts, taken, w, j);
    }
    if i: nat :| i <= j && Overflows(l, ts, taken, i, j) {
      assert Level(l, ts, taken, j) <= Slack(l, ts, taken, i, j);
    }
  }

  // The controller's own run over a list of calls.

  /** Calls 1..n of a controller with what it did: `taken[k]` says whether call k was accepted,
      `buckets[k]` is the bucket just after it; index 0 is the construction. */
  datatype History = History(calls: seq<Call>, ts: seq<real>, taken: seq<bool>, buckets: seq<Bucket>)

  /** `h` records exactly what `Admit` does when called with `h.calls`, in order, at nondecreasing times. */
  ghost predicate IsHistory(l: Limits, h: History) {
    && 0 < |h.calls| == |h.ts| == |h.taken| == |h.buckets|
    && Nondecreasing(h.ts)
    && (forall k :: 0 <= k < |h.calls| ==> h.ts[k] == h.calls[k].now)
    && !h.taken[0] && h.buckets[0] == Bucket(l.capacity as real, h.ts[0])
    && forall k :: 0 < k < |h.calls| ==> IsHistoryAt(l, h, k)
  }

  ghost predicate IsHistoryAt(l: Limits, h: History, k: nat)
    requires 0 < k < |h.calls| == |h.ts| == |h.taken| == |h.buckets|
  {
    && h.taken[k] == Decide(l, h.buckets[k - 1], h.calls[k]).accepted
    && h.buckets[k] == After(l, h.buckets[k - 1], h.calls[k])
  }

  /** One more call at the end of a history. */
  ghost function Extend(l: Limits, h: History, c: Call): History
    requires IsHistory(l, h)
  {
    var b := h.buckets[|h.buckets| - 1];
    History(h.calls + [c], h.ts + [c.now], h.taken + [Decide(l, b, c).accepted], h.buckets + [After(l, b, c)])
  }

  lemma ExtendIsHistory(l: Limits, h: History, c: Call)
    requires IsHistory(l, h) && h.ts[|h.ts| - 1] <= c.now
    ensures IsHistory(l, Extend(l, h, c))
  {
    var r, n := Extend(l, h, c), |h.calls|;
    forall k | 0 < k < |r.calls| ensures IsHistoryAt(l, r, k) {
      assert k < n ==> IsHistoryAt(l, h, k);
    }
  }

  /** Replays a list of calls; calls[0] carries the construction time. */
  ghost function Replay(l: Limits, calls: seq<Call>): (h: History)
    requires 0 < |calls| && forall i, j :: 0 <= i <= j < |calls| ==> calls[i].now <= calls[j].now
    ensures IsHistory(l, h) && h.calls == calls
  {
    var n := |calls| - 1;
    if n == 0 then
      History(calls, [calls[0].now], [false], [Bucket(l.capacity as real, calls[0].now)])
    else
      var h := Replay(l, calls[..n]);
      assert h.ts[n - 1] == calls[n - 1].now;
      ExtendIsHistory(l, h, calls[n]);
      Extend(l, h, calls[n])
  }

  /** A clock that goes back neither fills nor drains the bucket, and nothing fills it above its capacity. */
  lemma RefillNeverDrains(l: Limits, b: Bucket, now: real)
    requires l.rate >= 0.0 && b.tokens <= l.capacity as real
    ensures b.tokens <= Refill(l, b, now).tokens <= l.capacity as real
    ensures now <= b.last ==> Refill(l, b, now).tokens == b.tokens
  {
    if now > b.last {
      assert (now - b.last) * l.rate >= 0.0;
    }
  }

  /** Refilling in two parts is refilling once. */
  lemma RefillSplits(l: Limits, b: Bucket, mid: real, now: real)
    requires l.rate >= 0.0 && b.last <= mid <= now
    ensures Refill(l, Refill(l, b, mid), now) == Refill(l, b, now)
  {
    assert (mid - b.last) * l.rate + (now - mid) * l.rate == (now - b.last) * l.rate;
    assert (now - mid) * l.rate >= 0.0;
  }

  /** One call keeps the lazily refilled bucket in step with the level of the accept pattern;
      a queue-full call does so without touching the bucket. */
  lemma StepShowsLevel(l: Limits, b: Bucket, c: Call, next: real)
    requires Limiting(l) && b.last <= c.now <= next
    ensures After(l, b, c).last <= c.now
    ensures Refill(l, After(l, b, c), next).tokens
         == NextLevel(l, Refill(l, b, c.now).tokens, Decide(l, b, c).accepted, next - c.now)
  {
    if Full(l, c) {
      RefillSplits(l, b, c.now, next);
    }
  }

  lemma HistoryStep(l: Limits, h: History, k: nat)
    requires IsHistory(l, h) && 0 < k < |h.calls|
    ensures h.ts[k - 1] <= h.ts[k] == h.calls[k].now
    ensures h.taken[k] == Decide(l, h.buckets[k - 1], h.calls[k]).accepted
    ensures h.buckets[k] == After(l, h.buckets[k - 1], h.calls[k])
  {
    assert IsHistoryAt(l, h, k);
  }

  /** At every call, whatever mix of outcomes preceded it, the refilled bucket of the
      controller holds exactly the level of the accept pattern it has produced. */
  lemma {:induction false} ControllerShowsLevel(l: Limits, h: History, k: nat)
    requires Limiting(l) && IsHistory(l, h) && 0 < k < |h.calls|
    ensures h.buckets[k - 1].last <= h.ts[k]
    ensures Refill(l, h.buckets[k - 1], h.ts[k]).tokens == Level(l, h.ts, h.taken, k)
  {
    HistoryStep(l, h, k);
    if k > 1 {
      ControllerShowsLevel(l, h, k - 1);
      HistoryStep(l, h, k - 1);
      var b, c, level := h.buckets[k - 2], h.calls[k - 1], Level(l, h.ts, h.taken, k - 1);
      StepShowsLevel(l, b, c, h.ts[k]);
      assert Level(l, h.ts, h.taken, k) == NextLevel(l, level, Decide(l, b, c).accepted, h.ts[k] - c.now);
    } else {
      assert Level(l, h.ts, h.taken, 0) == l.capacity as real;
    }
  }

  /** Available tokens at call k are the least of `capacity + rate * (t_k - t_i) - accepted in [i, k)`. */
  lemma AvailableIsLeastSlack(l: Limits, h: History, k: nat)
    requires Limiting(l) && IsHistory(l, h) && 0 < k < |h.calls|
    ensures forall i: nat :: i <= k ==> Refill(l, h.buckets[k - 1], h.ts[k]).tokens <= Slack(l, h.ts, h.taken, i, k)
    ensures exists i: nat :: i <= k && Refill(l, h.buckets[k - 1], h.ts[k]).tokens == Slack(l, h.ts, h.taken, i, k)
  {
    ControllerShowsLevel(l, h, k);
    var w := LevelIsLeastSlack(l, h.ts, h.taken, k);
  }

  /** The three outcomes of a call, exactly: queue-full by the queue cap alone, otherwise rate-limited if and only
      if there is a rate limit and accepting would overflow some window that ends at the call. The capacity
      is what the constructor makes it. */
  lemma RateLimitedIffSomeWindowWouldOverflow(l: Limits, burst: int, h: History, k: nat)
    requires l.capacity == BucketCapacity(l.rate, burst) && IsHistory(l, h) && 0 < k < |h.calls|
    ensures Decide(l, h.buckets[k - 1], h.calls[k]) == QUEUE_FULL
      <==> l.maxQueueSize > 0 && h.calls[k].queueSize >= l.maxQueueSize
    ensures Decide(l, h.buckets[k - 1], h.calls[k]) == RATE_LIMITED
      <==> (l.maxQueueSize <= 0 || h.calls[k].queueSize < l.maxQueueSize)
           && l.rate > 0.0 && SomeWindowOverflows(l, h.ts, h.taken, k)
    ensures h.taken[k]
      <==> (l.maxQueueSize <= 0 || h.calls[k].queueSize < l.maxQueueSize)
           && (l.rate > 0.0 ==> !SomeWindowOverflows(l, h.ts, h.taken, k))
  {
    if l.rate > 0.0 {
      RateLimitedIffOverflow(l, h, k);
    } else {
      HistoryStep(l, h, k);
    }
  }

  lemma RateLimitedIffOverflow(l: Limits, h: History, k: nat)
    requires Limiting(l) && IsHistory(l, h) && 0 < k < |h.calls|
    ensures Decide(l, h.buckets[k - 1], h.calls[k]) == RATE_LIMITED
      <==> !Full(l, h.calls[k]) && SomeWindowOverflows(l, h.ts, h.taken, k)
    ensures Decide(l, h.buckets[k - 1], h.calls[k]) == QUEUE_FULL <==> Full(l, h.calls[k])
    ensures h.taken[k] <==> !Full(l, h.calls[k]) && !SomeWindowOverflows(l, h.ts, h.taken, k)
  {
    HistoryStep(l, h, k);
    ControllerShowsLevel(l, h, k);
    LevelBelowOneIffOverflow(l, h.ts, h.taken, k);
  }

  /** An accept pattern that never overflows a window and never accepts a queue-full call:
      what any policy that obeys the same bucket and queue cap produces. */
  ghost predicate Legal(l: Limits, calls: seq<Call>, ts: seq<real>, taken: seq<bool>)
    requires |calls| == |ts| == |taken|
  {
    && (forall j: nat :: j < |taken| && taken[j] ==> !SomeWindowOverflows(l, ts, taken, j))
    && (forall j: nat :: j < |taken| && taken[j] ==> j > 0 && !Full(l, calls[j]))
  }

  lemma ControllerIsLegal(l: Limits, h: History)
    requires Limiting(l) && IsHistory(l, h)
    ensures Legal(l, h.calls, h.ts, h.taken)
  {
    forall j: nat | j < |h.taken| && h.taken[j]
      ensures j > 0 && !SomeWindowOverflows(l, h.ts, h.taken, j) && !Full(l, h.calls[j])
    {
      RateLimitedIffOverflow(l, h, j);
    }
  }

  /** Every closed window of calls i..j accepts at most capacity + rate * length. */
  lemma {:induction false} WindowBound(l: Limits, h: History, i: nat, j: nat)
    requires Limiting(l) && IsHistory(l, h) && i <= j < |h.calls|
    ensures Count(h.taken, i, j + 1) as real <= l.capacity as real + (h.ts[j] - h.ts[i]) * l.rate
  {
    if h.taken[j] {
      ControllerIsLegal(l, h);
      assert !Overflows(l, h.ts, h.taken, i, j);
    } else if i < j {
      WindowBound(l, h, i, j - 1);
      assert h.ts[j - 1] <= h.ts[j];
      assert (h.ts[j - 1] - h.ts[i]) * l.rate <= (h.ts[j] - h.ts[i]) * l.rate;
    }
  }

  /** When another legal policy accepts a call the controller turned away, it must have been behind. */
  lemma OtherAcceptsOnlyFromAhead(l: Limits, h: History, other: seq<bool>, j: nat)
    requires Limiting(l) && IsHistory(l, h) && |other| == |h.calls| && j < |h.calls|
    requires Legal(l, h.calls, h.ts, other) && other[j] && !h.taken[j]
    ensures Level(l, h.ts, h.taken, j) < 1.0 <= Level(l, h.ts, other, j)
  {
    RateLimitedIffOverflow(l, h, j);
    LevelBelowOneIffOverflow(l, h.ts, h.taken, j);
    LevelBelowOneIffOverflow(l, h.ts, other, j);
  }

  /** Simulation invariant and greedy optimality: at every prefix of every arrival sequence the
      controller has accepted at least as many calls as any legal policy, and the other bucket never
      holds more than the controller's plus the controller's lead. */
  lemma {:induction false} GreedyIsOptimal(l: Limits, h: History, other: seq<bool>, j: nat)
    requires Limiting(l) && IsHistory(l, h) && |other| == |h.calls| && j <= |h.calls|
    requires Legal(l, h.calls, h.ts, other)
    ensures Count(other, 0, j) <= Count(h.taken, 0, j)
    ensures j < |h.calls| ==>
      Level(l, h.ts, other, j) <= Level(l, h.ts, h.taken, j) + (Count(h.taken, 0, j) - Count(other, 0, j)) as real
  {
    if j > 0 {
      GreedyIsOptimal(l, h, other, j - 1);
      if other[j - 1] && !h.taken[j - 1] {
        OtherAcceptsOnlyFromAhead(l, h, other, j - 1);
      }
    }
  }
}
