/** The aging priority queue as a pure machine, and what its runs guarantee
    (src/llm_runtime/scheduler/priority.py). */
module Aging {

  datatype Queued = Queued(priority: nat, sequence: nat, queuedAt: real, item: nat)

  /** `items` and `counter` are the scheduler's fields; `out` lists what has been dequeued, in order. */
  datatype Sched = Sched(items: seq<Queued>, counter: nat, out: seq<Queued>)

  const EMPTY := Sched([], 0, [])

  /** One atomic use of the scheduler. A pop on an empty queue merely waits. */
  datatype Op = Submit(priority: nat, item: nat, now: real) | Pop(now: real)

  function RemoveAt<T>(s: seq<T>, k: nat): seq<T>
    requires k < |s|
  {
    s[..k] + s[k + 1..]
  }

  lemma RemoveKeepsOthers<T>(s: seq<T>, k: nat, i: nat)
    requires k < |s| && i < |s| && i != k
    ensures s[i] in RemoveAt(s, k)
  {
    assert RemoveAt(s, k)[if i < k then i else i - 1] == s[i];
  }

  lemma SplitAround<T>(s: seq<T>, k: nat)
    requires k < |s|
    ensures s == s[..k] + [s[k]] + s[k + 1..]
  {
  }

  function Effective(interval: real, q: Queued, now: real): int {
    if interval <= 0.0 then q.priority
    else
      var waited := if now - q.queuedAt > 0.0 then now - q.queuedAt else 0.0;
      var boost := (waited / interval).Floor;
      if q.priority - boost > 0 then q.priority - boost else 0
  }

  /** The key comparison of the dequeue: effective priority, then sequence number. */
  predicate Before(interval: real, now: real, x: Queued, y: Queued) {
    || Effective(interval, x, now) < Effective(interval, y, now)
    || (Effective(interval, x, now) == Effective(interval, y, now) && x.sequence < y.sequence)
  }

  /** Index of the item that comes before all others; the earliest one on ties of the whole key. */
  function BestIndex(interval: real, items: seq<Queued>, now: real): (k: nat)
    requires items != []
    ensures k < |items|
    ensures forall j :: 0 <= j < |items| ==> !Before(interval, now, items[j], items[k])
  {
    if |items| == 1 then 0
    else
      var k := BestIndex(interval, items[..|items| - 1], now);
      if Before(interval, now, items[|items| - 1], items[k]) then |items| - 1 else k
  }

  function Step(interval: real, s: Sched, op: Op): Sched {
    match op
    case Submit(priority, item, now) =>
      s.(counter := s.counter + 1, items := s.items + [Queued(priority, s.counter + 1, now, item)])
    case Pop(now) =>
      if s.items == [] then s
      else
        var k := BestIndex(interval, s.items, now);
        s.(items := RemoveAt(s.items, k), out := s.out + [s.items[k]])
  }

  function Run(interval: real, s: Sched, ops: seq<Op>): Sched
    decreases |ops|
  {
    if ops == [] then s
    else Step(interval, Run(interval, s, ops[..|ops| - 1]), ops[|ops| - 1])
  }

  /** Uses of the scheduler between `start` and `end` whose clock readings never go back. */
  ghost predicate Timely(start: real, ops: seq<Op>, end: real)
    decreases |ops|
  {
    if ops == [] then start <= end
    else Timely(start, ops[..|ops| - 1], ops[|ops| - 1].now) && ops[|ops| - 1].now <= end
  }

  ghost predicate Valid(s: Sched, now: real) {
    && (forall i, j :: 0 <= i < j < |s.items| ==> s.items[i].sequence < s.items[j].sequence)
    && (forall i, j :: 0 <= i < j < |s.items| ==> s.items[i].queuedAt <= s.items[j].queuedAt)
    && (forall i :: 0 <= i < |s.items| ==> s.items[i].sequence <= s.counter && s.items[i].queuedAt <= now)
  }

  lemma RemoveKeepsValid(s: Sched, k: nat, now: real)
    requires Valid(s, now) && k < |s.items|
    ensures Valid(s.(items := RemoveAt(s.items, k)), now)
  {
    var rest := RemoveAt(s.items, k);
    forall i, j | 0 <= i < j < |rest|
      ensures rest[i].sequence < rest[j].sequence && rest[i].queuedAt <= rest[j].queuedAt
    {
      assert rest[i] == s.items[if i < k then i else i + 1] && rest[j] == s.items[if j < k then j else j + 1];
    }
    forall i | 0 <= i < |rest| ensures rest[i].sequence <= s.counter && rest[i].queuedAt <= now {
      assert rest[i] == s.items[if i < k then i else i + 1];
    }
  }

  lemma StepKeepsValid(interval: real, s: Sched, now: real, op: Op)
    requires Valid(s, now) && now <= op.now
    ensures Valid(Step(interval, s, op), op.now)
  {
    if op.Pop? && s.items != [] {
      RemoveKeepsValid(s, BestIndex(interval, s.items, op.now), op.now);
    }
  }

  lemma {:induction false} RunKeepsValid(interval: real, s: Sched, start: real, ops: seq<Op>, end: real)
    requires Valid(s, start) && Timely(start, ops, end)
    ensures Valid(Run(interval, s, ops), end)
  {
    if ops != [] {
      var n := |ops| - 1;
      RunKeepsValid(interval, s, start, ops[..n], ops[n].now);
      StepKeepsValid(interval, Run(interval, s, ops[..n]), ops[n].now, ops[n]);
    }
  }

  lemma {:induction false} RunConcat(interval: real, s: Sched, p: seq<Op>, q: seq<Op>)
    ensures Run(interval, s, p + q) == Run(interval, Run(interval, s, p), q)
  {
    if q == [] {
      assert p + q == p;
    } else {
      var m := |q| - 1;
      assert (p + q)[..|p + q| - 1] == p + q[..m];
      RunConcat(interval, s, p, q[..m]);
    }
  }

  // ---------------------------------------------------------------------
  // Every dequeue returns the least key.

  /** In a valid queue the chosen item comes strictly before every item left behind. */
  lemma ChosenBeatsTheRest(interval: real, s: Sched, now: real, j: nat)
    requires Valid(s, now) && s.items != [] && j < |s.items| && j != BestIndex(interval, s.items, now)
    ensures Before(interval, now, s.items[BestIndex(interval, s.items, now)], s.items[j])
  {
    var k := BestIndex(interval, s.items, now);
    assert !Before(interval, now, s.items[j], s.items[k]);
    DistinctSequences(s, now, j, k);
  }

  // ---------------------------------------------------------------------
  // The order by whole intervals waited.

  lemma ScaledCompare(x: real, n: int, interval: real)
    requires interval > 0.0
    ensures x < n as real * interval <==> x / interval < n as real
  {
    assert x == x / interval * interval;
    var y := x / interval;
    if y < n as real { assert y * interval < n as real * interval; }
    if y >= n as real { assert y * interval >= n as real * interval; }
  }

  /** At `now`, q has waited n whole intervals. */
  ghost predicate HasWaited(interval: real, q: Queued, now: real, n: nat) {
    n as real * interval <= now - q.queuedAt < (n + 1) as real * interval
  }

  function Reduced(priority: nat, n: nat): nat { if priority > n then priority - n else 0 }

  /** Each whole interval of waiting is worth one level of priority, down to 0. Without aging, or should the clock
      go back, the priority counts as it is. */
  lemma EffectiveByWholeIntervals(interval: real, q: Queued, now: real, n: nat)
    ensures interval > 0.0 && HasWaited(interval, q, now, n) ==> Effective(interval, q, now) == Reduced(q.priority, n)
    ensures interval <= 0.0 || now <= q.queuedAt ==> Effective(interval, q, now) == q.priority
  {
    if interval > 0.0 {
      assert 0.0 / interval == 0.0;
      ScaledCompare(now - q.queuedAt, n, interval);
      ScaledCompare(now - q.queuedAt, n + 1, interval);
      if HasWaited(interval, q, now, n) {
        Positive(n, interval);
      }
    }
  }

  lemma Positive(n: nat, interval: real)
    requires interval > 0.0
    ensures n as real * interval >= 0.0
  {
  }

  /** Which of two waiting items goes first, at any moment: if a was submitted first and has waited n whole intervals,
      and b has waited m, then b goes ahead of a if and only if it stands at a strictly lower level. */
  lemma YoungerGoesFirstIff(interval: real, a: Queued, b: Queued, now: real, n: nat, m: nat)
    requires interval > 0.0 && a.sequence < b.sequence
    requires HasWaited(interval, a, now, n) && HasWaited(interval, b, now, m)
    ensures Before(interval, now, b, a) <==> Reduced(b.priority, m) < Reduced(a.priority, n)
    ensures Before(interval, now, a, b) <==> Reduced(a.priority, n) <= Reduced(b.priority, m)
  {
    EffectiveByWholeIntervals(interval, a, now, n);
    EffectiveByWholeIntervals(interval, b, now, m);
  }

  /** Item k has the least level of all, and the least sequence number among those of that level. */
  ghost predicate Leads(items: seq<Queued>, waited: seq<nat>, k: nat)
    requires k < |items| == |waited|
  {
    forall j :: 0 <= j < |items| && j != k ==>
                  var own, other := Reduced(items[k].priority, waited[k]), Reduced(items[j].priority, waited[j]);
                  own < other || (own == other && items[k].sequence < items[j].sequence)
  }

  /** What a dequeue returns, after every run: when `waited` counts the whole intervals each queued item has waited,
      item k is dequeued if and only if it leads by (priority - intervals waited, sequence number). */
  lemma DequeuedIffLeads(interval: real, start: real, ops: seq<Op>, now: real, s: Sched, waited: seq<nat>, k: nat)
    requires interval > 0.0 && Timely(start, ops, now) && s == Run(interval, EMPTY, ops)
    requires k < |s.items| == |waited|
    requires forall j :: 0 <= j < |waited| ==> HasWaited(interval, s.items[j], now, waited[j])
    ensures Step(interval, s, Pop(now)).out == s.out + [s.items[k]] <==> Leads(s.items, waited, k)
  {
    RunKeepsValid(interval, EMPTY, start, ops, now);
    var best := BestIndex(interval, s.items, now);
    BestLeads(interval, s, now, waited, best);
    if k != best {
      DistinctSequences(s, now, best, k);
      OneLeader(s.items, waited, best, k);
    }
    DequeuedLast(s.out, s.items[best], s.items[k]);
  }

  lemma DequeuedLast(out: seq<Queued>, p: Queued, q: Queued)
    ensures out + [p] == out + [q] <==> p == q
  {
    assert (out + [p])[|out|] == p && (out + [q])[|out|] == q;
  }

  lemma OneLeader(items: seq<Queued>, waited: seq<nat>, i: nat, k: nat)
    requires i < |items| == |waited| && k < |items| && i != k && Leads(items, waited, i)
    ensures !Leads(items, waited, k)
  {
    var x, y := Reduced(items[i].priority, waited[i]), Reduced(items[k].priority, waited[k]);
    assert x < y || (x == y && items[i].sequence < items[k].sequence);
  }

  lemma BestLeads(interval: real, s: Sched, now: real, waited: seq<nat>, best: nat)
    requires interval > 0.0 && Valid(s, now) && s.items != [] && |waited| == |s.items|
    requires best == BestIndex(interval, s.items, now)
    requires forall j :: 0 <= j < |waited| ==> HasWaited(interval, s.items[j], now, waited[j])
    ensures Leads(s.items, waited, best)
  {
    forall j | 0 <= j < |s.items| && j != best
      ensures var own, other := Reduced(s.items[best].priority, waited[best]),
                                Reduced(s.items[j].priority, waited[j]);
              own < other || (own == other && s.items[best].sequence < s.items[j].sequence)
    {
      ChosenBeatsTheRest(interval, s, now, j);
      EffectiveByWholeIntervals(interval, s.items[best], now, waited[best]);
      EffectiveByWholeIntervals(interval, s.items[j], now, waited[j]);
    }
  }

  lemma DistinctSequences(s: Sched, now: real, i: nat, j: nat)
    requires Valid(s, now) && i < |s.items| && j < |s.items| && i != j
    ensures s.items[i].sequence != s.items[j].sequence
  {
    if i < j {
      assert s.items[i].sequence < s.items[j].sequence;
    } else {
      assert s.items[j].sequence < s.items[i].sequence;
    }
  }

  // ---------------------------------------------------------------------
  // Bounded overtaking.

  lemma OvertakingGap(interval: real, a: Queued, b: Queued, now: real)
    requires interval > 0.0 && a.queuedAt <= b.queuedAt <= now
    requires Effective(interval, b, now) < Effective(interval, a, now)
    ensures b.queuedAt - a.queuedAt < (a.priority - b.priority) as real * interval
    ensures b.priority < a.priority
  {
    var x, y := (now - a.queuedAt) / interval, (now - b.queuedAt) / interval;
    assert x.Floor - y.Floor <= a.priority - b.priority - 1;
    assert x - y < (x.Floor - y.Floor) as real + 1.0;
    assert (b.queuedAt - a.queuedAt) / interval == x - y;
    assert x >= y;
    ScaledCompare(b.queuedAt - a.queuedAt, a.priority - b.priority, interval);
  }

  /** May an item of this priority arriving at this time ever be dequeued before a? */
  predicate MayOvertake(interval: real, a: Queued, priority: nat, at: real) {
    if interval > 0.0 then at - a.queuedAt < (a.priority - priority) as real * interval
    else priority < a.priority
  }

  /** Over whole runs: if the next dequeue returns b while a, submitted earlier, stays queued, then b
      arrived less than (priority(a) - priority(b)) intervals after a. With aging off, b is strictly more urgent. */
  lemma BoundedOvertaking(interval: real, start: real, ops: seq<Op>, now: real, s: Sched, i: nat)
    requires Timely(start, ops, now) && s == Run(interval, EMPTY, ops)
    requires i < |s.items| && s.items[i].sequence < s.items[BestIndex(interval, s.items, now)].sequence
    ensures var a, b := s.items[i], s.items[BestIndex(interval, s.items, now)];
            && Step(interval, s, Pop(now)).out == s.out + [b] && a in Step(interval, s, Pop(now)).items
            && b.priority < a.priority
            && (interval > 0.0 ==> b.queuedAt - a.queuedAt < (a.priority - b.priority) as real * interval)
  {
    RunKeepsValid(interval, EMPTY, start, ops, now);
    OvertakingInValidState(interval, s, now, i);
  }

  lemma BeforeAnOlderItem(interval: real, a: Queued, b: Queued, now: real)
    requires a.queuedAt <= b.queuedAt <= now && a.sequence < b.sequence
    requires Before(interval, now, b, a)
    ensures MayOvertake(interval, a, b.priority, b.queuedAt) && b.priority < a.priority
  {
    if interval > 0.0 {
      OvertakingGap(interval, a, b, now);
    }
  }

  lemma SequenceOrderIsArrivalOrder(s: Sched, now: real, i: nat, k: nat)
    requires Valid(s, now) && i < |s.items| && k < |s.items|
    requires s.items[i].sequence < s.items[k].sequence
    ensures i < k && s.items[i].queuedAt <= s.items[k].queuedAt <= now
  {
  }

  lemma OvertakingInValidState(interval: real, s: Sched, now: real, i: nat)
    requires Valid(s, now) && i < |s.items|
    requires s.items[i].sequence < s.items[BestIndex(interval, s.items, now)].sequence
    ensures var a, b := s.items[i], s.items[BestIndex(interval, s.items, now)];
            && a in RemoveAt(s.items, BestIndex(interval, s.items, now))
            && MayOvertake(interval, a, b.priority, b.queuedAt)
            && b.priority < a.priority
  {
    var k := BestIndex(interval, s.items, now);
    SequenceOrderIsArrivalOrder(s, now, i, k);
    ChosenBeatsTheRest(interval, s, now, i);
    RemoveKeepsOthers(s.items, k, i);
    BeforeAnOlderItem(interval, s.items[i], s.items[k], now);
  }

  /** The bound is exact: judged at the instant b arrives, b goes ahead of the older a if and only if
      the gap between their arrivals is below (priority(a) - priority(b)) intervals. */
  lemma OvertakesOnArrivalIff(interval: real, a: Queued, b: Queued)
    requires a.queuedAt <= b.queuedAt && a.sequence < b.sequence
    ensures interval > 0.0 ==>
              (Before(interval, b.queuedAt, b, a) <==>
               b.queuedAt - a.queuedAt < (a.priority - b.priority) as real * interval)
    ensures Before(interval, b.queuedAt, b, a) <==> MayOvertake(interval, a, b.priority, b.queuedAt)
  {
    if interval > 0.0 {
      var gap := b.queuedAt - a.queuedAt;
      ScaledCompare(gap, a.priority - b.priority, interval);
      assert (0.0 / interval).Floor == 0;
      assert gap / interval >= 0.0;
    }
  }

  // ---------------------------------------------------------------------
  // Starvation freedom.

  function CountIf(items: seq<Queued>, p: Queued -> bool): nat {
    if items == [] then 0
    else CountIf(items[..|items| - 1], p) + if p(items[|items| - 1]) then 1 else 0
  }

  lemma {:induction false} CountIfMiddle(l: seq<Queued>, x: Queued, r: seq<Queued>, p: Queued -> bool)
    ensures CountIf(l + [x] + r, p) == CountIf(l + r, p) + if p(x) then 1 else 0
  {
    if r == [] {
      assert l + [x] + r == l + [x] && l + r == l;
    } else {
      var r' := r[..|r| - 1];
      CountIfMiddle(l, x, r', p);
      assert (l + [x] + r)[..|l + [x] + r| - 1] == l + [x] + r' && (l + r)[..|l + r| - 1] == l + r';
    }
  }

  lemma CountIfRemove(items: seq<Queued>, k: nat, p: Queued -> bool)
    requires k < |items|
    ensures CountIf(items, p) == CountIf(RemoveAt(items, k), p) + if p(items[k]) then 1 else 0
  {
    SplitAround(items, k);
    CountIfMiddle(items[..k], items[k], items[k + 1..], p);
  }

  function AheadOf(a: Queued): Queued -> bool {
    (x: Queued) => x.sequence < a.sequence
  }

  /** How many queued items have a smaller sequence number than a. */
  function Ahead(items: seq<Queued>, a: Queued): nat { CountIf(items, AheadOf(a)) }

  /** a has waited at least priority(a) intervals. */
  predicate Mature(interval: real, a: Queued, now: real)
    requires interval > 0.0
  {
    a.priority as real <= (now - a.queuedAt) / interval
  }

  lemma MatureIff(interval: real, a: Queued, now: real)
    requires interval > 0.0
    ensures Mature(interval, a, now) <==> a.priority as real * interval <= now - a.queuedAt
  {
    ScaledCompare(now - a.queuedAt, a.priority, interval);
  }

  lemma OnlyOlderBeatsMature(interval: real, a: Queued, b: Queued, now: real)
    requires interval > 0.0 && a.queuedAt <= now && Mature(interval, a, now)
    requires Before(interval, now, b, a)
    ensures b.sequence < a.sequence
  {
    assert (now - a.queuedAt) / interval >= 0.0;
  }

  lemma DequeueAheadLowersRank(items: seq<Queued>, i: nat, k: nat)
    requires i < |items| && k < |items| && items[k].sequence < items[i].sequence
    ensures items[i] in RemoveAt(items, k)
    ensures Ahead(RemoveAt(items, k), items[i]) == Ahead(items, items[i]) - 1
  {
    CountIfRemove(items, k, AheadOf(items[i]));
    RemoveKeepsOthers(items, k, i);
  }

  /** Ranking: once a has waited priority(a) intervals, a dequeue either returns a or strictly
      decreases the number of items ahead of a. */
  lemma MatureRankDecreases(interval: real, s: Sched, i: nat, now: real, t: Sched)
    requires interval > 0.0 && Valid(s, now) && i < |s.items| && t == Step(interval, s, Pop(now))
    requires Mature(interval, s.items[i], now)
    ensures || t.out == s.out + [s.items[i]]
            || (s.items[i] in t.items && Ahead(t.items, s.items[i]) == Ahead(s.items, s.items[i]) - 1)
  {
    var k := BestIndex(interval, s.items, now);
    if k != i {
      ChosenBeatsTheRest(interval, s, now, i);
      OnlyOlderBeatsMature(interval, s.items[i], s.items[k], now);
      DequeueAheadLowersRank(s.items, i, k);
    }
  }

  /** A submission leaves the rank of every queued item alone. */
  lemma SubmitKeepsRank(interval: real, s: Sched, i: nat, op: Op)
    requires op.Submit? && Valid(s, op.now) && i < |s.items|
    ensures s.items[i] in Step(interval, s, op).items
    ensures Ahead(Step(interval, s, op).items, s.items[i]) == Ahead(s.items, s.items[i])
  {
    var q := Queued(op.priority, s.counter + 1, op.now, op.item);
    assert s.items + [q] == s.items + [q] + [] && s.items + [] == s.items;
    CountIfMiddle(s.items, q, [], AheadOf(s.items[i]));
    assert (s.items + [q])[i] == s.items[i];
  }

  /** The rivals of a: older queued items, and later ones that arrived early enough to overtake it. */
  function RivalOf(interval: real, a: Queued): Queued -> bool {
    (x: Queued) => x.sequence < a.sequence || (x.sequence > a.sequence && MayOvertake(interval, a, x.priority,
                                                                                      x.queuedAt))
  }

  function Rivals(interval: real, items: seq<Queued>, a: Queued): nat { CountIf(items, RivalOf(interval, a)) }

  /** Arrivals in `ops` early enough and urgent enough to be dequeued before a. */
  function EarlyArrivals(interval: real, a: Queued, ops: seq<Op>): nat {
    if ops == [] then 0
    else EarlyArrivals(interval, a, ops[..|ops| - 1]) + Early(interval, a, ops[|ops| - 1])
  }

  function Early(interval: real, a: Queued, op: Op): nat {
    if op.Submit? && MayOvertake(interval, a, op.priority, op.now) then 1 else 0
  }

  /** A step that leaves a queued: each dequeue consumes one rival, each early arrival adds one. */
  lemma RivalsStep(interval: real, s: Sched, i: nat, op: Op)
    requires Valid(s, op.now) && i < |s.items|
    requires s.items[i] in Step(interval, s, op).items
    ensures Rivals(interval, Step(interval, s, op).items, s.items[i]) + |Step(interval, s, op).out|
         == Rivals(interval, s.items, s.items[i]) + |s.out| + Early(interval, s.items[i], op)
  {
    var a := s.items[i];
    match op {
      case Submit(p, x, at) =>
        var q := Queued(p, s.counter + 1, at, x);
        assert s.items + [q] == s.items + [q] + [] && s.items + [] == s.items;
        CountIfMiddle(s.items, q, [], RivalOf(interval, a));
      case Pop(at) =>
        var k := BestIndex(interval, s.items, at);
        ChosenIsNot(interval, s, at, i);
        ChosenBeatsTheRest(interval, s, at, i);
        CountIfRemove(s.items, k, RivalOf(interval, a));
        if i < k {
          OvertakingInValidState(interval, s, at, i);
        }
    }
  }

  lemma ChosenIsNot(interval: real, s: Sched, at: real, i: nat)
    requires Valid(s, at) && i < |s.items|
    requires s.items[i] in RemoveAt(s.items, BestIndex(interval, s.items, at))
    ensures BestIndex(interval, s.items, at) != i
  {
    var k := BestIndex(interval, s.items, at);
    var rest := RemoveAt(s.items, k);
    var j :| 0 <= j < |rest| && rest[j] == s.items[i];
    assert rest[j] == s.items[if j < k then j else j + 1];
  }

  /** Conservation along a whole run in which a stays queued: dequeues plus remaining rivals
      equal the initial rivals plus the arrivals that could overtake. */
  lemma {:induction false} DequeuesBeforeAreRivals(interval: real, s: Sched, start: real, a: Queued, ops: seq<Op>,
                                                   end: real)
    requires Valid(s, start) && Timely(start, ops, end)
    requires a in s.items && a in Run(interval, s, ops).items
    ensures |Run(interval, s, ops).out| + Rivals(interval, Run(interval, s, ops).items, a)
         == |s.out| + Rivals(interval, s.items, a) + EarlyArrivals(interval, a, ops)
  {
    if ops != [] {
      var n := |ops| - 1;
      var mid := Run(interval, s, ops[..n]);
      RunKeepsValid(interval, s, start, ops[..n], ops[n].now);
      StillQueuedBefore(interval, s, a, ops);
      DequeuesBeforeAreRivals(interval, s, start, a, ops[..n], ops[n].now);
      var i :| 0 <= i < |mid.items| && mid.items[i] == a;
      RivalsStep(interval, mid, i, ops[n]);
    }
  }

  lemma StillQueuedBefore(interval: real, s: Sched, a: Queued, ops: seq<Op>)
    requires ops != [] && a.sequence <= s.counter && a in Run(interval, s, ops).items
    ensures a in Run(interval, s, ops[..|ops| - 1]).items
  {
    var mid := Run(interval, s, ops[..|ops| - 1]);
    CounterGrows(interval, s, ops[..|ops| - 1]);
    var t := Run(interval, s, ops);
    var j :| 0 <= j < |t.items| && t.items[j] == a;
    if ops[|ops| - 1].Pop? && mid.items != [] {
      var k := BestIndex(interval, mid.items, ops[|ops| - 1].now);
      assert mid.items[if j < k then j else j + 1] == a;
    }
  }

  lemma {:induction false} CounterGrows(interval: real, s: Sched, ops: seq<Op>)
    ensures s.counter <= Run(interval, s, ops).counter
  {
    if ops != [] {
      CounterGrows(interval, s, ops[..|ops| - 1]);
    }
  }

  /** Starvation freedom over whole runs: from the moment a is submitted, the number of dequeues that can
      happen before a's own is at most the items queued then plus the arrivals early and urgent enough to
      overtake; so a run with more dequeues than that has dequeued a, whatever arrives later. */
  lemma NoStarvation(interval: real, s: Sched, now: real, priority: nat, item: nat, ops: seq<Op>, end: real)
    requires Valid(s, now) && Timely(now, ops, end)
    ensures var a := Queued(priority, s.counter + 1, now, item);
            var t := Run(interval, Step(interval, s, Submit(priority, item, now)), ops);
            a in t.items ==> |t.out| - |s.out| <= |s.items| + EarlyArrivals(interval, a, ops)
  {
    var a := Queued(priority, s.counter + 1, now, item);
    var s1 := Step(interval, s, Submit(priority, item, now));
    StepKeepsValid(interval, s, now, Submit(priority, item, now));
    assert s1.items[|s.items|] == a;
    if a in Run(interval, s1, ops).items {
      DequeuesBeforeAreRivals(interval, s1, now, a, ops, end);
      assert s1.items[..|s1.items| - 1] == s.items;
      CountIfAtMostLength(s.items, RivalOf(interval, a));
    }
  }

  lemma CountIfAtMostLength(items: seq<Queued>, p: Queued -> bool)
    ensures CountIf(items, p) <= |items|
  {
  }

  /** Nothing that arrives priority(a) intervals or more after a counts as an early arrival. */
  lemma LateArrivalsNeverOvertake(interval: real, a: Queued, priority: nat, at: real)
    requires interval > 0.0 && a.priority as real * interval <= at - a.queuedAt
    ensures !MayOvertake(interval, a, priority, at)
  {
    assert (a.priority - priority) as real * interval <= a.priority as real * interval;
  }

  // ---------------------------------------------------------------------
  // Conservation.

  ghost function SubmittedItems(ops: seq<Op>): seq<nat> {
    if ops == [] then []
    else
      var op := ops[|ops| - 1];
      SubmittedItems(ops[..|ops| - 1]) + if op.Submit? then [op.item] else []
  }

  function Items(qs: seq<Queued>): seq<nat> {
    if qs == [] then [] else Items(qs[..|qs| - 1]) + [qs[|qs| - 1].item]
  }

  lemma ItemsAppend(qs: seq<Queued>, q: Queued)
    ensures Items(qs + [q]) == Items(qs) + [q.item]
  {
    assert (qs + [q])[..|qs|] == qs;
  }

  lemma {:induction false} ItemsMiddle(l: seq<Queued>, x: Queued, r: seq<Queued>)
    ensures multiset(Items(l + [x] + r)) == multiset(Items(l + r)) + multiset{x.item}
  {
    if r == [] {
      assert l + [x] + r == l + [x] && l + r == l;
    } else {
      var r' := r[..|r| - 1];
      ItemsMiddle(l, x, r');
      assert (l + [x] + r)[..|l + [x] + r| - 1] == l + [x] + r' && (l + r)[..|l + r| - 1] == l + r';
    }
  }

  lemma DequeueMovesOneItem(s: Sched, k: nat)
    requires k < |s.items|
    ensures multiset(Items(s.items)) + multiset(Items(s.out))
         == multiset(Items(RemoveAt(s.items, k))) + multiset(Items(s.out + [s.items[k]]))
  {
    SplitAround(s.items, k);
    ItemsMiddle(s.items[..k], s.items[k], s.items[k + 1..]);
  }

  /** Every submission is in exactly one place: still queued, or dequeued, once. */
  lemma {:induction false} NothingLostOrDuplicated(interval: real, ops: seq<Op>)
    ensures var s := Run(interval, EMPTY, ops);
            multiset(SubmittedItems(ops)) == multiset(Items(s.items)) + multiset(Items(s.out))
  {
    if ops != [] {
      var n := |ops| - 1;
      NothingLostOrDuplicated(interval, ops[..n]);
      var s := Run(interval, EMPTY, ops[..n]);
      if ops[n].Pop? && s.items != [] {
        DequeueMovesOneItem(s, BestIndex(interval, s.items, ops[n].now));
      }
    }
  }
}
