/** Simple meanings of the dequeue order: a stable sort when aging is off, plain FIFO when all
    priorities are equal (src/llm_runtime/scheduler/priority.py, src/llm_runtime/scheduler/fifo.py). */
module Ordering {
  import opened Aging

  // ---------------------------------------------------------------------
  // Strict priority: draining is stable sorting.

  /** Puts x in front of the first item that is not more urgent than it. */
  function InsertStable(x: Queued, sorted: seq<Queued>): seq<Queued> {
    if sorted == [] || x.priority <= sorted[0].priority then [x] + sorted
    else [sorted[0]] + InsertStable(x, sorted[1..])
  }

  /** Textbook stable insertion sort by priority; it never looks at sequence numbers. */
  function StableSort(items: seq<Queued>): seq<Queued> {
    if items == [] then [] else InsertStable(items[0], StableSort(items[1..]))
  }

  /** More urgent, or equally urgent and submitted earlier. */
  predicate Precedes(x: Queued, y: Queued) {
    x.priority < y.priority || (x.priority == y.priority && x.sequence < y.sequence)
  }

  ghost predicate SortedStably(items: seq<Queued>) {
    forall i, j :: 0 <= i < j < |items| ==> Precedes(items[i], items[j])
  }

  lemma {:induction false} InsertKeepsSortedStably(x: Queued, sorted: seq<Queued>)
    requires SortedStably(sorted) && forall y :: y in sorted ==> x.sequence < y.sequence
    ensures multiset(InsertStable(x, sorted)) == multiset{x} + multiset(sorted)
    ensures SortedStably(InsertStable(x, sorted))
  {
    if sorted != [] && x.priority > sorted[0].priority {
      var rest := sorted[1..];
      assert sorted == [sorted[0]] + rest;
      InsertKeepsSortedStably(x, rest);
      forall y | y in InsertStable(x, rest) ensures Precedes(sorted[0], y) {
        assert y in multiset(InsertStable(x, rest));
        assert y == x || y in rest;
      }
    }
  }

  /** What the sort is: the same items, by priority, and in submission order among equal priorities. */
  lemma {:induction false} StableSortIsStable(items: seq<Queued>)
    requires InSubmissionOrder(items)
    ensures multiset(StableSort(items)) == multiset(items)
    ensures SortedStably(StableSort(items))
  {
    if items != [] {
      var rest := items[1..];
      assert items == [items[0]] + rest;
      StableSortIsStable(rest);
      forall y | y in StableSort(rest) ensures items[0].sequence < y.sequence {
        assert y in multiset(StableSort(rest));
        assert y in rest;
      }
      InsertKeepsSortedStably(items[0], StableSort(rest));
    }
  }

  /** Pops at the given clock readings, one per entry. */
  function PopAll(times: seq<real>): (ops: seq<Op>)
    ensures |ops| == |times|
    ensures forall k :: 0 <= k < |ops| ==> ops[k] == Pop(times[k])
  {
    if times == [] then [] else PopAll(times[..|times| - 1]) + [Pop(times[|times| - 1])]
  }

  ghost predicate InSubmissionOrder(items: seq<Queued>) {
    forall i, j :: 0 <= i < j < |items| ==> items[i].sequence < items[j].sequence
  }

  /** Index of the first item of minimal priority. */
  ghost predicate FirstMostUrgent(items: seq<Queued>, k: nat) {
    && k < |items|
    && (forall j :: 0 <= j < |items| ==> items[k].priority <= items[j].priority)
    && (forall j :: 0 <= j < k ==> items[k].priority < items[j].priority)
  }

  lemma {:induction false} StableSortStartsWithMostUrgent(items: seq<Queued>, k: nat)
    requires FirstMostUrgent(items, k)
    ensures StableSort(items) == [items[k]] + StableSort(RemoveAt(items, k))
  {
    var rest := items[1..];
    if k == 0 {
      assert RemoveAt(items, 0) == rest;
      if rest != [] {
        var m := SomeFirstMostUrgent(rest);
        StableSortStartsWithMostUrgent(rest, m);
        assert items[0].priority <= items[m + 1].priority;
      }
    } else {
      assert FirstMostUrgent(rest, k - 1);
      StableSortStartsWithMostUrgent(rest, k - 1);
      assert RemoveAt(items, k)[1..] == RemoveAt(rest, k - 1);
      assert StableSort(rest)[1..] == StableSort(RemoveAt(rest, k - 1));
    }
  }

  lemma {:induction false} SomeFirstMostUrgent(items: seq<Queued>) returns (k: nat)
    requires items != []
    ensures FirstMostUrgent(items, k)
  {
    if |items| == 1 {
      k := 0;
    } else {
      k := SomeFirstMostUrgent(items[1..]);
      k := if items[0].priority <= items[k + 1].priority then 0 else k + 1;
    }
  }

  lemma StrictBestIsFirstMostUrgent(interval: real, items: seq<Queued>, now: real)
    requires interval <= 0.0 && items != [] && InSubmissionOrder(items)
    ensures FirstMostUrgent(items, BestIndex(interval, items, now))
  {
    var k := BestIndex(interval, items, now);
    forall j | 0 <= j < |items|
      ensures items[k].priority <= items[j].priority && (j < k ==> items[k].priority < items[j].priority)
    {
      assert !Before(interval, now, items[j], items[k]);
      if j < k { assert items[j].sequence < items[k].sequence; }
    }
  }

  /** One strict dequeue moves the head of the stable sort to the output. */
  lemma StrictPopTakesSortHead(interval: real, s: Sched, now: real)
    requires interval <= 0.0 && InSubmissionOrder(s.items) && s.items != []
    ensures var t := Step(interval, s, Pop(now));
            && |t.items| == |s.items| - 1 && InSubmissionOrder(t.items)
            && t.out + StableSort(t.items) == s.out + StableSort(s.items)
  {
    var k := BestIndex(interval, s.items, now);
    StrictBestIsFirstMostUrgent(interval, s.items, now);
    StableSortStartsWithMostUrgent(s.items, k);
    var rest := StableSort(RemoveAt(s.items, k));
    assert s.out + ([s.items[k]] + rest) == (s.out + [s.items[k]]) + rest;
  }

  /** With aging off, draining the queue at any clock readings delivers the stable sort of the queue by priority. */
  lemma {:induction false} StrictDrainIsStableSort(interval: real, s: Sched, times: seq<real>)
    requires interval <= 0.0 && InSubmissionOrder(s.items) && |times| == |s.items|
    ensures Run(interval, s, PopAll(times)).out == s.out + StableSort(s.items)
    ensures Run(interval, s, PopAll(times)).items == []
    decreases |times|
  {
    if times != [] {
      StrictPopTakesSortHead(interval, s, times[0]);
      StrictDrainIsStableSort(interval, Step(interval, s, Pop(times[0])), times[1..]);
      RunPopAll(interval, s, times);
    }
  }

  lemma RunPopAll(interval: real, s: Sched, times: seq<real>)
    requires times != []
    ensures Run(interval, s, PopAll(times)) == Run(interval, Step(interval, s, Pop(times[0])), PopAll(times[1..]))
  {
    assert PopAll(times) == [Pop(times[0])] + PopAll(times[1..]);
    RunConcat(interval, s, [Pop(times[0])], PopAll(times[1..]));
    assert [Pop(times[0])][..0] == [];
  }

  /** Under interleaved submissions too: each strict dequeue returns the least (priority, sequence). */
  lemma StrictDequeueIsLeast(interval: real, start: real, ops: seq<Op>, now: real, s: Sched, j: nat)
    requires interval <= 0.0 && Timely(start, ops, now)
    requires s == Run(interval, EMPTY, ops) && j < |s.items|
    ensures var best := s.items[BestIndex(interval, s.items, now)];
            || best == s.items[j]
            || best.priority < s.items[j].priority
            || (best.priority == s.items[j].priority && best.sequence < s.items[j].sequence)
  {
    RunKeepsValid(interval, EMPTY, start, ops, now);
    if j != BestIndex(interval, s.items, now) {
      ChosenBeatsTheRest(interval, s, now, j);
    }
  }

  // ---------------------------------------------------------------------
  // Equal priorities: exactly the FIFO scheduler.

  /** The FIFO scheduler: its queue and what it has delivered. */
  datatype Fifo = Fifo(queue: seq<nat>, delivered: seq<nat>)

  function FifoStep(f: Fifo, op: Op): Fifo {
    match op
    case Submit(_, item, _) => f.(queue := f.queue + [item])
    case Pop(_) => if f.queue == [] then f else Fifo(f.queue[1..], f.delivered + [f.queue[0]])
  }

  function FifoRun(f: Fifo, ops: seq<Op>): Fifo
    decreases |ops|
  {
    if ops == [] then f else FifoStep(FifoRun(f, ops[..|ops| - 1]), ops[|ops| - 1])
  }

  /** The FIFO queue never reorders: what it delivered, then what it holds, is what was submitted. */
  lemma {:induction false} FifoKeepsSubmissionOrder(ops: seq<Op>)
    ensures FifoRun(Fifo([], []), ops).delivered + FifoRun(Fifo([], []), ops).queue == SubmittedItems(ops)
  {
    if ops != [] {
      FifoKeepsSubmissionOrder(ops[..|ops| - 1]);
    }
  }

  function FifoView(s: Sched): Fifo { Fifo(Items(s.items), Items(s.out)) }

  ghost predicate AllOfPriority(p: nat, items: seq<Queued>) {
    forall i :: 0 <= i < |items| ==> items[i].priority == p
  }

  lemma OlderIsAtLeastAsUrgent(interval: real, a: Queued, b: Queued, now: real)
    requires a.priority == b.priority && a.queuedAt <= b.queuedAt <= now
    ensures Effective(interval, a, now) <= Effective(interval, b, now)
  {
    if interval > 0.0 {
      var x, y := (now - a.queuedAt) / interval, (now - b.queuedAt) / interval;
      assert x - y == (b.queuedAt - a.queuedAt) / interval >= 0.0;
    }
  }

  lemma EqualPrioritiesPickTheOldest(interval: real, p: nat, s: Sched, now: real)
    requires Valid(s, now) && s.items != [] && AllOfPriority(p, s.items)
    ensures BestIndex(interval, s.items, now) == 0
  {
    var k := BestIndex(interval, s.items, now);
    if k > 0 {
      assert !Before(interval, now, s.items[0], s.items[k]);
      OlderIsAtLeastAsUrgent(interval, s.items[0], s.items[k], now);
    }
  }

  lemma {:induction false} ItemsTail(qs: seq<Queued>)
    requires qs != []
    ensures Items(qs) != [] && Items(qs)[0] == qs[0].item && Items(qs)[1..] == Items(qs[1..])
  {
    if |qs| > 1 {
      ItemsTail(qs[..|qs| - 1]);
      assert qs[1..][..|qs| - 2] == qs[..|qs| - 1][1..];
    }
  }

  lemma EqualPriorityPop(interval: real, p: nat, s: Sched, now: real)
    requires Valid(s, now) && AllOfPriority(p, s.items) && s.items != []
    ensures var t := Step(interval, s, Pop(now));
            && t.items == s.items[1..] && t.out == s.out + [s.items[0]] && AllOfPriority(p, t.items)
            && Items(s.items) != [] && Items(t.items) == Items(s.items)[1..]
            && Items(t.out) == Items(s.out) + [Items(s.items)[0]]
  {
    EqualPrioritiesPickTheOldest(interval, p, s, now);
    assert RemoveAt(s.items, 0) == s.items[1..];
    ItemsTail(s.items);
    ItemsAppend(s.out, s.items[0]);
  }

  lemma EqualPriorityStep(interval: real, p: nat, s: Sched, op: Op)
    requires Valid(s, op.now) && AllOfPriority(p, s.items) && (op.Submit? ==> op.priority == p)
    ensures AllOfPriority(p, Step(interval, s, op).items)
    ensures FifoView(Step(interval, s, op)) == FifoStep(FifoView(s), op)
  {
    if op.Submit? {
      ItemsAppend(s.items, Queued(op.priority, s.counter + 1, op.now, op.item));
    } else if s.items != [] {
      EqualPriorityPop(interval, p, s, op.now);
    } else {
      assert Items(s.items) == [];
    }
  }

  /** When all priorities are equal the priority scheduler is the FIFO scheduler, for every aging
      interval and every interleaving of submissions and dequeues. */
  lemma {:induction false} EqualPrioritiesAreFifo(interval: real, p: nat, s: Sched, start: real, ops: seq<Op>,
                                                  end: real)
    requires Valid(s, start) && AllOfPriority(p, s.items) && Timely(start, ops, end)
    requires forall k :: 0 <= k < |ops| && ops[k].Submit? ==> ops[k].priority == p
    ensures FifoView(Run(interval, s, ops)) == FifoRun(FifoView(s), ops)
    ensures AllOfPriority(p, Run(interval, s, ops).items)
  {
    if ops != [] {
      var n := |ops| - 1;
      EqualPrioritiesAreFifo(interval, p, s, start, ops[..n], ops[n].now);
      RunKeepsValid(interval, s, start, ops[..n], ops[n].now);
      EqualPriorityStep(interval, p, Run(interval, s, ops[..n]), ops[n]);
    }
  }

  // ---------------------------------------------------------------------
  // Batches (src/llm_runtime/scheduler/batching.py).

  /** Takes the first `maxBatchSize` items, as Python's slice does. */
  function BuildBatch(items: seq<nat>, maxBatchSize: nat): seq<nat> {
    if maxBatchSize <= |items| then items[..maxBatchSize] else items
  }

  /** The largest size of a batch: the first item is taken whatever the maximum. */
  function AtLeastOne(maxBatchSize: int): (m: nat) { if maxBatchSize > 1 then maxBatchSize else 1 }

  lemma {:induction false} FifoPopsAreBuildBatch(f: Fifo, times: seq<real>)
    ensures FifoRun(f, PopAll(times)).delivered == f.delivered + BuildBatch(f.queue, |times|)
    ensures FifoRun(f, PopAll(times)).queue == f.queue[|BuildBatch(f.queue, |times|)|..]
  {
    if times != [] {
      FifoPopsAreBuildBatch(f, times[..|times| - 1]);
      assert PopAll(times)[..|times| - 1] == PopAll(times[..|times| - 1]);
    }
  }

  /** Equal priorities, no waiting: the dequeues of one `next_batch` call, which stop after n items or when
      the queue is empty, deliver exactly the batch that `build_batch` cuts from the queue. */
  lemma EqualPriorityBatchIsBuildBatch(interval: real, p: nat, s: Sched, start: real, pops: seq<real>, end: real,
                                       n: nat)
    requires Valid(s, start) && AllOfPriority(p, s.items) && Timely(start, PopAll(pops), end)
    requires |pops| <= n && (|pops| < n ==> Run(interval, s, PopAll(pops)).items == [])
    ensures Items(Run(interval, s, PopAll(pops)).out) == Items(s.out) + BuildBatch(Items(s.items), n)
  {
    EqualPrioritiesAreFifo(interval, p, s, start, PopAll(pops), end);
    FifoPopsAreBuildBatch(FifoView(s), pops);
    assert Items([]) == [];
  }
}
