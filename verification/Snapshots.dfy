/** The log of batch sizes, what a snapshot says about it, and the load test's comparison of two snapshots
    (src/llm_runtime/metrics/collector.py, benchmarks/run_load_test.py). */
module Snapshots {

  function Sum(sizes: seq<nat>): nat {
    if sizes == [] then 0 else Sum(sizes[..|sizes| - 1]) + sizes[|sizes| - 1]
  }

  /** 0 for the empty log. */
  function Max(sizes: seq<nat>): nat {
    if sizes == [] then 0
    else
      var m := Max(sizes[..|sizes| - 1]);
      if m >= sizes[|sizes| - 1] then m else sizes[|sizes| - 1]
  }

  function Average(sizes: seq<nat>): real {
    if sizes == [] then 0.0 else Sum(sizes) as real / |sizes| as real
  }

  /** A tally of values: how often each one occurs. */
  function Counter(sizes: seq<nat>): map<nat, nat> {
    if sizes == [] then map[]
    else
      var tally, last := Counter(sizes[..|sizes| - 1]), sizes[|sizes| - 1];
      tally[last := 1 + if last in tally then tally[last] else 0]
  }

  datatype Snapshot = Snapshot(count: nat, average: real, max: nat, distribution: map<nat, nat>)

  function SnapshotOf(sizes: seq<nat>): Snapshot {
    Snapshot(|sizes|, Average(sizes), Max(sizes), Counter(sizes))
  }

  class BatchLog {
    var batchCount: nat
    var batchSizes: seq<nat>

    ghost predicate Valid()
      reads this
    {
      batchCount == |batchSizes|
    }

    constructor ()
      ensures Valid() && batchSizes == []
    {
      batchCount, batchSizes := 0, [];
    }

    method RecordBatch(size: nat)
      requires Valid()
      modifies this
      ensures Valid() && batchSizes == old(batchSizes) + [size]
    {
      batchCount := batchCount + 1;
      batchSizes := batchSizes + [size];
    }

    method TakeSnapshot() returns (s: Snapshot)
      requires Valid()
      ensures s == SnapshotOf(batchSizes)
    {
      s := Snapshot(batchCount, Average(batchSizes), Max(batchSizes), Counter(batchSizes));
    }
  }

  // ---------------------------------------------------------------------
  // The load test: what happened between two snapshots.

  function DeltaAverage(before: Snapshot, after: Snapshot): real {
    var count := after.count - before.count;
    if count == 0 then 0.0
    else (after.average * after.count as real - before.average * before.count as real) / count as real
  }

  function CountIn(d: map<nat, nat>, size: nat): nat { if size in d then d[size] else 0 }

  function DeltaDistribution(before: Snapshot, after: Snapshot): map<nat, nat> {
    map size | size in after.distribution
               && after.distribution[size] - CountIn(before.distribution, size) > 0
      :: after.distribution[size] - CountIn(before.distribution, size)
  }

  ghost function MaxKey(sizes: set<nat>): (m: nat)
    ensures forall size :: size in sizes ==> size <= m
    ensures sizes == {} ==> m == 0
    ensures sizes != {} ==> m in sizes
  {
    if sizes == {} then 0
    else
      var size :| size in sizes;
      var m := MaxKey(sizes - {size});
      assert forall s :: s in sizes ==> s == size || s in sizes - {size};
      if sizes == {size} || size >= m then size else m
  }

  ghost function MaxNewBatchSize(before: Snapshot, after: Snapshot): nat {
    MaxKey(DeltaDistribution(before, after).Keys)
  }

  ghost function Total(d: map<nat, nat>): nat {
    if d == map[] then 0
    else
      var size :| size in d;
      d[size] + Total(d - {size})
  }

  lemma {:induction false} SumConcat(p: seq<nat>, q: seq<nat>)
    ensures Sum(p + q) == Sum(p) + Sum(q)
  {
    if q == [] {
      assert p + q == p;
    } else {
      assert (p + q)[..|p + q| - 1] == p + q[..|q| - 1];
      SumConcat(p, q[..|q| - 1]);
    }
  }

  lemma {:induction false} MaxIsTheGreatest(sizes: seq<nat>)
    ensures forall size :: size in sizes ==> size <= Max(sizes)
    ensures if sizes == [] then Max(sizes) == 0 else Max(sizes) in sizes
  {
    if sizes != [] {
      var n := |sizes| - 1;
      MaxIsTheGreatest(sizes[..n]);
      forall size | size in sizes ensures size <= Max(sizes) {
        assert size in sizes[..n] || size == sizes[n];
      }
      if Max(sizes) != sizes[n] {
        assert Max(sizes[..n]) in sizes[..n];
      }
    }
  }

  /** The tally is the multiset of the values. */
  lemma {:induction false} CounterIsTheMultiset(sizes: seq<nat>)
    ensures forall size :: size in Counter(sizes) <==> size in sizes
    ensures forall size :: CountIn(Counter(sizes), size) == multiset(sizes)[size]
  {
    if sizes != [] {
      var n := |sizes| - 1;
      CounterIsTheMultiset(sizes[..n]);
      assert sizes == sizes[..n] + [sizes[n]];
    }
  }

  ghost predicate Averages(s: Snapshot, total: int, count: int) {
    s.count == count && s.average == if count == 0 then 0.0 else total as real / count as real
  }

  lemma DeltaOfTotals(before: Snapshot, after: Snapshot, x: nat, m: nat, y: nat, n: nat)
    requires Averages(before, x, m) && Averages(after, x + y, m + n)
    requires m == 0 ==> x == 0
    ensures DeltaAverage(before, after) == if n == 0 then 0.0 else y as real / n as real
  {
    if n != 0 {
      assert after.average * (m + n) as real == x as real + y as real;
      assert before.average * m as real == x as real;
    }
  }

  lemma DeltaAverageOfWindow(old': seq<nat>, window: seq<nat>)
    ensures DeltaAverage(SnapshotOf(old'), SnapshotOf(old' + window)) == Average(window)
  {
    SumConcat(old', window);
    DeltaOfTotals(SnapshotOf(old'), SnapshotOf(old' + window), Sum(old'), |old'|, Sum(window), |window|);
  }

  /** The difference of two snapshots' averages, weighted by count, is the mean of exactly the batches in between. */
  lemma DeltaAverageIsTheMeanOfTheWindow(old': seq<nat>, window: seq<nat>, mean: real)
    requires mean == DeltaAverage(SnapshotOf(old'), SnapshotOf(old' + window))
    ensures if window == [] then mean == 0.0 else mean * |window| as real == Sum(window) as real
  {
    DeltaAverageOfWindow(old', window);
    AverageTimesCount(window, mean);
  }

  lemma AverageTimesCount(sizes: seq<nat>, mean: real)
    requires mean == Average(sizes)
    ensures if sizes == [] then mean == 0.0 else mean * |sizes| as real == Sum(sizes) as real
  {
  }

  /** The difference of the distributions is exactly the multiset of the batches in between. */
  lemma DeltaDistributionIsTheWindow(old': seq<nat>, window: seq<nat>)
    ensures var d := DeltaDistribution(SnapshotOf(old'), SnapshotOf(old' + window));
            && d.Keys == (set size | size in window)
            && forall size :: CountIn(d, size) == multiset(window)[size]
  {
    CounterIsTheMultiset(old');
    CounterIsTheMultiset(old' + window);
    assert multiset(old' + window) == multiset(old') + multiset(window);
    var d := DeltaDistribution(SnapshotOf(old'), SnapshotOf(old' + window));
    forall size ensures CountIn(d, size) == multiset(window)[size] {
      assert CountIn(Counter(old' + window), size) == multiset(old' + window)[size];
      assert CountIn(Counter(old'), size) == multiset(old')[size];
    }
    forall size ensures size in d.Keys <==> size in window {
      assert size in window <==> multiset(window)[size] > 0;
      assert size in d ==> CountIn(d, size) > 0;
    }
  }

  lemma {:induction false} TotalWithout(d: map<nat, nat>, size: nat)
    requires size in d
    ensures Total(d) == d[size] + Total(d - {size})
    decreases |d|
  {
    var pick :| pick in d && Total(d) == d[pick] + Total(d - {pick});
    if pick != size {
      TotalWithout(d - {pick}, size);
      TotalWithout(d - {size}, pick);
      assert d - {pick} - {size} == d - {size} - {pick};
    }
  }

  lemma {:induction false} CountsSumToTheLength(d: map<nat, nat>, window: seq<nat>)
    requires d.Keys == (set size | size in window)
    requires forall size :: CountIn(d, size) == multiset(window)[size]
    ensures Total(d) == |window|
    decreases |window|
  {
    if window == [] {
      assert d == map[];
    } else {
      var n := |window| - 1;
      var p, last := window[..n], window[n];
      assert window == p + [last];
      var rest := if last in p then d[last := multiset(p)[last]] else d - {last};
      assert CountIn(d, last) == multiset(p)[last] + 1;
      forall size ensures CountIn(rest, size) == multiset(p)[size] {
        assert multiset(window)[size] == multiset(p)[size] + if size == last then 1 else 0;
        assert CountIn(d, size) == multiset(window)[size];
      }
      forall size ensures size in rest.Keys <==> size in p {
        assert size in window <==> size in p || size == last;
      }
      CountsSumToTheLength(rest, p);
      TotalWithout(d, last);
      if last in p {
        TotalWithout(rest, last);
        assert rest - {last} == d - {last};
      }
    }
  }

  /** The counts of the difference add up to the number of batches in between, and the largest key is
      the largest of them (0 if there were none). */
  lemma WindowTotals(old': seq<nat>, window: seq<nat>)
    ensures Total(DeltaDistribution(SnapshotOf(old'), SnapshotOf(old' + window))) == |window|
    ensures MaxNewBatchSize(SnapshotOf(old'), SnapshotOf(old' + window)) == Max(window)
  {
    var d := DeltaDistribution(SnapshotOf(old'), SnapshotOf(old' + window));
    DeltaDistributionIsTheWindow(old', window);
    CountsSumToTheLength(d, window);
    MaxIsTheGreatest(window);
    var m := MaxKey(d.Keys);
    if window != [] {
      assert forall size :: size in window ==> size in d.Keys;
      assert window[0] in d.Keys;
      assert m in d.Keys;
    } else {
      assert d.Keys == {};
    }
  }
}
