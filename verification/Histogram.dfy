/** The latency histogram (src/llm_runtime/metrics/collector.py). */
module Histogram {
  import opened Common

  const LATENCY_BUCKETS: seq<real> :=
    [0.001, 0.005, 0.01, 0.025, 0.05, 0.1, 0.25, 0.5, 1.0, 2.5, 5.0, 10.0]

  lemma LatencyBucketsAreSorted()
    ensures Sorted(LATENCY_BUCKETS) && |LATENCY_BUCKETS| == 12
    ensures LATENCY_BUCKETS[0] == 0.001 && LATENCY_BUCKETS[11] == 10.0
  {
  }

  /** The bucket an observation is counted in: the first whose boundary is at least the value, or the one past the
      end. */
  function BucketOf(boundaries: seq<real>, value: real): (k: nat)
    ensures k <= |boundaries|
    ensures forall i :: 0 <= i < k ==> boundaries[i] < value
    ensures k < |boundaries| ==> value <= boundaries[k]
  {
    if boundaries == [] || value <= boundaries[0] then 0 else 1 + BucketOf(boundaries[1..], value)
  }

  function CountInBucket(boundaries: seq<real>, samples: seq<real>, k: nat): nat {
    if samples == [] then 0
    else CountInBucket(boundaries, samples[..|samples| - 1], k)
         + if BucketOf(boundaries, samples[|samples| - 1]) == k then 1 else 0
  }

  /** The running sum that the export prints at the k-th boundary. */
  function Cumulative(boundaries: seq<real>, samples: seq<real>, k: nat): nat {
    CountInBucket(boundaries, samples, k) + if k == 0 then 0 else Cumulative(boundaries, samples, k - 1)
  }

  function Sum(samples: seq<real>): real {
    if samples == [] then 0.0 else Sum(samples[..|samples| - 1]) + samples[|samples| - 1]
  }

  /** The mean of the samples lies within their bounds. */
  lemma {:induction false} SumIsWithin(samples: seq<real>, low: real, high: real)
    requires forall k :: 0 <= k < |samples| ==> low <= samples[k] <= high
    ensures |samples| as real * low <= Sum(samples) <= |samples| as real * high
  {
    if samples != [] {
      SumIsWithin(samples[..|samples| - 1], low, high);
    }
  }

  /** The first n lines of buckets. */
  function BucketsUpTo(boundaries: seq<real>, samples: seq<real>, n: nat): (lines: seq<Line>)
    requires n <= |boundaries|
    ensures |lines| == n
    ensures forall k :: 0 <= k < n ==> lines[k] == Bucket(boundaries[k], Cumulative(boundaries, samples, k))
  {
    if n == 0 then []
    else BucketsUpTo(boundaries, samples, n - 1) + [Bucket(boundaries[n - 1], Cumulative(boundaries, samples, n - 1))]
  }

  datatype Line = Bucket(le: real, cumulative: nat) | Infinity(count: nat) | SumLine(sum: real) | CountLine(count: nat)

  class Histogram {
    const boundaries: seq<real>
    const counts: array<nat>
    var sum: real
    var total: nat
    ghost var samples: seq<real>

    ghost predicate Valid()
      reads this, counts
    {
      && counts.Length == |boundaries| + 1
      && (forall k :: 0 <= k < counts.Length ==> counts[k] == CountInBucket(boundaries, samples, k))
      && total == |samples| && sum == Sum(samples)
    }

    /** No boundaries, or an empty list of them, select the default ones. */
    constructor (buckets: seq<real>)
      ensures Valid() && fresh(counts) && samples == []
      ensures boundaries == if buckets == [] then LATENCY_BUCKETS else buckets
    {
      var chosen := if buckets == [] then LATENCY_BUCKETS else buckets;
      boundaries := chosen;
      counts := new nat[|chosen| + 1](_ => 0);
      sum, total, samples := 0.0, 0, [];
    }

    method Observe(value: real)
      requires Valid()
      modifies this, counts
      ensures Valid() && samples == old(samples) + [value]
    {
      sum := sum + value;
      total := total + 1;
      var bucket := |boundaries|;
      for idx := 0 to |boundaries|
        invariant bucket == |boundaries|
        invariant forall i :: 0 <= i < idx ==> boundaries[i] < value
      {
        if value <= boundaries[idx] {
          bucket := idx;
          break;
        }
      }
      counts[bucket] := counts[bucket] + 1;
      samples := samples + [value];
      assert samples[..|samples| - 1] == old(samples);
    }

    /** The numbers of the Prometheus export, line by line: for increasing boundaries, each one's cumulative count
        is the number of samples up to it, and `+Inf` and the count line give the number of all samples. */
    method PrometheusLines() returns (lines: seq<Line>)
      requires Valid()
      ensures samples == [] ==> lines == []
      ensures samples != [] ==> |lines| == |boundaries| + 3
      ensures samples != [] ==> forall k :: 0 <= k < |boundaries| ==>
                                              lines[k] == Bucket(boundaries[k], Cumulative(boundaries, samples, k))
      ensures samples != [] ==>
                lines[|boundaries|..] == [Infinity(|samples|), SumLine(Sum(samples)), CountLine(|samples|)]
    {
      if total == 0 {
        return [];
      }
      lines := BucketLines();
      lines := lines + [Infinity(total), SumLine(sum), CountLine(total)];
    }

    method BucketLines() returns (lines: seq<Line>)
      requires Valid()
      ensures lines == BucketsUpTo(boundaries, samples, |boundaries|)
    {
      lines := [];
      var cumulative := 0;
      for idx := 0 to |boundaries|
        invariant idx == 0 ==> cumulative == 0
        invariant idx > 0 ==> cumulative == Cumulative(boundaries, samples, idx - 1)
        invariant lines == BucketsUpTo(boundaries, samples, idx)
      {
        cumulative := cumulative + counts[idx];
        lines := lines + [Bucket(boundaries[idx], cumulative)];
      }
    }
  }

  // ---------------------------------------------------------------------
  // What the exported numbers mean.

  lemma BucketAtMostIff(boundaries: seq<real>, value: real, k: nat)
    requires Sorted(boundaries) && k < |boundaries|
    ensures BucketOf(boundaries, value) <= k <==> value <= boundaries[k]
  {
    var j := BucketOf(boundaries, value);
    assert j < k ==> boundaries[j] <= boundaries[k];
  }

  lemma {:induction false} CumulativeStep(boundaries: seq<real>, samples: seq<real>, k: nat)
    requires samples != []
    ensures Cumulative(boundaries, samples, k) ==
            Cumulative(boundaries, samples[..|samples| - 1], k)
            + if BucketOf(boundaries, samples[|samples| - 1]) <= k then 1 else 0
  {
    if k > 0 {
      CumulativeStep(boundaries, samples, k - 1);
    }
  }

  lemma {:induction false} CumulativeOfNothing(boundaries: seq<real>, k: nat)
    ensures Cumulative(boundaries, [], k) == 0
  {
    if k > 0 {
      CumulativeOfNothing(boundaries, k - 1);
    }
  }

  /** The count exported at each boundary b is the number of samples that are at most b. */
  lemma {:induction false} CumulativeCountsSamplesUpTo(boundaries: seq<real>, samples: seq<real>, k: nat)
    requires Sorted(boundaries) && k < |boundaries|
    ensures Cumulative(boundaries, samples, k) == CountAtMost(samples, boundaries[k])
  {
    if samples == [] {
      CumulativeOfNothing(boundaries, k);
    } else {
      CumulativeCountsSamplesUpTo(boundaries, samples[..|samples| - 1], k);
      CumulativeStep(boundaries, samples, k);
      BucketAtMostIff(boundaries, samples[|samples| - 1], k);
    }
  }

  /** For any boundaries, sorted or not: all buckets with the one past the end sum to the number of samples. */
  lemma {:induction false} BucketsSumToTotal(boundaries: seq<real>, samples: seq<real>)
    ensures Cumulative(boundaries, samples, |boundaries|) == |samples|
  {
    if samples == [] {
      CumulativeOfNothing(boundaries, |boundaries|);
    } else {
      BucketsSumToTotal(boundaries, samples[..|samples| - 1]);
      CumulativeStep(boundaries, samples, |boundaries|);
    }
  }

  /** Exported counts never decrease along the boundaries and never exceed the total. */
  lemma CumulativeIsMonotone(boundaries: seq<real>, samples: seq<real>, j: nat, k: nat)
    requires j <= k <= |boundaries|
    ensures Cumulative(boundaries, samples, j) <= Cumulative(boundaries, samples, k) <= |samples|
  {
    CumulativeUpward(boundaries, samples, j, k);
    CumulativeUpward(boundaries, samples, k, |boundaries|);
    BucketsSumToTotal(boundaries, samples);
  }

  lemma {:induction false} CumulativeUpward(boundaries: seq<real>, samples: seq<real>, j: nat, k: nat)
    requires j <= k
    ensures Cumulative(boundaries, samples, j) <= Cumulative(boundaries, samples, k)
    decreases k - j
  {
    if j < k {
      CumulativeUpward(boundaries, samples, j, k - 1);
    }
  }

  /** Where boundaries go down from position i to j, one sample at the i-th is exported as being at most the j-th. */
  lemma UnsortedBoundariesMiscount(boundaries: seq<real>, i: nat, j: nat)
    requires i < j < |boundaries| && boundaries[i] > boundaries[j]
    ensures Cumulative(boundaries, [boundaries[i]], j) == 1
    ensures CountAtMost([boundaries[i]], boundaries[j]) == 0
  {
    var samples := [boundaries[i]];
    CumulativeStep(boundaries, samples, j);
    CumulativeOfNothing(boundaries, j);
    assert samples[..0] == [];
    assert BucketOf(boundaries, boundaries[i]) <= i;
  }

  ghost predicate ExportCountsSamples(boundaries: seq<real>) {
    forall samples: seq<real>, k: nat ::
      k < |boundaries| ==> Cumulative(boundaries, samples, k) == CountAtMost(samples, boundaries[k])
  }

  /** The export is right for every list of samples if and only if the boundaries are sorted; equal ones do no harm. */
  lemma ExportCountsSamplesIffSorted(boundaries: seq<real>)
    ensures ExportCountsSamples(boundaries) <==> Sorted(boundaries)
  {
    if Sorted(boundaries) {
      forall samples: seq<real>, k: nat | k < |boundaries|
        ensures Cumulative(boundaries, samples, k) == CountAtMost(samples, boundaries[k])
      {
        CumulativeCountsSamplesUpTo(boundaries, samples, k);
      }
    } else {
      var i, j :| 0 <= i <= j < |boundaries| && boundaries[i] > boundaries[j];
      UnsortedBoundariesMiscount(boundaries, i, j);
    }
  }
}
