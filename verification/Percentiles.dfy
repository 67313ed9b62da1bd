/** The two percentile functions: nearest rank (src/llm_runtime/metrics/latency.py) and
    interpolated (benchmarks/run_priority_scheduler_benchmark.py). */
module Percentiles {

  import opened Common

  function Insert(s: seq<real>, x: real): (r: seq<real>)
    requires Sorted(s)
    ensures Sorted(r) && |r| == |s| + 1
    ensures r[|s|] == if s == [] || s[|s| - 1] <= x then x else s[|s| - 1]
  {
    if s == [] || s[|s| - 1] <= x then s + [x] else Insert(s[..|s| - 1], x) + [s[|s| - 1]]
  }

  function Sort(values: seq<real>): (r: seq<real>)
    ensures Sorted(r) && |r| == |values|
  {
    if values == [] then [] else Insert(Sort(values[..|values| - 1]), values[|values| - 1])
  }

  lemma {:induction false} InsertPermutes(s: seq<real>, x: real)
    requires Sorted(s)
    ensures multiset(Insert(s, x)) == multiset(s) + multiset{x}
  {
    if s != [] && s[|s| - 1] > x {
      var p, last := s[..|s| - 1], s[|s| - 1];
      InsertPermutes(p, x);
      assert s == p + [last];
      assert multiset(Insert(p, x) + [last]) == multiset(Insert(p, x)) + multiset{last};
    }
  }

  lemma {:induction false} SortPermutes(values: seq<real>)
    ensures multiset(Sort(values)) == multiset(values)
  {
    if values != [] {
      var n := |values| - 1;
      SortPermutes(values[..n]);
      InsertPermutes(Sort(values[..n]), values[n]);
      assert values == values[..n] + [values[n]];
    }
  }

  lemma SameLength(a: seq<real>, b: seq<real>)
    requires multiset(a) == multiset(b)
    ensures |a| == |b|
  {
    assert |multiset(a)| == |a|;
    assert |multiset(b)| == |b|;
  }

  lemma LastIsAtMostLast(a: seq<real>, b: seq<real>)
    requires Sorted(a) && multiset(a) == multiset(b) && |a| == |b| > 0
    ensures b[|b| - 1] <= a[|a| - 1]
  {
    assert b[|b| - 1] in multiset(a);
    var i :| 0 <= i < |a| && a[i] == b[|b| - 1];
  }

  lemma WithoutLast(s: seq<real>, n: nat)
    requires |s| == n + 1
    ensures multiset(s[..n]) == multiset(s) - multiset{s[n]}
  {
    assert s == s[..n] + [s[n]];
  }

  lemma SameWithoutLast(a: seq<real>, b: seq<real>, n: nat)
    requires Sorted(a) && Sorted(b) && multiset(a) == multiset(b) && |a| == |b| == n + 1
    ensures a[n] == b[n] && Sorted(a[..n]) && Sorted(b[..n]) && multiset(a[..n]) == multiset(b[..n])
  {
    LastIsAtMostLast(a, b);
    LastIsAtMostLast(b, a);
    WithoutLast(a, n);
    WithoutLast(b, n);
  }

  lemma {:induction false} SortedIsUnique(a: seq<real>, b: seq<real>)
    requires Sorted(a) && Sorted(b) && multiset(a) == multiset(b)
    ensures a == b
  {
    SameLength(a, b);
    if a != [] {
      var n := |a| - 1;
      var p, q := a[..n], b[..n];
      SameWithoutLast(a, b, n);
      SortedIsUnique(p, q);
      assert a == p + [a[n]] && b == q + [b[n]];
    }
  }

  /** Python's `round` of a number to an integer: halves go to the even neighbour. */
  function Round(x: real): int {
    var f := x.Floor;
    var rest := x - f as real;
    if rest < 0.5 || (rest == 0.5 && f % 2 == 0) then f else f + 1
  }

  lemma RoundIsMonotone(x: real, y: real)
    requires x <= y
    ensures Round(x) <= Round(y)
  {
  }

  lemma RoundIsNearest(x: real, m: int)
    ensures var e := x - Round(x) as real;
            var d := x - m as real;
            && -0.5 <= e <= 0.5
            && (m != Round(x) ==> (if e >= 0.0 then e else -e) <= if d >= 0.0 then d else -d)
  {
  }

  // ---------------------------------------------------------------------
  // Nearest rank.

  function Position(n: nat, pct: real): real { pct / 100.0 * (n - 1) as real }

  function RankIndex(n: nat, pct: real): (k: nat)
    requires n > 0
    ensures k < n
  {
    var r := Round(Position(n, pct));
    var low := if r > 0 then r else 0;
    if low < n - 1 then low else n - 1
  }

  lemma PositionIsMonotone(n: nat, p: real, q: real)
    requires n > 0 && p <= q
    ensures Position(n, p) <= Position(n, q)
  {
    ScaledMonotone(p / 100.0, q / 100.0, (n - 1) as real);
  }

  lemma RankIndexIsMonotone(n: nat, p: real, q: real)
    requires n > 0 && p <= q
    ensures RankIndex(n, p) <= RankIndex(n, q)
  {
    PositionIsMonotone(n, p, q);
    RoundIsMonotone(Position(n, p), Position(n, q));
  }

  lemma RankIndexExtremes(n: nat, pct: real)
    requires n > 0
    ensures pct <= 0.0 ==> RankIndex(n, pct) == 0
    ensures pct >= 100.0 ==> RankIndex(n, pct) == n - 1
  {
    assert Position(n, 0.0) == 0.0 && Position(n, 100.0) == (n - 1) as real;
    if pct <= 0.0 {
      RankIndexIsMonotone(n, pct, 0.0);
    } else if pct >= 100.0 {
      RankIndexIsMonotone(n, 100.0, pct);
    }
  }

  /** The index is the integer nearest to pct percent of n - 1, and the even one of two equally near integers. */
  ghost predicate IsNearestRank(n: nat, pct: real, k: int) {
    var off := pct / 100.0 * (n - 1) as real - k as real;
    -0.5 <= off <= 0.5 && (off == 0.5 || off == -0.5 ==> k % 2 == 0)
  }

  lemma RoundIff(x: real, m: int)
    ensures m == Round(x) <==>
            (var off := x - m as real; -0.5 <= off <= 0.5 && (off == 0.5 || off == -0.5 ==> m % 2 == 0))
  {
    var f := x.Floor;
    if m > f + 1 { assert m >= f + 2; }
    if m < f { assert m <= f - 1; }
  }

  lemma RankIndexIff(n: nat, pct: real, k: int)
    requires n > 0 && 0.0 <= pct <= 100.0
    ensures k == RankIndex(n, pct) <==> IsNearestRank(n, pct, k)
  {
    RoundIff(Position(n, pct), k);
    assert Position(n, 0.0) == 0.0 && Position(n, 100.0) == (n - 1) as real;
    PositionIsMonotone(n, 0.0, pct);
    PositionIsMonotone(n, pct, 100.0);
    RoundIsMonotone(0.0, Position(n, pct));
    RoundIsMonotone(Position(n, pct), (n - 1) as real);
  }

  lemma ScaledMonotone(x: real, y: real, m: real)
    requires x <= y && m >= 0.0
    ensures x * m <= y * m
  {
  }

  function NearestRank(values: seq<real>, pct: real): (r: real)
    ensures values == [] ==> r == 0.0
  {
    if values == [] then 0.0 else RankOf(Sort(values), pct)
  }

  function RankOf(ordered: seq<real>, pct: real): real
    requires ordered != []
  {
    ordered[RankIndex(|ordered|, pct)]
  }

  /** How many values are below y. */
  function CountBelow(values: seq<real>, y: real): nat {
    if values == [] then 0
    else CountBelow(values[..|values| - 1], y) + if values[|values| - 1] < y then 1 else 0
  }

  lemma {:induction false} CountsOfInsert(s: seq<real>, x: real, y: real)
    requires Sorted(s)
    ensures CountBelow(Insert(s, x), y) == CountBelow(s, y) + if x < y then 1 else 0
    ensures CountAtMost(Insert(s, x), y) == CountAtMost(s, y) + if x <= y then 1 else 0
  {
    if s == [] || s[|s| - 1] <= x {
      assert (s + [x])[..|s|] == s;
    } else {
      var n := |s| - 1;
      CountsOfInsert(s[..n], x, y);
      var p := Insert(s[..n], x);
      assert (p + [s[n]])[..|p|] == p;
    }
  }

  lemma {:induction false} CountsOfSort(values: seq<real>, y: real)
    ensures CountBelow(Sort(values), y) == CountBelow(values, y)
    ensures CountAtMost(Sort(values), y) == CountAtMost(values, y)
  {
    if values != [] {
      var n := |values| - 1;
      CountsOfSort(values[..n], y);
      CountsOfInsert(Sort(values[..n]), values[n], y);
    }
  }

  lemma {:induction false} CountsBound(s: seq<real>, y: real)
    ensures CountBelow(s, y) <= CountAtMost(s, y) <= |s|
  {
    if s != [] {
      CountsBound(s[..|s| - 1], y);
    }
  }

  /** In a sorted sequence the counts tell on which side of y position k lies. */
  lemma {:induction false} CountsOfSorted(s: seq<real>, y: real, k: nat)
    requires Sorted(s) && k < |s|
    ensures CountBelow(s, y) <= k <==> y <= s[k]
    ensures k < CountAtMost(s, y) <==> s[k] <= y
  {
    var n := |s| - 1;
    CountsBound(s[..n], y);
    if k < n {
      CountsOfSorted(s[..n], y, k);
    } else if n > 0 {
      CountsOfSorted(s[..n], y, n - 1);
    }
  }

  /** For k the integer nearest to pct percent of n - 1 (the even one on a tie), the percentile of n samples is the one
      number with at most k samples below it and more than k samples up to it. */
  lemma NearestRankIff(values: seq<real>, pct: real, k: int, y: real)
    requires values != [] && 0.0 <= pct <= 100.0 && IsNearestRank(|values|, pct, k)
    ensures y == NearestRank(values, pct) <==> CountBelow(values, y) <= k < CountAtMost(values, y)
  {
    RankIndexIff(|values|, pct, k);
    CountsOfSort(values, y);
    CountsOfSorted(Sort(values), y, k);
  }

  /** On a tie the lower rank may win: the median of two samples is the smaller one. */
  lemma MedianOfTwo(a: real, b: real)
    ensures NearestRank([a, b], 50.0) == if a <= b then a else b
  {
    var y := if a <= b then a else b;
    CountsOfTwo(a, b, y);
    NearestRankIff([a, b], 50.0, 0, y);
  }

  lemma CountsOfTwo(a: real, b: real, y: real)
    ensures CountBelow([a, b], y) == (if a < y then 1 else 0) + (if b < y then 1 else 0)
    ensures CountAtMost([a, b], y) == (if a <= y then 1 else 0) + (if b <= y then 1 else 0)
  {
    assert [a, b][..1] == [a] && [a][..0] == [];
    assert CountBelow([a], y) == CountBelow([a][..0], y) + if a < y then 1 else 0;
    assert CountAtMost([a], y) == CountAtMost([a][..0], y) + if a <= y then 1 else 0;
  }

  lemma MembersOfSort(values: seq<real>)
    ensures forall y :: y in Sort(values) <==> y in values
  {
    SortPermutes(values);
    assert forall y :: y in values <==> y in multiset(values);
    assert forall y :: y in Sort(values) <==> y in multiset(Sort(values));
  }

  lemma NearestRankIsASample(values: seq<real>, pct: real)
    requires values != []
    ensures NearestRank(values, pct) in values
  {
    MembersOfSort(values);
  }

  lemma NearestRankIsMonotone(values: seq<real>, p: real, q: real)
    requires p <= q
    ensures NearestRank(values, p) <= NearestRank(values, q)
  {
    if values != [] {
      RankIndexIsMonotone(|values|, p, q);
    }
  }

  /** Percentages outside [0, 100] are clamped to the minimum and the maximum. */
  lemma NearestRankExtremes(values: seq<real>, pct: real, y: real)
    requires y in values
    ensures pct <= 0.0 ==> NearestRank(values, pct) <= y
    ensures pct >= 100.0 ==> NearestRank(values, pct) >= y
  {
    MembersOfSort(values);
    RankIndexExtremes(|values|, pct);
    var k :| 0 <= k < |values| && Sort(values)[k] == y;
  }

  // ---------------------------------------------------------------------
  // Interpolation.

  /** Python's list indexing: negative positions count from the end, other positions outside raise (None). */
  function At(s: seq<real>, k: int): Option<real> {
    if 0 <= k < |s| then Some(s[k])
    else if -|s| <= k < 0 then Some(s[|s| + k])
    else None
  }

  /** None stands for an IndexError. */
  function Interpolated(values: seq<real>, quantile: real): (r: Option<real>)
    ensures values == [] ==> r == Some(0.0)
  {
    if values == [] then Some(0.0) else QuantileOf(Sort(values), quantile)
  }

  function QuantileOf(ordered: seq<real>, quantile: real): Option<real>
    requires ordered != []
  {
    if |ordered| == 1 then Some(ordered[0]) else Between(ordered, Index(|ordered|, quantile))
  }

  function Index(n: nat, quantile: real): real { (n - 1) as real * quantile }

  function Between(ordered: seq<real>, index: real): Option<real> {
    var lower, upper := index.Floor, Ceiling(index);
    var a, b := At(ordered, lower), At(ordered, upper);
    if lower == upper then a
    else if a.None? || b.None? then None
    else Some(Mix(a.value, b.value, upper as real - index, index - lower as real))
  }

  function Mix(a: real, b: real, v: real, w: real): real { a * v + b * w }

  lemma BetweenRaisesIff(s: seq<real>, index: real)
    requires s != []
    ensures Between(s, index).None? <==> index > (|s| - 1) as real || index < -(|s| as real)
  {
    FloorAndCeiling(index);
    var upper := Ceiling(index);
    if index <= (|s| - 1) as real { assert upper <= |s| - 1; }
    if index >= -(|s| as real) { assert index.Floor >= -|s|; }
  }

  lemma FloorAndCeiling(x: real)
    ensures x.Floor as real <= x <= Ceiling(x) as real
    ensures Ceiling(x) == if x == x.Floor as real then x.Floor else x.Floor + 1
  {
  }

  /** The function raises exactly when a neighbour of the fractional index is out of the list's reach on either side. */
  lemma InterpolatedRaisesIff(values: seq<real>, quantile: real)
    ensures Interpolated(values, quantile).None? <==>
              |values| > 1 && (quantile > 1.0 || (|values| - 1) as real * quantile < -(|values| as real))
  {
    if |values| > 1 {
      IndexCompare(|values|, quantile);
      BetweenRaisesIff(Sort(values), Index(|values|, quantile));
    }
  }

  lemma IndexCompare(n: nat, q: real)
    requires n > 1
    ensures q > 1.0 <==> Index(n, q) > (n - 1) as real
    ensures q >= 0.0 ==> Index(n, q) >= 0.0
  {
    var m := (n - 1) as real;
    if q > 1.0 { Positive(m, q - 1.0, m * (q - 1.0)); }
    if q <= 1.0 { ScaledMonotone(q, 1.0, m); }
    if q >= 0.0 { ScaledMonotone(0.0, q, m); }
  }

  lemma Positive(x: real, y: real, product: real)
    requires x > 0.0 && y > 0.0 && product == x * y
    ensures product > 0.0
  {
  }

  lemma IndexIsMonotone(n: nat, p: real, q: real)
    requires n > 0 && p <= q
    ensures Index(n, p) <= Index(n, q)
  {
    ScaledMonotone(p, q, (n - 1) as real);
  }

  lemma MixIsBetween(a: real, b: real, v: real, w: real, low: real, high: real)
    requires low <= a <= high && low <= b <= high && v >= 0.0 && w >= 0.0 && v + w == 1.0
    ensures low <= Mix(a, b, v, w) <= high
  {
    MixGrows(low, low, a, b, v, w);
    MixGrows(a, b, high, high, v, w);
    MixOfEqual(low, v, w);
    MixOfEqual(high, v, w);
  }

  lemma MixGrows(a: real, b: real, a': real, b': real, v: real, w: real)
    requires a <= a' && b <= b' && v >= 0.0 && w >= 0.0
    ensures Mix(a, b, v, w) <= Mix(a', b', v, w)
  {
    ScaledMonotone(a, a', v);
    ScaledMonotone(b, b', w);
  }

  lemma MixOfEqual(x: real, v: real, w: real)
    requires v + w == 1.0
    ensures Mix(x, x, v, w) == x
  {
    assert x * v + x * w == x * (v + w);
  }

  lemma MemberAt(s: seq<real>, k: int)
    ensures At(s, k).Some? ==> At(s, k).value in s
  {
  }

  lemma BetweenIsWithin(s: seq<real>, index: real, low: real, high: real)
    requires forall y :: y in s ==> low <= y <= high
    ensures Between(s, index).Some? ==> low <= Between(s, index).value <= high
  {
    var lower, upper := index.Floor, Ceiling(index);
    var a, b := At(s, lower), At(s, upper);
    MemberAt(s, lower);
    MemberAt(s, upper);
    FloorAndCeiling(index);
    if lower != upper && a.Some? && b.Some? {
      MixIsBetween(a.value, b.value, upper as real - index, index - lower as real, low, high);
    }
  }

  /** Whatever the quantile, a result lies between any bounds of the samples. */
  lemma InterpolatedIsWithin(values: seq<real>, quantile: real, low: real, high: real)
    requires values != [] && forall y :: y in values ==> low <= y <= high
    ensures Interpolated(values, quantile).Some? ==> low <= Interpolated(values, quantile).value <= high
  {
    MembersOfSort(values);
    BetweenIsWithin(Sort(values), Index(|values|, quantile), low, high);
    assert Sort(values)[0] in Sort(values);
  }

  lemma MixIsMonotone(a: real, b: real, v: real, w: real, v': real, w': real)
    requires a <= b && v + w == 1.0 && v' + w' == 1.0 && w <= w'
    ensures Mix(a, b, v, w) <= Mix(a, b, v', w')
  {
    ScaledMonotone(a, b, w' - w);
    assert Mix(a, b, v', w') - Mix(a, b, v, w) == b * (w' - w) - a * (w' - w);
  }

  /** Within the list the interpolation lies between its two neighbours. */
  lemma BetweenNeighbours(s: seq<real>, x: real)
    requires Sorted(s) && 0.0 <= x <= (|s| - 1) as real
    ensures 0 <= x.Floor <= Ceiling(x) < |s|
    ensures Between(s, x).Some? && s[x.Floor] <= Between(s, x).value <= s[Ceiling(x)]
  {
    FloorAndCeiling(x);
    var lower, upper := x.Floor, Ceiling(x);
    if lower != upper {
      MixIsBetween(s[lower], s[upper], upper as real - x, x - lower as real, s[lower], s[upper]);
    }
  }

  lemma BetweenIsMonotone(s: seq<real>, x: real, y: real)
    requires Sorted(s) && 0.0 <= x <= y <= (|s| - 1) as real
    ensures Between(s, x).Some? && Between(s, y).Some?
    ensures Between(s, x).value <= Between(s, y).value
  {
    BetweenNeighbours(s, x);
    BetweenNeighbours(s, y);
    FloorAndCeiling(x);
    FloorAndCeiling(y);
    if x.Floor == y.Floor && x > x.Floor as real {
      var k := x.Floor;
      MixIsMonotone(s[k], s[k + 1], (k + 1) as real - x, x - k as real, (k + 1) as real - y, y - k as real);
    }
  }

  /** The point a fraction w of the way from a to b. */
  function OnLine(a: real, b: real, w: real): real { a + w * (b - a) }

  /** Between ranks k and k + 1 the result runs on the straight line from the k-th to the next order statistic;
      at the ranks it is the order statistic itself. */
  lemma InterpolatedIsPiecewiseLinear(values: seq<real>, quantile: real, k: nat, w: real)
    requires k + 1 < |values| && 0.0 <= w <= 1.0 && quantile * (|values| - 1) as real == k as real + w
    ensures Interpolated(values, quantile) == Some(OnLine(Sort(values)[k], Sort(values)[k + 1], w))
  {
    BetweenIsOnLine(Sort(values), k, w, Index(|values|, quantile));
  }

  lemma BetweenFromTheLeft(s: seq<real>, k: nat, w: real, x: real)
    requires k + 1 < |s| && 0.0 <= w <= 1.0 && x == k as real + w
    ensures Between(s, x) ==
            Some(if w == 0.0 then s[k] else if w == 1.0 then s[k + 1] else Mix(s[k], s[k + 1], 1.0 - w, w))
  {
    FloorAndCeiling(x);
    if 0.0 < w < 1.0 {
      assert x.Floor == k && Ceiling(x) == k + 1;
      assert (k + 1) as real - x == 1.0 - w && x - k as real == w;
    }
  }

  lemma BetweenIsOnLine(s: seq<real>, k: nat, w: real, x: real)
    requires k + 1 < |s| && 0.0 <= w <= 1.0 && x == k as real + w
    ensures Between(s, x) == Some(OnLine(s[k], s[k + 1], w))
  {
    BetweenFromTheLeft(s, k, w, x);
    MixIsOnLine(s[k], s[k + 1], w);
  }

  lemma MixIsOnLine(a: real, b: real, w: real)
    ensures OnLine(a, b, 0.0) == a && OnLine(a, b, 1.0) == b
    ensures Mix(a, b, 1.0 - w, w) == OnLine(a, b, w)
  {
    assert a * (1.0 - w) == a - a * w;
  }

  lemma InterpolatedIsMonotone(values: seq<real>, p: real, q: real)
    requires 0.0 <= p <= q <= 1.0
    ensures Interpolated(values, p).Some? && Interpolated(values, q).Some?
    ensures Interpolated(values, p).value <= Interpolated(values, q).value
  {
    if |values| > 1 {
      var n := |values|;
      IndexIsMonotone(n, p, q);
      IndexCompare(n, p);
      IndexCompare(n, q);
      BetweenIsMonotone(Sort(values), Index(n, p), Index(n, q));
    }
  }

  /** At this quantile there is always a result, and no larger quantile up to 1 gives a smaller one. */
  ghost predicate OrderedUpward(quantile: real) {
    forall values: seq<real> ::
      && Interpolated(values, quantile).Some?
      && forall p :: quantile <= p && 0.0 <= p <= 1.0 ==> Interpolated(values,
                                                                       quantile).value <= Value(Interpolated(values, p))
  }

  function Value(r: Option<real>): real { if r.Some? then r.value else 0.0 }

  lemma QuantileOfPair(quantile: real)
    ensures Interpolated([0.0, 1.0], quantile) == Between([0.0, 1.0], quantile)
  {
    SortPermutes([0.0, 1.0]);
    SortedIsUnique(Sort([0.0, 1.0]), [0.0, 1.0]);
    assert Index(2, quantile) == quantile;
  }

  /** Below 0 the quantile wraps around to samples other than the smallest, until the indexing raises. */
  lemma NegativeQuantileWraps(quantile: real)
    requires quantile < 0.0
    ensures || Interpolated([0.0, 0.0, 0.0], quantile).None?
            || Interpolated([0.0, 1.0], quantile).None?
            || Interpolated([0.0, 1.0], quantile).value > 0.0
  {
    if quantile < -1.5 {
      assert Index(3, quantile) == 2.0 * quantile;
      InterpolatedRaisesIff([0.0, 0.0, 0.0], quantile);
    } else {
      QuantileOfPair(quantile);
      BetweenZeroAndOne(quantile);
    }
  }

  lemma BetweenZeroAndOne(x: real)
    requires -1.5 <= x < 0.0
    ensures Between([0.0, 1.0], x).Some? ==> Between([0.0, 1.0], x).value > 0.0
  {
    FloorAndCeiling(x);
    var s := [0.0, 1.0];
    if x > -1.0 {
      assert x.Floor == -1 && Ceiling(x) == 0;
      assert Mix(s[1], s[0], 0.0 - x, x + 1.0) == -x;
    } else if x < -1.0 {
      assert x.Floor == -2 && Ceiling(x) == -1;
      assert Mix(s[0], s[1], -1.0 - x, x + 2.0) == x + 2.0;
    }
  }

  /** The interpolated percentile is total and ordered exactly for the quantiles from 0 to 1. */
  lemma OrderedUpwardIff(quantile: real)
    ensures OrderedUpward(quantile) <==> 0.0 <= quantile <= 1.0
  {
    if 0.0 <= quantile <= 1.0 {
      forall values: seq<real>
        ensures Interpolated(values, quantile).Some?
        ensures forall p :: quantile <= p && 0.0 <= p <= 1.0 ==>
                              Interpolated(values, quantile).value <= Value(Interpolated(values, p))
      {
        InterpolatedIsMonotone(values, quantile, quantile);
        forall p | quantile <= p && 0.0 <= p <= 1.0
          ensures Interpolated(values, quantile).value <= Value(Interpolated(values, p))
        {
          InterpolatedIsMonotone(values, quantile, p);
        }
      }
    } else if quantile > 1.0 {
      InterpolatedRaisesIff([0.0, 1.0], quantile);
    } else {
      NegativeQuantileWraps(quantile);
      QuantileOfPair(0.0);
      assert Value(Interpolated([0.0, 1.0], 0.0)) == 0.0;
    }
  }

  // ---------------------------------------------------------------------

  /** Neither percentile depends on the order in which samples were recorded. */
  lemma OrderDoesNotMatter(values: seq<real>, permuted: seq<real>, pct: real, quantile: real)
    requires multiset(values) == multiset(permuted)
    ensures NearestRank(values, pct) == NearestRank(permuted, pct)
    ensures Interpolated(values, quantile) == Interpolated(permuted, quantile)
  {
    SortPermutes(values);
    SortPermutes(permuted);
    SortedIsUnique(Sort(values), Sort(permuted));
    assert values == [] <==> permuted == [];
  }
}
