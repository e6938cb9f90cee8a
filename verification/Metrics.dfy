/** The fleet's metrics: counters kept in place, and nearest-rank percentiles over the samples. */
module Metrics {
  import opened Sequences
  import C = Counters

  // ── Percentiles ────────────────────────────────────────────────────────

  /** Division rounding towards minus infinity, by a positive divisor. */
  function FloorDiv(a: int, b: int): int
    requires b > 0
  {
    a / b
  }

  /** The nearest rank, by negating a floor to get a ceiling. */
  function Rank(n: int, pct: int): int {
    var up := -FloorDiv(-n * pct, 100);
    var capped := if n < up then n else up;
    if capped > 1 then capped else 1
  }

  function Value(x: real): real { x }

  function Percentile(values: seq<real>, pct: int): Option<real> {
    if values == [] then None else
      SortedSorts(values, Value);
      var r := Rank(|values|, pct);
      RankInRange(|values|, pct);
      Some(Sorted(values, Value)[r - 1])
  }

  lemma RankInRange(n: int, pct: int)
    requires n > 0
    ensures 1 <= Rank(n, pct) <= n
  {
  }

  /** For a percentage, the rank is the ceiling of that share of the samples. */
  lemma RankIsCeiling(n: int, pct: int)
    requires n > 0 && 1 <= pct <= 100
    ensures 100 * (Rank(n, pct) - 1) < n * pct <= 100 * Rank(n, pct)
  {
    var x := n * pct;
    assert -n * pct == -x;
    assert 0 < x <= 100 * n by { assert n * (100 - pct) >= 0; }
    var up := -FloorDiv(-x, 100);
    assert 100 * (up - 1) < x <= 100 * up;
  }

  function UpTo(v: real): real -> bool { (x: real) => x <= v }
  function Under(v: real): real -> bool { (x: real) => x < v }

  function AtMost(values: seq<real>, v: real): nat { |Filter(values, UpTo(v))| }
  function Below(values: seq<real>, v: real): nat { |Filter(values, Under(v))| }

  lemma {:induction false} FilterMultiplicity(s: seq<real>, p: real -> bool, x: real)
    ensures multiset(Filter(s, p))[x] == if p(x) then multiset(s)[x] else 0
  {
    if s != [] {
      FilterMultiplicity(s[..|s| - 1], p, x);
      assert s == s[..|s| - 1] + [s[|s| - 1]];
    }
  }

  /** Counting does not depend on the order. */
  lemma SameCount(a: seq<real>, b: seq<real>, p: real -> bool)
    requires multiset(a) == multiset(b)
    ensures |Filter(a, p)| == |Filter(b, p)|
  {
    forall x: real ensures multiset(Filter(a, p))[x] == multiset(Filter(b, p))[x] {
      FilterMultiplicity(a, p, x);
      FilterMultiplicity(b, p, x);
    }
    assert multiset(Filter(a, p)) == multiset(Filter(b, p));
    assert |multiset(Filter(a, p))| == |Filter(a, p)| && |multiset(Filter(b, p))| == |Filter(b, p)|;
  }

  /** In a sorted sequence, position says how many samples lie at or below, and strictly below. */
  lemma AroundRank(s: seq<real>, r: nat)
    requires SortedBy(s, Value) && 1 <= r <= |s|
    ensures forall i :: 0 <= i < r ==> s[i] <= s[r - 1]
    ensures forall i :: r - 1 <= i < |s| ==> s[r - 1] <= s[i]
  {
    forall i | 0 <= i < |s| ensures i < r ==> s[i] <= s[r - 1]
                            ensures i >= r - 1 ==> s[r - 1] <= s[i]
    {
      assert Value(s[i]) == s[i] && Value(s[r - 1]) == s[r - 1];
    }
  }

  lemma CountsAtRank(s: seq<real>, r: nat)
    requires SortedBy(s, Value) && 1 <= r <= |s|
    ensures AtMost(s, s[r - 1]) >= r && Below(s, s[r - 1]) <= r - 1
  {
    AroundRank(s, r);
    hide SortedBy;
    var v := s[r - 1];
    CountHead(s, r, UpTo(v));
    CountTail(s, r - 1, Under(v));
  }

  lemma CountHead(s: seq<real>, k: nat, p: real -> bool)
    requires k <= |s| && forall i :: 0 <= i < k ==> p(s[i])
    ensures |Filter(s, p)| >= k
  {
    var head, tail := s[..k], s[k..];
    assert s == head + tail;
    assert forall x :: x in head ==> p(x);
    hide Filter;
    FilterAll(head, p);
    FilterAppend(head, tail, p);
  }

  lemma CountTail(s: seq<real>, k: nat, p: real -> bool)
    requires k <= |s| && forall i :: k <= i < |s| ==> !p(s[i])
    ensures |Filter(s, p)| <= k
  {
    var head, tail := s[..k], s[k..];
    assert s == head + tail;
    assert forall x :: x in tail ==> !p(x);
    hide Filter;
    FilterNone(tail, p);
    FilterAppend(head, tail, p);
  }

  /** The reported value sits at its rank among the samples, whatever order they came in. */
  lemma PercentileAtRank(values: seq<real>, pct: int)
    requires values != []
    ensures var v, r := Percentile(values, pct), Rank(|values|, pct);
      && v.Some? && v.value in values
      && AtMost(values, v.value) >= r && Below(values, v.value) <= r - 1
  {
    hide Sorted, SortedBy, Rank, Filter;
    var s, r := Sorted(values, Value), Rank(|values|, pct);
    SortedSorts(values, Value);
    RankInRange(|values|, pct);
    var v := s[r - 1];
    assert Percentile(values, pct) == Some(v);
    CountsAtRank(s, r);
    SameCount(s, values, UpTo(v));
    SameCount(s, values, Under(v));
    assert v in multiset(s);
  }

  /**
   The nearest-rank percentile is a sample; at least `pct` percent of the samples
   are no larger, and fewer than `pct` percent are smaller.
   */
  lemma PercentileIsNearestRank(values: seq<real>, pct: int)
    requires values != [] && 1 <= pct <= 100
    ensures var v := Percentile(values, pct);
      && v.Some? && v.value in values
      && 100 * AtMost(values, v.value) >= pct * |values|
      && 100 * Below(values, v.value) < pct * |values|
  {
    hide Percentile, Rank, AtMost, Below;
    PercentileAtRank(values, pct);
    RankIsCeiling(|values|, pct);
    assert |values| * pct == pct * |values|;
  }

  lemma RankMonotone(n: int, p: int, q: int)
    requires n > 0 && p <= q
    ensures Rank(n, p) <= Rank(n, q)
  {
    assert -n * p >= -n * q by { assert n * (q - p) >= 0; }
    DivMonotone(-n * q, -n * p);
  }

  lemma DivMonotone(a: int, b: int)
    requires a <= b
    ensures a / 100 <= b / 100
  {
  }

  /** A higher percentage never reports a smaller value. */
  lemma PercentileMonotone(values: seq<real>, p: int, q: int)
    requires values != [] && p <= q
    ensures Percentile(values, p).value <= Percentile(values, q).value
  {
    hide Sorted, Rank;
    var s := Sorted(values, Value);
    SortedSorts(values, Value);
    RankInRange(|values|, p);
    RankInRange(|values|, q);
    RankMonotone(|values|, p, q);
    assert Value(s[Rank(|values|, p) - 1]) <= Value(s[Rank(|values|, q) - 1]);
  }

  /** The largest sample. */
  function Max(values: seq<real>): (m: real)
    requires values != []
    ensures m in values && forall x :: x in values ==> x <= m
  {
    if |values| == 1 then values[0] else
      var m := Max(values[1..]);
      assert values == [values[0]] + values[1..];
      if values[0] > m then values[0] else m
  }

  datatype Dist = Dist(count: nat, p50: Option<real>, p90: Option<real>, p99: Option<real>, max: Option<real>)

  function Summary(values: seq<real>): Dist {
    Dist(|values|, Percentile(values, 50), Percentile(values, 90), Percentile(values, 99),
         if values == [] then None else Some(Max(values)))
  }

  /** The reported tail is in order, from the median to the slowest sample. */
  lemma SummaryOrdered(values: seq<real>)
    requires values != []
    ensures var d := Summary(values);
      && d.p50.Some? && d.p90.Some? && d.p99.Some? && d.max.Some?
      && d.p50 == Percentile(values, 50) && d.p90 == Percentile(values, 90) && d.p99 == Percentile(values, 99)
      && d.max.value in values && (forall x :: x in values ==> x <= d.max.value)
      && d.p50.value <= d.p90.value <= d.p99.value <= d.max.value
  {
    PercentileMonotone(values, 50, 90);
    PercentileMonotone(values, 90, 99);
    PercentileIsNearestRank(values, 99);
  }

  // ── The counters ───────────────────────────────────────────────────────

  class FleetMetrics {
    var batchesCreated: nat
    var batchesCompleted: nat
    var leasesReclaimed: nat
    var unitRetries: nat
    var queueTimes: seq<real>
    var serviceTimes: seq<real>

    ghost function View(): C.Counters reads this {
      C.Counters(batchesCreated, batchesCompleted, leasesReclaimed, unitRetries, queueTimes, serviceTimes)
    }

    constructor ()
      ensures View() == C.ZERO
    {
      batchesCreated, batchesCompleted, leasesReclaimed, unitRetries := 0, 0, 0, 0;
      queueTimes, serviceTimes := [], [];
    }

    method UnitCompleted(queueSec: real, serviceSec: real, retries: int)
      modifies this
      ensures View() == C.UnitCompleted(old(View()), queueSec, serviceSec, retries)
    {
      queueTimes := C.Push(queueTimes, C.NonNegative(queueSec));
      serviceTimes := C.Push(serviceTimes, C.NonNegative(serviceSec));
      unitRetries := unitRetries + (if retries > 0 then retries else 0);
    }

    method LeasesReturned(count: nat)
      modifies this`leasesReclaimed
      ensures View() == C.LeasesReturned(old(View()), count)
    {
      leasesReclaimed := leasesReclaimed + count;
    }

    method LatencySummary() returns (queue: Dist, service: Dist)
      ensures queue == Summary(View().queueTimes) && service == Summary(View().serviceTimes)
      ensures queue.p50 == Percentile(queueTimes, 50) && service.p50 == Percentile(serviceTimes, 50)
      ensures queue.p90 == Percentile(queueTimes, 90) && service.p90 == Percentile(serviceTimes, 90)
      ensures queue.p99 == Percentile(queueTimes, 99) && service.p99 == Percentile(serviceTimes, 99)
    {
      queue, service := Summary(queueTimes), Summary(serviceTimes);
    }
  }
}
