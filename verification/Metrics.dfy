/** The in-memory store of CPU samples behind the task autoscaler (stroomtaskautoscaler.go). */
module Metrics {
  import opened Resources

  /** Times are in nanoseconds, CPU usage in thousandths of a core. */
  function Minutes(n: int): int {
    n * 60_000_000_000
  }

  const MAXIMUM_RETENTION_MINS := 60

  datatype Sample = Sample(time: int, milli: int)

  /** Pods are keyed by namespace and name. */
  datatype MetricState = MetricState(items: map<ResourceRef, seq<Sample>>, lastScaled: map<ResourceRef, int>)

  /** The samples strictly later than the cutoff, in order. */
  function Later(s: seq<Sample>, cutoff: int): seq<Sample> {
    if s == [] then []
    else Later(s[..|s| - 1], cutoff) + (if s[|s| - 1].time > cutoff then [s[|s| - 1]] else [])
  }

  function Total(s: seq<Sample>): int {
    if s == [] then 0 else Total(s[..|s| - 1]) + s[|s| - 1].milli
  }

  /** Integer division that truncates towards zero. */
  function Quotient(a: int, b: int): int
    requires b > 0
  {
    if a >= 0 then a / b else -(-a / b)
  }

  /** The mean, or nothing for no samples. */
  function Mean(s: seq<Sample>): Option<int> {
    if s == [] then None else Some(Quotient(Total(s), |s|))
  }

  lemma LaterAppend(s: seq<Sample>, x: Sample, cutoff: int)
    ensures Later(s + [x], cutoff) == Later(s, cutoff) + (if x.time > cutoff then [x] else [])
    ensures Total(s + [x]) == Total(s) + x.milli
  {
    assert (s + [x])[..|s + [x]| - 1] == s;
  }

  /** What one more step of a loop over `s` adds. */
  lemma LaterStep(s: seq<Sample>, i: nat, cutoff: int)
    requires i < |s|
    ensures Later(s[..i + 1], cutoff) == Later(s[..i], cutoff) + (if s[i].time > cutoff then [s[i]] else [])
    ensures Total(Later(s[..i + 1], cutoff))
      == Total(Later(s[..i], cutoff)) + (if s[i].time > cutoff then s[i].milli else 0)
    ensures s[..|s|] == s
  {
    assert s[..i + 1] == s[..i] + [s[i]];
    LaterAppend(s[..i], s[i], cutoff);
    LaterAppend(Later(s[..i], cutoff), s[i], cutoff);
    if s[i].time <= cutoff {
      assert Later(s[..i + 1], cutoff) == Later(s[..i], cutoff);
    }
  }

  /** Filtering twice is filtering once, at the later cutoff. */
  lemma {:induction false} LaterTwice(s: seq<Sample>, a: int, b: int)
    ensures Later(Later(s, a), b) == Later(s, if a >= b then a else b)
  {
    if s != [] {
      var front, last := s[..|s| - 1], s[|s| - 1];
      LaterTwice(front, a, b);
      if last.time > a {
        LaterAppend(Later(front, a), last, b);
      } else {
        assert Later(s, a) == Later(front, a);
      }
    }
  }

  /** Exactly the samples after the cutoff survive. */
  lemma {:induction false} LaterKeeps(s: seq<Sample>, cutoff: int)
    ensures forall x :: x in Later(s, cutoff) <==> x in s && x.time > cutoff
  {
    if s != [] {
      LaterKeeps(s[..|s| - 1], cutoff);
      assert s == s[..|s| - 1] + [s[|s| - 1]];
    }
  }

  /** What is kept is kept in order: filtering goes piece by piece, and drops nothing that is late enough. */
  lemma {:induction false} LaterJoin(a: seq<Sample>, b: seq<Sample>, cutoff: int)
    ensures Later(a + b, cutoff) == Later(a, cutoff) + Later(b, cutoff)
    ensures (forall x :: x in a ==> x.time > cutoff) ==> Later(a, cutoff) == a
    ensures (forall x :: x in a ==> x.time <= cutoff) ==> Later(a, cutoff) == []
    decreases |a| + |b|
  {
    if b != [] {
      LaterJoin(a, b[..|b| - 1], cutoff);
      assert (a + b)[..|a + b| - 1] == a + b[..|b| - 1];
    } else if a != [] {
      LaterJoin(a[..|a| - 1], [], cutoff);
      assert a == a[..|a| - 1] + [a[|a| - 1]];
      assert a + b == a;
    }
  }

  // ---------- The mean ----------

  /** The sum of the samples, from the first on. */
  function Sum(s: seq<Sample>): int {
    if s == [] then 0 else s[0].milli + Sum(s[1..])
  }

  lemma {:induction false} TotalIsSum(s: seq<Sample>)
    ensures Total(s) == Sum(s)
  {
    if |s| > 1 {
      var tail, front := s[1..], s[..|s| - 1];
      TotalIsSum(tail);
      TotalIsSum(front);
      TotalIsSum(front[1..]);
      assert tail[..|tail| - 1] == front[1..];
    } else if s != [] {
      assert s[1..] == [] && s[..0] == [];
    }
  }

  /** Division drops a fraction of one, never more, and never turns a sign. */
  lemma QuotientTruncates(a: int, b: int)
    requires b > 0
    ensures a >= 0 ==> Quotient(a, b) * b <= a < Quotient(a, b) * b + b
    ensures a <= 0 ==> Quotient(a, b) * b - b < a <= Quotient(a, b) * b
    ensures Quotient(-a, b) == -Quotient(a, b)
  {
  }

  /** The mean is the sum divided by the number of samples, without its fraction. */
  lemma MeanTruncates(s: seq<Sample>)
    ensures Mean(s).None? <==> s == []
    ensures s != [] ==> var m, n := Mean(s).value, |s|;
      && (Sum(s) >= 0 ==> m * n <= Sum(s) < m * n + n)
      && (Sum(s) <= 0 ==> m * n - n < Sum(s) <= m * n)
  {
    TotalIsSum(s);
    if s != [] {
      QuotientTruncates(Total(s), |s|);
    }
  }

  lemma {:induction false} SumIsBetween(s: seq<Sample>, lo: int, hi: int)
    requires forall x :: x in s ==> lo <= x.milli <= hi
    ensures lo * |s| <= Sum(s) <= hi * |s|
  {
    if s != [] {
      SumIsBetween(s[1..], lo, hi);
      assert lo * |s| == lo + lo * |s[1..]| && hi * |s| == hi + hi * |s[1..]|;
    }
  }

  /** It lies between the smallest and the greatest sample. */
  lemma MeanIsBetween(s: seq<Sample>, lo: int, hi: int)
    requires s != [] && forall x :: x in s ==> lo <= x.milli <= hi
    ensures lo <= Mean(s).value <= hi
  {
    MeanTruncates(s);
    SumIsBetween(s, lo, hi);
    var m, n := Mean(s).value, |s|;
    if m > hi {
      NextMultiple(hi, m, n);
    }
    if m < lo {
      NextMultiple(m, lo, n);
    }
  }

  lemma NextMultiple(a: int, b: int, n: nat)
    requires a < b
    ensures a * n + n <= b * n
  {
    assert (a + 1) * n == a * n + n;
  }

  // ---------- The operations as functions on the store ----------

  function Added(m: MetricState, pod: ResourceRef, x: Sample): MetricState {
    m.(items := m.items[pod := Stored(m, pod) + [x]])
  }

  function AgedOff(m: MetricState, retentionMins: int, now: int): MetricState {
    m.(items := map p | p in m.items :: Later(m.items[p], now - Minutes(retentionMins)))
  }

  function Scaled(m: MetricState, pod: ResourceRef, now: int): MetricState {
    m.(lastScaled := m.lastScaled[pod := now])
  }

  function Forgotten(m: MetricState, pod: ResourceRef): MetricState {
    MetricState(m.items - {pod}, m.lastScaled - {pod})
  }

  predicate Due(m: MetricState, pod: ResourceRef, intervalMins: int, now: int) {
    pod in m.lastScaled && now > m.lastScaled[pod] + Minutes(intervalMins)
  }

  /** The samples on record for a pod. */
  function Stored(m: MetricState, pod: ResourceRef): seq<Sample> {
    if pod in m.items then m.items[pod] else []
  }

  function Window(m: MetricState, pod: ResourceRef, windowMins: int, now: int): seq<Sample> {
    Later(Stored(m, pod), now - Minutes(windowMins))
  }

  function WindowMean(m: MetricState, pod: ResourceRef, windowMins: int, now: int): Option<int> {
    Mean(Window(m, pod, windowMins, now))
  }

  // ---------- The store as an object ----------

  class StroomNodeMetricMap {
    var items: map<ResourceRef, seq<Sample>>
    var lastScaled: map<ResourceRef, int>

    function View(): MetricState
      reads this
    {
      MetricState(items, lastScaled)
    }

    constructor ()
      ensures View() == MetricState(map[], map[])
    {
      items, lastScaled := map[], map[];
    }

    method AddMetric(pod: ResourceRef, x: Sample)
      modifies this
      ensures View() == Added(old(View()), pod, x)
    {
      if pod in items {
        items := items[pod := items[pod] + [x]];
      } else {
        assert [] + [x] == [x];
        items := items[pod := [x]];
      }
    }

    method IsScaleScheduled(pod: ResourceRef) returns (scheduled: bool)
      ensures scheduled == (pod in View().lastScaled)
    {
      scheduled := pod in lastScaled;
    }

    method SetLastScaled(pod: ResourceRef, now: int)
      modifies this
      ensures View() == Scaled(old(View()), pod, now)
    {
      lastScaled := lastScaled[pod := now];
    }

    method DeletePodData(pod: ResourceRef)
      modifies this
      ensures View() == Forgotten(old(View()), pod)
    {
      lastScaled := lastScaled - {pod};
      items := items - {pod};
    }

    method ShouldScale(pod: ResourceRef, intervalMins: int, now: int) returns (due: bool)
      ensures due == Due(View(), pod, intervalMins, now)
    {
      due := false;
      if pod in lastScaled {
        due := now > lastScaled[pod] + Minutes(intervalMins);
      }
    }

    /** Rebuilds the list of every pod. */
    method AgeOff(retentionMins: int, now: int)
      modifies `items
      ensures View() == AgedOff(old(View()), retentionMins, now)
    {
      ghost var before := items;
      var cutoff := now - Minutes(retentionMins);
      var pending := items.Keys;
      while pending != {}
        invariant items.Keys == before.Keys && pending <= before.Keys
        invariant forall p :: p in pending ==> items[p] == before[p]
        invariant forall p :: p in before && p !in pending ==> items[p] == Later(before[p], cutoff)
        decreases |pending|
      {
        var pod :| pod in pending;
        var list := items[pod];
        var kept: seq<Sample> := [];
        ghost var start := items;
        for i := 0 to |list|
          invariant items == start
          invariant kept == Later(list[..i], cutoff)
        {
          LaterStep(list, i, cutoff);
          if list[i].time > cutoff {
            kept := kept + [list[i]];
          }
        }
        assert list[..|list|] == list;
        items := items[pod := kept];
        pending := pending - {pod};
      }
      assert items == AgedOff(old(View()), retentionMins, now).items;
    }

    method GetSlidingWindowMean(pod: ResourceRef, windowMins: int, now: int) returns (mean: Option<int>)
      ensures mean == WindowMean(View(), pod, windowMins, now)
    {
      if pod !in items {
        return None;
      }
      var cutoff := now - Minutes(windowMins);
      var list := items[pod];
      var sum, valueCount := 0, 0;
      for i := 0 to |list|
        invariant sum == Total(Later(list[..i], cutoff))
        invariant valueCount == |Later(list[..i], cutoff)|
      {
        LaterStep(list, i, cutoff);
        if list[i].time > cutoff {
          sum := sum + list[i].milli;
          valueCount := valueCount + 1;
        }
      }
      assert list[..|list|] == list;
      mean := if valueCount > 0 then Some(Quotient(sum, valueCount)) else None;
    }
  }
}
