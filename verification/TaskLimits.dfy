/** The bounded step on the task limit: rounding, range, drift and convergence. */
module TaskLimits {
  import opened Resources
  import opened Metrics
  import opened Autoscaler
  import opened AutoscalerRuns

  // ---------- Rounding ----------

  predicate NonNegative(s: seq<Sample>) {
    forall x :: x in s ==> x.milli >= 0
  }

  lemma {:induction false} TotalNonNegative(s: seq<Sample>)
    requires NonNegative(s)
    ensures Total(s) >= 0
  {
    if s != [] {
      TotalNonNegative(s[..|s| - 1]);
    }
  }

  /** The load in percent without any rounding. */
  function TrueLoad(s: seq<Sample>, cpuLimit: int): real
    requires s != [] && cpuLimit > 0
  {
    100.0 * (Sum(s) as real / |s| as real) / cpuLimit as real
  }

  /** The percentage that the controller compares with its bounds. */
  function ReadPercent(s: seq<Sample>, cpuLimit: int): int
    requires s != [] && cpuLimit > 0
  {
    CpuPercent(Mean(s).value, cpuLimit, 0)
  }

  lemma Floor(a: int, b: int)
    requires a >= 0 && b > 0
    ensures (a / b) as real <= a as real / b as real < (a / b) as real + 1.0
  {
    var q := a / b;
    assert q * b <= a < (q + 1) * b;
    assert (q as real) * (b as real) <= a as real < (q as real + 1.0) * (b as real);
    Divide(q as real, a as real, b as real);
    assert !(a as real / b as real >= q as real + 1.0) by {
      if a as real / b as real >= q as real + 1.0 {
        Multiply(a as real, b as real, q as real + 1.0);
      }
    }
  }

  lemma Divide(x: real, y: real, d: real)
    requires d > 0.0 && x * d <= y
    ensures x <= y / d
  {
  }

  lemma Multiply(y: real, d: real, x: real)
    requires d > 0.0 && y / d >= x
    ensures y >= x * d
  {
  }

  lemma Scale(x: real, y: real, d: real)
    requires d > 0.0 && x <= y
    ensures 100.0 * x / d <= 100.0 * y / d
  {
  }

  lemma ScaleStrict(x: real, y: real, d: real)
    requires d > 0.0 && x < y + 1.0
    ensures 100.0 * x / d < 100.0 * y / d + 100.0 / d
  {
    assert 100.0 * (y + 1.0) / d == 100.0 * y / d + 100.0 / d;
    assert 100.0 * x / d < 100.0 * (y + 1.0) / d;
  }

  /**
   Truncating the mean and then the percentage never overstates the load and understates it by less than one
   point plus one thousandth of a core.
   */
  lemma RoundingBound(s: seq<Sample>, cpuLimit: int)
    requires s != [] && cpuLimit > 0 && NonNegative(s)
    ensures ReadPercent(s, cpuLimit) as real <= TrueLoad(s, cpuLimit)
    ensures TrueLoad(s, cpuLimit) < ReadPercent(s, cpuLimit) as real + 1.0 + 100.0 / cpuLimit as real
  {
    TotalNonNegative(s);
    TotalIsSum(s);
    var mean := Total(s) / |s|;
    var exact := Total(s) as real / |s| as real;
    Floor(Total(s), |s|);
    Floor(mean * 100, cpuLimit);
    Scale(mean as real, exact, cpuLimit as real);
    ScaleStrict(exact, mean as real, cpuLimit as real);
    assert (mean * 100) as real == 100.0 * mean as real;
  }

  /**
   The limit goes down only when the true load is above the maximum, and up only when it is below the minimum,
   give or take the rounding error, and no task slot is idle; and a load above the maximum by more than that
   error does bring it down.
   */
  lemma StepsFollowTheLoad(s: seq<Sample>, cpuLimit: int, o: Options, active: int, limit: int)
    requires s != [] && cpuLimit > 0 && NonNegative(s) && o.stepAmount >= 1
    ensures var load, error := TrueLoad(s, cpuLimit), 100.0 / cpuLimit as real;
      var next := NewLimit(o, ReadPercent(s, cpuLimit), active, limit);
      && (next < limit ==> load > o.maxCpuPercent as real)
      && (next > limit ==> load < o.minCpuPercent as real + error && active >= limit)
      && (load >= o.maxCpuPercent as real + 1.0 + error && limit > o.minTaskLimit && o.minCpuPercent <= o.maxCpuPercent
          ==> next < limit)
  {
    RoundingBound(s, cpuLimit);
  }

  // ---------- Range ----------

  function Distance(limit: int, o: Options): nat {
    if limit < o.minTaskLimit then o.minTaskLimit - limit
    else if limit > o.maxTaskLimit then limit - o.maxTaskLimit
    else 0
  }

  predicate Sensible(o: Options) {
    o.minTaskLimit <= o.maxTaskLimit && o.stepAmount >= 1
  }

  function Gap(a: int, b: int): nat {
    if a <= b then b - a else a - b
  }

  lemma StepIsBounded(o: Options, percent: int, active: int, limit: int)
    requires Sensible(o)
    ensures Gap(limit, NewLimit(o, percent, active, limit)) <= o.stepAmount
    ensures Distance(NewLimit(o, percent, active, limit), o) <= Distance(limit, o)
  {
  }

  /** `next` is a limit that some reading calls for. */
  ghost predicate IsStep(o: Options, limit: int, next: int) {
    exists percent, active :: next == NewLimit(o, percent, active, limit)
  }

  lemma AttemptSteps(limits: map<JobNode, int>, v: Visit, percent: int, key: JobNode)
    requires key in limits
    ensures key in AttemptAt(limits, v, percent).0
    ensures AttemptAt(limits, v, percent).0[key] == limits[key]
      || (KeyOf(v) == key && IsStep(v.options, limits[key], AttemptAt(limits, v, percent).0[key]))
  {
    if AttemptAt(limits, v, percent).0 != limits {
      var next := NewLimit(v.options, percent, v.answer.activeTasks, limits[KeyOf(v)]);
      assert AttemptAt(limits, v, percent).0 == limits[KeyOf(v) := next];
    }
  }

  lemma AnyStepIsBounded(o: Options, limit: int, next: int)
    requires Sensible(o) && IsStep(o, limit, next)
    ensures Gap(limit, next) <= o.stepAmount
    ensures Distance(next, o) <= Distance(limit, o)
  {
    var percent, active :| next == NewLimit(o, percent, active, limit);
    StepIsBounded(o, percent, active, limit);
  }

  /** What a visit does to the task limits: nothing, or an attempt at some percentage. */
  lemma VisitLimits(w: World, v: Visit) returns (percent: int)
    ensures VisitPod(w, v).0.limits == w.limits
      || (Attempts(w, v) && VisitPod(w, v).0.limits == AttemptAt(w.limits, v, percent).0)
    ensures Attempts(w, v) ==>
      match WindowMean(Recorded(w.metrics, v), v.pod, v.options.windowMins, v.now)
      case None => VisitPod(w, v).0.limits == w.limits && VisitPod(w, v).1 == Continue
      case Some(mean) =>
        && percent == CpuPercent(mean, v.cpuLimit, v.unlimitedPercent)
        && VisitPod(w, v).0.limits == AttemptAt(w.limits, v, percent).0
        && VisitPod(w, v).1 == if AttemptAt(w.limits, v, percent).1 then Continue else Error
  {
    percent := 0;
    if Attempts(w, v) {
      var mean := WindowMean(Recorded(w.metrics, v), v.pod, v.options.windowMins, v.now);
      if mean.Some? {
        percent := CpuPercent(mean.value, v.cpuLimit, v.unlimitedPercent);
      }
    }
  }

  lemma AttemptSets(limits: map<JobNode, int>, v: Visit, percent: int)
    requires KeyOf(v) in limits && v.answer.Row? && !v.answer.updateFails
    ensures AttemptAt(limits, v, percent)
      == (limits[KeyOf(v) := NewLimit(v.options, percent, v.answer.activeTasks, limits[KeyOf(v)])], true)
  {
    assert limits[KeyOf(v) := limits[KeyOf(v)]] == limits;
  }

  /** A visit leaves a limit alone or takes the step that its reading calls for. */
  lemma VisitSteps(w: World, v: Visit, key: JobNode)
    requires key in w.limits
    ensures key in VisitPod(w, v).0.limits
    ensures VisitPod(w, v).0.limits[key] == w.limits[key]
      || (KeyOf(v) == key && Attempts(w, v) && IsStep(v.options, w.limits[key], VisitPod(w, v).0.limits[key]))
  {
    var percent := VisitLimits(w, v);
    AttemptSteps(w.limits, v, percent, key);
  }

  /**
   An attempt that finds samples and meets no failure sets exactly the limit that its mean and active tasks
   call for.
   */
  lemma AttemptSucceeds(w: World, v: Visit, mean: int)
    requires KeyOf(v) in w.limits && v.answer.Row? && !v.answer.updateFails
    ensures Attempts(w, v) && WindowMean(Recorded(w.metrics, v), v.pod, v.options.windowMins, v.now) == Some(mean) ==>
      var percent := CpuPercent(mean, v.cpuLimit, v.unlimitedPercent);
      && VisitPod(w, v).1 == Continue
      && VisitPod(w, v).0.limits
        == w.limits[KeyOf(v) := NewLimit(v.options, percent, v.answer.activeTasks, w.limits[KeyOf(v)])]
  {
    var percent := VisitLimits(w, v);
    AttemptSets(w.limits, v, percent);
  }

  /**
   For any sequence of visits and any starting limit, the limit never moves away from its range, and so never
   leaves it.
   */
  lemma {:induction false} RunKeepsRange(w: World, visits: seq<Visit>, key: JobNode, o: Options)
    requires key in w.limits && Sensible(o)
    requires forall v :: v in visits && KeyOf(v) == key ==> v.options == o
    ensures key in Run(w, visits).limits
    ensures Distance(Run(w, visits).limits[key], o) <= Distance(w.limits[key], o)
    decreases |visits|
  {
    if visits != [] {
      var front, last := visits[..|visits| - 1], visits[|visits| - 1];
      RunKeepsRange(w, front, key, o);
      var u := Run(w, front);
      assert last in visits;
      VisitSteps(u, last, key);
      var next := VisitPod(u, last).0.limits[key];
      if next != u.limits[key] {
        AnyStepIsBounded(o, u.limits[key], next);
      }
    }
  }

  // ---------- Drift ----------

  /** Only pod `pod` runs the node and task of `key`. */
  predicate SolePod(visits: seq<Visit>, key: JobNode, pod: ResourceRef) {
    forall v :: v in visits && KeyOf(v) == key ==> v.pod == pod
  }

  lemma VisitDrift(w: World, v: Visit, key: JobNode, step: nat)
    requires key in w.limits
    requires KeyOf(v) == key ==> Sensible(v.options) && v.options.stepAmount <= step
    ensures key in VisitPod(w, v).0.limits
    ensures Gap(w.limits[key], VisitPod(w, v).0.limits[key]) <= (if KeyOf(v) == key && Attempts(w, v) then step else 0)
  {
    VisitSteps(w, v, key);
    var next := VisitPod(w, v).0.limits[key];
    if next != w.limits[key] {
      AnyStepIsBounded(v.options, w.limits[key], next);
    }
  }

  /** The sum of `n` steps. */
  function Steps(n: nat, step: nat): nat {
    if n == 0 then 0 else Steps(n - 1, step) + step
  }

  lemma {:induction false} StepsMultiply(n: nat, step: nat)
    ensures Steps(n, step) == n * step
  {
    if n > 0 {
      StepsMultiply(n - 1, step);
    }
  }

  lemma AttemptCount(w: World, visits: seq<Visit>, pod: ResourceRef)
    requires visits != []
    ensures var front, last := visits[..|visits| - 1], visits[|visits| - 1];
      |AttemptTimes(w, visits, pod)|
      == |AttemptTimes(w, front, pod)| + if last.pod == pod && Attempts(Run(w, front), last) then 1 else 0
  {
  }

  lemma GapGrows(a: int, b: int, c: int, n: nat, step: nat)
    requires Gap(a, b) <= Steps(n, step)
    ensures Gap(b, c) <= step ==> Gap(a, c) <= Steps(n + 1, step)
    ensures Gap(b, c) == 0 ==> Gap(a, c) <= Steps(n, step)
  {
  }

  /** The limit moves by at most one step amount per attempt. */
  lemma {:induction false} DriftPerAttempt(w: World, visits: seq<Visit>, key: JobNode, pod: ResourceRef, step: nat)
    requires key in w.limits && SolePod(visits, key, pod)
    requires forall v :: v in visits && KeyOf(v) == key ==> Sensible(v.options) && v.options.stepAmount <= step
    ensures key in Run(w, visits).limits
    ensures Gap(w.limits[key], Run(w, visits).limits[key]) <= Steps(|AttemptTimes(w, visits, pod)|, step)
    decreases |visits|
  {
    if visits != [] {
      var front, last := visits[..|visits| - 1], visits[|visits| - 1];
      DriftPerAttempt(w, front, key, pod, step);
      assert last in visits;
      AttemptCount(w, visits, pod);
      var u := Run(w, front);
      VisitDrift(u, last, key, step);
      GapGrows(w.limits[key], u.limits[key], VisitPod(u, last).0.limits[key], |AttemptTimes(w, front, pod)|, step);
    }
  }

  lemma {:induction false} AttemptsAreVisits(w: World, visits: seq<Visit>, pod: ResourceRef)
    requires Ordered(visits)
    ensures forall t :: t in AttemptTimes(w, visits, pod) ==>
      (visits != [] && visits[0].now <= t <= visits[|visits| - 1].now)
    decreases |visits|
  {
    if visits != [] {
      AttemptsAreVisits(w, visits[..|visits| - 1], pod);
    }
  }

  /** The intervals between spaced times fit into any period that holds them. */
  lemma SpanOfTimes(times: seq<int>, gap: int, start: int, end: int)
    requires Spaced(times, gap) && |times| > 1
    requires start <= times[0] && times[|times| - 1] <= end
    ensures (|times| - 1) * gap < end - start
  {
    var last := |times| - 1;
    assert times[last] > times[0] + (last - 0) * gap;
  }

  lemma AttemptsInRun(w: World, visits: seq<Visit>, pod: ResourceRef, intervalMins: int)
    requires Ordered(visits) && visits != [] && IntervalsAtLeast(visits, pod, intervalMins)
    ensures var k := |AttemptTimes(w, visits, pod)|;
      k <= 1 || (k - 1) * Minutes(intervalMins) < visits[|visits| - 1].now - visits[0].now
  {
    var times := AttemptTimes(w, visits, pod);
    if |times| > 1 {
      AttemptsAreVisits(w, visits, pod);
      assert times[0] in times && times[|times| - 1] in times;
      AttemptsAreSpaced(w, visits, pod, intervalMins);
      SpanOfTimes(times, Minutes(intervalMins), visits[0].now, visits[|visits| - 1].now);
    }
  }

  /**
   Over a run the limit moves by at most `k` step amounts, where the intervals between `k` attempts fit into the
   time that the run takes.
   */
  lemma DriftRate(w: World, visits: seq<Visit>, key: JobNode, pod: ResourceRef, step: nat, intervalMins: int)
    requires key in w.limits && SolePod(visits, key, pod)
    requires Ordered(visits) && visits != [] && IntervalsAtLeast(visits, pod, intervalMins)
    requires forall v :: v in visits && KeyOf(v) == key ==> Sensible(v.options) && v.options.stepAmount <= step
    ensures key in Run(w, visits).limits
    ensures var k := |AttemptTimes(w, visits, pod)|;
      && Gap(w.limits[key], Run(w, visits).limits[key]) <= k * step
      && (k <= 1 || (k - 1) * Minutes(intervalMins) < visits[|visits| - 1].now - visits[0].now)
  {
    DriftPerAttempt(w, visits, key, pod, step);
    StepsMultiply(|AttemptTimes(w, visits, pod)|, step);
    AttemptsInRun(w, visits, pod, intervalMins);
  }

  // ---------- Convergence ----------

  /** The node and task of `key` are those of pod `pod` in every visit, and of no other pod. */
  predicate Dedicated(visits: seq<Visit>, key: JobNode, pod: ResourceRef) {
    forall i :: 0 <= i < |visits| ==> (KeyOf(visits[i]) == key <==> visits[i].pod == pod)
  }

  /** The mean that an attempt in this visit finds. */
  function FoundMean(w: World, v: Visit): Option<int>
    requires v.reading.Usage?
  {
    WindowMean(Recorded(w.metrics, v), v.pod, v.options.windowMins, v.now)
  }

  /** An attempt under options `o` that finds samples and whose reads and update do not fail. */
  predicate Succeeds(w: World, v: Visit, o: Options)
    requires v.reading.Usage?
  {
    v.options == o && v.answer.Row? && !v.answer.updateFails && FoundMean(w, v).Some?
  }

  function FoundPercent(w: World, v: Visit): int
    requires v.reading.Usage? && FoundMean(w, v).Some?
  {
    CpuPercent(FoundMean(w, v).value, v.cpuLimit, v.unlimitedPercent)
  }

  /** If the visit is an attempt on `key`, it succeeds and reads more load than the maximum. */
  predicate ReadsOverload(w: World, v: Visit, key: JobNode, o: Options) {
    KeyOf(v) == key && Attempts(w, v) ==>
      Succeeds(w, v, o) && FoundPercent(w, v) > o.maxCpuPercent && FoundPercent(w, v) >= o.minCpuPercent
  }

  /** If it is one, it succeeds and reads less than the minimum, with as many tasks active as the limit allows. */
  predicate ReadsUnderload(w: World, v: Visit, key: JobNode, o: Options) {
    KeyOf(v) == key && Attempts(w, v) && key in w.limits ==>
      Succeeds(w, v, o) && FoundPercent(w, v) < o.minCpuPercent && v.answer.activeTasks >= w.limits[key]
  }

  predicate Overloaded(w: World, visits: seq<Visit>, key: JobNode, o: Options)
    decreases |visits|
  {
    visits == []
    || (Overloaded(w, visits[..|visits| - 1], key, o)
        && ReadsOverload(Run(w, visits[..|visits| - 1]), visits[|visits| - 1], key, o))
  }

  predicate Saturated(w: World, visits: seq<Visit>, key: JobNode, o: Options)
    decreases |visits|
  {
    visits == []
    || (Saturated(w, visits[..|visits| - 1], key, o)
        && ReadsUnderload(Run(w, visits[..|visits| - 1]), visits[|visits| - 1], key, o))
  }

  function Greater(a: int, b: int): int {
    if a >= b then a else b
  }

  /** The limit after `n` steps down, or up, from `limit`, as far as the bound. */
  function Lowered(limit: int, n: nat, step: nat, bound: int): int {
    Greater(limit - Steps(n, step), bound)
  }

  function Raised(limit: int, n: nat, step: nat, bound: int): int {
    Least(limit + Steps(n, step), bound)
  }

  lemma StepDown(limit: int, n: nat, step: nat, bound: int)
    ensures Greater(Lowered(limit, n, step, bound) - step, bound) == Lowered(limit, n + 1, step, bound)
    ensures limit >= bound ==> Lowered(limit, 0, step, bound) == limit
  {
  }

  lemma StepUp(limit: int, n: nat, step: nat, bound: int)
    ensures Least(Raised(limit, n, step, bound) + step, bound) == Raised(limit, n + 1, step, bound)
    ensures limit <= bound ==> Raised(limit, 0, step, bound) == limit
  {
  }

  function Ceiling(a: nat, b: int): nat
    requires b > 0
  {
    (a + b - 1) / b
  }

  lemma CeilingIsLeast(a: nat, b: int, n: nat)
    requires b > 0
    ensures n >= Ceiling(a, b) <==> n * b >= a
  {
    var c := Ceiling(a, b);
    assert c * b <= a + b - 1 < (c + 1) * b;
    if n >= c {
      assert n * b >= c * b;
    } else {
      assert n * b <= (c - 1) * b;
    }
  }

  /** What a visit does to the limit of a dedicated pod whose attempts succeed. */
  lemma VisitSets(w: World, v: Visit, key: JobNode, pod: ResourceRef, o: Options)
    requires key in w.limits && (KeyOf(v) == key <==> v.pod == pod)
    requires v.pod == pod && Attempts(w, v) ==> Succeeds(w, v, o)
    ensures key in VisitPod(w, v).0.limits
    ensures VisitPod(w, v).0.limits[key]
      == if v.pod == pod && Attempts(w, v) then NewLimit(o, FoundPercent(w, v), v.answer.activeTasks, w.limits[key])
         else w.limits[key]
  {
    if v.pod == pod && Attempts(w, v) {
      AttemptSucceeds(w, v, FoundMean(w, v).value);
    } else {
      VisitSteps(w, v, key);
    }
  }

  lemma OverloadedVisit(w: World, v: Visit, key: JobNode, pod: ResourceRef, o: Options)
    requires key in w.limits && w.limits[key] >= o.minTaskLimit && o.stepAmount >= 1
    requires (KeyOf(v) == key <==> v.pod == pod) && ReadsOverload(w, v, key, o)
    ensures key in VisitPod(w, v).0.limits
    ensures VisitPod(w, v).0.limits[key]
      == if v.pod == pod && Attempts(w, v) then Greater(w.limits[key] - o.stepAmount, o.minTaskLimit)
         else w.limits[key]
  {
    VisitSets(w, v, key, pod, o);
  }

  lemma {:induction false} OverloadedLimit(w: World, visits: seq<Visit>, key: JobNode, pod: ResourceRef, o: Options)
    requires key in w.limits && w.limits[key] >= o.minTaskLimit && o.stepAmount >= 1
    requires Dedicated(visits, key, pod) && Overloaded(w, visits, key, o)
    ensures key in Run(w, visits).limits
    ensures Run(w, visits).limits[key]
      == Lowered(w.limits[key], |AttemptTimes(w, visits, pod)|, o.stepAmount, o.minTaskLimit)
    decreases |visits|
  {
    StepDown(w.limits[key], 0, o.stepAmount, o.minTaskLimit);
    if visits != [] {
      var front, last := visits[..|visits| - 1], visits[|visits| - 1];
      OverloadedLimit(w, front, key, pod, o);
      AttemptCount(w, visits, pod);
      StepDown(w.limits[key], |AttemptTimes(w, front, pod)|, o.stepAmount, o.minTaskLimit);
      OverloadedVisit(Run(w, front), last, key, pod, o);
    }
  }

  /** The limit `after` is `n` steps down from `limit`, and at its bound after exactly as many as fit between. */
  predicate Descends(limit: int, n: nat, step: nat, bound: int, after: int)
    requires limit >= bound && step >= 1
  {
    && after == Greater(limit - n * step, bound)
    && (after == bound <==> n >= Ceiling(limit - bound, step))
  }

  predicate Climbs(limit: int, n: nat, step: nat, bound: int, after: int)
    requires limit <= bound && step >= 1
  {
    && after == Least(limit + n * step, bound)
    && (after == bound <==> n >= Ceiling(bound - limit, step))
  }

  lemma LoweredExactly(limit: int, n: nat, step: nat, bound: int)
    requires limit >= bound && step >= 1
    ensures Descends(limit, n, step, bound, Lowered(limit, n, step, bound))
  {
    StepsMultiply(n, step);
    CeilingIsLeast(limit - bound, step, n);
  }

  lemma RaisedExactly(limit: int, n: nat, step: nat, bound: int)
    requires limit <= bound && step >= 1
    ensures Climbs(limit, n, step, bound, Raised(limit, n, step, bound))
  {
    StepsMultiply(n, step);
    CeilingIsLeast(bound - limit, step, n);
  }

  /**
   Over a run in which every attempt on a pod succeeds and reads overload, whatever other visits lie in between,
   the limit falls by one step amount per attempt and reaches the minimum, where it stays, after exactly so many.
   */
  lemma OverloadConverges(w: World, visits: seq<Visit>, key: JobNode, pod: ResourceRef, o: Options)
    requires key in w.limits && w.limits[key] >= o.minTaskLimit && o.stepAmount >= 1
    requires Dedicated(visits, key, pod) && Overloaded(w, visits, key, o)
    ensures key in Run(w, visits).limits
    ensures Descends(
      w.limits[key], |AttemptTimes(w, visits, pod)|, o.stepAmount, o.minTaskLimit, Run(w, visits).limits[key])
  {
    OverloadedLimit(w, visits, key, pod, o);
    LoweredExactly(w.limits[key], |AttemptTimes(w, visits, pod)|, o.stepAmount, o.minTaskLimit);
  }

  lemma SaturatedVisit(w: World, v: Visit, key: JobNode, pod: ResourceRef, o: Options)
    requires key in w.limits && w.limits[key] <= o.maxTaskLimit && o.stepAmount >= 1
    requires o.minCpuPercent <= o.maxCpuPercent
    requires (KeyOf(v) == key <==> v.pod == pod) && ReadsUnderload(w, v, key, o)
    ensures key in VisitPod(w, v).0.limits
    ensures VisitPod(w, v).0.limits[key]
      == if v.pod == pod && Attempts(w, v) then Least(w.limits[key] + o.stepAmount, o.maxTaskLimit)
         else w.limits[key]
  {
    VisitSets(w, v, key, pod, o);
  }

  lemma {:induction false} SaturatedLimit(w: World, visits: seq<Visit>, key: JobNode, pod: ResourceRef, o: Options)
    requires key in w.limits && w.limits[key] <= o.maxTaskLimit && o.stepAmount >= 1
    requires o.minCpuPercent <= o.maxCpuPercent
    requires Dedicated(visits, key, pod) && Saturated(w, visits, key, o)
    ensures key in Run(w, visits).limits
    ensures Run(w, visits).limits[key]
      == Raised(w.limits[key], |AttemptTimes(w, visits, pod)|, o.stepAmount, o.maxTaskLimit)
    decreases |visits|
  {
    StepUp(w.limits[key], 0, o.stepAmount, o.maxTaskLimit);
    if visits != [] {
      var front, last := visits[..|visits| - 1], visits[|visits| - 1];
      SaturatedLimit(w, front, key, pod, o);
      AttemptCount(w, visits, pod);
      StepUp(w.limits[key], |AttemptTimes(w, front, pod)|, o.stepAmount, o.maxTaskLimit);
      SaturatedVisit(Run(w, front), last, key, pod, o);
    }
  }

  /**
   Likewise, if every attempt reads too little load with all slots in use, the limit rises by one step amount per
   attempt and reaches the maximum, where it stays, after exactly so many.
   */
  lemma UnderloadConverges(w: World, visits: seq<Visit>, key: JobNode, pod: ResourceRef, o: Options)
    requires key in w.limits && w.limits[key] <= o.maxTaskLimit && o.stepAmount >= 1
    requires o.minCpuPercent <= o.maxCpuPercent
    requires Dedicated(visits, key, pod) && Saturated(w, visits, key, o)
    ensures key in Run(w, visits).limits
    ensures Climbs(
      w.limits[key], |AttemptTimes(w, visits, pod)|, o.stepAmount, o.maxTaskLimit, Run(w, visits).limits[key])
  {
    SaturatedLimit(w, visits, key, pod, o);
    RaisedExactly(w.limits[key], |AttemptTimes(w, visits, pod)|, o.stepAmount, o.maxTaskLimit);
  }
}
