/** What the task autoscaler keeps over whole runs: its samples, its books, its rate and its range. */
module AutoscalerRuns {
  import opened Resources
  import opened Metrics
  import opened Naming
  import opened Autoscaler

  /** The state after every one of the visits, across any number of passes. */
  function Run(w: World, visits: seq<Visit>): World {
    if visits == [] then w else VisitPod(Run(w, visits[..|visits| - 1]), visits[|visits| - 1]).0
  }

  /** The visits that a pass gets to. */
  function Visited(w: World, visits: seq<Visit>): (made: seq<Visit>)
    ensures made <= visits
    decreases |visits|
  {
    if visits == [] then []
    else
      var (w', outcome) := VisitPod(w, visits[0]);
      [visits[0]] + (if outcome == Continue then Visited(w', visits[1..]) else [])
  }

  function AllVisited(w: World, nodeSets: seq<NodeSetPass>): seq<Visit>
    decreases |nodeSets|
  {
    if nodeSets == [] then []
    else if nodeSets[0].role == FRONTEND_ROLE then AllVisited(w, nodeSets[1..])
    else if nodeSets[0].listFails then []
    else
      var (w', outcome) := VisitPods(w, nodeSets[0].visits);
      Visited(w, nodeSets[0].visits) + (if outcome == Continue then AllVisited(w', nodeSets[1..]) else [])
  }

  lemma {:induction false} RunJoin(w: World, a: seq<Visit>, b: seq<Visit>)
    ensures Run(w, a + b) == Run(Run(w, a), b)
    decreases |b|
  {
    if b == [] {
      assert a + b == a;
    } else {
      RunJoin(w, a, b[..|b| - 1]);
      assert (a + b)[..|a + b| - 1] == a + b[..|b| - 1];
    }
  }

  lemma RunOne(w: World, v: Visit)
    ensures Run(w, [v]) == VisitPod(w, v).0
  {
    assert [v][..0] == [];
  }

  lemma {:induction false} VisitPodsIsRun(w: World, visits: seq<Visit>)
    ensures VisitPods(w, visits).0 == Run(w, Visited(w, visits))
    decreases |visits|
  {
    if visits != [] {
      var (w', outcome) := VisitPod(w, visits[0]);
      RunOne(w, visits[0]);
      if outcome == Continue {
        VisitPodsIsRun(w', visits[1..]);
        RunJoin(w, [visits[0]], Visited(w', visits[1..]));
      } else {
        assert Visited(w, visits) == [visits[0]];
      }
    }
  }

  /** A Reconcile, however it ends, is a run of visits. */
  lemma {:induction false} PassIsRun(w: World, nodeSets: seq<NodeSetPass>)
    ensures VisitNodeSets(w, nodeSets).0 == Run(w, AllVisited(w, nodeSets))
    decreases |nodeSets|
  {
    if nodeSets != [] {
      if nodeSets[0].role == FRONTEND_ROLE {
        PassIsRun(w, nodeSets[1..]);
      } else if !nodeSets[0].listFails {
        var (w', outcome) := VisitPods(w, nodeSets[0].visits);
        var made := Visited(w, nodeSets[0].visits);
        VisitPodsIsRun(w, nodeSets[0].visits);
        if outcome == Continue {
          PassIsRun(w', nodeSets[1..]);
          RunJoin(w, made, AllVisited(w', nodeSets[1..]));
        } else {
          assert AllVisited(w, nodeSets) == made;
        }
      }
    }
  }

  const NO_METRICS := MetricState(map[], map[])

  /** The clock never goes back. */
  predicate Ordered(visits: seq<Visit>) {
    forall i, j :: 0 <= i <= j < |visits| ==> visits[i].now <= visits[j].now
  }

  // ---------- Pruned against full history ----------

  /** Every sample ever added for the pod since its data was last deleted. */
  function History(visits: seq<Visit>, pod: ResourceRef): seq<Sample> {
    if visits == [] then []
    else
      var front, last := visits[..|visits| - 1], visits[|visits| - 1];
      if last.pod != pod then History(front, pod)
      else
        match last.reading
        case NoMetrics => []
        case NoContainer => History(front, pod)
        case Usage(x) => History(front, pod) + [x]
  }

  /** What a visit does to the two maps. */
  lemma VisitMetrics(w: World, v: Visit)
    ensures var m := VisitPod(w, v).0.metrics;
      match v.reading
      case NoMetrics => m == Forgotten(w.metrics, v.pod)
      case NoContainer => m == w.metrics
      case Usage(_) =>
        && m.items == Recorded(w.metrics, v).items
        && m.lastScaled == (if Attempts(w, v) || v.pod !in w.metrics.lastScaled
                            then w.metrics.lastScaled[v.pod := v.now] else w.metrics.lastScaled)
  {
  }

  /** Samples of one pod in a store that has just recorded a visit. */
  lemma RecordedSamples(m: MetricState, v: Visit, pod: ResourceRef, cutoff: int)
    requires v.reading.Usage?
    ensures var aged := v.now - Minutes(MAXIMUM_RETENTION_MINS);
      Later(Stored(Recorded(m, v), pod), cutoff)
      == Later(if pod == v.pod then Stored(m, pod) + [v.reading.sample] else Stored(m, pod),
               if aged >= cutoff then aged else cutoff)
  {
    var added, aged := Added(m, v.pod, v.reading.sample), v.now - Minutes(MAXIMUM_RETENTION_MINS);
    var all := if pod == v.pod then Stored(m, pod) + [v.reading.sample] else Stored(m, pod);
    assert Stored(added, pod) == all;
    assert Stored(AgedOff(added, MAXIMUM_RETENTION_MINS, v.now), pod) == Later(all, aged);
    LaterTwice(all, aged, cutoff);
  }

  /** What it does to the samples of one pod after a cutoff that the visit does not prune beyond. */
  lemma VisitSamples(w: World, v: Visit, pod: ResourceRef, cutoff: int)
    requires cutoff >= v.now - Minutes(MAXIMUM_RETENTION_MINS)
    ensures Later(Stored(VisitPod(w, v).0.metrics, pod), cutoff)
      == if pod == v.pod && v.reading.Usage? then Later(Stored(w.metrics, pod) + [v.reading.sample], cutoff)
         else if pod == v.pod && v.reading.NoMetrics? then []
         else Later(Stored(w.metrics, pod), cutoff)
  {
    VisitMetrics(w, v);
    if v.reading.Usage? {
      RecordedSamples(w.metrics, v, pod, cutoff);
    }
  }

  /** Pruning loses nothing after the oldest cutoff that still matters. */
  lemma {:induction false} PruningLosesNothing(
      limits: map<JobNode, int>, visits: seq<Visit>, pod: ResourceRef, cutoff: int)
    requires Ordered(visits)
    requires forall v :: v in visits ==> cutoff >= v.now - Minutes(MAXIMUM_RETENTION_MINS)
    ensures Later(Stored(Run(World(NO_METRICS, limits), visits).metrics, pod), cutoff)
      == Later(History(visits, pod), cutoff)
    decreases |visits|
  {
    if visits != [] {
      var front, last := visits[..|visits| - 1], visits[|visits| - 1];
      PruningLosesNothing(limits, front, pod, cutoff);
      var w := Run(World(NO_METRICS, limits), front);
      assert last in visits;
      VisitSamples(w, last, pod, cutoff);
      if last.pod == pod && last.reading.Usage? {
        LaterAppend(Stored(w.metrics, pod), last.reading.sample, cutoff);
        LaterAppend(History(front, pod), last.reading.sample, cutoff);
      }
    }
  }

  function Least(a: int, b: int): int {
    if a <= b then a else b
  }

  /** The samples that a scaling attempt averages. */
  lemma WindowIsFullHistory(limits: map<JobNode, int>, visits: seq<Visit>, v: Visit, cutoff: int)
    requires Ordered(visits + [v]) && v.reading.Usage?
    requires cutoff == v.now - Minutes(Least(v.options.windowMins, MAXIMUM_RETENTION_MINS))
    ensures Window(Recorded(Run(World(NO_METRICS, limits), visits).metrics, v), v.pod, v.options.windowMins, v.now)
      == Later(History(visits + [v], v.pod), cutoff)
  {
    var m := Run(World(NO_METRICS, limits), visits).metrics;
    OrderedFront(visits, v);
    PruningLosesNothing(limits, visits, v.pod, cutoff);
    HistoryAppend(visits, v, cutoff);
    LaterAppend(Stored(m, v.pod), v.reading.sample, cutoff);
    RecordedWindow(m, v, cutoff);
  }

  /**
   The mean that a scaling attempt uses is the mean over the full history of the pod, restricted to the window
   or to an hour, whichever is shorter.
   */
  lemma AttemptUsesFullHistory(limits: map<JobNode, int>, visits: seq<Visit>, v: Visit, cutoff: int)
    requires Ordered(visits + [v]) && v.reading.Usage?
    requires cutoff == v.now - 60 * 1_000_000_000 * Least(v.options.windowMins, 60)
    ensures WindowMean(Recorded(Run(World(NO_METRICS, limits), visits).metrics, v), v.pod, v.options.windowMins, v.now)
      == Mean(Later(History(visits + [v], v.pod), cutoff))
  {
    WindowIsFullHistory(limits, visits, v, cutoff);
  }

  lemma OrderedFront(visits: seq<Visit>, v: Visit)
    requires Ordered(visits + [v])
    ensures Ordered(visits)
    ensures forall u :: u in visits ==> u.now <= v.now
  {
    var all := visits + [v];
    assert forall i :: 0 <= i < |visits| ==> all[i] == visits[i] && all[i].now <= all[|visits|].now;
  }

  lemma HistoryAppend(visits: seq<Visit>, v: Visit, cutoff: int)
    requires v.reading.Usage?
    ensures Later(History(visits + [v], v.pod), cutoff)
      == Later(History(visits, v.pod), cutoff) + (if v.reading.sample.time > cutoff then [v.reading.sample] else [])
  {
    assert (visits + [v])[..|visits + [v]| - 1] == visits;
    LaterAppend(History(visits, v.pod), v.reading.sample, cutoff);
  }

  lemma LaterCutoff(now: int, windowMins: int)
    ensures var a, b := now - Minutes(MAXIMUM_RETENTION_MINS), now - Minutes(windowMins);
      now - Minutes(Least(windowMins, MAXIMUM_RETENTION_MINS)) == if a >= b then a else b
  {
  }

  /** A window longer than the retention period sees the retention period. */
  lemma RecordedWindow(m: MetricState, v: Visit, cutoff: int)
    requires v.reading.Usage?
    requires cutoff == v.now - Minutes(Least(v.options.windowMins, MAXIMUM_RETENTION_MINS))
    ensures Window(Recorded(m, v), v.pod, v.options.windowMins, v.now)
      == Later(Stored(m, v.pod) + [v.reading.sample], cutoff)
  {
    var aged, start := v.now - Minutes(MAXIMUM_RETENTION_MINS), v.now - Minutes(v.options.windowMins);
    assert cutoff == if aged >= start then aged else start by {
      LaterCutoff(v.now, v.options.windowMins);
    }
    RecordedSamples(m, v, v.pod, start);
  }

  // ---------- Bookkeeping ----------

  /** The time of the most recent pruning. */
  function LastPruning(visits: seq<Visit>): Option<int> {
    if visits == [] then None
    else if visits[|visits| - 1].reading.Usage? then Some(visits[|visits| - 1].now)
    else LastPruning(visits[..|visits| - 1])
  }

  predicate AllLater(m: MetricState, cutoff: int) {
    forall pod :: pod in m.items ==> forall x :: x in m.items[pod] ==> x.time > cutoff
  }

  lemma RecordedIsRecent(m: MetricState, v: Visit)
    requires v.reading.Usage?
    ensures AllLater(Recorded(m, v), v.now - Minutes(MAXIMUM_RETENTION_MINS))
  {
    var added, cutoff := Added(m, v.pod, v.reading.sample), v.now - Minutes(MAXIMUM_RETENTION_MINS);
    forall pod | pod in added.items
      ensures forall x :: x in Recorded(m, v).items[pod] ==> x.time > cutoff
    {
      LaterKeeps(added.items[pod], cutoff);
    }
  }

  /**
   After every visit, early returns and errors included, a pod has samples on record exactly when it has a
   last-scaled time, and no sample is older than the retention period before the most recent pruning.
   */
  lemma {:induction false} BooksBalance(limits: map<JobNode, int>, visits: seq<Visit>)
    ensures var m := Run(World(NO_METRICS, limits), visits).metrics;
      && m.items.Keys == m.lastScaled.Keys
      && (LastPruning(visits).None? ==> m.items == map[])
      && (LastPruning(visits).Some? ==> AllLater(m, LastPruning(visits).value - Minutes(MAXIMUM_RETENTION_MINS)))
    decreases |visits|
  {
    if visits != [] {
      var front, last := visits[..|visits| - 1], visits[|visits| - 1];
      BooksBalance(limits, front);
      var w := Run(World(NO_METRICS, limits), front);
      VisitMetrics(w, last);
      if last.reading.Usage? {
        RecordedIsRecent(w.metrics, last);
      }
    }
  }

  // ---------- Rate limit ----------

  /** The times of the scaling attempts on a pod, failed ones included. */
  function AttemptTimes(w: World, visits: seq<Visit>, pod: ResourceRef): seq<int> {
    if visits == [] then []
    else
      var front, last := visits[..|visits| - 1], visits[|visits| - 1];
      AttemptTimes(w, front, pod)
      + (if last.pod == pod && Attempts(Run(w, front), last) then [last.now] else [])
  }

  predicate Spaced(times: seq<int>, gap: int) {
    forall i, j :: 0 <= i < j < |times| ==> times[j] > times[i] + (j - i) * gap
  }

  lemma SpacedAppend(times: seq<int>, t: int, gap: int)
    requires Spaced(times, gap)
    requires times == [] || t > times[|times| - 1] + gap
    ensures Spaced(times + [t], gap)
  {
    var all := times + [t];
    forall i, j | 0 <= i < j < |all|
      ensures all[j] > all[i] + (j - i) * gap
    {
      if j == |times| && i < |times| - 1 {
        assert times[|times| - 1] > times[i] + (|times| - 1 - i) * gap;
        assert (j - i) * gap == (|times| - 1 - i) * gap + gap;
      }
    }
  }

  predicate IntervalsAtLeast(visits: seq<Visit>, pod: ResourceRef, intervalMins: int) {
    forall v :: v in visits && v.pod == pod ==> v.options.intervalMins >= intervalMins
  }

  lemma AttemptIsLate(m: MetricState, v: Visit, intervalMins: int)
    requires v.reading.Usage? && Due(Recorded(m, v), v.pod, v.options.intervalMins, v.now)
    requires v.options.intervalMins >= intervalMins
    ensures v.pod in m.lastScaled && v.now > m.lastScaled[v.pod] + Minutes(intervalMins)
  {
  }

  /** The attempts so far are spaced, and the pod's last-scaled time is none of the past ones but the last. */
  predicate Paced(times: seq<int>, lastScaled: map<ResourceRef, int>, pod: ResourceRef, gap: int, now: int) {
    && Spaced(times, gap)
    && (times != [] ==> times[|times| - 1] <= now && (pod in lastScaled ==> lastScaled[pod] >= times[|times| - 1]))
  }

  lemma PacedStep(w: World, v: Visit, times: seq<int>, pod: ResourceRef, intervalMins: int, now: int)
    requires Paced(times, w.metrics.lastScaled, pod, Minutes(intervalMins), now)
    requires now <= v.now && (v.pod == pod ==> v.options.intervalMins >= intervalMins)
    ensures Paced(times + (if v.pod == pod && Attempts(w, v) then [v.now] else []),
                  VisitPod(w, v).0.metrics.lastScaled, pod, Minutes(intervalMins), v.now)
  {
    VisitMetrics(w, v);
    if v.pod == pod && Attempts(w, v) {
      AttemptIsLate(w.metrics, v, intervalMins);
      SpacedAppend(times, v.now, Minutes(intervalMins));
    } else {
      assert times + [] == times;
    }
  }

  /**
   Any two attempts on one pod lie more than the adjustment interval apart, whatever happens in between: failed
   attempts, deletion of the pod's data and its registration anew.
   */
  lemma {:induction false} AttemptsAreSpaced(w: World, visits: seq<Visit>, pod: ResourceRef, intervalMins: int)
    requires Ordered(visits) && IntervalsAtLeast(visits, pod, intervalMins)
    ensures Spaced(AttemptTimes(w, visits, pod), Minutes(intervalMins))
    ensures visits != [] ==>
      Paced(AttemptTimes(w, visits, pod), Run(w, visits).metrics.lastScaled, pod, Minutes(intervalMins),
            visits[|visits| - 1].now)
    decreases |visits|
  {
    if visits != [] {
      var front, last := visits[..|visits| - 1], visits[|visits| - 1];
      assert last in visits;
      AttemptsAreSpaced(w, front, pod, intervalMins);
      assert front != [] ==> visits[|front| - 1].now <= visits[|front|].now;
      var now := if front == [] then last.now else front[|front| - 1].now;
      PacedStep(Run(w, front), last, AttemptTimes(w, front, pod), pod, intervalMins, now);
    }
  }

  /** So attempts within a period leave room for all the intervals between them. */
  lemma AttemptsWithin(
      w: World, visits: seq<Visit>, pod: ResourceRef, intervalMins: int, start: int, period: int, a: nat, b: nat)
    requires Ordered(visits) && IntervalsAtLeast(visits, pod, intervalMins)
    ensures var times := AttemptTimes(w, visits, pod);
      a < b < |times| && start <= times[a] && times[b] <= start + period ==> (b - a) * Minutes(intervalMins) < period
  {
    AttemptsAreSpaced(w, visits, pod, intervalMins);
  }
}
