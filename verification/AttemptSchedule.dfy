/** When scaling attempts are made: exactly at the visits that come more than an interval after the last one. */
module AttemptSchedule {
  import opened Resources
  import opened Autoscaler
  import opened AutoscalerRuns

  const MINUTE := 60 * 1_000_000_000

  /**
   The time from which the interval of a pod counts: its last attempt, or before that its first sample, since its
   metrics were last missing. Samples alone decide it.
   */
  function Anchor(visits: seq<Visit>, pod: ResourceRef): Option<int> {
    if visits == [] then None
    else
      var before, last := Anchor(visits[..|visits| - 1], pod), visits[|visits| - 1];
      if last.pod != pod || last.reading.NoContainer? then before
      else if last.reading.NoMetrics? then None
      else if before.None? || Elapsed(before, last) then Some(last.now)
      else before
  }

  predicate Elapsed(anchor: Option<int>, v: Visit) {
    anchor.Some? && v.now > anchor.value + v.options.intervalMins * MINUTE
  }

  /** The last of the visits is an attempt on its pod. */
  predicate AttemptIsDue(visits: seq<Visit>, v: Visit) {
    v.reading.Usage? && Elapsed(Anchor(visits, v.pod), v)
  }

  function Schedule(visits: seq<Visit>, pod: ResourceRef): seq<int> {
    if visits == [] then []
    else
      var front, last := visits[..|visits| - 1], visits[|visits| - 1];
      Schedule(front, pod) + (if last.pod == pod && AttemptIsDue(front, last) then [last.now] else [])
  }

  /** The last-scaled times on record are those anchors, and so each visit's attempt is made or not as they say. */
  lemma {:induction false} LastScaledIsAnchor(limits: map<JobNode, int>, visits: seq<Visit>, pod: ResourceRef)
    ensures var times := Run(World(NO_METRICS, limits), visits).metrics.lastScaled;
      Anchor(visits, pod) == if pod in times then Some(times[pod]) else None
    decreases |visits|
  {
    if visits != [] {
      var front, last := visits[..|visits| - 1], visits[|visits| - 1];
      LastScaledIsAnchor(limits, front, pod);
      LastScaledIsAnchor(limits, front, last.pod);
      VisitMetrics(Run(World(NO_METRICS, limits), front), last);
    }
  }

  /** A visit makes an attempt exactly if it brings a sample and its interval has passed. */
  lemma AttemptedExactly(limits: map<JobNode, int>, visits: seq<Visit>, v: Visit)
    ensures Attempts(Run(World(NO_METRICS, limits), visits), v) <==> AttemptIsDue(visits, v)
  {
    LastScaledIsAnchor(limits, visits, v.pod);
  }

  /** Over every run from an empty store, the attempts on a pod are made exactly by that schedule. */
  lemma {:induction false} AttemptsOnSchedule(limits: map<JobNode, int>, visits: seq<Visit>, pod: ResourceRef)
    ensures AttemptTimes(World(NO_METRICS, limits), visits, pod) == Schedule(visits, pod)
    decreases |visits|
  {
    if visits != [] {
      var front, last := visits[..|visits| - 1], visits[|visits| - 1];
      AttemptsOnSchedule(limits, front, pod);
      AttemptedExactly(limits, front, last);
    }
  }

  // ---------- Attempts do come ----------

  /** The metrics of the pod are found in all visits after the first `i`. */
  predicate Measured(visits: seq<Visit>, pod: ResourceRef, i: nat) {
    forall k :: i <= k < |visits| && visits[k].pod == pod ==> !visits[k].reading.NoMetrics?
  }

  lemma AnchorIsPast(visits: seq<Visit>, pod: ResourceRef)
    requires Ordered(visits)
    ensures Anchor(visits, pod).Some? ==> visits != [] && Anchor(visits, pod).value <= visits[|visits| - 1].now
    decreases |visits|
  {
    if visits != [] {
      AnchorIsPast(visits[..|visits| - 1], pod);
    }
  }

  /** As long as no attempt is made, the anchor stays. */
  lemma {:induction false} AnchorStays(visits: seq<Visit>, pod: ResourceRef, i: nat)
    requires i <= |visits| && Measured(visits, pod, i) && Anchor(visits[..i], pod).Some?
    ensures |Schedule(visits, pod)| > |Schedule(visits[..i], pod)|
      || (|Schedule(visits, pod)| == |Schedule(visits[..i], pod)| && Anchor(visits, pod) == Anchor(visits[..i], pod))
    decreases |visits|
  {
    if i == |visits| {
      assert visits[..i] == visits;
    } else {
      var front := visits[..|visits| - 1];
      assert front[..i] == visits[..i];
      AnchorStays(front, pod, i);
    }
  }

  /**
   Attempts cannot fail to come: between two samples of a pod that lie more than an interval apart, with its metrics
   found in between, there is one, at the second of them at the latest.
   */
  lemma AttemptsCome(limits: map<JobNode, int>, visits: seq<Visit>, i: nat, j: nat)
    requires Ordered(visits) && i < j < |visits|
    requires visits[i].reading.Usage? && visits[j].reading.Usage? && visits[j].pod == visits[i].pod
    requires Measured(visits[..j], visits[i].pod, i)
    requires visits[j].now > visits[i].now + visits[j].options.intervalMins * MINUTE
    ensures var w, pod := World(NO_METRICS, limits), visits[i].pod;
      |AttemptTimes(w, visits[..j + 1], pod)| > |AttemptTimes(w, visits[..i + 1], pod)|
  {
    var pod := visits[i].pod;
    AttemptsOnSchedule(limits, visits[..i + 1], pod);
    AttemptsOnSchedule(limits, visits[..j + 1], pod);
    AnchorOfSample(visits, i);
    ElapsedLater(Anchor(visits[..i + 1], pod), visits[i].now, visits[j]);
    ScheduleGrows(visits, pod, i + 1, j);
  }

  /** A sample leaves an anchor, not after itself. */
  lemma AnchorOfSample(visits: seq<Visit>, i: nat)
    requires Ordered(visits) && i < |visits| && visits[i].reading.Usage?
    ensures var anchor := Anchor(visits[..i + 1], visits[i].pod); anchor.Some? && anchor.value <= visits[i].now
  {
    AnchorIsPast(visits[..i + 1], visits[i].pod);
  }

  lemma ElapsedLater(anchor: Option<int>, t: int, v: Visit)
    requires anchor.Some? && anchor.value <= t && v.now > t + v.options.intervalMins * MINUTE
    ensures Elapsed(anchor, v)
  {
  }

  lemma ScheduleGrows(visits: seq<Visit>, pod: ResourceRef, n: nat, j: nat)
    requires n <= j < |visits| && visits[j].pod == pod && visits[j].reading.Usage?
    requires Measured(visits[..j], pod, n) && Elapsed(Anchor(visits[..n], pod), visits[j])
    ensures |Schedule(visits[..j + 1], pod)| > |Schedule(visits[..n], pod)|
  {
    assert visits[..j][..n] == visits[..n] && visits[..j + 1][..j] == visits[..j];
    AnchorStays(visits[..j], pod, n);
  }
}
