/** How a visit and a pass of the task autoscaler end, and what they leave of the task limits. */
module VisitOutcomes {
  import opened Resources
  import opened Metrics
  import opened Autoscaler
  import opened AutoscalerRuns

  /** The row of job_node for the pod of a visit. */
  function RowOf(v: Visit): JobNode {
    JobNode(v.pod.name, v.options.taskName)
  }

  /** The load that an attempt in this visit reads, if it is one and finds samples. */
  function Read(w: World, v: Visit): Option<int> {
    if !v.reading.Usage? || !Attempts(w, v) then None
    else
      match WindowMean(Recorded(w.metrics, v), v.pod, v.options.windowMins, v.now)
      case None => None
      case Some(mean) => Some(if v.cpuLimit > 0 then mean * 100 / v.cpuLimit else v.unlimitedPercent)
  }

  /** An attempt that reads a load outside its bounds asks the application database. */
  predicate Asks(w: World, v: Visit) {
    Read(w, v).Some? && !(v.options.minCpuPercent <= Read(w, v).value <= v.options.maxCpuPercent)
  }

  /** The answer calls for another limit than the stored one. */
  predicate Changes(w: World, v: Visit) {
    && Asks(w, v) && v.answer.Row? && RowOf(v) in w.limits
    && NewLimit(v.options, Read(w, v).value, v.answer.activeTasks, w.limits[RowOf(v)]) != w.limits[RowOf(v)]
  }

  /**
   A visit ends its pass exactly if there are no metrics, or with an error exactly if the database cannot be reached
   or refuses the new limit; a query that fails is passed over. It sets no limit but its own pod's, and that exactly
   if another is called for and not refused.
   */
  lemma VisitEndsExactly(w: World, v: Visit)
    ensures var (after, outcome) := VisitPod(w, v);
      && (outcome == Requeue <==> v.reading.NoMetrics?)
      && (outcome == Error <==>
            (Asks(w, v) && v.answer.ConnectionFails?) || (Changes(w, v) && v.answer.updateFails))
      && after.limits
         == if Changes(w, v) && !v.answer.updateFails
            then w.limits[RowOf(v) :=
                   NewLimit(v.options, Read(w, v).value, v.answer.activeTasks, w.limits[RowOf(v)])]
            else w.limits
  {
    if Read(w, v).Some? {
      AttemptEnds(w.limits, v, Read(w, v).value);
    }
  }

  lemma AttemptEnds(limits: map<JobNode, int>, v: Visit, percent: int)
    ensures var (after, ok) := AttemptAt(limits, v, percent);
      var asks := !(v.options.minCpuPercent <= percent <= v.options.maxCpuPercent);
      var changes := asks && v.answer.Row? && RowOf(v) in limits
        && NewLimit(v.options, percent, v.answer.activeTasks, limits[RowOf(v)]) != limits[RowOf(v)];
      && (!ok <==> (asks && v.answer.ConnectionFails?) || (changes && v.answer.updateFails))
      && after == if changes && !v.answer.updateFails
                  then limits[RowOf(v) := NewLimit(v.options, percent, v.answer.activeTasks, limits[RowOf(v)])]
                  else limits
  {
  }

  // ---------- A whole pass ----------

  /** The visits that a pass makes unless one of them ends it: not of frontends, and not after a list that fails. */
  function Planned(nodeSets: seq<NodeSetPass>): seq<Visit> {
    if nodeSets == [] then []
    else
      var working := nodeSets[0].role != "Frontend";
      (if working && !nodeSets[0].listFails then nodeSets[0].visits else [])
      + (if working && nodeSets[0].listFails then [] else Planned(nodeSets[1..]))
  }

  predicate ListsFail(nodeSets: seq<NodeSetPass>) {
    exists i :: 0 <= i < |nodeSets| && nodeSets[i].role != "Frontend" && nodeSets[i].listFails
  }

  /** The first `n` visits go on. */
  predicate GoOn(w: World, visits: seq<Visit>, n: nat)
    requires n <= |visits|
  {
    forall i :: 0 <= i < n ==> VisitPod(Run(w, visits[..i]), visits[i]).1 == Continue
  }

  /** The first `n` visits go on, and if the next is not the end, it is there and ends the pass. */
  predicate EndsAfter(w: World, visits: seq<Visit>, made: seq<Visit>, outcome: Outcome) {
    && made <= visits
    && if outcome == Continue then made == visits && GoOn(w, made, |made|)
       else
         && made != [] && GoOn(w, made, |made| - 1)
         && outcome == VisitPod(Run(w, made[..|made| - 1]), made[|made| - 1]).1
  }

  lemma GoOnFrom(w: World, v: Visit, made: seq<Visit>, n: nat)
    requires n <= |made| && VisitPod(w, v).1 == Continue && GoOn(VisitPod(w, v).0, made, n)
    ensures GoOn(w, [v] + made, n + 1)
    ensures forall i :: 0 <= i <= |made| ==> Run(w, ([v] + made)[..i + 1]) == Run(VisitPod(w, v).0, made[..i])
  {
    var all := [v] + made;
    forall i | 0 <= i <= |made|
      ensures Run(w, all[..i + 1]) == Run(VisitPod(w, v).0, made[..i])
    {
      assert all[..i + 1] == [v] + made[..i];
      RunOne(w, v);
      RunJoin(w, [v], made[..i]);
    }
    forall i | 0 <= i < n + 1
      ensures VisitPod(Run(w, all[..i]), all[i]).1 == Continue
    {
      if i > 0 {
        assert all[..i] == all[..(i - 1) + 1];
      }
    }
  }

  lemma {:induction false} PodsEnd(w: World, visits: seq<Visit>)
    ensures EndsAfter(w, visits, Visited(w, visits), VisitPods(w, visits).1)
    decreases |visits|
  {
    if visits != [] {
      var (w', outcome) := VisitPod(w, visits[0]);
      if outcome == Continue {
        PodsEnd(w', visits[1..]);
        var rest := Visited(w', visits[1..]);
        var end := VisitPods(w', visits[1..]).1;
        GoOnFrom(w, visits[0], rest, if end == Continue then |rest| else |rest| - 1);
        var made := [visits[0]] + rest;
        assert made[..|made| - 1] == made[..(|rest| - 1) + 1] || rest == [];
      } else {
        assert Visited(w, visits) == [visits[0]] && [visits[0]][..0] == [];
      }
    }
  }

  lemma {:induction false} PodsJoin(w: World, a: seq<Visit>, b: seq<Visit>)
    ensures var (w', outcome) := VisitPods(w, a);
      VisitPods(w, a + b) == if outcome == Continue then VisitPods(w', b) else (w', outcome)
    decreases |a|
  {
    if a == [] {
      assert a + b == b;
    } else {
      assert (a + b)[1..] == a[1..] + b;
      PodsJoin(VisitPod(w, a[0]).0, a[1..], b);
    }
  }

  lemma ListsFailFrom(nodeSets: seq<NodeSetPass>)
    requires nodeSets != []
    ensures ListsFail(nodeSets)
      <==> (nodeSets[0].role != "Frontend" && nodeSets[0].listFails) || ListsFail(nodeSets[1..])
  {
    var rest := nodeSets[1..];
    if ListsFail(rest) {
      var i :| 0 <= i < |rest| && rest[i].role != "Frontend" && rest[i].listFails;
      assert nodeSets[i + 1] == rest[i];
    }
  }

  /**
   The pass over all NodeSets is one over the planned visits, of which the first that does not go on ends it; if all
   go on it fails exactly if a list did.
   */
  lemma {:induction false} PassEndsExactly(w: World, nodeSets: seq<NodeSetPass>)
    ensures var (after, outcome) := VisitPods(w, Planned(nodeSets));
      VisitNodeSets(w, nodeSets) == (after, if outcome == Continue && ListsFail(nodeSets) then Error else outcome)
    ensures EndsAfter(w, Planned(nodeSets), Visited(w, Planned(nodeSets)), VisitPods(w, Planned(nodeSets)).1)
    decreases |nodeSets|
  {
    PodsEnd(w, Planned(nodeSets));
    if nodeSets != [] {
      ListsFailFrom(nodeSets);
      var n, rest := nodeSets[0], nodeSets[1..];
      if n.role == "Frontend" {
        PassEndsExactly(w, rest);
        assert Planned(nodeSets) == Planned(rest);
      } else if n.listFails {
        assert Planned(nodeSets) == [];
      } else {
        PassEndsExactly(VisitPods(w, n.visits).0, rest);
        PodsJoin(w, n.visits, Planned(rest));
        assert Planned(nodeSets) == n.visits + Planned(rest);
      }
    }
  }
}
