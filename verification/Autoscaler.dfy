/** The task autoscaler: one visit per pod, a bounded step on the task limit, and the loop over all pods. */
module Autoscaler {
  import opened Resources
  import opened Metrics
  import opened Naming

  datatype Options = Options(
    taskName: string,
    intervalMins: int,
    windowMins: int,
    minCpuPercent: int,
    maxCpuPercent: int,
    minTaskLimit: int,
    maxTaskLimit: int,
    stepAmount: int)

  /** A row of job_node. */
  datatype JobNode = JobNode(node: string, task: string)

  /** What the metrics API says about a pod: nothing, no Stroom container, or a sample. */
  datatype Reading = NoMetrics | NoContainer | Usage(sample: Sample)

  /** How the application database answers a scaling attempt. */
  datatype Answer = ConnectionFails | QueryFails | Row(activeTasks: int, updateFails: bool)

  /**
   One pod in one pass. `unlimitedPercent` stands for the percentage that comes out when the container has no
   CPU limit to divide by, which the language leaves to the platform.
   */
  datatype Visit = Visit(
    pod: ResourceRef,
    now: int,
    reading: Reading,
    options: Options,
    cpuLimit: int,
    unlimitedPercent: int,
    answer: Answer)

  /** The pods of one NodeSet in one pass. */
  datatype NodeSetPass = NodeSetPass(role: string, listFails: bool, visits: seq<Visit>)

  datatype World = World(metrics: MetricState, limits: map<JobNode, int>)

  datatype Outcome = Continue | Requeue | Error

  // ---------- One visit as a function ----------

  /** Whole percent of the limit, rounded down. */
  function CpuPercent(mean: int, cpuLimit: int, unlimitedPercent: int): int {
    if cpuLimit > 0 then mean * 100 / cpuLimit else unlimitedPercent
  }

  function NewLimit(o: Options, cpuPercent: int, activeTasks: int, limit: int): int {
    if cpuPercent < o.minCpuPercent && limit < o.maxTaskLimit then
      if activeTasks < limit then limit
      else if limit + o.stepAmount > o.maxTaskLimit then o.maxTaskLimit
      else limit + o.stepAmount
    else if cpuPercent > o.maxCpuPercent && limit > o.minTaskLimit then
      if limit - o.stepAmount < o.minTaskLimit then o.minTaskLimit else limit - o.stepAmount
    else limit
  }

  function KeyOf(v: Visit): JobNode {
    JobNode(v.pod.name, v.options.taskName)
  }

  /** The task limits after an attempt that reads so much load, and whether it ended without error. */
  function AttemptAt(limits: map<JobNode, int>, v: Visit, percent: int): (map<JobNode, int>, bool) {
    if v.options.minCpuPercent <= percent <= v.options.maxCpuPercent then (limits, true)
    else
      match v.answer
      case ConnectionFails => (limits, false)
      case QueryFails => (limits, true)
      case Row(active, updateFails) =>
        if KeyOf(v) !in limits then (limits, true)
        else
          var limit := limits[KeyOf(v)];
          var next := NewLimit(v.options, percent, active, limit);
          if next == limit then (limits, true)
          else if updateFails then (limits, false)
          else (limits[KeyOf(v) := next], true)
  }

  /** A scaling attempt; without samples in the window it leaves everything alone. */
  function Attempt(w: World, v: Visit): (map<JobNode, int>, bool) {
    match WindowMean(w.metrics, v.pod, v.options.windowMins, v.now)
    case None => (w.limits, true)
    case Some(mean) => AttemptAt(w.limits, v, CpuPercent(mean, v.cpuLimit, v.unlimitedPercent))
  }

  /** The store once the visit has added its sample and aged every pod's samples off. */
  function Recorded(m: MetricState, v: Visit): MetricState
    requires v.reading.Usage?
  {
    AgedOff(Added(m, v.pod, v.reading.sample), MAXIMUM_RETENTION_MINS, v.now)
  }

  predicate Attempts(w: World, v: Visit) {
    v.reading.Usage? && Due(Recorded(w.metrics, v), v.pod, v.options.intervalMins, v.now)
  }

  function VisitPod(w: World, v: Visit): (World, Outcome) {
    match v.reading
    case NoMetrics => (w.(metrics := Forgotten(w.metrics, v.pod)), Requeue)
    case NoContainer => (w, Continue)
    case Usage(x) =>
      var m := Recorded(w.metrics, v);
      if Attempts(w, v) then
        var (limits, ok) := Attempt(w.(metrics := m), v);
        (World(Scaled(m, v.pod, v.now), limits), if ok then Continue else Error)
      else if v.pod in m.lastScaled then (w.(metrics := m), Continue)
      else (w.(metrics := Scaled(m, v.pod, v.now)), Continue)
  }

  /** The visits of one pass, which ends with the first that does not continue. */
  function VisitPods(w: World, visits: seq<Visit>): (World, Outcome)
    decreases |visits|
  {
    if visits == [] then (w, Continue)
    else
      var (w', outcome) := VisitPod(w, visits[0]);
      if outcome == Continue then VisitPods(w', visits[1..]) else (w', outcome)
  }

  function VisitNodeSets(w: World, nodeSets: seq<NodeSetPass>): (World, Outcome)
    decreases |nodeSets|
  {
    if nodeSets == [] then (w, Continue)
    else if nodeSets[0].role == FRONTEND_ROLE then VisitNodeSets(w, nodeSets[1..])
    else if nodeSets[0].listFails then (w, Error)
    else
      var (w', outcome) := VisitPods(w, nodeSets[0].visits);
      if outcome == Continue then VisitNodeSets(w', nodeSets[1..]) else (w', outcome)
  }

  // ---------- The controller as an object ----------

  class StroomTaskAutoscalerReconciler {
    const metrics: StroomNodeMetricMap
    var limits: map<JobNode, int>

    constructor (limits: map<JobNode, int>)
      ensures fresh(metrics)
      ensures View() == World(MetricState(map[], map[]), limits)
    {
      this.metrics := new StroomNodeMetricMap();
      this.limits := limits;
    }

    function View(): World
      reads this, metrics
    {
      World(metrics.View(), limits)
    }

    method ScaleStroomNode(v: Visit) returns (ok: bool)
      modifies `limits
      ensures (limits, ok) == Attempt(old(View()), v)
      ensures metrics.View() == old(metrics.View())
    {
      ok := true;
      var mean := metrics.GetSlidingWindowMean(v.pod, v.options.windowMins, v.now);
      if mean.Some? {
        var o := v.options;
        var cpuPercent := CpuPercent(mean.value, v.cpuLimit, v.unlimitedPercent);
        if cpuPercent < o.minCpuPercent || cpuPercent > o.maxCpuPercent {
          if v.answer.ConnectionFails? {
            return false;
          }
          if v.answer.Row? && KeyOf(v) in limits {
            var taskLimit := limits[KeyOf(v)];
            var newTaskLimit := taskLimit;
            if cpuPercent < o.minCpuPercent && taskLimit < o.maxTaskLimit {
              if v.answer.activeTasks < taskLimit {
                return true;
              }
              newTaskLimit := taskLimit + o.stepAmount;
              if newTaskLimit > o.maxTaskLimit {
                newTaskLimit := o.maxTaskLimit;
              }
            } else if cpuPercent > o.maxCpuPercent && taskLimit > o.minTaskLimit {
              newTaskLimit := taskLimit - o.stepAmount;
              if newTaskLimit < o.minTaskLimit {
                newTaskLimit := o.minTaskLimit;
              }
            }
            if newTaskLimit != taskLimit {
              if v.answer.updateFails {
                return false;
              }
              limits := limits[KeyOf(v) := newTaskLimit];
            }
          }
        }
      }
    }

    method HandlePod(v: Visit) returns (outcome: Outcome)
      modifies this, metrics
      ensures (View(), outcome) == VisitPod(old(View()), v)
    {
      match v.reading {
        case NoMetrics =>
          metrics.DeletePodData(v.pod);
          return Requeue;
        case NoContainer =>
          return Continue;
        case Usage(x) =>
          metrics.AddMetric(v.pod, x);
          metrics.AgeOff(MAXIMUM_RETENTION_MINS, v.now);
          var due := metrics.ShouldScale(v.pod, v.options.intervalMins, v.now);
          if due {
            var ok := ScaleStroomNode(v);
            metrics.SetLastScaled(v.pod, v.now);
            if !ok {
              return Error;
            }
          }
          var scheduled := metrics.IsScaleScheduled(v.pod);
          if !scheduled {
            metrics.SetLastScaled(v.pod, v.now);
          }
          outcome := Continue;
      }
    }

    /** A pass over the pods of every NodeSet that executes tasks. */
    method Reconcile(nodeSets: seq<NodeSetPass>) returns (outcome: Outcome)
      modifies this, metrics
      ensures var (w, end) := VisitNodeSets(old(View()), nodeSets);
        View() == w && outcome == if end == Continue then Requeue else end
    {
      ghost var start := View();
      for i := 0 to |nodeSets|
        invariant VisitNodeSets(View(), nodeSets[i..]) == VisitNodeSets(start, nodeSets)
      {
        var nodeSet := nodeSets[i];
        assert nodeSets[i..][1..] == nodeSets[i + 1..];
        if nodeSet.role == FRONTEND_ROLE {
          continue;
        }
        if nodeSet.listFails {
          return Error;
        }
        ghost var before := View();
        for j := 0 to |nodeSet.visits|
          invariant VisitPods(View(), nodeSet.visits[j..]) == VisitPods(before, nodeSet.visits)
        {
          assert nodeSet.visits[j..][1..] == nodeSet.visits[j + 1..];
          outcome := HandlePod(nodeSet.visits[j]);
          if outcome != Continue {
            return;
          }
        }
      }
      outcome := Requeue;
    }
  }
}
