/** A cluster goes away only after its tasks have drained. */
module Drain {
  import opened Resources
  import opened Lifecycle
  import opened Coherence
  import opened LifecycleSafety

  // ---------- The gate ----------

  /** No node of the cluster runs a task, and none can take one. */
  ghost predicate Quiet(st: Store, k: ResourceRef, schema: string) {
    forall n :: NodeOf(k, n, schema) ==> n !in st.enabled && n.node !in Tasks(st, schema)
  }

  ghost predicate JobsDisabled(st: Store, k: ResourceRef, schema: string) {
    forall n :: NodeOf(k, n, schema) ==> n !in st.enabled
  }

  predicate HeldCluster(st: Store, k: ResourceRef) {
    k in st.clusters && Waiting(st.clusters[k])
  }

  /** Step `a` takes the wait-for-tasks finalizer, or the last trace of the cluster, away. */
  predicate Releases(s: State, a: Action, k: ResourceRef) {
    HeldCluster(s.store, k) && !HeldCluster(Step(s, a).store, k)
  }

  /** The cluster has no StatefulSet, or its nodes have drained and can take no new task. */
  ghost predicate MayRelease(s: State, k: ResourceRef) {
    && s.cw.ReleaseCluster? && s.cw.key == k && k in s.store.clusters
    && (k !in s.store.deployed || Quiet(s.store, k, s.store.clusters[k].spec.schema))
  }

  predicate DeletedIfHeld(st: Store, k: ResourceRef, schema: string) {
    HeldCluster(st, k) ==> st.clusters[k].meta.deleting && st.clusters[k].spec.schema == schema
  }

  /** What each point of a deletion pass relies on. */
  ghost predicate WorkerDrains(p: Policy, st: Store, w: ClusterWorker) {
    match w
    case GetDatabase(k, c) => CopyConforms(p, k, c) && (c.meta.deleting ==> DeletedIfHeld(st, k, c.spec.schema))
    case Claim(k, c, _) => CopyConforms(p, k, c) && (c.meta.deleting ==> DeletedIfHeld(st, k, c.spec.schema))
    case GuardDatabase(k, c, _) => !c.meta.deleting
    case ListNodes(k, c) => DeletedIfHeld(st, k, c.spec.schema)
    case DisableJobs(k, c) => DeletedIfHeld(st, k, c.spec.schema)
    case CountTasks(k, c) =>
      DeletedIfHeld(st, k, c.spec.schema) && (HeldCluster(st, k) ==> JobsDisabled(st, k, c.spec.schema))
    case FetchCluster(k, _, schema, reason) =>
      DeletedIfHeld(st, k, schema) && reason != ListFailed && (reason == NoNodes ==> k !in st.deployed)
      && (reason == Drained && HeldCluster(st, k) ==> Quiet(st, k, schema))
    case ReleaseCluster(k, _, schema, reason, _) =>
      DeletedIfHeld(st, k, schema) && reason != ListFailed && (reason == NoNodes ==> k !in st.deployed)
      && (reason == Drained && HeldCluster(st, k) ==> Quiet(st, k, schema))
    case _ => true
  }

  ghost predicate Drains(p: Policy, s: State) {
    Coherent(s) && Conforms(p, s.store) && WorkerDrains(p, s.store, s.cw)
  }

  predicate GatedPolicy(p: Policy) {
    !p.listErrors && !p.reenable
  }

  /** What a step of anyone but the StroomCluster controller leaves in place. */
  ghost predicate HeldStays(st: Store, st': Store) {
    forall k :: HeldCluster(st', k) ==>
      && HeldCluster(st, k)
      && st'.clusters[k].spec == st.clusters[k].spec
      && (st.clusters[k].meta.deleting ==> st'.clusters[k].meta.deleting)
  }

  ghost predicate QuietStays(st: Store, st': Store) {
    st'.deployed <= st.deployed
    && forall k :: HeldCluster(st', k) && HeldCluster(st, k) && st.clusters[k].meta.deleting ==>
      var schema := st.clusters[k].spec.schema;
      && (JobsDisabled(st, k, schema) ==> JobsDisabled(st', k, schema))
      && (Quiet(st, k, schema) ==> Quiet(st', k, schema))
  }

  lemma UserStepHeld(st: Store, a: Action)
    ensures HeldStays(st, UserStep(st, a))
  {
  }

  /** Tasks start only where jobs are enabled, and only one action enables them. */
  lemma NewWork(st: Store, a: Action, n: NodeRef)
    ensures n.node in Tasks(UserStep(st, a), n.schema) && n.node !in Tasks(st, n.schema) ==> n in st.enabled
    ensures n in UserStep(st, a).enabled && n !in st.enabled ==> a == EnableJobs(n)
  {
    if !a.StartTask? && !a.FinishTask? && !a.EnableJobs? {
      SameWork(st, a);
    }
  }

  lemma SameWork(st: Store, a: Action)
    requires !a.StartTask? && !a.FinishTask? && !a.EnableJobs?
    ensures UserStep(st, a).enabled == st.enabled && UserStep(st, a).processing == st.processing
  {
  }

  lemma UserStepQuiet(p: Policy, s: State, a: Action)
    requires GatedPolicy(p) && Allowed(p, s, a)
    ensures QuietStays(s.store, UserStep(s.store, a))
  {
    var st, st' := s.store, UserStep(s.store, a);
    forall k, n | HeldCluster(st, k) && st.clusters[k].meta.deleting && NodeOf(k, n, st.clusters[k].spec.schema)
      ensures n !in st.enabled ==> n !in st'.enabled
      ensures n !in st.enabled && n.node !in Tasks(st, n.schema) ==> n.node !in Tasks(st', n.schema)
    {
      NewWork(st, a, n);
      assert NodeOfDeleted(st, n);
    }
  }

  lemma WorkerSurvives(p: Policy, st: Store, st': Store, w: ClusterWorker)
    requires WorkerDrains(p, st, w) && HeldStays(st, st') && QuietStays(st, st')
    ensures WorkerDrains(p, st', w)
  {
  }

  /** The calls before the tasks are counted. */
  lemma EarlyCallDrains(p: Policy, s: State)
    requires Drains(p, s) && Rank(s.cw) > 5
    ensures WorkerDrains(p, ClusterCall(s.store, s.cw).0, ClusterCall(s.store, s.cw).1)
  {
    if UpdatesDatabase(s.cw) {
      DatabaseUpdateDrains(p, s.store, s.cw);
    }
  }

  lemma DatabaseUpdateDrains(p: Policy, st: Store, w: ClusterWorker)
    requires WorkerDrains(p, st, w) && (w.Claim? || w.GuardDatabase?)
    ensures WorkerDrains(p, ClusterCall(st, w).0, ClusterCall(st, w).1)
  {
    OtherCallsKeep(st, w);
  }

  lemma ClusterCallDrains(p: Policy, s: State)
    requires Drains(p, s)
    ensures WorkerDrains(p, ClusterCall(s.store, s.cw).0, ClusterCall(s.store, s.cw).1)
  {
    match s.cw {
      case CountTasks(k, c) =>
        assert !TasksRemain(s.store, c.spec.schema) ==>
          forall n: NodeRef :: n.schema == c.spec.schema ==> n.node !in Tasks(s.store, n.schema);
      case FetchCluster(_, _, _, _) =>
      case ReleaseCluster(_, _, _, _, _) =>
      case FetchDatabase(_, _) =>
      case ReleaseDatabase(_, _, _) =>
      case Idle =>
      case _ => EarlyCallDrains(p, s);
    }
  }

  lemma PassBeginDrains(p: Policy, st: Store, k: ResourceRef)
    requires Conforms(p, st)
    ensures WorkerDrains(p, st, StartCluster(st, k))
  {
  }

  lemma OthersDrain(p: Policy, s: State, a: Action)
    requires GatedPolicy(p) && Drains(p, s) && Allowed(p, s, a)
    requires !a.ClusterBegins? && !a.ClusterCalls? && !a.ClusterFaults? && !a.ClusterStops?
    ensures WorkerDrains(p, Step(s, a).store, s.cw)
  {
    var st' := Step(s, a).store;
    if a.DatabaseCalls? || a.DatabaseBegins? || a.DatabaseFaults? || a.DatabaseStops? {
      DatabaseStepKeeps(s, a);
    } else {
      assert st' == UserStep(s.store, a);
      UserStepHeld(s.store, a);
      UserStepQuiet(p, s, a);
    }
    WorkerSurvives(p, s.store, st', s.cw);
  }

  lemma DatabaseStepKeeps(s: State, a: Action)
    requires a.DatabaseCalls? || a.DatabaseBegins? || a.DatabaseFaults? || a.DatabaseStops?
    ensures HeldStays(s.store, Step(s, a).store) && QuietStays(s.store, Step(s, a).store)
  {
    var st, st' := s.store, Step(s, a).store;
    assert st' == st || st' == DatabaseCall(st, s.dw).0;
    SameWorkStays(st, st');
  }

  lemma SameWorkStays(st: Store, st': Store)
    requires st'.clusters == st.clusters && st'.deployed == st.deployed
    requires st'.enabled == st.enabled && st'.processing == st.processing
    ensures HeldStays(st, st') && QuietStays(st, st')
  {
  }

  lemma StepDrains(p: Policy, s: State, a: Action)
    requires GatedPolicy(p) && Drains(p, s) && Allowed(p, s, a)
    ensures Drains(p, Step(s, a))
  {
    StepCoherent(s, a);
    StepConforms(p, s, a);
    match a {
      case ClusterCalls => ClusterCallDrains(p, s);
      case ClusterBegins(k) => PassBeginDrains(p, s.store, k);
      case ClusterFaults =>
      case ClusterStops =>
      case _ => OthersDrain(p, s, a);
    }
  }

  lemma {:induction false} RunDrains(p: Policy, s: State, run: seq<Action>)
    requires GatedPolicy(p) && Drains(p, s) && AllowedRun(p, s, run)
    ensures Drains(p, Exec(s, run))
    decreases |run|
  {
    if run != [] {
      StepDrains(p, s, run[0]);
      RunDrains(p, Step(s, run[0]), run[1..]);
    }
  }

  /** Only the StroomCluster controller's release call takes the finalizer away. */
  lemma OnlyReleaseReleases(s: State, a: Action, k: ResourceRef)
    requires Coherent(s) && Releases(s, a, k)
    ensures a.ClusterCalls? && s.cw.ReleaseCluster? && s.cw.key == k
    ensures s.store.clusters[k] == s.cw.cluster
  {
  }

  lemma GateHolds(p: Policy, s: State, a: Action, k: ResourceRef)
    requires GatedPolicy(p) && Reaches(p, INITIAL, s) && Releases(s, a, k)
    ensures MayRelease(s, k)
  {
    var run :| AllowedRun(p, INITIAL, run) && Exec(INITIAL, run) == s;
    RunDrains(p, INITIAL, run);
    OnlyReleaseReleases(s, a, k);
  }
}
