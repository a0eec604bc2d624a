/** Children come after the finalizers: what holds whenever a cluster gets its first StatefulSet. */
module Deployment {
  import opened Resources
  import opened Lifecycle
  import opened Coherence
  import opened LifecycleSafety
  import opened LifecycleExactness
  import opened Drain

  /** Step `a` gives the cluster its first StatefulSet. */
  predicate Deploys(s: State, a: Action, k: ResourceRef) {
    k !in s.store.deployed && k in Step(s, a).store.deployed
  }

  /** What a pass knows of its cluster's finalizer still holds. */
  predicate StillHeld(st: Store, w: ClusterWorker) {
    match w
    case GetDatabase(k, c) => Waiting(c) ==> HeldCluster(st, k)
    case Claim(k, c, _) => Waiting(c) ==> HeldCluster(st, k)
    case GuardDatabase(k, c, _) => Waiting(c) ==> HeldCluster(st, k)
    case CreateChildren(k) => HeldCluster(st, k)
    case _ => true
  }

  /** No step but its own controller's release lets a cluster go. */
  lemma OthersHold(s: State, a: Action, w: ClusterWorker)
    requires Coherent(s) && StillHeld(s.store, w)
    requires a.ClusterCalls? ==> !s.cw.ReleaseCluster?
    ensures StillHeld(Step(s, a).store, w)
  {
    if !w.Idle? && HeldCluster(s.store, w.key) && !HeldCluster(Step(s, a).store, w.key) {
      OnlyReleaseReleases(s, a, w.key);
    }
  }

  lemma CallHolds(s: State)
    requires Coherent(s) && StillHeld(s.store, s.cw)
    ensures StillHeld(Step(s, ClusterCalls).store, Step(s, ClusterCalls).cw)
  {
    if UpdatesCluster(s.cw) {
      UpdateHolds(s.store, s.cw);
    } else {
      OtherCallsKeep(s.store, s.cw);
      OthersHold(s, ClusterCalls, s.cw);
    }
  }

  lemma UpdateHolds(st: Store, w: ClusterWorker)
    requires UpdatesCluster(w) && ClusterWorkerCoherent(st, w)
    ensures StillHeld(ClusterCall(st, w).0, ClusterCall(st, w).1)
  {
  }

  lemma StepHolds(s: State, a: Action)
    requires Coherent(s) && StillHeld(s.store, s.cw)
    ensures StillHeld(Step(s, a).store, Step(s, a).cw)
  {
    match a {
      case ClusterCalls => CallHolds(s);
      case ClusterBegins(_) =>
      case ClusterFaults =>
      case ClusterStops =>
      case _ => OthersHold(s, a, s.cw);
    }
  }

  lemma {:induction false} RunHolds(s: State, run: seq<Action>)
    requires Coherent(s) && StillHeld(s.store, s.cw)
    ensures StillHeld(Exec(s, run).store, Exec(s, run).cw)
    decreases |run|
  {
    if run != [] {
      StepHolds(s, run[0]);
      StepCoherent(s, run[0]);
      RunHolds(Step(s, run[0]), run[1..]);
    }
  }

  lemma OnlyPassesDeploy(s: State, a: Action, k: ResourceRef)
    requires Deploys(s, a, k)
    ensures a == ClusterCalls && s.cw == CreateChildren(k)
  {
  }

  /** Under any policy, a cluster waits for its tasks whenever it gets its first StatefulSet. */
  lemma DeployedWhenHeld(p: Policy, s: State, a: Action, k: ResourceRef)
    requires Reaches(p, INITIAL, s) && Deploys(s, a, k)
    ensures HeldCluster(s.store, k)
  {
    var run :| AllowedRun(p, INITIAL, run) && Exec(INITIAL, run) == s;
    RunHolds(INITIAL, run);
    OnlyPassesDeploy(s, a, k);
  }

  /**
   It has its database then, in every run, exactly under a safe policy; and the database is guarded and claimed by
   that cluster as well.
   */
  lemma DeployedWithDatabaseExactly(p: Policy)
    ensures (forall s, a, k :: Reaches(p, INITIAL, s) && Deploys(s, a, k) && Managed(s.store, k)
               ==> ServerOf(k, s.store.clusters[k].spec) in s.store.databases) <==> SafePolicy(p)
    ensures (forall s, a, k :: Reaches(p, INITIAL, s) && Deploys(s, a, k) && Managed(s.store, k)
               ==> ProtectedBy(s.store, k, ServerOf(k, s.store.clusters[k].spec))) <==> SafePolicy(p)
  {
    if SafePolicy(p) {
      forall s, a, k | Reaches(p, INITIAL, s) && Deploys(s, a, k) && Managed(s.store, k)
        ensures ProtectedBy(s.store, k, ServerOf(k, s.store.clusters[k].spec))
      {
        DeployedWhenHeld(p, s, a, k);
        ReachableProtected(p, s);
      }
    } else {
      var s, k := UnsafeOrphans(p);
      assert Deploys(s, ClusterCalls, k);
    }
  }
}
