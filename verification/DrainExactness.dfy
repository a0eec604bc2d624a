/** The two ways round the drain gate, and the exact condition under which it holds. */
module DrainExactness {
  import opened Resources
  import opened Naming
  import opened Lifecycle
  import opened LifecycleExactness
  import opened Drain

  /** The database lets the cluster's next pass through. */
  predicate Admits(st: Store, k: ResourceRef, r: ResourceRef) {
    r in st.databases && (st.databases[r].claim.IsZero() || st.databases[r].claim == k)
  }

  /** The cluster is deployed, held, and neither controller is at work. */
  ghost predicate Deployed(p: Policy, s: State, k: ResourceRef) {
    && Reaches(p, INITIAL, s)
    && s.cw == Idle && s.dw == Resting
    && HeldCluster(s.store, k) && k in p.specs && s.store.clusters[k].spec == p.specs[k]
    && (!External(s.store.clusters[k]) ==> Admits(s.store, k, ServerOf(k, p.specs[k])))
    && k in s.store.deployed
  }

  /** Nothing else exists, and no task runs. */
  predicate Untouched(s: State, k: ResourceRef) {
    s.store.clusters.Keys == {k} && !s.store.clusters[k].meta.deleting && s.store.processing == map[]
  }

  lemma DeployExternal(p: Policy, k: ResourceRef) returns (s: State)
    requires k in p.specs && p.specs[k].serverRef.IsZero()
    ensures Deployed(p, s, k) && Untouched(s, k)
  {
    ReachesSelf(p, INITIAL);
    s := Advance(p, INITIAL, INITIAL, CreateCluster(k, p.specs[k], {}));
    s := Advance(p, INITIAL, s, ClusterBegins(k));
    assert s.cw == HoldCluster(k, s.store.clusters[k]);
    s := HoldAndDeploy(p, s, k);
  }

  /** The last two calls of a first pass. */
  lemma HoldAndDeploy(p: Policy, s: State, k: ResourceRef) returns (t: State)
    requires Reaches(p, INITIAL, s) && s.dw == Resting
    requires Untouched(s, k) && External(s.store.clusters[k]) && s.cw == HoldCluster(k, s.store.clusters[k])
    requires k in p.specs && s.store.clusters[k].spec == p.specs[k]
    ensures Deployed(p, t, k) && Untouched(t, k)
  {
    t := Advance(p, INITIAL, s, ClusterCalls);
    assert HeldCluster(t.store, k) && t.cw == CreateChildren(k);
    t := Advance(p, INITIAL, t, ClusterCalls);
  }

  /**
   A cluster that does not share its database's name is let through again once the database has been replaced.
   */
  lemma DeployMismatched(p: Policy, k: ResourceRef) returns (s: State)
    requires ManagedSpec(p, k) && ServerOf(k, p.specs[k]) != k
    ensures Deployed(p, s, k) && Untouched(s, k)
  {
    s := MismatchOrphans(p, k);
    s := Advance(p, INITIAL, s, CreateDatabase(ServerOf(k, p.specs[k]), {}));
  }

  lemma DeployRun(p: Policy, k: ResourceRef) returns (s: State)
    requires k in p.specs
    ensures Deployed(p, s, k) && Untouched(s, k)
  {
    if !ManagedSpec(p, k) {
      s := DeployExternal(p, k);
    } else if ServerOf(k, p.specs[k]) == k {
      s := HoldRun(p, k);
    } else {
      s := DeployMismatched(p, k);
    }
  }

  /** It is deleted, and its pass is about to list its nodes. */
  lemma DeleteRun(p: Policy, s: State, k: ResourceRef) returns (t: State)
    requires Deployed(p, s, k)
    ensures Reaches(p, INITIAL, t)
    ensures HeldCluster(t.store, k) && t.store.clusters[k].spec == p.specs[k] && t.store.clusters[k].meta.deleting
    ensures t.cw == ListNodes(k, t.store.clusters[k])
    ensures k in t.store.deployed && t.store.processing == s.store.processing
  {
    t := Advance(p, INITIAL, s, DeleteCluster(k));
    assert HeldCluster(t.store, k);
    t := Advance(p, INITIAL, t, ClusterBegins(k));
    if !External(s.store.clusters[k]) {
      t := AdmitRun(p, t, k);
    }
  }

  lemma AdmitRun(p: Policy, s: State, k: ResourceRef) returns (t: State)
    requires k in p.specs && Reaches(p, INITIAL, s)
    requires HeldCluster(s.store, k) && s.store.clusters[k].spec == p.specs[k] && s.store.clusters[k].meta.deleting
    requires s.cw == GetDatabase(k, s.store.clusters[k])
    requires Admits(s.store, k, ServerOf(k, p.specs[k]))
    ensures Reaches(p, INITIAL, t)
    ensures t.store.clusters == s.store.clusters
    ensures t.cw == ListNodes(k, t.store.clusters[k])
    ensures t.store.deployed == s.store.deployed && t.store.processing == s.store.processing
  {
    t := Advance(p, INITIAL, s, ClusterCalls);
    if t.cw.Claim? {
      t := Advance(p, INITIAL, t, ClusterCalls);
    }
  }

  /**
   The finalizer goes while a task of the cluster runs and its nodes were neither listed as absent nor drained.
   */
  ghost predicate Breach(p: Policy, s: State, k: ResourceRef) {
    Reaches(p, INITIAL, s) && Releases(s, ClusterCalls, k) && !MayRelease(s, k)
  }

  function FirstNode(p: Policy, k: ResourceRef): NodeRef
    requires k in p.specs
  {
    NodeRef(p.specs[k].schema, BaseName(k.name))
  }

  /** A node of the cluster starts a task. */
  lemma RunTask(p: Policy, s: State, k: ResourceRef) returns (t: State)
    requires Deployed(p, s, k) && Untouched(s, k)
    ensures Deployed(p, t, k)
    ensures var n := FirstNode(p, k); n.node in Tasks(t.store, n.schema)
  {
    var n := FirstNode(p, k);
    assert !NodeOfDeleted(s.store, n);
    t := Advance(p, INITIAL, s, EnableJobs(n));
    t := Advance(p, INITIAL, t, StartTask(n));
  }

  /** A pass that has gone past its checks releases the cluster while one of its tasks runs. */
  lemma BreachNext(p: Policy, s: State, k: ResourceRef) returns (t: State)
    requires k in p.specs && Reaches(p, INITIAL, s)
    requires HeldCluster(s.store, k) && s.store.clusters[k].spec == p.specs[k]
    requires s.cw.FetchCluster? && s.cw.key == k && k in s.store.deployed
    requires FirstNode(p, k).node in Tasks(s.store, FirstNode(p, k).schema)
    ensures Breach(p, t, k)
  {
    t := Advance(p, INITIAL, s, ClusterCalls);
    assert t.cw.ReleaseCluster? && t.store == s.store;
    ReleaseReleases(t, k);
    assert NodeOf(k, FirstNode(p, k), p.specs[k].schema);
  }

  lemma ReleaseReleases(s: State, k: ResourceRef)
    requires HeldCluster(s.store, k)
    requires s.cw.ReleaseCluster? && s.cw.key == k && s.cw.cluster == s.store.clusters[k]
    ensures Releases(s, ClusterCalls, k)
  {
  }

  /** A list that fails counts as an empty one: the nodes go undrained. */
  lemma ListErrorBreaches(p: Policy, k: ResourceRef) returns (s: State)
    requires k in p.specs && p.listErrors
    ensures Breach(p, s, k)
  {
    s := DeployRun(p, k);
    s := RunTask(p, s, k);
    s := DeleteRun(p, s, k);
    s := Advance(p, INITIAL, s, ClusterFaults);
    s := BreachNext(p, s, k);
  }

  /** The cluster's jobs are disabled and its tasks counted. */
  lemma CountRun(p: Policy, k: ResourceRef) returns (s: State)
    requires k in p.specs
    ensures Reaches(p, INITIAL, s)
    ensures HeldCluster(s.store, k) && s.store.clusters[k].spec == p.specs[k]
    ensures s.cw.FetchCluster? && s.cw.key == k && k in s.store.deployed
  {
    s := DeployRun(p, k);
    s := DeleteRun(p, s, k);
    s := Advance(p, INITIAL, s, ClusterCalls);
    s := DisableAndCount(p, s, k);
  }

  lemma DisableAndCount(p: Policy, s: State, k: ResourceRef) returns (t: State)
    requires Reaches(p, INITIAL, s) && HeldCluster(s.store, k) && s.store.processing == map[]
    requires s.cw == DisableJobs(k, s.store.clusters[k])
    ensures Reaches(p, INITIAL, t)
    ensures t.store.clusters == s.store.clusters && t.store.deployed == s.store.deployed
    ensures t.cw.FetchCluster? && t.cw.key == k
  {
    t := Advance(p, INITIAL, s, ClusterCalls);
    assert t.cw == CountTasks(k, t.store.clusters[k]);
    t := Advance(p, INITIAL, t, ClusterCalls);
  }

  /** Jobs that are enabled again between the count and the release start a task in between. */
  lemma ReenableBreaches(p: Policy, k: ResourceRef) returns (s: State)
    requires k in p.specs && p.reenable
    ensures Breach(p, s, k)
  {
    s := CountRun(p, k);
    s := Advance(p, INITIAL, s, EnableJobs(FirstNode(p, k)));
    s := Advance(p, INITIAL, s, StartTask(FirstNode(p, k)));
    s := BreachNext(p, s, k);
  }

  lemma {:induction false} NoClusterRun(p: Policy, s: State, run: seq<Action>)
    requires p.specs == map[] && s.store.clusters == map[] && AllowedRun(p, s, run)
    ensures Exec(s, run).store.clusters == map[]
    decreases |run|
  {
    if run != [] {
      NoClusterStep(p, s, run[0]);
      NoClusterRun(p, Step(s, run[0]), run[1..]);
    }
  }

  lemma NoClusterStep(p: Policy, s: State, a: Action)
    requires p.specs == map[] && s.store.clusters == map[] && Allowed(p, s, a)
    ensures Step(s, a).store.clusters == map[]
  {
    match a {
      case ClusterCalls => NoClusterCall(s.store, s.cw);
      case DatabaseCalls =>
      case _ =>
    }
  }

  lemma NoClusterCall(st: Store, w: ClusterWorker)
    requires st.clusters == map[]
    ensures ClusterCall(st, w).0.clusters == map[]
  {
  }

  /**
   Every release of every run finds no node deployed or all nodes quiet exactly when lists do not fail and
   drained nodes stay disabled.
   */
  lemma DrainGateExactly(p: Policy)
    ensures (forall s, a, k :: Reaches(p, INITIAL, s) && Releases(s, a, k) ==> MayRelease(s, k))
      <==> GatedPolicy(p) || p.specs == map[]
  {
    if p.specs == map[] {
      forall s, k | Reaches(p, INITIAL, s)
        ensures !HeldCluster(s.store, k)
      {
        var run :| AllowedRun(p, INITIAL, run) && Exec(INITIAL, run) == s;
        NoClusterRun(p, INITIAL, run);
      }
    } else if GatedPolicy(p) {
      forall s, a, k | Reaches(p, INITIAL, s) && Releases(s, a, k)
        ensures MayRelease(s, k)
      {
        GateHolds(p, s, a, k);
      }
    } else {
      assert p.specs.Keys != {};
      var k :| k in p.specs;
      var s;
      if p.listErrors {
        s := ListErrorBreaches(p, k);
      } else {
        s := ReenableBreaches(p, k);
      }
      assert Releases(s, ClusterCalls, k);
    }
  }
}
