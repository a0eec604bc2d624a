/** The three ways in which a waiting cluster can lose its database, and the resulting exact condition for safety. */
module LifecycleExactness {
  import opened Resources
  import opened Lifecycle
  import opened LifecycleSafety

  /** Only `k` and its database exist, and no pass is in flight. */
  ghost predicate Pair(s: State, k: ResourceRef, c: Cluster, r: ResourceRef, d: Database) {
    && s.store.clusters == map[k := c]
    && s.store.databases == map[r := d]
    && s.cw == Idle && s.dw == Resting
    && s.store.processing == map[]
  }

  /** A reachable state in which a managed cluster waits for its tasks but its database is gone. */
  ghost predicate Orphaned(p: Policy, s: State, k: ResourceRef) {
    && Reaches(p, INITIAL, s)
    && Managed(s.store, k)
    && Waiting(s.store.clusters[k])
    && ServerOf(k, s.store.clusters[k].spec) !in s.store.databases
  }

  predicate ManagedSpec(p: Policy, k: ResourceRef) {
    k in p.specs && !p.specs[k].serverRef.IsZero()
  }

  /** A database and its cluster are created. */
  lemma CreateRun(p: Policy, k: ResourceRef) returns (s: State)
    requires ManagedSpec(p, k)
    ensures Reaches(p, INITIAL, s)
    ensures var spec := p.specs[k]; var r := ServerOf(k, spec);
      Pair(s, k, Cluster(Meta(2, 2, false, {}), spec), r, Database(Meta(1, 1, false, {}), NO_REF))
    ensures s.store.revision == 2 && s.store.deployed == {}
  {
    var r := ServerOf(k, p.specs[k]);
    ReachesSelf(p, INITIAL);
    s := Advance(p, INITIAL, INITIAL, CreateDatabase(r, {}));
    s := Advance(p, INITIAL, s, CreateCluster(k, p.specs[k], {}));
  }

  /** The first pass claims the database. */
  lemma ClaimRun(p: Policy, k: ResourceRef) returns (s: State)
    requires ManagedSpec(p, k)
    ensures Reaches(p, INITIAL, s)
    ensures var spec := p.specs[k]; var r := ServerOf(k, spec);
      var c := Cluster(Meta(2, 2, false, {}), spec); var d := Database(Meta(1, 3, false, {}), r);
      Pair(s.(cw := Idle), k, c, r, d) && s.cw == GuardDatabase(k, c, d)
    ensures s.store.revision == 3 && s.store.deployed == {}
  {
    s := CreateRun(p, k);
    s := Advance(p, INITIAL, s, ClusterBegins(k));
    s := Advance(p, INITIAL, s, ClusterCalls);
    assert s.cw.Claim?;
    s := Advance(p, INITIAL, s, ClusterCalls);
  }

  /** It then guards the database and is about to hold the cluster. */
  lemma GuardRun(p: Policy, k: ResourceRef) returns (s: State)
    requires ManagedSpec(p, k)
    ensures Reaches(p, INITIAL, s)
    ensures var spec := p.specs[k]; var r := ServerOf(k, spec); var c := Cluster(Meta(2, 2, false, {}), spec);
      && Pair(s.(cw := Idle), k, c, r, Database(Meta(1, 4, false, {StroomClusterFinalizer}), r))
      && s.cw == HoldCluster(k, c)
    ensures s.store.revision == 4 && s.store.deployed == {}
  {
    s := ClaimRun(p, k);
    s := Advance(p, INITIAL, s, ClusterCalls);
    assert {} + {StroomClusterFinalizer} == {StroomClusterFinalizer};
  }

  /** The cluster waits for its tasks, and its pass is about to create its children. */
  lemma PendingRun(p: Policy, k: ResourceRef) returns (s: State)
    requires ManagedSpec(p, k)
    ensures Reaches(p, INITIAL, s)
    ensures var spec := p.specs[k]; var r := ServerOf(k, spec);
      Pair(s.(cw := Idle), k, Cluster(Meta(2, 5, false, {WaitNodeTasksFinalizer}), spec),
           r, Database(Meta(1, 4, false, {StroomClusterFinalizer}), r))
    ensures s.store.revision == 5 && s.store.deployed == {} && s.cw == CreateChildren(k)
  {
    s := GuardRun(p, k);
    s := Advance(p, INITIAL, s, ClusterCalls);
    assert {} + {WaitNodeTasksFinalizer} == {WaitNodeTasksFinalizer};
  }

  /** The first pass completes. */
  lemma HoldRun(p: Policy, k: ResourceRef) returns (s: State)
    requires ManagedSpec(p, k)
    ensures Reaches(p, INITIAL, s)
    ensures var spec := p.specs[k]; var r := ServerOf(k, spec);
      Pair(s, k, Cluster(Meta(2, 5, false, {WaitNodeTasksFinalizer}), spec),
              r, Database(Meta(1, 4, false, {StroomClusterFinalizer}), r))
    ensures s.store.revision == 5 && k in s.store.deployed
  {
    s := PendingRun(p, k);
    s := Advance(p, INITIAL, s, ClusterCalls);
  }

  /** Before it does, the database is deleted, and its controller has read it. */
  lemma LookupRun(p: Policy, k: ResourceRef) returns (s: State, d: Database)
    requires ManagedSpec(p, k)
    ensures Reaches(p, INITIAL, s)
    ensures var spec := p.specs[k]; var r := ServerOf(k, spec);
      && d == Database(Meta(1, 6, true, {StroomClusterFinalizer}), r)
      && Pair(s.(cw := Idle, dw := Resting),
              k, Cluster(Meta(2, 5, false, {WaitNodeTasksFinalizer}), spec), r, d)
      && s.dw == LookupCluster(r, d)
    ensures s.cw == CreateChildren(k) && s.store.deployed == {}
  {
    var r := ServerOf(k, p.specs[k]);
    s := PendingRun(p, k);
    s := Advance(p, INITIAL, s, DeleteDatabase(r));
    d := Database(Meta(1, 6, true, {StroomClusterFinalizer}), r);
    assert s.store.databases == map[r := d];
    s := Advance(p, INITIAL, s, DatabaseBegins(r));
  }

  /** The controller drops the last finalizer and with it the database. */
  lemma DropRun(p: Policy, s: State, k: ResourceRef, r: ResourceRef, d: Database) returns (t: State)
    requires Reaches(p, INITIAL, s)
    requires s.dw == Unguard(r, d) && s.store.databases == map[r := d]
    requires d.meta.deleting && d.meta.finalizers == {StroomClusterFinalizer}
    requires Managed(s.store, k) && Waiting(s.store.clusters[k]) && ServerOf(k, s.store.clusters[k].spec) == r
    ensures Orphaned(p, t, k)
    ensures t.store == s.store.(revision := t.store.revision, databases := map[])
    ensures t.cw == s.cw && t.dw == Resting
  {
    t := Advance(p, INITIAL, s, DatabaseCalls);
    assert d.meta.finalizers - {StroomClusterFinalizer} == {};
  }

  /** The pass of an orphaned cluster is about to create its first children. */
  ghost predicate Pending(p: Policy, s: State, k: ResourceRef) {
    Orphaned(p, s, k) && s.cw == CreateChildren(k) && k !in s.store.deployed
  }

  /**
   A cluster that does not share its database's name: the stored claim names no cluster, so nothing holds the
   database back.
   */
  lemma MismatchPending(p: Policy, k: ResourceRef) returns (s: State)
    requires ManagedSpec(p, k) && ServerOf(k, p.specs[k]) != k
    ensures Pending(p, s, k)
    ensures s.store.clusters == map[k := Cluster(Meta(2, 5, false, {WaitNodeTasksFinalizer}), p.specs[k])]
    ensures s.store.databases == map[] && s.store.processing == map[] && s.dw == Resting
  {
    var d;
    s, d := LookupRun(p, k);
    s := Advance(p, INITIAL, s, DatabaseCalls);
    s := DropRun(p, s, k, ServerOf(k, p.specs[k]), d);
  }

  lemma MismatchOrphans(p: Policy, k: ResourceRef) returns (s: State)
    requires ManagedSpec(p, k) && ServerOf(k, p.specs[k]) != k
    ensures Orphaned(p, s, k)
    ensures s.store.clusters == map[k := Cluster(Meta(2, 5, false, {WaitNodeTasksFinalizer}), p.specs[k])]
    ensures s.store.databases == map[] && s.store.processing == map[] && k in s.store.deployed
    ensures s.cw == Idle && s.dw == Resting
  {
    s := MismatchPending(p, k);
    s := Advance(p, INITIAL, s, ClusterCalls);
  }

  /** One failed read of the claiming cluster is taken for its absence. */
  lemma LookupErrorOrphans(p: Policy, k: ResourceRef) returns (s: State)
    requires ManagedSpec(p, k) && p.lookupErrors
    ensures Pending(p, s, k)
  {
    var d;
    s, d := LookupRun(p, k);
    s := Advance(p, INITIAL, s, DatabaseFaults);
    s := DropRun(p, s, k, ServerOf(k, p.specs[k]), d);
  }

  /** Claimed and guarded, the database loses its cluster, which no finalizer holds back yet. */
  lemma DesertRun(p: Policy, k: ResourceRef) returns (s: State)
    requires ManagedSpec(p, k) && ServerOf(k, p.specs[k]) == k
    ensures Reaches(p, INITIAL, s)
    ensures s.store.clusters == map[]
    ensures s.store.databases == map[k := Database(Meta(1, 4, false, {StroomClusterFinalizer}), k)]
    ensures s.store.revision == 5 && s.store.deployed == {} && s.cw == Idle && s.dw == Resting
  {
    s := GuardRun(p, k);
    s := Advance(p, INITIAL, s, ClusterStops);
    s := Advance(p, INITIAL, s, DeleteCluster(k));
  }

  /** It is deleted in turn, and its controller finds no cluster. */
  lemma AbandonRun(p: Policy, k: ResourceRef) returns (s: State, d: Database)
    requires ManagedSpec(p, k) && ServerOf(k, p.specs[k]) == k
    ensures Reaches(p, INITIAL, s)
    ensures d == Database(Meta(1, 6, true, {StroomClusterFinalizer}), k)
    ensures s.store.clusters == map[] && s.store.databases == map[k := d]
    ensures s.store.deployed == {} && s.cw == Idle && s.dw == Unguard(k, d)
  {
    d := Database(Meta(1, 6, true, {StroomClusterFinalizer}), k);
    s := DesertRun(p, k);
    s := Advance(p, INITIAL, s, DeleteDatabase(k));
    assert s.store.databases == map[k := d];
    s := MissRun(p, s, k, d);
  }

  /** The DatabaseServer controller reads the database and then finds no cluster. */
  lemma MissRun(p: Policy, s: State, k: ResourceRef, d: Database) returns (t: State)
    requires Reaches(p, INITIAL, s) && s.dw == Resting
    requires s.store.clusters == map[] && s.store.databases == map[k := d]
    requires d.meta.deleting && Guarded(d) && d.claim == k
    ensures Reaches(p, INITIAL, t) && t == s.(dw := Unguard(k, d))
  {
    t := Advance(p, INITIAL, s, DatabaseBegins(k));
    if t.dw.LookupCluster? {
      t := Advance(p, INITIAL, t, DatabaseCalls);
    }
  }

  /**
   A cluster re-created between the controller's read of it and the removal of the finalizer finds its
   database claimed and guarded, so its own pass writes nothing that would make that removal fail.
   */
  lemma ReuseOrphans(p: Policy, k: ResourceRef) returns (s: State)
    requires ManagedSpec(p, k) && ServerOf(k, p.specs[k]) == k && p.reuse == AnyTime
    ensures Pending(p, s, k)
  {
    var d;
    s, d := AbandonRun(p, k);
    s := RecreateRun(p, s, k);
    s := ResumeRun(p, INITIAL, s, k);
    s := HoldNext(p, INITIAL, s, k);
    s := DropRun(p, s, k, k, d);
  }

  lemma RecreateRun(p: Policy, s: State, k: ResourceRef) returns (t: State)
    requires ManagedSpec(p, k) && p.reuse == AnyTime
    requires Reaches(p, INITIAL, s) && s.store.clusters == map[]
    ensures Reaches(p, INITIAL, t)
    ensures t == s.(store := s.store.(revision := t.store.revision, clusters := t.store.clusters))
    ensures k in t.store.clusters && t.store.clusters[k].spec == p.specs[k]
    ensures !t.store.clusters[k].meta.deleting && t.store.clusters[k].meta.finalizers == {}
  {
    t := Advance(p, INITIAL, s, CreateCluster(k, p.specs[k], {}));
  }

  /** The cluster is made to wait for its tasks. */
  lemma HoldNext(p: Policy, o: State, s: State, k: ResourceRef) returns (t: State)
    requires Reaches(p, o, s) && Managed(s.store, k) && !s.store.clusters[k].meta.deleting
    requires s.cw == HoldCluster(k, s.store.clusters[k])
    ensures Reaches(p, o, t) && t.cw == CreateChildren(k) && t.dw == s.dw && t.store.databases == s.store.databases
    ensures t.store.deployed == s.store.deployed
    ensures Managed(t.store, k) && Waiting(t.store.clusters[k])
    ensures t.store.clusters[k].spec == s.store.clusters[k].spec && !t.store.clusters[k].meta.deleting
    ensures t.store.clusters[k].meta.finalizers == s.store.clusters[k].meta.finalizers + {WaitNodeTasksFinalizer}
  {
    t := Advance(p, o, s, ClusterCalls);
  }

  /** A new cluster's pass finds its database claimed and guarded. */
  lemma ResumeRun(p: Policy, o: State, s: State, k: ResourceRef) returns (t: State)
    requires Reaches(p, o, s) && s.cw == Idle
    requires Managed(s.store, k) && ServerOf(k, s.store.clusters[k].spec) == k && !k.IsZero()
    requires !s.store.clusters[k].meta.deleting && !Waiting(s.store.clusters[k])
    requires ProtectedBy(s.store, k, k)
    ensures Reaches(p, o, t) && t == s.(cw := HoldCluster(k, s.store.clusters[k]))
  {
    t := Advance(p, o, s, ClusterBegins(k));
    assert t.cw == GetDatabase(k, s.store.clusters[k]);
    t := Advance(p, o, t, ClusterCalls);
  }

  /** What makes a policy safe: no managed cluster at all, or the three hypotheses together. */
  predicate SafePolicy(p: Policy) {
    Sound(p) || forall k :: k in p.specs ==> p.specs[k].serverRef.IsZero()
  }

  lemma ReachableProtected(p: Policy, s: State)
    requires SafePolicy(p) && Reaches(p, INITIAL, s)
    ensures Protected(s.store)
  {
    var run :| AllowedRun(p, INITIAL, run) && Exec(INITIAL, run) == s;
    if Sound(p) {
      RunSafe(p, INITIAL, run);
    } else {
      RunConforms(p, INITIAL, run);
    }
  }

  /** Some reachable state of an unsafe policy has lost a database that is still needed. */
  lemma UnsafeOrphans(p: Policy) returns (s: State, k: ResourceRef)
    requires !SafePolicy(p)
    ensures Pending(p, s, k)
  {
    k :| k in p.specs && !p.specs[k].serverRef.IsZero();
    if p.lookupErrors {
      s := LookupErrorOrphans(p, k);
    } else if ServerOf(k, p.specs[k]) != k {
      s := MismatchPending(p, k);
    } else if p.reuse == AnyTime {
      s := ReuseOrphans(p, k);
    } else {
      k :| k in p.specs && !p.specs[k].serverRef.IsZero() && ServerOf(k, p.specs[k]) != k;
      s := MismatchPending(p, k);
    }
  }

  /**
   The database outlives its cluster, in every reachable state, exactly under a safe policy; and then the
   full invariant holds as well.
   */
  lemma LifecycleExactly(p: Policy)
    ensures (forall s :: Reaches(p, INITIAL, s) ==> DatabaseOutlives(s.store)) <==> SafePolicy(p)
    ensures (forall s :: Reaches(p, INITIAL, s) ==> Protected(s.store)) <==> SafePolicy(p)
  {
    if SafePolicy(p) {
      forall s | Reaches(p, INITIAL, s)
        ensures Protected(s.store)
      {
        ReachableProtected(p, s);
      }
    } else {
      var s, k := UnsafeOrphans(p);
    }
  }
}
