/**
 The two releases of a deletion are not atomic: which failing calls leave the database's finalizer behind, how long
 it then stays, and what takes it away.
 */
module Stranding {
  import opened Resources
  import opened Outcomes
  import opened Lifecycle
  import opened Coherence
  import opened LifecycleSafety
  import opened LifecycleExactness
  import opened GuardExactness
  import opened Drain
  import opened DrainProgress
  import opened Passes

  /** The database carries the operator's finalizer for a cluster that is gone, and no pass is after it. */
  predicate Stranded(s: State, k: ResourceRef) {
    k !in s.store.clusters && Shielded(s, k) && !s.store.databases[k].meta.deleting
  }

  // ---------- Which failures strand it ----------

  /**
   Where calls fail in a pass that strands: not before the first release, except in the list of nodes, of which a
   failing one counts as empty, and then in one of the two calls that remove the database's finalizer.
   */
  predicate Strands(st: Store, k: ResourceRef, schema: string, faults: seq<bool>) {
    var undrained := k !in st.deployed || FailsAt(faults, 2);
    var release := if undrained then 3 else 5;
    && !FailsAt(faults, 0) && !FailsAt(faults, 1)
    && (!undrained ==> !FailsAt(faults, 3) && !FailsAt(faults, 4) && !TasksRemain(st, schema))
    && !FailsAt(faults, release) && !FailsAt(faults, release + 1)
    && (FailsAt(faults, release + 2) || FailsAt(faults, release + 3))
  }

  /** The cluster waits no more and its database is still guarded. */
  predicate HalfReleased(st: Store, k: ResourceRef) {
    !HeldCluster(st, k) && k in st.databases && Guarded(st.databases[k])
  }

  /** The pass up to the list of nodes. */
  lemma PassLooksUp(p: Policy, s: State, k: ResourceRef, schema: string, faults: seq<bool>)
    requires Sound(p) && Safe(p, s) && Draining(s, k, schema) && Managed(s.store, k)
    ensures PassWith(s, k, faults)
      == if FailsAt(faults, 0) || FailsAt(faults, 1) then s
         else FinishWith(s.(cw := ListNodes(k, s.store.clusters[k])), Skip(faults, 2))
  {
    var c := s.store.clusters[k];
    var s1 := s.(cw := GetDatabase(k, c));
    assert ServerOf(k, c.spec) == k && ProtectedBy(s.store, k, k);
    assert Step(s, ClusterBegins(k)) == s1;
    assert Step(s1, ClusterCalls) == s.(cw := ListNodes(k, c));
    SkipStep(faults, 0);
    SkipStep(faults, 1);
    FinishOneMore(s1, Rest(faults), true);
    assert s1.(cw := Idle) == s && FinishWith(s, Skip(faults, 2)) == s;
  }

  /** From the list of nodes to the releases. */
  lemma FinishLists(s: State, k: ResourceRef, c: Cluster, faults: seq<bool>)
    requires s.cw == ListNodes(k, c)
    ensures FinishWith(s, faults)
      == if Fails(faults) || k !in s.store.deployed then
           FinishWith(
             s.(cw := FetchCluster(
                  k, ServerOf(k, c.spec), c.spec.schema, if Fails(faults) then ListFailed else NoNodes)),
             Rest(faults))
         else
           FinishWith(s.(cw := DisableJobs(k, c)), Rest(faults))
  {
  }

  lemma FinishDrains(s: State, k: ResourceRef, c: Cluster, faults: seq<bool>)
    requires s.cw == DisableJobs(k, c)
    ensures var st := DisableNodes(s.store, k, c.spec.schema);
      FinishWith(s, faults)
      == if FailsAt(faults, 0) then s.(cw := Idle)
         else if FailsAt(faults, 1) || TasksRemain(s.store, c.spec.schema) then State(st, Idle, s.dw)
         else FinishWith(
           State(st, FetchCluster(k, ServerOf(k, c.spec), c.spec.schema, Drained), s.dw), Skip(faults, 2))
  {
    var st := DisableNodes(s.store, k, c.spec.schema);
    var s1 := State(st, CountTasks(k, c), s.dw);
    SkipStep(faults, 0);
    SkipStep(faults, 1);
    FinishOneMore(s, faults, true);
    assert Step(s, ClusterCalls) == s1;
    FinishCounts(s1, k, c, Rest(faults));
    assert Tasks(st, c.spec.schema) == Tasks(s.store, c.spec.schema);
  }

  lemma FinishCounts(s: State, k: ResourceRef, c: Cluster, faults: seq<bool>)
    requires s.cw == CountTasks(k, c)
    ensures FinishWith(s, faults)
      == if Fails(faults) || TasksRemain(s.store, c.spec.schema) then s.(cw := Idle)
         else FinishWith(s.(cw := FetchCluster(k, ServerOf(k, c.spec), c.spec.schema, Drained)), Rest(faults))
  {
    FinishOneMore(s, faults, true);
  }

  /** The releases. */
  lemma FinishHalf(s: State, k: ResourceRef, faults: seq<bool>)
    requires s.cw.FetchCluster? && s.cw.key == s.cw.server == k && !k.IsZero()
    requires HeldCluster(s.store, k) && k in s.store.databases && Guarded(s.store.databases[k])
    ensures var t := FinishWith(s, faults).store;
      && (HalfReleased(t, k)
          <==> !FailsAt(faults, 0) && !FailsAt(faults, 1) && (FailsAt(faults, 2) || FailsAt(faults, 3)))
      && (HalfReleased(t, k) ==> t == ReleasedCluster(s.store, k))
  {
    var st, schema, reason := s.store, s.cw.schema, s.cw.reason;
    FetchCall(st, k, k, schema, reason, s.dw, faults, true);
    ReleaseCall(st, k, k, schema, reason, s.dw, Rest(faults), true);
    SkipStep(faults, 0);
    SkipStep(faults, 1);
    UnguardCalls(ReleasedCluster(st, k), k, k, s.dw, Skip(faults, 2), true);
    SkipStep(Skip(faults, 2), 0);
  }

  /** From the list of nodes to the end. */
  lemma FinishStrands(s: State, k: ResourceRef, faults: seq<bool>)
    requires HeldCluster(s.store, k) && k in s.store.databases && Guarded(s.store.databases[k]) && !k.IsZero()
    requires s.cw == ListNodes(k, s.store.clusters[k]) && ServerOf(k, s.store.clusters[k].spec) == k
    ensures var t := FinishWith(s, faults).store; var c := s.store.clusters[k];
      var undrained := k !in s.store.deployed || FailsAt(faults, 0);
      var release := if undrained then 1 else 3;
      && (HalfReleased(t, k) <==>
            && (!undrained ==> !FailsAt(faults, 1) && !FailsAt(faults, 2) && !TasksRemain(s.store, c.spec.schema))
            && !FailsAt(faults, release) && !FailsAt(faults, release + 1)
            && (FailsAt(faults, release + 2) || FailsAt(faults, release + 3)))
      && (HalfReleased(t, k) ==>
            t in {ReleasedCluster(s.store, k), ReleasedCluster(DisableNodes(s.store, k, c.spec.schema), k)})
  {
    var c := s.store.clusters[k];
    FinishLists(s, k, c, faults);
    SkipStep(faults, 0);
    SkipStep(faults, 1);
    if Fails(faults) || k !in s.store.deployed {
      var reason := if Fails(faults) then ListFailed else NoNodes;
      FinishHalf(s.(cw := FetchCluster(k, k, c.spec.schema, reason)), k, Rest(faults));
      assert forall i: nat :: FailsAt(Rest(faults), i) == FailsAt(faults, 1 + i);
    } else {
      DrainStrands(s.(cw := DisableJobs(k, c)), k, Rest(faults));
      assert forall i: nat :: FailsAt(Rest(faults), i) == FailsAt(faults, 1 + i);
    }
  }

  /** The same once it has found nodes. */
  lemma DrainStrands(s: State, k: ResourceRef, faults: seq<bool>)
    requires HeldCluster(s.store, k) && k in s.store.databases && Guarded(s.store.databases[k]) && !k.IsZero()
    requires s.cw == DisableJobs(k, s.store.clusters[k]) && ServerOf(k, s.store.clusters[k].spec) == k
    ensures var t := FinishWith(s, faults).store; var c := s.store.clusters[k];
      && (HalfReleased(t, k) <==>
            && !FailsAt(faults, 0) && !FailsAt(faults, 1) && !TasksRemain(s.store, c.spec.schema)
            && !FailsAt(faults, 2) && !FailsAt(faults, 3) && (FailsAt(faults, 4) || FailsAt(faults, 5)))
      && (HalfReleased(t, k) ==> t == ReleasedCluster(DisableNodes(s.store, k, c.spec.schema), k))
  {
    var c := s.store.clusters[k];
    FinishDrains(s, k, c, faults);
    var st := DisableNodes(s.store, k, c.spec.schema);
    FinishHalf(State(st, FetchCluster(k, k, c.spec.schema, Drained), s.dw), k, Skip(faults, 2));
    assert forall i: nat :: FailsAt(Skip(faults, 2), i) == FailsAt(faults, 2 + i);
  }

  /**
   A deletion pass ends halfway, with the cluster let go and its database still guarded, exactly if its calls fail
   as `Strands` says; and if nothing else held the cluster, the finalizer is then stranded.
   */
  lemma StrandsExactly(p: Policy, s: State, k: ResourceRef, schema: string, faults: seq<bool>, deploys: bool)
    requires Sound(p) && Safe(p, s) && Draining(s, k, schema) && Managed(s.store, k)
    ensures HalfReleased(PassWith(s, k, faults, deploys).store, k) <==> Strands(s.store, k, schema, faults)
    ensures OnlyWaits(s.store.clusters[k]) && !s.store.databases[k].meta.deleting ==>
      (Stranded(PassWith(s, k, faults, deploys), k) <==> Strands(s.store, k, schema, faults))
  {
    var c := s.store.clusters[k];
    assert ServerOf(k, c.spec) == k && ProtectedBy(s.store, k, k);
    DeletionPasses(s, k, faults, deploys);
    PassLooksUp(p, s, k, schema, faults);
    if !FailsAt(faults, 0) && !FailsAt(faults, 1) {
      FinishStrands(s.(cw := ListNodes(k, c)), k, Skip(faults, 2));
      assert forall i: nat :: FailsAt(Skip(faults, 2), i) == FailsAt(faults, 2 + i);
    }
    if OnlyWaits(c) {
      assert c.meta.finalizers - {WaitNodeTasksFinalizer} == {};
    }
  }

  // ---------- Such a state is reached ----------

  /**
   A pass given up between its two releases strands the database's finalizer: the cluster is gone, so that no
   pass of its controller comes back for it.
   */
  lemma InterruptedReleaseStrands(p: Policy, k: ResourceRef) returns (s: State)
    requires ManagedSpec(p, k) && ServerOf(k, p.specs[k]) == k
    ensures Reaches(p, INITIAL, s)
    ensures Stranded(s, k) && s.cw == Idle && s.dw == Resting
  {
    var c;
    s, c := DeletedRun(p, k);
    s := FetchNodeless(p, INITIAL, s, k);
    s := ReleaseAndStop(p, s, k, c);
  }

  lemma ReleaseAndStop(p: Policy, s: State, k: ResourceRef, c: Cluster) returns (t: State)
    requires Reaches(p, INITIAL, s) && s.cw.ReleaseCluster? && s.cw.key == k && s.cw.cluster == c
    requires k in s.store.clusters && s.store.clusters[k] == c && OnlyWaits(c)
    ensures Reaches(p, INITIAL, t)
    ensures k !in t.store.clusters && t.store.databases == s.store.databases
    ensures t.cw == Idle && t.dw == s.dw
  {
    assert c.meta.finalizers - {WaitNodeTasksFinalizer} == {};
    t := Advance(p, INITIAL, s, ClusterCalls);
    t := Advance(p, INITIAL, t, ClusterStops);
  }

  /** A cluster that waits is deleted when it has no nodes. */
  lemma DeletedRun(p: Policy, k: ResourceRef) returns (s: State, c: Cluster)
    requires ManagedSpec(p, k) && ServerOf(k, p.specs[k]) == k
    ensures Reaches(p, INITIAL, s) && Nodeless(s, k) && s.dw == Resting
    ensures c == s.store.clusters[k] && c.meta.finalizers == {WaitNodeTasksFinalizer}
    ensures Guarded(s.store.databases[k]) && !s.store.databases[k].meta.deleting
  {
    s := HoldRun(p, k);
    s := Advance(p, INITIAL, s, RemoveNodes(k));
    s := Advance(p, INITIAL, s, DeleteCluster(k));
    c := s.store.clusters[k];
  }

  // ---------- How long it stays ----------

  /** The writes of a pass over another cluster leave it, and those of an earlier cluster `k` come to nothing. */
  lemma WriteStrands(p: Policy, s: State, k: ResourceRef)
    requires Sound(p) && Stands(p, s) && Stranded(s, k) && UpdatesCluster(s.cw)
    ensures Stranded(Step(s, ClusterCalls), k)
  {
    OtherCallsKeep(s.store, s.cw);
  }

  lemma DatabaseWriteStrands(p: Policy, s: State, k: ResourceRef)
    requires Sound(p) && Stands(p, s) && Stranded(s, k) && UpdatesDatabase(s.cw)
    ensures Stranded(Step(s, ClusterCalls), k)
  {
    OtherCallsKeep(s.store, s.cw);
    if s.cw.key == k && (s.cw.Claim? || s.cw.ReleaseDatabase?) {
      assert !DatabaseIsAt(s.store, k, s.cw.db.meta.version);
    }
  }

  lemma DatabaseCallStrands(p: Policy, s: State, k: ResourceRef)
    requires Sound(p) && Stands(p, s) && Stranded(s, k)
    ensures Stranded(Step(s, DatabaseCalls), k)
  {
    assert Step(s, DatabaseCalls).store.clusters == s.store.clusters;
    match s.dw {
      case Unguard(r, d) =>
        if r == k {
          assert !DatabaseIsAt(s.store, k, d.meta.version);
        } else {
          UpdateOfOther(s, r, d, d.claim, d.meta.finalizers - {StroomClusterFinalizer}, k);
        }
      case WriteStatus(r, d) => StatusStrands(s, r, d, k);
      case _ =>
    }
  }

  lemma UpdateOfOther(s: State, r: ResourceRef, d: Database, claim: ResourceRef, fs: set<Finalizer>, k: ResourceRef)
    requires Stranded(s, k) && r != k && ClusterWorkerCoherent(s.store, s.cw)
    ensures Stranded(s.(store := UpdateDatabase(s.store, r, d, claim, fs)), k)
  {
  }

  /** A status update keeps the finalizers. */
  lemma StatusStrands(s: State, r: ResourceRef, d: Database, k: ResourceRef)
    requires Stranded(s, k) && StoreCoherent(s.store) && ClusterWorkerCoherent(s.store, s.cw)
    requires DatabaseCopy(s.store, r, d)
    ensures Stranded(s.(store := UpdateDatabase(s.store, r, d, d.claim, d.meta.finalizers)), k)
  {
    if r != k {
      UpdateOfOther(s, r, d, d.claim, d.meta.finalizers, k);
    }
  }

  predicate TakesUp(a: Action, k: ResourceRef) {
    a == DeleteDatabase(k) || (a.CreateCluster? && a.key == k)
  }

  lemma UserStepStrands(s: State, a: Action, k: ResourceRef)
    requires StoreCoherent(s.store) && ClusterWorkerCoherent(s.store, s.cw)
    requires Stranded(s, k) && !TakesUp(a, k)
    ensures Stranded(s.(store := UserStep(s.store, a)), k)
  {
    UserStepShielded(s, a, k);
  }

  lemma StepStrands(p: Policy, s: State, a: Action, k: ResourceRef)
    requires Sound(p) && Stands(p, s) && Allowed(p, s, a)
    requires Stranded(s, k) && !TakesUp(a, k)
    ensures Stranded(Step(s, a), k)
  {
    match a {
      case ClusterCalls =>
        if UpdatesCluster(s.cw) {
          WriteStrands(p, s, k);
        } else if UpdatesDatabase(s.cw) {
          DatabaseWriteStrands(p, s, k);
        } else {
          ReadShielded(s, k);
          OtherCallsKeep(s.store, s.cw);
        }
      case DatabaseCalls => DatabaseCallStrands(p, s, k);
      case ClusterBegins(_) =>
      case ClusterFaults =>
      case ClusterStops =>
      case DatabaseBegins(_) =>
      case DatabaseFaults =>
      case DatabaseStops =>
      case _ => UserStepStrands(s, a, k);
    }
  }

  /**
   Whatever the two controllers, users and failures do, a stranded finalizer stays until its database is deleted or a
   cluster of that name is created.
   */
  lemma {:induction false} StrandedStays(p: Policy, s: State, run: seq<Action>, k: ResourceRef)
    requires Sound(p) && Stands(p, s) && AllowedRun(p, s, run)
    requires Stranded(s, k) && forall a :: a in run ==> !TakesUp(a, k)
    ensures Stranded(Exec(s, run), k)
    decreases |run|
  {
    if run != [] {
      assert run[0] in run;
      StepStrands(p, s, run[0], k);
      StepStands(p, s, run[0]);
      StrandedStays(p, Step(s, run[0]), run[1..], k);
    }
  }

  // ---------- What takes it away ----------

  /** One way out: once that database is deleted, one pass of its own controller drops the finalizer. */
  lemma StrandedGuardGoes(p: Policy, s: State, k: ResourceRef)
    requires Sound(p) && Reaches(p, INITIAL, s) && s.dw == Resting
    requires Stranded(s, k)
    ensures var s' := Step(s, DeleteDatabase(k)); var t := FinishDatabase(s'.(dw := StartDatabase(s'.store, k)), []);
      k in t.store.databases ==> !Guarded(t.store.databases[k])
  {
    ReachableStands(p, s);
    var s' := Step(s, DeleteDatabase(k));
    if k in s'.store.databases && Guarded(s'.store.databases[k]) {
      AbandonedDatabaseIsFreed(s', k);
    }
  }

  /** Only databases of managed clusters are ever guarded. */
  ghost predicate GuardsAreOwn(p: Policy, st: Store) {
    forall r :: r in st.databases && Guarded(st.databases[r]) ==> ManagedSpec(p, r)
  }

  lemma UserStepGuardsOwn(p: Policy, st: Store, a: Action)
    requires GuardsAreOwn(p, st)
    ensures GuardsAreOwn(p, UserStep(st, a))
  {
  }

  lemma UpdateGuardsOwn(
      p: Policy, st: Store, r: ResourceRef, d: Database, claim: ResourceRef, fs: set<Finalizer>)
    requires GuardsAreOwn(p, st) && DatabaseCopy(st, r, d)
    requires StroomClusterFinalizer in fs ==> ManagedSpec(p, r) || Guarded(d)
    ensures GuardsAreOwn(p, UpdateDatabase(st, r, d, claim, fs))
  {
  }

  lemma CallGuardsOwn(p: Policy, s: State)
    requires Sound(p) && Safe(p, s) && GuardsAreOwn(p, s.store)
    ensures GuardsAreOwn(p, ClusterCall(s.store, s.cw).0)
  {
    match s.cw {
      case Claim(k, c, d) =>
        UpdateGuardsOwn(p, s.store, ServerOf(k, c.spec), d, ServerOf(k, c.spec), d.meta.finalizers);
      case GuardDatabase(k, c, d) =>
        UpdateGuardsOwn(
          p, s.store, ServerOf(k, c.spec), d, d.claim, d.meta.finalizers + {StroomClusterFinalizer});
      case ReleaseDatabase(_, server, d) =>
        UpdateGuardsOwn(p, s.store, server, d, d.claim, d.meta.finalizers - {StroomClusterFinalizer});
      case _ => OtherCallsKeep(s.store, s.cw);
    }
  }

  lemma DatabaseCallGuardsOwn(p: Policy, s: State)
    requires Coherent(s) && GuardsAreOwn(p, s.store)
    ensures GuardsAreOwn(p, DatabaseCall(s.store, s.dw).0)
  {
  }

  lemma StepGuardsOwn(p: Policy, s: State, a: Action)
    requires Sound(p) && Safe(p, s) && GuardsAreOwn(p, s.store)
    ensures GuardsAreOwn(p, Step(s, a).store)
  {
    match a {
      case ClusterCalls => CallGuardsOwn(p, s);
      case DatabaseCalls => DatabaseCallGuardsOwn(p, s);
      case _ => UserStepGuardsOwn(p, s.store, a);
    }
  }

  lemma {:induction false} RunGuardsOwn(p: Policy, s: State, run: seq<Action>)
    requires Sound(p) && Safe(p, s) && AllowedRun(p, s, run) && GuardsAreOwn(p, s.store)
    ensures GuardsAreOwn(p, Exec(s, run).store)
    decreases |run|
  {
    if run != [] {
      StepGuardsOwn(p, s, run[0]);
      StepSafe(p, s, run[0]);
      RunGuardsOwn(p, Step(s, run[0]), run[1..]);
    }
  }

  lemma StrandedIsManaged(p: Policy, s: State, k: ResourceRef)
    requires Sound(p) && Reaches(p, INITIAL, s) && Stranded(s, k)
    ensures ManagedSpec(p, k) && ServerOf(k, p.specs[k]) == k && s.store.databases[k].claim == k
  {
    var run :| AllowedRun(p, INITIAL, run) && Exec(INITIAL, run) == s;
    RunGuardsOwn(p, INITIAL, run);
    ReachableStands(p, s);
  }

  /** The other way out: a cluster of that name is created again, and deleted. */
  lemma RecreationReleases(p: Policy, s: State, k: ResourceRef) returns (t: State)
    requires Sound(p) && Reaches(p, INITIAL, s) && Stranded(s, k) && s.cw == Idle
    ensures Reaches(p, s, t) && k !in t.store.clusters
    ensures k in t.store.databases && t.store.databases[k].meta.uid == s.store.databases[k].meta.uid
    ensures !t.store.databases[k].meta.deleting && !Guarded(t.store.databases[k])
  {
    StrandedIsManaged(p, s, k);
    t := RecreateAndDelete(p, s, k);
    t := FetchNodeless(p, s, t, k);
    t := ReleaseLast(p, s, t, k);
    t := UnguardLast(p, s, t, k);
  }

  lemma UnguardLast(p: Policy, s: State, t: State, k: ResourceRef) returns (u: State)
    requires Reaches(p, s, t) && t.cw == FetchDatabase(k, k)
    requires k in t.store.databases && Guarded(t.store.databases[k]) && !t.store.databases[k].meta.deleting
    ensures Reaches(p, s, u) && u.store.clusters == t.store.clusters
    ensures k in u.store.databases && u.store.databases[k].meta.uid == t.store.databases[k].meta.uid
    ensures !u.store.databases[k].meta.deleting && !Guarded(u.store.databases[k])
  {
    u := Advance(p, s, t, ClusterCalls);
    assert u == t.(cw := ReleaseDatabase(k, k, t.store.databases[k]));
    u := Advance(p, s, u, ClusterCalls);
  }

  /** Its first pass makes the cluster wait; then it is deleted, and its nodes are gone. */
  lemma RecreateAndDelete(p: Policy, s: State, k: ResourceRef) returns (t: State)
    requires Sound(p) && Stranded(s, k) && s.cw == Idle
    requires ManagedSpec(p, k) && ServerOf(k, p.specs[k]) == k && s.store.databases[k].claim == k
    ensures Reaches(p, s, t) && Nodeless(t, k) && OnlyWaits(t.store.clusters[k])
    ensures t.store.databases == s.store.databases
  {
    ReachesSelf(p, s);
    t := RecreateNext(p, s, k);
    t := ResumeRun(p, s, t, k);
    t := HoldNext(p, s, t, k);
    t := StopAndDelete(p, s, t, k);
  }

  lemma RecreateNext(p: Policy, s: State, k: ResourceRef) returns (t: State)
    requires Stranded(s, k) && s.cw == Idle
    requires ManagedSpec(p, k) && ServerOf(k, p.specs[k]) == k
    ensures Reaches(p, s, t) && t.cw == Idle && t.store.databases == s.store.databases
    ensures k in t.store.clusters && t.store.clusters[k].spec == p.specs[k]
    ensures !t.store.clusters[k].meta.deleting && t.store.clusters[k].meta.finalizers == {}
  {
    ReachesSelf(p, s);
    t := Advance(p, s, s, CreateCluster(k, p.specs[k], {}));
  }

  lemma StopAndDelete(p: Policy, s: State, t: State, k: ResourceRef) returns (u: State)
    requires Reaches(p, s, t) && HeldCluster(t.store, k)
    requires t.store.clusters[k].meta.finalizers == {WaitNodeTasksFinalizer}
    ensures Reaches(p, s, u) && u.cw == Idle && k !in u.store.deployed && u.store.databases == t.store.databases
    ensures k in u.store.clusters && u.store.clusters[k].spec == t.store.clusters[k].spec
    ensures OnlyWaits(u.store.clusters[k])
  {
    u := Advance(p, s, t, ClusterStops);
    u := Advance(p, s, u, RemoveNodes(k));
    u := Advance(p, s, u, DeleteCluster(k));
  }

  lemma ReleaseLast(p: Policy, s: State, t: State, k: ResourceRef) returns (u: State)
    requires Reaches(p, s, t) && k in t.store.clusters && OnlyWaits(t.store.clusters[k]) && !k.IsZero()
    requires t.cw.ReleaseCluster? && t.cw.key == t.cw.server == k && t.cw.cluster == t.store.clusters[k]
    ensures Reaches(p, s, u) && u.cw == FetchDatabase(k, k)
    ensures k !in u.store.clusters && u.store.databases == t.store.databases
  {
    assert t.store.clusters[k].meta.finalizers - {WaitNodeTasksFinalizer} == {};
    u := Advance(p, s, t, ClusterCalls);
  }
}
