/**
 A database outlives its cluster: the invariant behind the two finalizers and the claim, and that every step
 keeps it.
 */
module LifecycleSafety {
  import opened Resources
  import opened Lifecycle
  import opened Coherence

  /** Every cluster that refers to a managed DatabaseServer bears that server's name and namespace. */
  predicate SharedNames(p: Policy) {
    forall k :: k in p.specs && !p.specs[k].serverRef.IsZero() ==> ServerOf(k, p.specs[k]) == k
  }

  predicate Managed(st: Store, k: ResourceRef) {
    k in st.clusters && !External(st.clusters[k])
  }

  predicate ProtectedBy(st: Store, k: ResourceRef, r: ResourceRef) {
    r in st.databases && Guarded(st.databases[r]) && st.databases[r].claim == k
  }

  /**
   A cluster that waits for its tasks has its database, guarded by the finalizer and claimed by that cluster.
   */
  ghost predicate Protected(st: Store) {
    forall k :: Managed(st, k) && Waiting(st.clusters[k])
      ==> ProtectedBy(st, k, ServerOf(k, st.clusters[k].spec))
  }

  /** What users see of it: the database is still there. */
  ghost predicate DatabaseOutlives(st: Store) {
    forall k :: Managed(st, k) && Waiting(st.clusters[k])
      ==> ServerOf(k, st.clusters[k].spec) in st.databases
  }

  ghost predicate Conforms(p: Policy, st: Store) {
    forall k :: k in st.clusters ==> k in p.specs && st.clusters[k].spec == p.specs[k]
  }

  /** A claim is empty or, as the code writes it, the database's own reference. */
  ghost predicate OwnClaims(st: Store) {
    forall r :: r in st.databases ==> st.databases[r].claim.IsZero() || st.databases[r].claim == r
  }

  predicate CopyConforms(p: Policy, k: ResourceRef, c: Cluster) {
    k in p.specs && c.spec == p.specs[k]
  }

  predicate NotWaiting(st: Store, k: ResourceRef) {
    k in st.clusters ==> !Waiting(st.clusters[k])
  }

  /** `server` is where a cluster `k` keeps its database under shared names. */
  predicate ServerFits(k: ResourceRef, server: ResourceRef) {
    server.IsZero() || server == k
  }

  /** What each point of a StroomCluster pass relies on. */
  predicate ClusterWorkerSafe(p: Policy, st: Store, w: ClusterWorker) {
    match w
    case GetDatabase(k, c) => CopyConforms(p, k, c) && !External(c)
    case Claim(k, c, d) => CopyConforms(p, k, c) && !External(c)
    case GuardDatabase(k, c, d) => CopyConforms(p, k, c) && !External(c) && d.claim == k
    case HoldCluster(k, c) =>
      CopyConforms(p, k, c)
      && (ClusterIsAt(st, k, c.meta.version) && !External(c) ==> ProtectedBy(st, k, ServerOf(k, c.spec)))
    case ListNodes(k, c) => CopyConforms(p, k, c)
    case DisableJobs(k, c) => CopyConforms(p, k, c)
    case CountTasks(k, c) => CopyConforms(p, k, c)
    case FetchCluster(k, server, _, _) => ServerFits(k, server)
    case ReleaseCluster(k, server, _, _, c) => ServerFits(k, server)
    case FetchDatabase(k, server) => server == k && NotWaiting(st, k)
    case ReleaseDatabase(k, server, d) => server == k && NotWaiting(st, k)
    case _ => true
  }

  /** Once the DatabaseServer pass is about to drop its finalizer, no cluster refers to that database. */
  ghost predicate DatabaseWorkerSafe(st: Store, w: DatabaseWorker) {
    match w
    case LookupCluster(r, d) => d.meta.deleting
    case Unguard(r, d) =>
      d.meta.deleting
      && (DatabaseIsAt(st, r, d.meta.version) && !d.claim.IsZero() ==> !Managed(st, r))
    case _ => true
  }

  /** The part of the invariant that a call may break besides coherence. */
  ghost predicate Consistent(p: Policy, s: State) {
    && Conforms(p, s.store)
    && OwnClaims(s.store)
    && Protected(s.store)
    && ClusterWorkerSafe(p, s.store, s.cw)
    && DatabaseWorkerSafe(s.store, s.dw)
  }

  ghost predicate Safe(p: Policy, s: State) {
    Coherent(s) && Consistent(p, s)
  }

  predicate Sound(p: Policy) {
    SharedNames(p) && !p.lookupErrors && p.reuse != AnyTime
  }

  lemma ClusterCallConforms(p: Policy, st: Store, w: ClusterWorker)
    requires Conforms(p, st) && ClusterWorkerCoherent(st, w)
    ensures Conforms(p, ClusterCall(st, w).0)
  {
  }

  lemma StepConforms(p: Policy, s: State, a: Action)
    requires Conforms(p, s.store) && Coherent(s) && Allowed(p, s, a)
    ensures Conforms(p, Step(s, a).store)
  {
    match a {
      case ClusterCalls => ClusterCallConforms(p, s.store, s.cw);
      case DatabaseCalls =>
      case _ =>
    }
  }

  /** A specification never changes after creation. */
  lemma {:induction false} RunConforms(p: Policy, s: State, run: seq<Action>)
    requires AllowedRun(p, s, run)
    requires Conforms(p, s.store) && Coherent(s)
    ensures Conforms(p, Exec(s, run).store)
    decreases |run|
  {
    if run != [] {
      StepConforms(p, s, run[0]);
      StepCoherent(s, run[0]);
      RunConforms(p, Step(s, run[0]), run[1..]);
    }
  }

  // ---------- One write at a time ----------

  /** A write that leaves a guarded, claimed database guarded and claimed by its own name. */
  predicate KeepsGuard(st: Store, r: ResourceRef, d: Database) {
    ProtectedBy(st, r, r) ==> Guarded(d) && d.claim == r
  }

  lemma KeptWrite(st: Store, r: ResourceRef, d: Database, k: ResourceRef)
    requires KeepsGuard(st, r, d) && ProtectedBy(st, k, k)
    ensures ProtectedBy(WriteDatabase(st, r, d), k, k)
  {
  }

  /**
   A protected cluster keeps its protection under any write to a database that no waiting cluster needs or that
   keeps its guard.
   */
  lemma DatabaseWriteProtects(p: Policy, st: Store, r: ResourceRef, d: Database)
    requires SharedNames(p) && Conforms(p, st) && Protected(st) && OwnClaims(st)
    requires KeepsGuard(st, r, d) || !Managed(st, r) || !Waiting(st.clusters[r])
    requires d.claim.IsZero() || d.claim == r
    ensures Conforms(p, WriteDatabase(st, r, d))
    ensures OwnClaims(WriteDatabase(st, r, d))
    ensures Protected(WriteDatabase(st, r, d))
  {
    var st' := WriteDatabase(st, r, d);
    forall k | Managed(st', k) && Waiting(st'.clusters[k])
      ensures ProtectedBy(st', k, ServerOf(k, st'.clusters[k].spec))
    {
      assert Managed(st, k) && ServerOf(k, st.clusters[k].spec) == k;
      if k == r {
        KeptWrite(st, r, d, k);
      }
    }
  }

  lemma ClusterWriteProtects(p: Policy, st: Store, k: ResourceRef, c: Cluster)
    requires SharedNames(p) && Conforms(p, st) && Protected(st) && OwnClaims(st)
    requires CopyConforms(p, k, c)
    requires !External(c) && Waiting(c) ==> ProtectedBy(st, k, k)
    ensures Conforms(p, WriteCluster(st, k, c))
    ensures OwnClaims(WriteCluster(st, k, c))
    ensures Protected(WriteCluster(st, k, c))
  {
  }

  /**
   Both workers' assumptions survive a database write that keeps the guard, or that happens while no cluster
   refers to it.
   */
  lemma DatabaseWriteWorkers(p: Policy, s: State, r: ResourceRef, d: Database)
    requires SharedNames(p) && Safe(p, s)
    requires KeepsGuard(s.store, r, d) || !Managed(s.store, r)
    ensures ClusterWorkerSafe(p, WriteDatabase(s.store, r, d), s.cw)
    ensures DatabaseWorkerSafe(WriteDatabase(s.store, r, d), s.dw)
  {
    var st' := WriteDatabase(s.store, r, d);
    match s.cw {
      case HoldCluster(k, c) =>
        if ClusterIsAt(st', k, c.meta.version) && !External(c) {
          assert s.store.clusters[k] == c && Managed(s.store, k);
          assert ProtectedBy(s.store, k, k);
          if k == r { KeptWrite(s.store, r, d, k); }
        }
      case _ =>
    }
  }

  /** The StroomCluster pass survives a cluster write that adds no wait-for-tasks finalizer. */
  lemma ClusterWriteClusterWorker(p: Policy, s: State, k: ResourceRef, c: Cluster)
    requires Safe(p, s)
    requires Waiting(c) ==> k in s.store.clusters && Waiting(s.store.clusters[k])
    ensures ClusterWorkerSafe(p, WriteCluster(s.store, k, c), s.cw)
  {
    match s.cw {
      case HoldCluster(k', c') =>
        assert ClusterIsAt(WriteCluster(s.store, k, c), k', c'.meta.version) ==> k' != k;
      case _ =>
    }
  }

  /** The DatabaseServer pass survives one that creates no reference to a database about to be dropped. */
  lemma ClusterWriteDatabaseWorker(p: Policy, s: State, k: ResourceRef, c: Cluster)
    requires SharedNames(p) && Safe(p, s) && CopyConforms(p, k, c)
    requires Managed(s.store, k) || External(c) || s.dw.Resting? || !Terminating(s.store, k, c.spec)
    ensures DatabaseWorkerSafe(WriteCluster(s.store, k, c), s.dw)
  {
    match s.dw {
      case Unguard(r, d) =>
        if DatabaseIsAt(s.store, r, d.meta.version) && r == k && !External(c) {
          assert s.store.databases[r] == d && ServerOf(k, c.spec) == k;
        }
      case _ =>
    }
  }

  lemma ClusterWriteSafe(p: Policy, s: State, k: ResourceRef, c: Cluster)
    requires SharedNames(p) && Safe(p, s) && CopyConforms(p, k, c)
    requires Waiting(c) ==> k in s.store.clusters && Waiting(s.store.clusters[k])
    requires Managed(s.store, k) || External(c) || s.dw.Resting? || !Terminating(s.store, k, c.spec)
    ensures var st := WriteCluster(s.store, k, c);
      && Conforms(p, st) && OwnClaims(st) && Protected(st)
      && ClusterWorkerSafe(p, st, s.cw) && DatabaseWorkerSafe(st, s.dw)
  {
    ClusterWriteProtects(p, s.store, k, c);
    ClusterWriteClusterWorker(p, s, k, c);
    ClusterWriteDatabaseWorker(p, s, k, c);
  }

  // ---------- Every step ----------

  lemma UserStepSafe(p: Policy, s: State, a: Action)
    requires Sound(p) && Safe(p, s) && Allowed(p, s, a)
    ensures Safe(p, s.(store := UserStep(s.store, a)))
  {
    var st := s.store;
    UserStepEvolves(st, a);
    CopiesSurvive(st, UserStep(st, a), s.cw, s.dw);
    match a {
      case CreateCluster(k, spec, fs) => UserWritesCluster(p, s, a);
      case DeleteCluster(k) => UserWritesCluster(p, s, a);
      case TouchCluster(k, fs) => UserWritesCluster(p, s, a);
      case CreateDatabase(r, fs) => UserWritesDatabase(p, s, a);
      case DeleteDatabase(r) => UserWritesDatabase(p, s, a);
      case TouchDatabase(r, fs) => UserWritesDatabase(p, s, a);
      case _ => SameObjects(p, s, UserStep(st, a));
    }
  }

  lemma UserWritesCluster(p: Policy, s: State, a: Action)
    requires Sound(p) && Safe(p, s) && Allowed(p, s, a)
    requires a.CreateCluster? || a.DeleteCluster? || a.TouchCluster?
    ensures Consistent(p, s.(store := UserStep(s.store, a)))
  {
    var st := s.store;
    if UserStep(st, a) != st {
      match a {
        case CreateCluster(k, spec, fs) =>
          ClusterWriteSafe(p, s, k, Cluster(Meta(st.revision + 1, 0, false, fs), spec));
        case DeleteCluster(k) =>
          ClusterWriteSafe(p, s, k, st.clusters[k].(meta := DeleteObject(st.clusters[k].meta)));
        case TouchCluster(k, fs) =>
          ClusterWriteSafe(p, s, k, st.clusters[k].(meta := SetFinalizers(st.clusters[k].meta, fs)));
      }
    }
  }

  lemma UserWritesDatabase(p: Policy, s: State, a: Action)
    requires Sound(p) && Safe(p, s) && Allowed(p, s, a)
    requires a.CreateDatabase? || a.DeleteDatabase? || a.TouchDatabase?
    ensures Consistent(p, s.(store := UserStep(s.store, a)))
  {
    var st, r := s.store, a.key;
    if UserStep(st, a) != st {
      match a {
        case CreateDatabase(_, fs) =>
          DatabaseWriteSafe(p, s, r, Database(Meta(st.revision + 1, 0, false, fs), NO_REF));
        case DeleteDatabase(_) =>
          DatabaseWriteSafe(p, s, r, st.databases[r].(meta := DeleteObject(st.databases[r].meta)));
        case TouchDatabase(_, fs) =>
          DatabaseWriteSafe(p, s, r, st.databases[r].(meta := SetFinalizers(st.databases[r].meta, fs)));
      }
    }
  }

  lemma DatabaseWriteSafe(p: Policy, s: State, r: ResourceRef, d: Database)
    requires SharedNames(p) && Safe(p, s)
    requires KeepsGuard(s.store, r, d) && (d.claim.IsZero() || d.claim == r)
    ensures Consistent(p, s.(store := WriteDatabase(s.store, r, d)))
  {
    DatabaseWriteProtects(p, s.store, r, d);
    DatabaseWriteWorkers(p, s, r, d);
  }

  /** Nothing here depends on nodes, jobs or tasks. */
  lemma SameObjects(p: Policy, s: State, st': Store)
    requires Safe(p, s)
    requires st'.clusters == s.store.clusters && st'.databases == s.store.databases && st'.revision == s.store.revision
    ensures Safe(p, s.(store := st'))
  {
  }

  /** The database write of a StroomCluster pass. */
  lemma ClusterPassWritesDatabase(p: Policy, s: State)
    requires Sound(p) && Safe(p, s)
    requires UpdatesDatabase(s.cw)
    ensures Safe(p, Step(s, ClusterCalls))
  {
    StepCoherent(s, ClusterCalls);
    match s.cw {
      case Claim(k, c, d) => ClaimSafe(p, s);
      case GuardDatabase(k, c, d) => GuardSafe(p, s);
      case ReleaseDatabase(k, server, d) => ReleaseSafe(p, s);
    }
  }

  lemma ClaimSafe(p: Policy, s: State)
    requires Sound(p) && Safe(p, s) && s.cw.Claim?
    ensures Consistent(p, Step(s, ClusterCalls))
  {
    var k, d := s.cw.key, s.cw.db;
    if DatabaseIsAt(s.store, k, d.meta.version) {
      var d' := Database(SetFinalizers(d.meta, d.meta.finalizers), k);
      DatabaseWriteProtects(p, s.store, k, d');
      DatabaseWriteWorkers(p, s.(cw := Idle), k, d');
    }
  }

  lemma GuardSafe(p: Policy, s: State)
    requires Sound(p) && Safe(p, s) && s.cw.GuardDatabase?
    ensures Consistent(p, Step(s, ClusterCalls))
  {
    var k, d := s.cw.key, s.cw.db;
    if DatabaseIsAt(s.store, k, d.meta.version) {
      var d' := Database(SetFinalizers(d.meta, d.meta.finalizers + {StroomClusterFinalizer}), d.claim);
      DatabaseWriteProtects(p, s.store, k, d');
      DatabaseWriteWorkers(p, s.(cw := Idle), k, d');
    }
  }

  lemma ReleaseSafe(p: Policy, s: State)
    requires Sound(p) && Safe(p, s) && s.cw.ReleaseDatabase?
    ensures Consistent(p, Step(s, ClusterCalls))
  {
    var k, d := s.cw.key, s.cw.db;
    if DatabaseIsAt(s.store, k, d.meta.version) {
      var d' := Database(SetFinalizers(d.meta, d.meta.finalizers - {StroomClusterFinalizer}), d.claim);
      DatabaseWriteProtects(p, s.store, k, d');
    }
  }

  /** The cluster writes of a StroomCluster pass. */
  lemma ClusterPassWritesCluster(p: Policy, s: State)
    requires Sound(p) && Safe(p, s)
    requires UpdatesCluster(s.cw)
    ensures Safe(p, Step(s, ClusterCalls))
  {
    StepCoherent(s, ClusterCalls);
    var st, k, c := s.store, s.cw.key, s.cw.cluster;
    if ClusterIsAt(st, k, c.meta.version) {
      assert st.clusters[k] == c;
      var fs := if s.cw.HoldCluster? then c.meta.finalizers + {WaitNodeTasksFinalizer}
                else c.meta.finalizers - {WaitNodeTasksFinalizer};
      var c' := c.(meta := SetFinalizers(c.meta, fs));
      ClusterWriteProtects(p, st, k, c');
      ClusterWriteDatabaseWorker(p, s, k, c');
    }
  }

  lemma ClusterCallSafe(p: Policy, s: State)
    requires Sound(p) && Safe(p, s)
    ensures Safe(p, Step(s, ClusterCalls))
  {
    if UpdatesDatabase(s.cw) {
      ClusterPassWritesDatabase(p, s);
    } else if UpdatesCluster(s.cw) {
      ClusterPassWritesCluster(p, s);
    } else {
      StepCoherent(s, ClusterCalls);
      ClusterPassReads(p, s);
    }
  }

  /** The calls of a StroomCluster pass that write neither. */
  lemma ClusterPassReads(p: Policy, s: State)
    requires Sound(p) && Safe(p, s)
    requires !UpdatesDatabase(s.cw) && !UpdatesCluster(s.cw)
    ensures Consistent(p, Step(s, ClusterCalls))
  {
    var s' := s.(store := Step(s, ClusterCalls).store);
    OtherCallsKeep(s.store, s.cw);
    SameObjects(p, s, s'.store);
    NextPointSafe(p, s);
  }

  lemma NextPointSafe(p: Policy, s: State)
    requires Sound(p) && Safe(p, s)
    requires !UpdatesDatabase(s.cw) && !UpdatesCluster(s.cw)
    ensures ClusterWorkerSafe(p, ClusterCall(s.store, s.cw).0, ClusterCall(s.store, s.cw).1)
  {
    if s.cw.GetDatabase? {
      LookupSafe(p, s.store, s.cw);
    }
  }

  lemma LookupSafe(p: Policy, st: Store, w: ClusterWorker)
    requires w.GetDatabase? && ClusterWorkerSafe(p, st, w) && SharedNames(p)
    ensures ClusterWorkerSafe(p, ClusterCall(st, w).0, ClusterCall(st, w).1)
  {
  }

  lemma DatabaseCallSafe(p: Policy, s: State)
    requires Sound(p) && Safe(p, s)
    ensures Safe(p, Step(s, DatabaseCalls))
  {
    StepCoherent(s, DatabaseCalls);
    var st, free := s.store, s.(dw := Resting);
    match s.dw {
      case Unguard(r, d) =>
        if DatabaseIsAt(st, r, d.meta.version) {
          var d' := Database(SetFinalizers(d.meta, d.meta.finalizers - {StroomClusterFinalizer}), d.claim);
          DatabaseWriteProtects(p, st, r, d');
          DatabaseWriteWorkers(p, free, r, d');
        }
      case WriteStatus(r, d) =>
        if DatabaseIsAt(st, r, d.meta.version) {
          var d' := Database(SetFinalizers(d.meta, d.meta.finalizers), d.claim);
          DatabaseWriteProtects(p, st, r, d');
          DatabaseWriteWorkers(p, free, r, d');
        }
      case _ =>
    }
  }

  lemma StepSafe(p: Policy, s: State, a: Action)
    requires Sound(p) && Safe(p, s) && Allowed(p, s, a)
    ensures Safe(p, Step(s, a))
  {
    match a {
      case ClusterCalls => ClusterCallSafe(p, s);
      case DatabaseCalls => DatabaseCallSafe(p, s);
      case ClusterBegins(k) => WorkerStepSafe(p, s, a);
      case ClusterFaults => WorkerStepSafe(p, s, a);
      case ClusterStops =>
      case DatabaseBegins(r) => WorkerStepSafe(p, s, a);
      case DatabaseFaults => WorkerStepSafe(p, s, a);
      case DatabaseStops =>
      case _ => UserStepSafe(p, s, a);
    }
  }

  /** Beginning a pass, and a call that fails, change no object. */
  lemma WorkerStepSafe(p: Policy, s: State, a: Action)
    requires Sound(p) && Safe(p, s) && Allowed(p, s, a)
    requires a.ClusterBegins? || a.ClusterFaults? || a.DatabaseBegins? || a.DatabaseFaults?
    ensures Safe(p, Step(s, a))
  {
    StepCoherent(s, a);
  }

  /** The invariant holds at the end, hence at every point, of every allowed run. */
  lemma {:induction false} RunSafe(p: Policy, s: State, run: seq<Action>)
    requires Sound(p) && Safe(p, s) && AllowedRun(p, s, run)
    ensures Safe(p, Exec(s, run))
    decreases |run|
  {
    if run != [] {
      StepSafe(p, s, run[0]);
      RunSafe(p, Step(s, run[0]), run[1..]);
    }
  }
}
