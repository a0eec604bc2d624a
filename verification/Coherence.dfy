/** Optimistic concurrency: a copy whose version is still the stored one equals the stored object. */
module Coherence {
  import opened Resources
  import opened Lifecycle

  ghost predicate StoreCoherent(st: Store) {
    && (forall k :: k in st.clusters ==> Stamped(st, st.clusters[k].meta))
    && (forall r :: r in st.databases ==> Stamped(st, st.databases[r].meta))
  }

  predicate Stamped(st: Store, m: Meta) {
    m.uid <= st.revision && m.version <= st.revision
  }

  predicate ClusterCopy(st: Store, k: ResourceRef, c: Cluster) {
    && Stamped(st, c.meta)
    && (ClusterIsAt(st, k, c.meta.version) ==> st.clusters[k] == c)
  }

  predicate DatabaseCopy(st: Store, r: ResourceRef, d: Database) {
    && Stamped(st, d.meta)
    && (DatabaseIsAt(st, r, d.meta.version) ==> st.databases[r] == d)
  }

  predicate ClusterWorkerCoherent(st: Store, w: ClusterWorker) {
    match w
    case GetDatabase(k, c) => ClusterCopy(st, k, c)
    case Claim(k, c, d) => ClusterCopy(st, k, c) && DatabaseCopy(st, ServerOf(k, c.spec), d) && d.claim.IsZero()
    case GuardDatabase(k, c, d) => ClusterCopy(st, k, c) && DatabaseCopy(st, ServerOf(k, c.spec), d)
    case HoldCluster(k, c) => ClusterCopy(st, k, c)
    case ReleaseCluster(k, _, _, _, c) => ClusterCopy(st, k, c)
    case ReleaseDatabase(_, server, d) => DatabaseCopy(st, server, d)
    case _ => true
  }

  predicate DatabaseWorkerCoherent(st: Store, w: DatabaseWorker) {
    match w
    case Resting => true
    case LookupCluster(r, d) => DatabaseCopy(st, r, d)
    case Unguard(r, d) => DatabaseCopy(st, r, d)
    case WriteStatus(r, d) => DatabaseCopy(st, r, d)
  }

  ghost predicate Coherent(s: State) {
    && StoreCoherent(s.store)
    && ClusterWorkerCoherent(s.store, s.cw)
    && DatabaseWorkerCoherent(s.store, s.dw)
  }

  /** Every object either is as before or carries a version that was not in use before. */
  ghost predicate Evolves(st: Store, st': Store) {
    && st.revision <= st'.revision
    && (forall k :: k in st'.clusters ==>
          (k in st.clusters && st'.clusters[k] == st.clusters[k])
          || (st.revision < st'.clusters[k].meta.version && Stamped(st', st'.clusters[k].meta)))
    && (forall r :: r in st'.databases ==>
          (r in st.databases && st'.databases[r] == st.databases[r])
          || (st.revision < st'.databases[r].meta.version && Stamped(st', st'.databases[r].meta)))
  }

  lemma WriteClusterEvolves(st: Store, k: ResourceRef, c: Cluster)
    requires c.meta.uid <= st.revision + 1
    ensures Evolves(st, WriteCluster(st, k, c))
  {
  }

  lemma WriteDatabaseEvolves(st: Store, r: ResourceRef, d: Database)
    requires d.meta.uid <= st.revision + 1
    ensures Evolves(st, WriteDatabase(st, r, d))
  {
  }

  lemma UserStepEvolves(st: Store, a: Action)
    requires StoreCoherent(st)
    ensures Evolves(st, UserStep(st, a))
  {
    if a.CreateCluster? || a.DeleteCluster? || a.TouchCluster? {
      UserClusterEvolves(st, a);
    } else if a.CreateDatabase? || a.DeleteDatabase? || a.TouchDatabase? {
      UserDatabaseEvolves(st, a);
    }
  }

  lemma UserClusterEvolves(st: Store, a: Action)
    requires StoreCoherent(st) && (a.CreateCluster? || a.DeleteCluster? || a.TouchCluster?)
    ensures Evolves(st, UserStep(st, a))
  {
    var k := a.key;
    if a.CreateCluster? {
      WriteClusterEvolves(st, k, Cluster(Meta(st.revision + 1, 0, false, a.finalizers), a.spec));
    } else if k in st.clusters {
      var c := st.clusters[k];
      WriteClusterEvolves(
        st, k, c.(meta := if a.DeleteCluster? then DeleteObject(c.meta) else SetFinalizers(c.meta, a.finalizers)));
    }
  }

  lemma UserDatabaseEvolves(st: Store, a: Action)
    requires StoreCoherent(st) && (a.CreateDatabase? || a.DeleteDatabase? || a.TouchDatabase?)
    ensures Evolves(st, UserStep(st, a))
  {
    var r := a.key;
    if a.CreateDatabase? {
      WriteDatabaseEvolves(st, r, Database(Meta(st.revision + 1, 0, false, a.finalizers), NO_REF));
    } else if r in st.databases {
      var d := st.databases[r];
      WriteDatabaseEvolves(
        st, r, d.(meta := if a.DeleteDatabase? then DeleteObject(d.meta) else SetFinalizers(d.meta, a.finalizers)));
    }
  }

  /** The calls that update a cluster, and those that update a database. */
  predicate UpdatesCluster(w: ClusterWorker) {
    w.HoldCluster? || w.ReleaseCluster?
  }

  predicate UpdatesDatabase(w: ClusterWorker) {
    w.Claim? || w.GuardDatabase? || w.ReleaseDatabase?
  }

  lemma OtherCallsKeep(st: Store, w: ClusterWorker)
    ensures !UpdatesCluster(w) ==> ClusterCall(st, w).0.clusters == st.clusters
    ensures !UpdatesDatabase(w) ==> ClusterCall(st, w).0.databases == st.databases
    ensures !UpdatesCluster(w) && !UpdatesDatabase(w) ==> ClusterCall(st, w).0.revision == st.revision
  {
  }

  lemma ClusterCallEvolves(st: Store, w: ClusterWorker)
    requires StoreCoherent(st) && ClusterWorkerCoherent(st, w)
    ensures Evolves(st, ClusterCall(st, w).0)
  {
    if !UpdatesCluster(w) && !UpdatesDatabase(w) {
      OtherCallsKeep(st, w);
    } else if UpdatesCluster(w) {
      ClusterUpdateEvolves(st, w);
    } else {
      DatabaseUpdateEvolves(st, w);
    }
  }

  lemma ClusterUpdateEvolves(st: Store, w: ClusterWorker)
    requires StoreCoherent(st) && ClusterWorkerCoherent(st, w) && UpdatesCluster(w)
    ensures Evolves(st, ClusterCall(st, w).0)
  {
  }

  lemma UpdateDatabaseEvolves(st: Store, r: ResourceRef, d: Database, claim: ResourceRef, fs: set<Finalizer>)
    requires DatabaseCopy(st, r, d)
    ensures Evolves(st, UpdateDatabase(st, r, d, claim, fs))
  {
    WriteDatabaseEvolves(st, r, Database(SetFinalizers(d.meta, fs), claim));
  }

  lemma DatabaseUpdateEvolves(st: Store, w: ClusterWorker)
    requires StoreCoherent(st) && ClusterWorkerCoherent(st, w) && UpdatesDatabase(w)
    ensures Evolves(st, ClusterCall(st, w).0)
  {
    var d := w.db;
    match w {
      case Claim(k, c, _) =>
        var r := ServerOf(k, c.spec);
        UpdateDatabaseEvolves(st, r, d, r, d.meta.finalizers);
      case GuardDatabase(k, c, _) =>
        UpdateDatabaseEvolves(st, ServerOf(k, c.spec), d, d.claim, d.meta.finalizers + {StroomClusterFinalizer});
      case ReleaseDatabase(_, server, _) =>
        UpdateDatabaseEvolves(st, server, d, d.claim, d.meta.finalizers - {StroomClusterFinalizer});
    }
  }

  lemma DatabaseCallEvolves(st: Store, w: DatabaseWorker)
    requires StoreCoherent(st) && DatabaseWorkerCoherent(st, w)
    ensures Evolves(st, DatabaseCall(st, w).0)
  {
  }

  lemma StepEvolves(s: State, a: Action)
    requires Coherent(s)
    ensures Evolves(s.store, Step(s, a).store)
  {
    match a {
      case ClusterCalls => ClusterCallEvolves(s.store, s.cw);
      case DatabaseCalls => DatabaseCallEvolves(s.store, s.dw);
      case _ => UserStepEvolves(s.store, a);
    }
  }

  lemma CopiesSurvive(st: Store, st': Store, cw: ClusterWorker, dw: DatabaseWorker)
    requires StoreCoherent(st) && Evolves(st, st')
    ensures StoreCoherent(st')
    ensures ClusterWorkerCoherent(st, cw) ==> ClusterWorkerCoherent(st', cw)
    ensures DatabaseWorkerCoherent(st, dw) ==> DatabaseWorkerCoherent(st', dw)
  {
  }

  /** The worker's next copies are coherent in the store its call leaves. */
  lemma ClusterCallCopies(st: Store, w: ClusterWorker)
    requires StoreCoherent(st) && ClusterWorkerCoherent(st, w)
    ensures ClusterWorkerCoherent(ClusterCall(st, w).0, ClusterCall(st, w).1)
  {
    ClusterCallEvolves(st, w);
    if UpdatesDatabase(w) {
      DatabaseUpdateCopies(st, w);
    }
  }

  lemma DatabaseUpdateCopies(st: Store, w: ClusterWorker)
    requires StoreCoherent(st) && ClusterWorkerCoherent(st, w) && UpdatesDatabase(w)
    ensures ClusterWorkerCoherent(ClusterCall(st, w).0, ClusterCall(st, w).1)
  {
    OtherCallsKeep(st, w);
  }

  lemma StepCoherent(s: State, a: Action)
    requires Coherent(s)
    ensures Coherent(Step(s, a))
  {
    StepEvolves(s, a);
    CopiesSurvive(s.store, Step(s, a).store, s.cw, s.dw);
    match a {
      case ClusterCalls => ClusterCallCopies(s.store, s.cw);
      case _ =>
    }
  }

  /** Coherence is kept by every run, whatever users and failures do. */
  lemma {:induction false} RunCoherent(s: State, run: seq<Action>)
    requires Coherent(s)
    ensures Coherent(Exec(s, run))
    decreases |run|
  {
    if run != [] {
      StepCoherent(s, run[0]);
      RunCoherent(Step(s, run[0]), run[1..]);
    }
  }
}
