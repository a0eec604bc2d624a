/**
 When the database of an existing cluster can go: exactly while it lacks the operator's finalizer, or while a
 deletion pass left over from an earlier cluster of that name is about to take it; and that a cluster object is
 outlived by its database for certain exactly when it is being deleted and nothing else holds it.
 */
module GuardExactness {
  import opened Resources
  import opened Lifecycle
  import opened Coherence
  import opened LifecycleSafety
  import opened LifecycleExactness

  // ---------- What else holds in every reachable state ----------

  /** Nothing that should have disappeared is stored, and a finalizer comes after a claim. */
  ghost predicate Settled(st: Store) {
    && (forall k :: k in st.clusters ==> !Finished(st.clusters[k].meta))
    && (forall r :: r in st.databases ==>
          !Finished(st.databases[r].meta) && (Guarded(st.databases[r]) ==> !st.databases[r].claim.IsZero()))
  }

  predicate HeldIsDeleted(st: Store, k: ResourceRef) {
    k in st.clusters && Waiting(st.clusters[k]) ==> st.clusters[k].meta.deleting
  }

  predicate OwnServer(p: Policy, k: ResourceRef, server: ResourceRef) {
    k in p.specs && server == ServerOf(k, p.specs[k])
  }

  /** A deletion pass goes on only under a name that no undeleted cluster waits under. */
  predicate PassSettled(p: Policy, st: Store, w: ClusterWorker) {
    match w
    case GetDatabase(k, c) => c.meta.deleting ==> HeldIsDeleted(st, k)
    case Claim(k, c, _) => c.meta.deleting ==> HeldIsDeleted(st, k)
    case GuardDatabase(k, c, d) => !c.meta.deleting && !d.claim.IsZero()
    case HoldCluster(k, c) => !c.meta.deleting
    case ListNodes(k, c) => HeldIsDeleted(st, k)
    case DisableJobs(k, c) => HeldIsDeleted(st, k)
    case CountTasks(k, c) => HeldIsDeleted(st, k)
    case FetchCluster(k, server, _, _) => OwnServer(p, k, server) && HeldIsDeleted(st, k)
    case ReleaseCluster(k, server, _, _, c) => OwnServer(p, k, server) && c.meta.deleting
    case FetchDatabase(k, server) => OwnServer(p, k, server)
    case ReleaseDatabase(k, server, _) => OwnServer(p, k, server)
    case _ => true
  }

  ghost predicate Stands(p: Policy, s: State) {
    Safe(p, s) && Settled(s.store) && PassSettled(p, s.store, s.cw)
  }

  lemma UserStepSettled(p: Policy, st: Store, a: Action, w: ClusterWorker)
    requires Settled(st)
    ensures Settled(UserStep(st, a))
    ensures PassSettled(p, st, w) ==> PassSettled(p, UserStep(st, a), w)
  {
    UserStepHeld(st, a);
    UserStepSettles(st, a);
  }

  lemma UserStepSettles(st: Store, a: Action)
    requires Settled(st)
    ensures Settled(UserStep(st, a))
  {
    if a.CreateDatabase? || a.DeleteDatabase? || a.TouchDatabase? {
      UserDatabaseSettles(st, a);
    }
  }

  lemma UserDatabaseSettles(st: Store, a: Action)
    requires Settled(st) && (a.CreateDatabase? || a.DeleteDatabase? || a.TouchDatabase?)
    ensures Settled(UserStep(st, a))
  {
    assert UserStep(st, a).clusters == st.clusters;
  }

  /** No user's step makes a cluster wait, or takes a deletion back. */
  lemma UserStepHeld(st: Store, a: Action)
    ensures forall k :: HeldIsDeleted(st, k) ==> HeldIsDeleted(UserStep(st, a), k)
  {
  }

  lemma ClusterWriteSettled(p: Policy, s: State)
    requires Stands(p, s) && UpdatesCluster(s.cw)
    ensures Settled(ClusterCall(s.store, s.cw).0)
    ensures PassSettled(p, ClusterCall(s.store, s.cw).0, ClusterCall(s.store, s.cw).1)
  {
  }

  lemma DatabaseWriteSettled(p: Policy, s: State)
    requires Stands(p, s) && UpdatesDatabase(s.cw)
    ensures Settled(ClusterCall(s.store, s.cw).0)
    ensures PassSettled(p, ClusterCall(s.store, s.cw).0, ClusterCall(s.store, s.cw).1)
  {
    var st, d := s.store, s.cw.db;
    match s.cw {
      case Claim(k, c, _) =>
        var r := ServerOf(k, c.spec);
        UpdatedDatabaseSettled(st, r, d, r, d.meta.finalizers);
      case GuardDatabase(k, c, _) =>
        UpdatedDatabaseSettled(
          st, ServerOf(k, c.spec), d, d.claim, d.meta.finalizers + {StroomClusterFinalizer});
      case ReleaseDatabase(_, server, _) =>
        UpdatedDatabaseSettled(st, server, d, d.claim, d.meta.finalizers - {StroomClusterFinalizer});
    }
    DatabaseWriteSettlesPass(p, st, s.cw);
  }

  lemma DatabaseWriteSettlesPass(p: Policy, st: Store, w: ClusterWorker)
    requires PassSettled(p, st, w) && UpdatesDatabase(w) && (w.Claim? ==> !External(w.cluster))
    ensures PassSettled(p, ClusterCall(st, w).0, ClusterCall(st, w).1)
  {
  }

  lemma UpdatedDatabaseSettled(st: Store, r: ResourceRef, d: Database, claim: ResourceRef, fs: set<Finalizer>)
    requires Settled(st) && (StroomClusterFinalizer in fs ==> !claim.IsZero())
    ensures Settled(UpdateDatabase(st, r, d, claim, fs))
  {
  }

  lemma ReadSettled(p: Policy, s: State)
    requires Stands(p, s) && !UpdatesCluster(s.cw) && !UpdatesDatabase(s.cw)
    ensures Settled(ClusterCall(s.store, s.cw).0)
    ensures PassSettled(p, ClusterCall(s.store, s.cw).0, ClusterCall(s.store, s.cw).1)
  {
    OtherCallsKeep(s.store, s.cw);
    if Rank(s.cw) < 5 {
      LateReadSettled(p, s);
    }
  }

  /** The reads before the two releases. */
  lemma LateReadSettled(p: Policy, s: State)
    requires Stands(p, s) && (s.cw.FetchCluster? || s.cw.FetchDatabase? || s.cw == Idle)
    ensures PassSettled(p, ClusterCall(s.store, s.cw).0, ClusterCall(s.store, s.cw).1)
  {
  }

  lemma DatabaseCallSettled(p: Policy, s: State)
    requires Stands(p, s)
    ensures Settled(DatabaseCall(s.store, s.dw).0)
    ensures PassSettled(p, DatabaseCall(s.store, s.dw).0, s.cw)
  {
    assert DatabaseCall(s.store, s.dw).0.clusters == s.store.clusters;
    match s.dw {
      case Unguard(r, d) =>
        UpdatedDatabaseSettled(s.store, r, d, d.claim, d.meta.finalizers - {StroomClusterFinalizer});
      case WriteStatus(r, d) =>
        if DatabaseIsAt(s.store, r, d.meta.version) {
          UpdatedDatabaseSettled(s.store, r, d, d.claim, d.meta.finalizers);
        }
      case _ =>
    }
    SameClustersSettled(p, s.store, DatabaseCall(s.store, s.dw).0, s.cw);
  }

  lemma SameClustersSettled(p: Policy, st: Store, st': Store, w: ClusterWorker)
    requires st'.clusters == st.clusters && PassSettled(p, st, w)
    ensures PassSettled(p, st', w)
  {
  }

  lemma StepStands(p: Policy, s: State, a: Action)
    requires Sound(p) && Stands(p, s) && Allowed(p, s, a)
    ensures Stands(p, Step(s, a))
  {
    StepSafe(p, s, a);
    match a {
      case ClusterCalls =>
        if UpdatesCluster(s.cw) {
          ClusterWriteSettled(p, s);
        } else if UpdatesDatabase(s.cw) {
          DatabaseWriteSettled(p, s);
        } else {
          ReadSettled(p, s);
        }
      case DatabaseCalls => DatabaseCallSettled(p, s);
      case ClusterBegins(k) =>
      case ClusterFaults =>
      case ClusterStops =>
      case DatabaseBegins(r) =>
      case DatabaseFaults =>
      case DatabaseStops =>
      case _ => UserStepSettled(p, s.store, a, s.cw);
    }
  }

  lemma {:induction false} RunStands(p: Policy, s: State, run: seq<Action>)
    requires Sound(p) && Stands(p, s) && AllowedRun(p, s, run)
    ensures Stands(p, Exec(s, run))
    decreases |run|
  {
    if run != [] {
      StepStands(p, s, run[0]);
      RunStands(p, Step(s, run[0]), run[1..]);
    }
  }

  lemma ReachableStands(p: Policy, s: State)
    requires Sound(p) && Reaches(p, INITIAL, s)
    ensures Stands(p, s)
  {
    var run :| AllowedRun(p, INITIAL, run) && Exec(INITIAL, run) == s;
    RunStands(p, INITIAL, run);
  }

  // ---------- Who takes the finalizer ----------

  /** The guard of a managed cluster's database goes only with that cluster's own deletion pass. */
  lemma GuardLostOnlyByRelease(p: Policy, s: State, a: Action, k: ResourceRef)
    requires Sound(p) && Safe(p, s) && Allowed(p, s, a)
    requires Managed(s.store, k) && ProtectedBy(s.store, k, k)
    ensures ProtectedBy(Step(s, a).store, k, k) || (a.ClusterCalls? && s.cw.ReleaseDatabase? && s.cw.key == k)
  {
    match a {
      case ClusterCalls =>
        if UpdatesDatabase(s.cw) {
          CallKeepsGuard(p, s, k);
        } else {
          OtherCallsKeep(s.store, s.cw);
        }
      case DatabaseCalls => DatabaseCallKeepsGuard(p, s, k);
      case _ =>
    }
  }

  lemma DatabaseCallKeepsGuard(p: Policy, s: State, k: ResourceRef)
    requires Sound(p) && Safe(p, s)
    requires Managed(s.store, k) && ProtectedBy(s.store, k, k)
    ensures ProtectedBy(Step(s, DatabaseCalls).store, k, k)
  {
  }

  lemma CallKeepsGuard(p: Policy, s: State, k: ResourceRef)
    requires Sound(p) && Safe(p, s) && UpdatesDatabase(s.cw)
    requires Managed(s.store, k) && ProtectedBy(s.store, k, k)
    ensures ProtectedBy(Step(s, ClusterCalls).store, k, k) || (s.cw.ReleaseDatabase? && s.cw.key == k)
  {
    if s.cw.ReleaseDatabase? {
      if s.cw.server != k {
        ReleaseKeepsOthers(s.store, s.cw, k);
      }
    }
  }

  lemma ReleaseKeepsOthers(st: Store, w: ClusterWorker, k: ResourceRef)
    requires w.ReleaseDatabase? && w.server != k && ProtectedBy(st, k, k)
    ensures ProtectedBy(ClusterCall(st, w).0, k, k)
  {
  }

  // ---------- A cluster that stays ----------

  /** The cluster object created with `uid` exists, and it is not being deleted. */
  predicate Present(st: Store, k: ResourceRef, uid: nat) {
    k in st.clusters && st.clusters[k].meta.uid == uid
  }

  predicate Staying(st: Store, k: ResourceRef, uid: nat) {
    Present(st, k, uid) && !st.clusters[k].meta.deleting
  }

  /**
   A pass in flight that deletes a cluster named `k`, whether the present one or an earlier one, and has not
   yet failed to take the finalizer of its database.
   */
  predicate Unguarding(st: Store, w: ClusterWorker, k: ResourceRef) {
    match w
    case GetDatabase(key, c) => key == k && c.meta.deleting
    case ListNodes(key, _) => key == k
    case DisableJobs(key, _) => key == k
    case CountTasks(key, _) => key == k
    case FetchCluster(key, _, _, _) => key == k
    case FetchDatabase(key, _) => key == k
    case ReleaseDatabase(key, _, d) => key == k && DatabaseIsAt(st, k, d.meta.version)
    case _ => false
  }

  /** The database of `k` carries the operator's finalizer, and no deletion pass is after it. */
  predicate Shielded(s: State, k: ResourceRef) {
    && k in s.store.databases && Guarded(s.store.databases[k])
    && !Unguarding(s.store, s.cw, k)
  }

  lemma UserStepShielded(s: State, a: Action, k: ResourceRef)
    requires StoreCoherent(s.store) && ClusterWorkerCoherent(s.store, s.cw) && Shielded(s, k)
    ensures Shielded(s.(store := UserStep(s.store, a)), k)
  {
  }

  /** Writes of a pass: those of another cluster touch another database, and those of `k` come to nothing. */
  lemma ClusterWriteShielded(p: Policy, s: State, k: ResourceRef, uid: nat)
    requires Sound(p) && Stands(p, s) && UpdatesCluster(s.cw) && Staying(s.store, k, uid) && Shielded(s, k)
    ensures Shielded(Step(s, ClusterCalls), k)
  {
    OtherCallsKeep(s.store, s.cw);
    if s.cw.ReleaseCluster? && s.cw.key == k {
      assert !ClusterIsAt(s.store, k, s.cw.cluster.meta.version);
    }
  }

  lemma DatabaseWriteShielded(p: Policy, s: State, k: ResourceRef)
    requires Sound(p) && Stands(p, s) && UpdatesDatabase(s.cw) && Managed(s.store, k) && Shielded(s, k)
    ensures Shielded(Step(s, ClusterCalls), k)
  {
    CallKeepsGuard(p, s, k);
    if s.cw.Claim? && s.cw.key == k {
      assert !DatabaseIsAt(s.store, k, s.cw.db.meta.version);
    }
  }

  lemma ReadShielded(s: State, k: ResourceRef)
    requires !UpdatesCluster(s.cw) && !UpdatesDatabase(s.cw) && Shielded(s, k)
    ensures Shielded(Step(s, ClusterCalls), k)
  {
    OtherCallsKeep(s.store, s.cw);
  }

  lemma ClusterCallShielded(p: Policy, s: State, k: ResourceRef, uid: nat)
    requires Sound(p) && Stands(p, s) && Managed(s.store, k) && Staying(s.store, k, uid) && Shielded(s, k)
    ensures Shielded(Step(s, ClusterCalls), k)
  {
    if UpdatesCluster(s.cw) {
      ClusterWriteShielded(p, s, k, uid);
    } else if UpdatesDatabase(s.cw) {
      DatabaseWriteShielded(p, s, k);
    } else {
      ReadShielded(s, k);
    }
  }

  lemma DatabaseCallShielded(p: Policy, s: State, k: ResourceRef)
    requires Sound(p) && Stands(p, s) && Managed(s.store, k) && Shielded(s, k)
    ensures Shielded(Step(s, DatabaseCalls), k)
  {
    GuardLostOnlyByRelease(p, s, DatabaseCalls, k);
  }

  lemma StepShielded(p: Policy, s: State, a: Action, k: ResourceRef, uid: nat)
    requires Sound(p) && Stands(p, s) && Allowed(p, s, a)
    requires Managed(s.store, k) && Staying(s.store, k, uid) && Shielded(s, k)
    ensures Shielded(Step(s, a), k)
  {
    match a {
      case ClusterCalls => ClusterCallShielded(p, s, k, uid);
      case DatabaseCalls => DatabaseCallShielded(p, s, k);
      case ClusterBegins(_) =>
      case ClusterFaults =>
      case ClusterStops =>
      case DatabaseBegins(_) =>
      case DatabaseFaults =>
      case DatabaseStops =>
      case _ => UserStepShielded(s, a, k);
    }
  }

  /** A cluster that stays has been there, and was not being deleted, a step ago. */
  lemma StepKeepsStaying(s: State, a: Action, k: ResourceRef, uid: nat)
    requires Coherent(s) && uid <= s.store.revision
    ensures Present(Step(s, a).store, k, uid) ==> Present(s.store, k, uid)
    ensures Present(Step(s, a).store, k, uid) ==> Step(s, a).store.clusters[k].spec == s.store.clusters[k].spec
    ensures Staying(Step(s, a).store, k, uid) ==> Staying(s.store, k, uid)
  {
    match a {
      case ClusterCalls =>
        if UpdatesCluster(s.cw) {
          CallKeepsStaying(s, k, uid);
        } else {
          OtherCallsKeep(s.store, s.cw);
        }
      case DatabaseCalls => assert Step(s, a).store.clusters == s.store.clusters;
      case _ => UserStepKeepsStaying(s.store, a, k, uid);
    }
  }

  lemma UserStepKeepsStaying(st: Store, a: Action, k: ResourceRef, uid: nat)
    requires uid <= st.revision
    ensures Present(UserStep(st, a), k, uid) ==>
      Present(st, k, uid) && UserStep(st, a).clusters[k].spec == st.clusters[k].spec
    ensures Staying(UserStep(st, a), k, uid) ==> Staying(st, k, uid)
  {
  }

  lemma CallKeepsStaying(s: State, k: ResourceRef, uid: nat)
    requires Coherent(s) && uid <= s.store.revision && UpdatesCluster(s.cw)
    ensures var st := Step(s, ClusterCalls).store;
      && (Present(st, k, uid) ==> Present(s.store, k, uid) && st.clusters[k].spec == s.store.clusters[k].spec)
      && (Staying(st, k, uid) ==> Staying(s.store, k, uid))
  {
  }

  lemma {:induction false} RunKeepsStaying(s: State, run: seq<Action>, k: ResourceRef, uid: nat)
    requires Coherent(s) && uid <= s.store.revision
    ensures Present(Exec(s, run).store, k, uid) ==> Present(s.store, k, uid)
    ensures Staying(Exec(s, run).store, k, uid) ==> Staying(s.store, k, uid)
    decreases |run|
  {
    if run != [] {
      StepCoherent(s, run[0]);
      StepEvolves(s, run[0]);
      StepKeepsStaying(s, run[0], k, uid);
      RunKeepsStaying(Step(s, run[0]), run[1..], k, uid);
    }
  }

  lemma {:induction false} RunShielded(p: Policy, s: State, run: seq<Action>, k: ResourceRef, uid: nat)
    requires Sound(p) && Stands(p, s) && AllowedRun(p, s, run)
    requires Managed(s.store, k) && Present(s.store, k, uid) && Shielded(s, k)
    requires Staying(Exec(s, run).store, k, uid)
    ensures Shielded(Exec(s, run), k)
    decreases |run|
  {
    if run != [] {
      var t := Step(s, run[0]);
      RunKeepsStaying(s, run, k, uid);
      StepShielded(p, s, run[0], k, uid);
      StepStands(p, s, run[0]);
      StepEvolves(s, run[0]);
      RunKeepsStaying(t, run[1..], k, uid);
      StepKeepsStaying(s, run[0], k, uid);
      RunShielded(p, t, run[1..], k, uid);
    }
  }

  // ---------- Runs that lose the database ----------

  /** From `s`, the policy lets the cluster object stay while its database goes. */
  ghost predicate CanLose(p: Policy, s: State, k: ResourceRef, uid: nat) {
    exists t :: Reaches(p, s, t) && Staying(t.store, k, uid) && k !in t.store.databases
  }

  /** From `s`, it lets the cluster object outlive its database. */
  ghost predicate CanOutlive(p: Policy, s: State, k: ResourceRef, uid: nat) {
    exists t :: Reaches(p, s, t) && Present(t.store, k, uid) && k !in t.store.databases
  }

  /** A database without the operator's finalizer goes when it is deleted, whatever exists. */
  lemma DropUnguarded(p: Policy, s: State, t: State, k: ResourceRef) returns (u: State)
    requires Reaches(p, s, t)
    requires k in t.store.databases ==> !Guarded(t.store.databases[k])
    ensures Reaches(p, s, u)
    ensures u.store.clusters == t.store.clusters && k !in u.store.databases
  {
    u := Advance(p, s, t, DeleteDatabase(k));
    if k in u.store.databases {
      u := Advance(p, s, u, TouchDatabase(k, {}));
    }
  }

  /** The end of a deletion pass of `k` takes the finalizer of its database. */
  lemma FinishUnguarding(p: Policy, s: State, t: State, k: ResourceRef) returns (u: State)
    requires Reaches(p, s, t)
    requires t.cw == FetchDatabase(k, k) || TakesGuard(t, k)
    ensures Reaches(p, s, u)
    ensures u.store.clusters == t.store.clusters && k !in u.store.databases
  {
    u := t;
    if u.cw.FetchDatabase? {
      u := Advance(p, s, u, ClusterCalls);
      assert u.store == t.store;
    }
    if u.cw.ReleaseDatabase? {
      u := TakeGuard(p, s, u, k);
    }
    u := DropUnguarded(p, s, u, k);
  }

  predicate TakesGuard(s: State, k: ResourceRef) {
    s.cw.ReleaseDatabase? && s.cw.key == s.cw.server == k
    && AcceptsDatabase(s.store, k, SetFinalizers(s.cw.db.meta, s.cw.db.meta.finalizers - {StroomClusterFinalizer}))
  }

  lemma TakeGuard(p: Policy, s: State, t: State, k: ResourceRef) returns (u: State)
    requires Reaches(p, s, t) && TakesGuard(t, k)
    ensures Reaches(p, s, u)
    ensures u.store.clusters == t.store.clusters
    ensures k in u.store.databases ==> !Guarded(u.store.databases[k])
  {
    u := Advance(p, s, t, ClusterCalls);
  }

  /** Nodes finish all their tasks. */
  lemma {:induction false} FinishTasks(p: Policy, s: State, t: State, schema: string) returns (u: State)
    requires Reaches(p, s, t)
    ensures Reaches(p, s, u)
    ensures u == t.(store := t.store.(processing := u.store.processing)) && !TasksRemain(u.store, schema)
    decreases |Tasks(t.store, schema)|
  {
    u := t;
    if TasksRemain(t.store, schema) {
      var node :| node in Tasks(t.store, schema);
      u := Advance(p, s, t, FinishTask(NodeRef(schema, node)));
      assert Tasks(u.store, schema) == Tasks(t.store, schema) - multiset{node};
      u := FinishTasks(p, s, u, schema);
    }
  }

  /** A deletion pass past its lookup, which will come to the database of the same name. */
  predicate Heads(w: ClusterWorker, k: ResourceRef) {
    match w
    case ListNodes(key, c) => key == k == ServerOf(k, c.spec)
    case DisableJobs(key, c) => key == k == ServerOf(k, c.spec)
    case CountTasks(key, c) => key == k == ServerOf(k, c.spec)
    case FetchCluster(key, server, _, _) => key == k == server
    case _ => false
  }

  predicate NotHeld(st: Store, k: ResourceRef) {
    k in st.clusters && !Waiting(st.clusters[k])
  }

  /** Once no task holds it up, its next call takes it further. */
  lemma HeadsOn(p: Policy, s: State, t: State, k: ResourceRef) returns (u: State)
    requires Reaches(p, s, t) && Heads(t.cw, k) && NotHeld(t.store, k)
    requires t.cw.CountTasks? ==> !TasksRemain(t.store, t.cw.cluster.spec.schema)
    ensures Reaches(p, s, u)
    ensures u.store.clusters == t.store.clusters && u.store.databases == t.store.databases
    ensures Rank(u.cw) < Rank(t.cw)
    ensures if t.cw.FetchCluster? then u.cw == AfterRelease(k, k) else Heads(u.cw, k)
  {
    u := Advance(p, s, t, ClusterCalls);
  }

  lemma {:induction false} DriveUnguarding(p: Policy, s: State, t: State, k: ResourceRef) returns (u: State)
    requires Reaches(p, s, t) && Heads(t.cw, k) && NotHeld(t.store, k) && !k.IsZero()
    ensures Reaches(p, s, u)
    ensures u.store.clusters == t.store.clusters && k !in u.store.databases
    decreases Rank(t.cw)
  {
    u := t;
    if t.cw.CountTasks? {
      u := FinishTasks(p, s, t, t.cw.cluster.spec.schema);
    }
    u := HeadsOn(p, s, u, k);
    if t.cw.FetchCluster? {
      u := FinishUnguarding(p, s, u, k);
    } else {
      u := DriveUnguarding(p, s, u, k);
    }
  }

  /** Without its shield, a database can be lost although its cluster stays. */
  lemma UnshieldedLoses(p: Policy, s: State, k: ResourceRef) returns (t: State)
    requires Sound(p) && Stands(p, s) && Managed(s.store, k) && !s.store.clusters[k].meta.deleting
    requires !Shielded(s, k)
    ensures Reaches(p, s, t)
    ensures t.store.clusters == s.store.clusters && k !in t.store.databases
  {
    ReachesSelf(p, s);
    t := s;
    if k !in s.store.databases || !Guarded(s.store.databases[k]) {
      t := DropUnguarded(p, s, s, k);
    } else {
      if s.cw.GetDatabase? {
        t := Advance(p, s, s, ClusterCalls);
        StepStands(p, s, ClusterCalls);
        assert t.cw == ListNodes(k, s.cw.cluster);
      }
      if t.cw.FetchDatabase? || t.cw.ReleaseDatabase? {
        t := FinishUnguarding(p, s, t, k);
      } else {
        t := DriveUnguarding(p, s, t, k);
      }
    }
  }

  /**
   While a cluster is not being deleted, its database can go exactly when it is not shielded: it is guarded and no
   deletion pass left over from an earlier cluster of that name is after its finalizer.
   */
  lemma DatabaseKeptExactly(p: Policy, s: State, k: ResourceRef)
    requires Sound(p) && Reaches(p, INITIAL, s)
    requires Managed(s.store, k) && !s.store.clusters[k].meta.deleting
    ensures ServerOf(k, s.store.clusters[k].spec) == k
    ensures CanLose(p, s, k, s.store.clusters[k].meta.uid) <==> !Shielded(s, k)
  {
    var uid := s.store.clusters[k].meta.uid;
    ReachableStands(p, s);
    if Shielded(s, k) {
      forall t | Reaches(p, s, t) && Staying(t.store, k, uid)
        ensures k in t.store.databases
      {
        var run :| AllowedRun(p, s, run) && Exec(s, run) == t;
        RunShielded(p, s, run, k, uid);
      }
    } else {
      var t := UnshieldedLoses(p, s, k);
      assert Staying(t.store, k, uid);
    }
  }

  /** Any name shows it: the database deleted before its cluster's first pass goes at once. */
  lemma EarlyDeletionLoses(p: Policy, k: ResourceRef) returns (s: State)
    requires ManagedSpec(p, k)
    ensures Reaches(p, INITIAL, s)
    ensures Managed(s.store, k) && !s.store.clusters[k].meta.deleting
    ensures ServerOf(k, s.store.clusters[k].spec) !in s.store.databases
  {
    s := CreateRun(p, k);
    s := Advance(p, INITIAL, s, DeleteDatabase(ServerOf(k, p.specs[k])));
  }

  // ---------- A cluster that is being deleted ----------

  /** The cluster is being deleted, and only the wait for its tasks holds it. */
  predicate OnlyWaits(c: Cluster) {
    c.meta.deleting && c.meta.finalizers == {WaitNodeTasksFinalizer}
  }

  /** Whenever the object exists, it is one that only waits. */
  predicate OnlyWaitsIfPresent(st: Store, k: ResourceRef, uid: nat) {
    uid <= st.revision && (Present(st, k, uid) ==> !External(st.clusters[k]) && OnlyWaits(st.clusters[k]))
  }

  lemma UserStepOnlyWaits(st: Store, a: Action, k: ResourceRef, uid: nat)
    requires OnlyWaitsIfPresent(st, k, uid)
    ensures OnlyWaitsIfPresent(UserStep(st, a), k, uid)
  {
    if a.TouchCluster? && k == a.key && UserStep(st, a) != st && Present(st, k, uid) {
      assert a.finalizers == {WaitNodeTasksFinalizer};
    }
  }

  lemma ClusterWriteOnlyWaits(s: State, k: ResourceRef, uid: nat)
    requires Coherent(s) && UpdatesCluster(s.cw) && OnlyWaitsIfPresent(s.store, k, uid)
    ensures OnlyWaitsIfPresent(Step(s, ClusterCalls).store, k, uid)
  {
    var c := s.cw.cluster;
    if s.cw.key == k && Present(s.store, k, uid) && ClusterIsAt(s.store, k, c.meta.version) {
      assert c.meta.finalizers - {WaitNodeTasksFinalizer} == {};
      assert c.meta.finalizers + {WaitNodeTasksFinalizer} == {WaitNodeTasksFinalizer};
    }
  }

  lemma StepOnlyWaits(s: State, a: Action, k: ResourceRef, uid: nat)
    requires Coherent(s) && OnlyWaitsIfPresent(s.store, k, uid)
    ensures OnlyWaitsIfPresent(Step(s, a).store, k, uid)
  {
    StepEvolves(s, a);
    match a {
      case ClusterCalls =>
        if UpdatesCluster(s.cw) {
          ClusterWriteOnlyWaits(s, k, uid);
        } else {
          OtherCallsKeep(s.store, s.cw);
        }
      case DatabaseCalls => assert Step(s, a).store.clusters == s.store.clusters;
      case _ => UserStepOnlyWaits(s.store, a, k, uid);
    }
  }

  lemma {:induction false} RunOnlyWaits(s: State, run: seq<Action>, k: ResourceRef, uid: nat)
    requires Coherent(s) && OnlyWaitsIfPresent(s.store, k, uid)
    ensures OnlyWaitsIfPresent(Exec(s, run).store, k, uid)
    decreases |run|
  {
    if run != [] {
      StepCoherent(s, run[0]);
      StepOnlyWaits(s, run[0], k, uid);
      RunOnlyWaits(Step(s, run[0]), run[1..], k, uid);
    }
  }

  /** Another party puts a finalizer of its own on the cluster, which then lingers when it is deleted. */
  lemma LingerRun(p: Policy, s: State, k: ResourceRef) returns (t: State, f: Finalizer)
    requires Sound(p) && Stands(p, s) && Managed(s.store, k) && !OnlyWaits(s.store.clusters[k])
    ensures Reaches(p, s, t) && Stands(p, t)
    ensures Managed(t.store, k) && Present(t.store, k, s.store.clusters[k].meta.uid)
    ensures t.store.clusters[k].meta.deleting
    ensures f != WaitNodeTasksFinalizer && f in t.store.clusters[k].meta.finalizers
    ensures t.cw == Idle && k !in t.store.deployed
  {
    var c := s.store.clusters[k];
    ReachesSelf(p, s);
    t := Advance(p, s, s, ClusterStops);
    t := Advance(p, s, t, RemoveNodes(k));
    if c.meta.deleting {
      f :| f in c.meta.finalizers && f != WaitNodeTasksFinalizer;
    } else {
      f := Foreign("");
      t := DeleteHeldBy(p, s, t, k, f);
    }
    var run :| AllowedRun(p, s, run) && Exec(s, run) == t;
    RunStands(p, s, run);
  }

  lemma DeleteHeldBy(p: Policy, s: State, t: State, k: ResourceRef, f: Finalizer) returns (u: State)
    requires Reaches(p, s, t) && k in t.store.clusters && !t.store.clusters[k].meta.deleting && f.Foreign?
    ensures Reaches(p, s, u)
    ensures u == t.(store := t.store.(revision := u.store.revision, clusters := u.store.clusters))
    ensures k in u.store.clusters && u.store.clusters[k].meta.deleting && f in u.store.clusters[k].meta.finalizers
    ensures u.store.clusters[k].meta.uid == t.store.clusters[k].meta.uid
    ensures u.store.clusters[k].spec == t.store.clusters[k].spec
  {
    var c := t.store.clusters[k];
    u := Advance(p, s, t, TouchCluster(k, c.meta.finalizers + {f}));
    assert u.store.clusters[k].meta.finalizers == c.meta.finalizers + {f};
    u := Advance(p, s, u, DeleteCluster(k));
  }

  /** Its deletion pass then takes both finalizers, and the database can go although the cluster is there. */
  lemma LingeringOutlives(p: Policy, s: State, k: ResourceRef) returns (t: State)
    requires Sound(p) && Stands(p, s) && Managed(s.store, k) && !OnlyWaits(s.store.clusters[k])
    ensures Reaches(p, s, t)
    ensures Present(t.store, k, s.store.clusters[k].meta.uid) && k !in t.store.databases
  {
    var f;
    t, f := LingerRun(p, s, k);
    if k in t.store.databases && Guarded(t.store.databases[k]) {
      t := LingeringPass(p, s, t, k, f);
    }
    t := DropUnguarded(p, s, t, k);
  }

  /** Deleted, without nodes, and with its database claimed: nothing stops the pass before its release. */
  predicate Nodeless(s: State, k: ResourceRef) {
    && s.cw == Idle && Managed(s.store, k) && s.store.clusters[k].meta.deleting
    && ServerOf(k, s.store.clusters[k].spec) == k && k !in s.store.deployed
    && k in s.store.databases && !k.IsZero() && s.store.databases[k].claim == k
  }

  lemma LookupNodeless(p: Policy, s: State, t: State, k: ResourceRef) returns (u: State)
    requires Reaches(p, s, t) && Nodeless(t, k)
    ensures Reaches(p, s, u)
    ensures u == t.(cw := ListNodes(k, t.store.clusters[k]))
  {
    u := Advance(p, s, t, ClusterBegins(k));
    assert u == t.(cw := GetDatabase(k, t.store.clusters[k]));
    u := Advance(p, s, u, ClusterCalls);
  }

  lemma FetchNodeless(p: Policy, s: State, t: State, k: ResourceRef) returns (u: State)
    requires Reaches(p, s, t) && Nodeless(t, k)
    ensures Reaches(p, s, u)
    ensures var c := t.store.clusters[k];
      u == t.(cw := if Waiting(c) then ReleaseCluster(k, k, c.spec.schema, NoNodes, c) else AfterRelease(k, k))
  {
    var c := t.store.clusters[k];
    u := LookupNodeless(p, s, t, k);
    u := Advance(p, s, u, ClusterCalls);
    assert u == t.(cw := FetchCluster(k, k, c.spec.schema, NoNodes));
    u := Advance(p, s, u, ClusterCalls);
  }

  lemma LingeringPass(p: Policy, s: State, t: State, k: ResourceRef, f: Finalizer) returns (u: State)
    requires Reaches(p, s, t) && Nodeless(t, k)
    requires f != WaitNodeTasksFinalizer && f in t.store.clusters[k].meta.finalizers
    ensures Reaches(p, s, u)
    ensures Present(u.store, k, t.store.clusters[k].meta.uid) && k !in u.store.databases
  {
    u := FetchNodeless(p, s, t, k);
    if u.cw.ReleaseCluster? {
      u := ReleaseLingering(p, s, u, k, f);
    }
    u := FinishUnguarding(p, s, u, k);
  }

  lemma ReleaseLingering(p: Policy, s: State, t: State, k: ResourceRef, f: Finalizer) returns (u: State)
    requires Reaches(p, s, t) && t.cw.ReleaseCluster? && t.cw.key == k && t.cw.server == k && !k.IsZero()
    requires k in t.store.clusters && t.cw.cluster == t.store.clusters[k]
    requires f != WaitNodeTasksFinalizer && f in t.store.clusters[k].meta.finalizers
    ensures Reaches(p, s, u) && u.cw == FetchDatabase(k, k)
    ensures Present(u.store, k, t.store.clusters[k].meta.uid)
  {
    assert f in t.store.clusters[k].meta.finalizers - {WaitNodeTasksFinalizer};
    u := Advance(p, s, t, ClusterCalls);
  }

  /**
   A cluster object can be outlived by its database for certain, whatever anyone does, exactly when it is being
   deleted and the wait for its tasks is all that holds it.
   */
  lemma OutlivedExactly(p: Policy, s: State, k: ResourceRef)
    requires Sound(p) && Reaches(p, INITIAL, s) && Managed(s.store, k)
    ensures ServerOf(k, s.store.clusters[k].spec) == k
    ensures CanOutlive(p, s, k, s.store.clusters[k].meta.uid) <==> !OnlyWaits(s.store.clusters[k])
  {
    var uid := s.store.clusters[k].meta.uid;
    ReachableStands(p, s);
    if OnlyWaits(s.store.clusters[k]) {
      forall t | Reaches(p, s, t) && Present(t.store, k, uid)
        ensures k in t.store.databases
      {
        var run :| AllowedRun(p, s, run) && Exec(s, run) == t;
        RunOnlyWaits(s, run, k, uid);
        RunStands(p, s, run);
        assert ProtectedBy(t.store, k, ServerOf(k, t.store.clusters[k].spec));
      }
    } else {
      var t := LingeringOutlives(p, s, k);
    }
  }
}
