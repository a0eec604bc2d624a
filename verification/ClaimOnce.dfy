/** The claim on a DatabaseServer is written once, and a cluster it does not name is refused for good. */
module ClaimOnce {
  import opened Resources
  import opened Lifecycle
  import opened Coherence
  import opened LifecycleSafety
  import opened Outcomes
  import opened Passes

  /** The database at `r` is the very object created with `uid`. */
  predicate IsIncarnation(st: Store, r: ResourceRef, uid: nat) {
    r in st.databases && st.databases[r].meta.uid == uid
  }

  lemma StepKeepsIncarnation(s: State, a: Action, r: ResourceRef, uid: nat)
    requires Coherent(s) && uid <= s.store.revision
    requires IsIncarnation(Step(s, a).store, r, uid)
    ensures IsIncarnation(s.store, r, uid)
    ensures !s.store.databases[r].claim.IsZero() ==> Step(s, a).store.databases[r].claim == s.store.databases[r].claim
  {
    match a {
      case ClusterCalls => ClusterCallKeepsIncarnation(s, r, uid);
      case DatabaseCalls => DatabaseCallKeepsIncarnation(s.store, s.dw, r);
      case _ => UserStepKeepsIncarnation(s.store, a, r, uid);
    }
  }

  lemma UserStepKeepsIncarnation(st: Store, a: Action, r: ResourceRef, uid: nat)
    requires uid <= st.revision && IsIncarnation(UserStep(st, a), r, uid)
    ensures IsIncarnation(st, r, uid) && UserStep(st, a).databases[r].claim == st.databases[r].claim
  {
  }

  lemma DatabaseCallKeepsIncarnation(st: Store, w: DatabaseWorker, r: ResourceRef)
    requires DatabaseWorkerCoherent(st, w) && r in DatabaseCall(st, w).0.databases
    ensures r in st.databases && DatabaseCall(st, w).0.databases[r].meta.uid == st.databases[r].meta.uid
    ensures DatabaseCall(st, w).0.databases[r].claim == st.databases[r].claim
  {
  }

  lemma ClusterCallKeepsIncarnation(s: State, r: ResourceRef, uid: nat)
    requires Coherent(s) && uid <= s.store.revision
    requires IsIncarnation(Step(s, ClusterCalls).store, r, uid)
    ensures IsIncarnation(s.store, r, uid)
    ensures !s.store.databases[r].claim.IsZero()
      ==> Step(s, ClusterCalls).store.databases[r].claim == s.store.databases[r].claim
  {
    if UpdatesDatabase(s.cw) {
      DatabaseUpdateKeepsIncarnation(s.store, s.cw, r);
    } else {
      OtherCallsKeep(s.store, s.cw);
    }
  }

  /** An update starts from the stored object, and the claiming one from a copy without a claim. */
  lemma DatabaseUpdateKeepsIncarnation(st: Store, w: ClusterWorker, r: ResourceRef)
    requires StoreCoherent(st) && ClusterWorkerCoherent(st, w) && UpdatesDatabase(w)
    requires r in ClusterCall(st, w).0.databases
    ensures r in st.databases && ClusterCall(st, w).0.databases[r].meta.uid == st.databases[r].meta.uid
    ensures !st.databases[r].claim.IsZero() ==> ClusterCall(st, w).0.databases[r].claim == st.databases[r].claim
  {
  }

  /** An object that is present at the end and old enough has been present all along. */
  lemma {:induction false} RunKeepsIncarnation(s: State, run: seq<Action>, r: ResourceRef, uid: nat)
    requires Coherent(s) && uid <= s.store.revision
    requires IsIncarnation(Exec(s, run).store, r, uid)
    ensures IsIncarnation(s.store, r, uid)
    decreases |run|
  {
    if run != [] {
      StepCoherent(s, run[0]);
      StepEvolves(s, run[0]);
      RunKeepsIncarnation(Step(s, run[0]), run[1..], r, uid);
      StepKeepsIncarnation(s, run[0], r, uid);
    }
  }

  /**
   The claim is write-once: between any two moments of one database object's life, whatever the two
   controllers, users and failures do in between, a claim that is there stays as it is.
   */
  lemma {:induction false} ClaimWriteOnce(s: State, run: seq<Action>, r: ResourceRef, uid: nat)
    requires Coherent(s)
    requires IsIncarnation(s.store, r, uid) && IsIncarnation(Exec(s, run).store, r, uid)
    requires !s.store.databases[r].claim.IsZero()
    ensures Exec(s, run).store.databases[r].claim == s.store.databases[r].claim
    decreases |run|
  {
    if run != [] {
      var s' := Step(s, run[0]);
      StepCoherent(s, run[0]);
      StepEvolves(s, run[0]);
      RunKeepsIncarnation(s', run[1..], r, uid);
      StepKeepsIncarnation(s, run[0], r, uid);
      ClaimWriteOnce(s', run[1..], r, uid);
    }
  }

  // ---------- A cluster that the claim does not name ----------

  /**
   Cluster `k` refers to the database at `r`, whose stored claim names another cluster, and no pass of `k` has
   got beyond the lookup of its database.
   */
  predicate Refused(p: Policy, s: State, k: ResourceRef, r: ResourceRef, uid: nat) {
    && k in p.specs && !p.specs[k].serverRef.IsZero() && ServerOf(k, p.specs[k]) == r
    && IsIncarnation(s.store, r, uid)
    && !s.store.databases[r].claim.IsZero()
    && s.store.databases[r].claim != k
    && (s.cw != Idle && s.cw.key == k ==> s.cw.GetDatabase? && CopyConforms(p, k, s.cw.cluster))
  }

  predicate Held(st: Store, k: ResourceRef, uid: nat) {
    k in st.clusters && st.clusters[k].meta.uid == uid && Waiting(st.clusters[k])
  }

  /** Its pass ends at the lookup. */
  lemma RefusedAtLookup(p: Policy, s: State, k: ResourceRef, r: ResourceRef, uid: nat)
    requires Refused(p, s, k, r, uid)
    requires s.cw != Idle && s.cw.key == k
    ensures Step(s, ClusterCalls) == s.(cw := Idle)
  {
  }

  /** So that a whole pass, whichever of its calls fail, changes nothing. */
  lemma RefusedPassChangesNothing(
      p: Policy, s: State, k: ResourceRef, r: ResourceRef, uid: nat, faults: seq<bool>, deploys: bool)
    requires Conforms(p, s.store) && s.cw == Idle && Refused(p, s, k, r, uid)
    ensures PassWith(s, k, faults, deploys) == s
  {
    var t := Step(s, ClusterBegins(k));
    if t.cw != Idle {
      assert t == s.(cw := GetDatabase(k, s.store.clusters[k]));
      RefusedAtLookup(p, t, k, r, uid);
      assert FinishWith(t, Rest(faults), deploys) == s;
    }
  }

  /** A write of another cluster's pass leaves it held. */
  lemma ClusterWriteHolds(s: State, k: ResourceRef, uid: nat)
    requires Coherent(s) && UpdatesCluster(s.cw) && s.cw.key != k
    ensures Held(s.store, k, uid) ==> Held(Step(s, ClusterCalls).store, k, uid)
  {
  }

  /** A pass stays with its cluster. */
  lemma CallKeepsKey(st: Store, w: ClusterWorker)
    ensures ClusterCall(st, w).1 == Idle || (w != Idle && ClusterCall(st, w).1.key == w.key)
  {
  }

  lemma ClusterCallRefused(p: Policy, s: State, k: ResourceRef, r: ResourceRef, uid: nat, cuid: nat)
    requires Coherent(s)
    requires Refused(p, s, k, r, uid)
    requires IsIncarnation(Step(s, ClusterCalls).store, r, uid)
    ensures Refused(p, Step(s, ClusterCalls), k, r, uid)
    ensures Held(s.store, k, cuid) ==> Held(Step(s, ClusterCalls).store, k, cuid)
  {
    StepKeepsIncarnation(s, ClusterCalls, r, uid);
    CallKeepsKey(s.store, s.cw);
    if s.cw != Idle && s.cw.key == k {
      RefusedAtLookup(p, s, k, r, uid);
    } else if UpdatesCluster(s.cw) {
      ClusterWriteHolds(s, k, cuid);
    } else {
      OtherCallsKeep(s.store, s.cw);
    }
  }

  lemma UserStepHolds(st: Store, a: Action, k: ResourceRef, uid: nat)
    ensures Held(st, k, uid) ==> Held(UserStep(st, a), k, uid)
  {
  }

  lemma StepRefused(p: Policy, s: State, a: Action, k: ResourceRef, r: ResourceRef, uid: nat, cuid: nat)
    requires Coherent(s) && Conforms(p, s.store) && Allowed(p, s, a)
    requires Refused(p, s, k, r, uid)
    requires IsIncarnation(Step(s, a).store, r, uid)
    ensures Refused(p, Step(s, a), k, r, uid)
    ensures Held(s.store, k, cuid) ==> Held(Step(s, a).store, k, cuid)
  {
    StepKeepsIncarnation(s, a, r, uid);
    match a {
      case ClusterCalls => ClusterCallRefused(p, s, k, r, uid, cuid);
      case DatabaseCalls => assert Step(s, a).store.clusters == s.store.clusters;
      case ClusterBegins(_) =>
      case ClusterFaults =>
      case ClusterStops =>
      case DatabaseBegins(_) =>
      case DatabaseFaults =>
      case DatabaseStops =>
      case _ => UserStepHolds(s.store, a, k, cuid);
    }
  }

  /**
   As long as that database object exists, the cluster is refused by every pass, and if it waits for its tasks
   it goes on waiting: its deletion cannot complete.
   */
  lemma {:induction false} RefusedForGood(
      p: Policy, s: State, run: seq<Action>, k: ResourceRef, r: ResourceRef, uid: nat, cuid: nat)
    requires Coherent(s) && Conforms(p, s.store) && AllowedRun(p, s, run)
    requires Refused(p, s, k, r, uid)
    requires IsIncarnation(Exec(s, run).store, r, uid)
    ensures Refused(p, Exec(s, run), k, r, uid)
    ensures Held(s.store, k, cuid) ==> Held(Exec(s, run).store, k, cuid)
    decreases |run|
  {
    if run != [] {
      var s' := Step(s, run[0]);
      StepCoherent(s, run[0]);
      StepEvolves(s, run[0]);
      RunKeepsIncarnation(s', run[1..], r, uid);
      StepConforms(p, s, run[0]);
      StepRefused(p, s, run[0], k, r, uid, cuid);
      RefusedForGood(p, s', run[1..], k, r, uid, cuid);
    }
  }

  lemma ClusterCallOwnClaims(st: Store, w: ClusterWorker)
    requires StoreCoherent(st) && ClusterWorkerCoherent(st, w) && OwnClaims(st)
    ensures OwnClaims(ClusterCall(st, w).0)
  {
  }

  lemma UserStepOwnClaims(st: Store, a: Action)
    requires OwnClaims(st)
    ensures OwnClaims(UserStep(st, a))
  {
  }

  lemma DatabaseCallOwnClaims(st: Store, w: DatabaseWorker)
    requires DatabaseWorkerCoherent(st, w) && OwnClaims(st)
    ensures OwnClaims(DatabaseCall(st, w).0)
  {
  }

  lemma StepOwnClaims(s: State, a: Action)
    requires Coherent(s) && OwnClaims(s.store)
    ensures OwnClaims(Step(s, a).store)
  {
    match a {
      case ClusterCalls => ClusterCallOwnClaims(s.store, s.cw);
      case DatabaseCalls => DatabaseCallOwnClaims(s.store, s.dw);
      case _ => UserStepOwnClaims(s.store, a);
    }
  }

  /** Under any policy, the only claim ever stored is the database's own reference. */
  lemma {:induction false} RunOwnClaims(s: State, run: seq<Action>)
    requires Coherent(s) && OwnClaims(s.store)
    ensures OwnClaims(Exec(s, run).store)
    decreases |run|
  {
    if run != [] {
      StepCoherent(s, run[0]);
      StepOwnClaims(s, run[0]);
      RunOwnClaims(Step(s, run[0]), run[1..]);
    }
  }

  /**
   Once its database is claimed, a cluster is refused exactly if its name differs from the database's: the first
   pass of any cluster has stored the database's own reference.
   */
  lemma RefusedExactly(p: Policy, s: State, k: ResourceRef)
    requires Reaches(p, INITIAL, s) && s.cw == Idle
    requires k in p.specs && !p.specs[k].serverRef.IsZero()
    requires ServerOf(k, p.specs[k]) in s.store.databases
    requires !s.store.databases[ServerOf(k, p.specs[k])].claim.IsZero()
    ensures var r := ServerOf(k, p.specs[k]);
      Refused(p, s, k, r, s.store.databases[r].meta.uid) <==> r != k
  {
    var run :| AllowedRun(p, INITIAL, run) && Exec(INITIAL, run) == s;
    RunOwnClaims(INITIAL, run);
  }
}
