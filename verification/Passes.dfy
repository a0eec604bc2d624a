/** Whole reconcile passes of either controller, in which any calls may fail, as runs of the protocol. */
module Passes {
  import opened Resources
  import opened Outcomes
  import opened Lifecycle
  import opened LifecycleSafety

  // ---------- The StroomCluster controller ----------

  /**
   The rest of a pass in which the calls named by `faults` fail. `deploys` says whether it gets to its StatefulSets
   once it comes to creating children.
   */
  function FinishWith(s: State, faults: seq<bool>, deploys: bool := true): (t: State)
    ensures t.cw == Idle && t.dw == s.dw
    decreases Rank(s.cw)
  {
    if s.cw == Idle then s
    else if s.cw.CreateChildren? && !deploys then s.(cw := Idle)
    else if Fails(faults) then FinishWith(s.(cw := ClusterFault(s.cw)), Rest(faults), deploys)
    else FinishWith(Step(s, ClusterCalls), Rest(faults), deploys)
  }

  function PassWith(s: State, k: ResourceRef, faults: seq<bool>, deploys: bool := true): State {
    if Fails(faults) then s else FinishWith(Step(s, ClusterBegins(k)), Rest(faults), deploys)
  }

  /** The rest of a pass that nothing interrupts, and a whole such pass. */
  function Finish(s: State): State {
    FinishWith(s, [])
  }

  function Pass(s: State, k: ResourceRef): State {
    PassWith(s, k, [])
  }

  lemma {:induction false} FinishWithoutFaults(s: State, faults: seq<bool>)
    requires true !in faults
    ensures FinishWith(s, faults) == Finish(s)
    decreases Rank(s.cw)
  {
    if s.cw != Idle {
      RestIsPart(faults);
      FinishWithoutFaults(Step(s, ClusterCalls), Rest(faults));
    }
  }

  /** Outcomes that name no failure make the uninterrupted pass. */
  lemma PassWithoutFaults(s: State, k: ResourceRef, faults: seq<bool>)
    requires true !in faults
    ensures PassWith(s, k, faults) == Pass(s, k)
  {
    RestIsPart(faults);
    FinishWithoutFaults(Step(s, ClusterBegins(k)), Rest(faults));
  }

  /** A pass that has found its cluster deleted creates no children. */
  predicate InDeletion(w: ClusterWorker) {
    match w
    case GetDatabase(_, c) => c.meta.deleting
    case Claim(_, c, _) => c.meta.deleting
    case GuardDatabase(_, _, _) => false
    case HoldCluster(_, _) => false
    case CreateChildren(_) => false
    case _ => true
  }

  lemma {:induction false} DeletionFinishes(s: State, faults: seq<bool>, deploys: bool)
    requires InDeletion(s.cw)
    ensures FinishWith(s, faults, deploys) == FinishWith(s, faults)
    decreases Rank(s.cw)
  {
    if s.cw != Idle {
      if Fails(faults) {
        DeletionFinishes(s.(cw := ClusterFault(s.cw)), Rest(faults), deploys);
      } else {
        DeletionFinishes(Step(s, ClusterCalls), Rest(faults), deploys);
      }
    }
  }

  lemma DeletionPasses(s: State, k: ResourceRef, faults: seq<bool>, deploys: bool)
    requires s.cw == Idle && k in s.store.clusters && s.store.clusters[k].meta.deleting
    ensures PassWith(s, k, faults, deploys) == PassWith(s, k, faults)
  {
    DeletionFinishes(Step(s, ClusterBegins(k)), Rest(faults), deploys);
  }

  lemma OneMore(p: Policy, s: State, t: State, faults: seq<bool>) returns (u: State)
    requires Reaches(p, s, t)
    requires p.listErrors || !Fails(faults)
    ensures Reaches(p, s, u)
    ensures u == if Fails(faults) then t.(cw := ClusterFault(t.cw)) else Step(t, ClusterCalls)
  {
    if Fails(faults) {
      u := Advance(p, s, t, ClusterFaults);
    } else {
      u := Advance(p, s, t, ClusterCalls);
    }
  }

  lemma FinishOneMore(t: State, faults: seq<bool>, deploys: bool)
    requires t.cw != Idle && (t.cw.CreateChildren? ==> deploys)
    ensures var u := if Fails(faults) then t.(cw := ClusterFault(t.cw)) else Step(t, ClusterCalls);
      FinishWith(t, faults, deploys) == FinishWith(u, Rest(faults), deploys) && Rank(u.cw) < Rank(t.cw)
  {
  }

  lemma {:induction false} FinishWithIsRun(p: Policy, s: State, t: State, faults: seq<bool>, deploys: bool)
    requires Reaches(p, s, t)
    requires p.listErrors || true !in faults
    ensures Reaches(p, s, FinishWith(t, faults, deploys))
    decreases Rank(t.cw)
  {
    if t.cw.CreateChildren? && !deploys {
      var u := Advance(p, s, t, ClusterStops);
    } else if t.cw != Idle {
      RestIsPart(faults);
      FinishOneMore(t, faults, deploys);
      var u := OneMore(p, s, t, faults);
      FinishWithIsRun(p, s, u, Rest(faults), deploys);
    }
  }

  /** A Reconcile, with any calls failing, is a run of the protocol. */
  lemma PassIsRun(p: Policy, s: State, k: ResourceRef, faults: seq<bool>, deploys: bool)
    requires s.cw == Idle
    requires p.listErrors || true !in faults
    ensures Reaches(p, s, PassWith(s, k, faults, deploys))
  {
    ReachesSelf(p, s);
    RestIsPart(faults);
    if !Fails(faults) {
      var t := Advance(p, s, s, ClusterBegins(k));
      FinishWithIsRun(p, s, t, Rest(faults), deploys);
    }
  }

  /** So it keeps the lifecycle invariant, wherever it fails. */
  lemma PassKeepsSafe(p: Policy, s: State, k: ResourceRef, faults: seq<bool>, deploys: bool)
    requires Sound(p) && Safe(p, s) && s.cw == Idle
    ensures Safe(p, PassWith(s, k, faults, deploys))
  {
    var p' := p.(listErrors := true);
    PassIsRun(p', s, k, faults, deploys);
    var run :| AllowedRun(p', s, run) && Exec(s, run) == PassWith(s, k, faults, deploys);
    assert Sound(p') && Safe(p', s);
    RunSafe(p', s, run);
  }

  // ---------- What single calls come to ----------

  /** The read of the cluster. */
  lemma BeginCall(st: Store, k: ResourceRef, dw: DatabaseWorker, faults: seq<bool>, deploys: bool)
    ensures PassWith(State(st, Idle, dw), k, faults, deploys)
      == if Fails(faults) || k !in st.clusters then State(st, Idle, dw)
         else
           var c := st.clusters[k];
           FinishWith(
             State(st, if External(c) then AfterGuard(k, c) else GetDatabase(k, c), dw), Rest(faults), deploys)
  {
  }

  /** The store once the cluster's, or the database's, finalizer is removed from the object as it stands. */
  function ReleasedCluster(st: Store, k: ResourceRef): Store
    requires k in st.clusters
  {
    var c := st.clusters[k];
    WriteCluster(st, k, c.(meta := SetFinalizers(c.meta, c.meta.finalizers - {WaitNodeTasksFinalizer})))
  }

  function ReleasedDatabase(st: Store, r: ResourceRef): Store
    requires r in st.databases
  {
    var d := st.databases[r];
    WriteDatabase(st, r, d.(meta := SetFinalizers(d.meta, d.meta.finalizers - {StroomClusterFinalizer})))
  }

  function WithNodes(st: Store, k: ResourceRef): Store {
    st.(deployed := st.deployed + {k})
  }

  /** The protocol's call for the children. */
  lemma ChildrenCall(st: Store, k: ResourceRef, dw: DatabaseWorker, faults: seq<bool>, deploys: bool)
    ensures FinishWith(State(st, CreateChildren(k), dw), faults, deploys)
      == State(if deploys && !Fails(faults) then WithNodes(st, k) else st, Idle, dw)
  {
  }

  /** The calls that remove the cluster's finalizer. */
  lemma FetchCall(
      st: Store, k: ResourceRef, server: ResourceRef, schema: string, reason: Reason, dw: DatabaseWorker,
      faults: seq<bool>, deploys: bool)
    ensures FinishWith(State(st, FetchCluster(k, server, schema, reason), dw), faults, deploys)
      == if Fails(faults) || k !in st.clusters then State(st, Idle, dw)
         else if !Waiting(st.clusters[k]) then
           FinishWith(State(st, AfterRelease(k, server), dw), Rest(faults), deploys)
         else
           FinishWith(
             State(st, ReleaseCluster(k, server, schema, reason, st.clusters[k]), dw), Rest(faults), deploys)
  {
  }

  lemma ReleaseCall(
      st: Store, k: ResourceRef, server: ResourceRef, schema: string, reason: Reason, dw: DatabaseWorker,
      faults: seq<bool>, deploys: bool)
    requires k in st.clusters
    ensures FinishWith(State(st, ReleaseCluster(k, server, schema, reason, st.clusters[k]), dw), faults, deploys)
      == if Fails(faults) then State(st, Idle, dw)
         else FinishWith(State(ReleasedCluster(st, k), AfterRelease(k, server), dw), Rest(faults), deploys)
  {
  }

  /** And those that remove the database's. */
  lemma UnguardCalls(
      st: Store, k: ResourceRef, server: ResourceRef, dw: DatabaseWorker, faults: seq<bool>, deploys: bool)
    requires server in st.databases && Guarded(st.databases[server])
    ensures FinishWith(State(st, FetchDatabase(k, server), dw), faults, deploys)
      == if FailsAt(faults, 0) || FailsAt(faults, 1) then State(st, Idle, dw)
         else State(ReleasedDatabase(st, server), Idle, dw)
  {
    var s := State(st, FetchDatabase(k, server), dw);
    var t := State(st, ReleaseDatabase(k, server, st.databases[server]), dw);
    assert Step(s, ClusterCalls) == t;
    assert Step(t, ClusterCalls) == State(ReleasedDatabase(st, server), Idle, dw);
    SkipStep(faults, 0);
    SkipStep(faults, 1);
    FinishOneMore(s, faults, deploys);
    FinishOneMore(t, Rest(faults), deploys);
  }

  lemma DatabaseReleaseKeepsClusters(st: Store, r: ResourceRef)
    ensures r in st.databases ==> ReleasedDatabase(st, r).clusters == st.clusters
  {
  }

  // ---------- The DatabaseServer controller ----------

  function DatabaseRank(w: DatabaseWorker): nat {
    match w
    case Resting => 0
    case LookupCluster(_, _) => 2
    case Unguard(_, _) => 1
    case WriteStatus(_, _) => 1
  }

  /** The rest of a DatabaseServer pass in which the calls named by `faults` fail. */
  function FinishDatabase(s: State, faults: seq<bool>): State
    decreases DatabaseRank(s.dw)
  {
    if s.dw == Resting then s
    else if Fails(faults) then FinishDatabase(s.(dw := DatabaseFault(s.dw)), Rest(faults))
    else FinishDatabase(Step(s, DatabaseCalls), Rest(faults))
  }

  /** A pass, with any calls failing, is a run of the protocol. */
  lemma {:induction false} FinishDatabaseIsRun(p: Policy, s: State, t: State, faults: seq<bool>)
    requires Reaches(p, s, t)
    requires p.lookupErrors || true !in faults
    ensures Reaches(p, s, FinishDatabase(t, faults))
    decreases DatabaseRank(t.dw)
  {
    if t.dw != Resting {
      RestIsPart(faults);
      var u := Advance(p, s, t, if Fails(faults) then DatabaseFaults else DatabaseCalls);
      FinishDatabaseIsRun(p, s, u, Rest(faults));
    }
  }

  lemma DatabasePassIsRun(p: Policy, s: State, r: ResourceRef, faults: seq<bool>)
    requires s.dw == Resting
    requires p.lookupErrors || true !in faults
    ensures Reaches(p, s, FinishDatabase(s.(dw := StartDatabase(s.store, r)), faults))
  {
    ReachesSelf(p, s);
    var t := Advance(p, s, s, DatabaseBegins(r));
    FinishDatabaseIsRun(p, s, t, faults);
  }

  /** A database being deleted whose claiming cluster is gone loses the operator's finalizer in one pass. */
  lemma AbandonedDatabaseIsFreed(s: State, r: ResourceRef)
    requires s.dw == Resting && r in s.store.databases && s.store.databases[r].meta.deleting
    requires s.store.databases[r].claim !in s.store.clusters
    ensures var t := FinishDatabase(s.(dw := StartDatabase(s.store, r)), []);
      t.store.clusters == s.store.clusters
      && (r in t.store.databases ==> !Guarded(t.store.databases[r]))
  {
    var d := s.store.databases[r];
    var s0 := s.(dw := StartDatabase(s.store, r));
    if Guarded(d) {
      var s1 := if d.claim.IsZero() then s0 else Step(s0, DatabaseCalls);
      assert s1 == s.(dw := Unguard(r, d));
      assert FinishDatabase(s0, []) == FinishDatabase(s1, []) == Step(s1, DatabaseCalls);
    }
  }
}
