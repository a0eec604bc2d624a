/**
 What the two controllers leave alone: other parties' finalizers, what an object is, and everything of the nodes but
 the jobs that a deletion disables.
 */
module Footprint {
  import opened Resources
  import opened Lifecycle
  import opened Coherence

  /** A step of one of the controllers. */
  predicate ByController(a: Action) {
    a.ClusterBegins? || a.ClusterCalls? || a.ClusterFaults? || a.ClusterStops?
    || a.DatabaseBegins? || a.DatabaseCalls? || a.DatabaseFaults? || a.DatabaseStops?
  }

  /** The finalizers that are not the StroomCluster controller's own on a cluster, or on a database. */
  function OnCluster(m: Meta): set<Finalizer> {
    m.finalizers - {WaitNodeTasksFinalizer}
  }

  function OnDatabase(m: Meta): set<Finalizer> {
    m.finalizers - {StroomClusterFinalizer}
  }

  predicate SameObject(m: Meta, m': Meta) {
    m'.uid == m.uid && m'.deleting == m.deleting
  }

  /** The cluster is the same object with the same other finalizers, or was being deleted and had none. */
  predicate ClusterLeft(st: Store, st': Store, k: ResourceRef) {
    && (k in st'.clusters ==> k in st.clusters)
    && (k in st.clusters ==>
          var c := st.clusters[k];
          if k in st'.clusters then
            var c' := st'.clusters[k];
            SameObject(c.meta, c'.meta) && OnCluster(c'.meta) == OnCluster(c.meta) && c'.spec == c.spec
          else c.meta.deleting && OnCluster(c.meta) == {})
  }

  /** The same of a database, whose claim may be set once. */
  predicate DatabaseLeft(st: Store, st': Store, r: ResourceRef) {
    && (r in st'.databases ==> r in st.databases)
    && (r in st.databases ==>
          var d := st.databases[r];
          if r in st'.databases then
            var d' := st'.databases[r];
            SameObject(d.meta, d'.meta) && OnDatabase(d'.meta) == OnDatabase(d.meta)
            && (d'.claim == d.claim || d.claim.IsZero())
          else d.meta.deleting && OnDatabase(d.meta) == {})
  }

  lemma UpdateLeavesCluster(st: Store, k: ResourceRef, c: Cluster, fs: set<Finalizer>, key: ResourceRef)
    requires ClusterCopy(st, k, c) && fs - {WaitNodeTasksFinalizer} == OnCluster(c.meta)
    ensures ClusterLeft(st, UpdateCluster(st, k, c, fs), key)
  {
    if Finished(SetFinalizers(c.meta, fs)) {
      assert OnCluster(c.meta) == {};
    }
  }

  lemma UpdateLeavesDatabase(
      st: Store, r: ResourceRef, d: Database, claim: ResourceRef, fs: set<Finalizer>, key: ResourceRef)
    requires DatabaseCopy(st, r, d) && fs - {StroomClusterFinalizer} == OnDatabase(d.meta)
    requires claim == d.claim || d.claim.IsZero()
    ensures DatabaseLeft(st, UpdateDatabase(st, r, d, claim, fs), key)
  {
    if Finished(SetFinalizers(d.meta, fs)) {
      assert OnDatabase(d.meta) == {};
    }
  }

  /** No call of the StroomCluster controller does more to a cluster, or to a database. */
  lemma ClusterCallLeaves(st: Store, w: ClusterWorker, key: ResourceRef)
    requires StoreCoherent(st) && ClusterWorkerCoherent(st, w)
    ensures ClusterLeft(st, ClusterCall(st, w).0, key) && DatabaseLeft(st, ClusterCall(st, w).0, key)
  {
    OtherCallsKeep(st, w);
    match w {
      case HoldCluster(k, c) => UpdateLeavesCluster(st, k, c, c.meta.finalizers + {WaitNodeTasksFinalizer}, key);
      case ReleaseCluster(k, _, _, _, c) =>
        UpdateLeavesCluster(st, k, c, c.meta.finalizers - {WaitNodeTasksFinalizer}, key);
      case Claim(k, c, d) =>
        UpdateLeavesDatabase(st, ServerOf(k, c.spec), d, ServerOf(k, c.spec), d.meta.finalizers, key);
      case GuardDatabase(k, c, d) =>
        UpdateLeavesDatabase(
          st, ServerOf(k, c.spec), d, d.claim, d.meta.finalizers + {StroomClusterFinalizer}, key);
      case ReleaseDatabase(_, server, d) =>
        UpdateLeavesDatabase(st, server, d, d.claim, d.meta.finalizers - {StroomClusterFinalizer}, key);
      case _ =>
    }
  }

  /** The DatabaseServer controller writes no cluster, and adds nothing to a database. */
  lemma DatabaseCallLeaves(st: Store, w: DatabaseWorker, key: ResourceRef)
    requires StoreCoherent(st) && DatabaseWorkerCoherent(st, w)
    ensures var st' := DatabaseCall(st, w).0;
      && st'.clusters == st.clusters && DatabaseLeft(st, st', key)
      && (key in st'.databases ==>
            && st'.databases[key].meta.finalizers <= st.databases[key].meta.finalizers
            && st'.databases[key].claim == st.databases[key].claim)
  {
    match w {
      case Unguard(r, d) =>
        UpdateLeavesDatabase(st, r, d, d.claim, d.meta.finalizers - {StroomClusterFinalizer}, key);
      case WriteStatus(r, d) => UpdateLeavesDatabase(st, r, d, d.claim, d.meta.finalizers, key);
      case _ =>
    }
  }

  /**
   Every step of either controller, in every coherent state, leaves other parties' finalizers, and the objects they
   hold, as they are.
   */
  lemma ControllersLeaveOthers(s: State, a: Action, key: ResourceRef)
    requires Coherent(s) && ByController(a)
    ensures ClusterLeft(s.store, Step(s, a).store, key) && DatabaseLeft(s.store, Step(s, a).store, key)
  {
    if a == ClusterCalls {
      ClusterCallLeaves(s.store, s.cw, key);
    } else if a == DatabaseCalls {
      DatabaseCallLeaves(s.store, s.dw, key);
    }
  }

  /**
   Nor do they start or finish tasks, enable jobs, or disable any but those of a cluster being deleted, or take
   StatefulSets away.
   */
  lemma ControllersLeaveNodes(s: State, a: Action)
    requires ByController(a)
    ensures var st, st' := s.store, Step(s, a).store;
      && st'.processing == st.processing && st'.enabled <= st.enabled
      && (forall n :: n in st.enabled && n !in st'.enabled ==>
            a == ClusterCalls && s.cw.DisableJobs? && NodeOf(s.cw.key, n, s.cw.cluster.spec.schema))
      && (st'.deployed == st.deployed
          || (a == ClusterCalls && s.cw.CreateChildren? && st'.deployed == st.deployed + {s.cw.key}))
  {
    if a == ClusterCalls {
      CallLeavesNodes(s.store, s.cw);
    }
  }

  lemma CallLeavesNodes(st: Store, w: ClusterWorker)
    ensures var st' := ClusterCall(st, w).0;
      && st'.processing == st.processing
      && st'.enabled == (if w.DisableJobs? then set n | n in st.enabled && !NodeOf(w.key, n, w.cluster.spec.schema)
                         else st.enabled)
      && st'.deployed == if w.CreateChildren? then st.deployed + {w.key} else st.deployed
  {
  }

  // ---------- Over runs ----------

  predicate IsCluster(st: Store, k: ResourceRef, uid: nat) {
    k in st.clusters && st.clusters[k].meta.uid == uid
  }

  predicate IsDatabase(st: Store, r: ResourceRef, uid: nat) {
    r in st.databases && st.databases[r].meta.uid == uid
  }

  /** What a cluster's, or a database's, other finalizers come to, given those before. */
  predicate ClusterFollows(st: Store, st': Store, k: ResourceRef, uid: nat)
    requires IsCluster(st, k, uid)
  {
    var others := OnCluster(st.clusters[k].meta);
    && (IsCluster(st', k, uid) ==> OnCluster(st'.clusters[k].meta) == others)
    && (others != {} ==> IsCluster(st', k, uid))
  }

  predicate DatabaseFollows(st: Store, st': Store, r: ResourceRef, uid: nat)
    requires IsDatabase(st, r, uid)
  {
    var others := OnDatabase(st.databases[r].meta);
    && (IsDatabase(st', r, uid) ==> OnDatabase(st'.databases[r].meta) == others)
    && (others != {} ==> IsDatabase(st', r, uid))
  }

  lemma UserStepFollows(st: Store, a: Action, k: ResourceRef, uid: nat)
    requires !a.TouchCluster? && IsCluster(st, k, uid)
    ensures ClusterFollows(st, UserStep(st, a), k, uid)
  {
  }

  lemma UserStepFollowsDatabase(st: Store, a: Action, r: ResourceRef, uid: nat)
    requires !a.TouchDatabase? && IsDatabase(st, r, uid)
    ensures DatabaseFollows(st, UserStep(st, a), r, uid)
  {
  }

  lemma TouchesElsewhere(st: Store, a: Action, key: ResourceRef)
    requires (a.TouchCluster? || a.TouchDatabase?) && a.key != key
    ensures key in st.clusters ==> key in UserStep(st, a).clusters && UserStep(st, a).clusters[key] == st.clusters[key]
    ensures key in st.databases ==>
      key in UserStep(st, a).databases && UserStep(st, a).databases[key] == st.databases[key]
  {
  }

  lemma StepFollows(s: State, a: Action, k: ResourceRef, uid: nat)
    requires Coherent(s) && IsCluster(s.store, k, uid) && !(a.TouchCluster? && a.key == k)
    ensures ClusterFollows(s.store, Step(s, a).store, k, uid)
  {
    if ByController(a) {
      ControllersLeaveOthers(s, a, k);
    } else if a.TouchCluster? {
      TouchesElsewhere(s.store, a, k);
    } else {
      UserStepFollows(s.store, a, k, uid);
    }
  }

  lemma StepFollowsDatabase(s: State, a: Action, r: ResourceRef, uid: nat)
    requires Coherent(s) && IsDatabase(s.store, r, uid) && !(a.TouchDatabase? && a.key == r)
    ensures DatabaseFollows(s.store, Step(s, a).store, r, uid)
  {
    if ByController(a) {
      ControllersLeaveOthers(s, a, r);
    } else if a.TouchDatabase? {
      TouchesElsewhere(s.store, a, r);
    } else {
      UserStepFollowsDatabase(s.store, a, r, uid);
    }
  }

  lemma GoneStaysGone(s: State, a: Action, key: ResourceRef, uid: nat)
    requires Coherent(s) && uid <= s.store.revision
    ensures !IsCluster(s.store, key, uid) ==> !IsCluster(Step(s, a).store, key, uid)
    ensures !IsDatabase(s.store, key, uid) ==> !IsDatabase(Step(s, a).store, key, uid)
  {
    if ByController(a) {
      ControllersLeaveOthers(s, a, key);
    } else {
      UserStepNoneBack(s.store, a, key, uid);
    }
  }

  lemma UserStepNoneBack(st: Store, a: Action, key: ResourceRef, uid: nat)
    requires uid <= st.revision
    ensures !IsCluster(st, key, uid) ==> !IsCluster(UserStep(st, a), key, uid)
    ensures !IsDatabase(st, key, uid) ==> !IsDatabase(UserStep(st, a), key, uid)
  {
  }

  lemma {:induction false} RunNoneBack(s: State, run: seq<Action>, key: ResourceRef, uid: nat)
    requires Coherent(s) && uid <= s.store.revision
    ensures !IsCluster(s.store, key, uid) ==> !IsCluster(Exec(s, run).store, key, uid)
    ensures !IsDatabase(s.store, key, uid) ==> !IsDatabase(Exec(s, run).store, key, uid)
    decreases |run|
  {
    if run != [] {
      GoneStaysGone(s, run[0], key, uid);
      StepCoherent(s, run[0]);
      StepEvolves(s, run[0]);
      RunNoneBack(Step(s, run[0]), run[1..], key, uid);
    }
  }

  /**
   Through every run in which nobody touches its finalizers, a cluster object has the finalizers of other parties that
   it had, no more and no fewer, and is there as long as it has any, whatever both controllers do and whoever deletes
   it.
   */
  lemma {:induction false} ClusterKeepsOthers(s: State, run: seq<Action>, k: ResourceRef, uid: nat)
    requires Coherent(s) && IsCluster(s.store, k, uid)
    requires forall a :: a in run ==> !(a.TouchCluster? && a.key == k)
    ensures ClusterFollows(s.store, Exec(s, run).store, k, uid)
    decreases |run|
  {
    if run != [] {
      assert run[0] in run;
      var t := Step(s, run[0]);
      StepFollows(s, run[0], k, uid);
      StepCoherent(s, run[0]);
      StepEvolves(s, run[0]);
      if IsCluster(t.store, k, uid) {
        ClusterKeepsOthers(t, run[1..], k, uid);
      } else {
        RunNoneBack(t, run[1..], k, uid);
      }
    }
  }

  /** And so has a database object. */
  lemma {:induction false} DatabaseKeepsOthers(s: State, run: seq<Action>, r: ResourceRef, uid: nat)
    requires Coherent(s) && IsDatabase(s.store, r, uid)
    requires forall a :: a in run ==> !(a.TouchDatabase? && a.key == r)
    ensures DatabaseFollows(s.store, Exec(s, run).store, r, uid)
    decreases |run|
  {
    if run != [] {
      assert run[0] in run;
      var t := Step(s, run[0]);
      StepFollowsDatabase(s, run[0], r, uid);
      StepCoherent(s, run[0]);
      StepEvolves(s, run[0]);
      if IsDatabase(t.store, r, uid) {
        DatabaseKeepsOthers(t, run[1..], r, uid);
      } else {
        RunNoneBack(t, run[1..], r, uid);
      }
    }
  }
}
