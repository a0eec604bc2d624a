/**
 Clusters that share an application database: the count of tasks covers the nodes of all of them, so that one
 cluster's deletion also waits for the tasks of another.
 */
module Neighbours {
  import opened Resources
  import opened Naming
  import opened Lifecycle
  import opened LifecycleSafety
  import opened Drain
  import opened DrainExactness
  import opened DrainProgress
  import opened Passes

  /** Some node of the cluster itself runs a task. */
  predicate OwnTasksRemain(st: Store, k: ResourceRef, schema: string) {
    exists node :: node in Tasks(st, schema) && NodeOf(k, NodeRef(schema, node), schema)
  }

  /** A whole deletion pass leaves the cluster waiting exactly if it is deployed and any task is left. */
  lemma HeldExactly(p: Policy, s: State, k: ResourceRef, schema: string)
    requires Sound(p) && Safe(p, s) && Draining(s, k, schema)
    ensures HeldCluster(Pass(s, k).store, k) <==> k in s.store.deployed && TasksRemain(s.store, schema)
  {
    if k in s.store.deployed && TasksRemain(s.store, schema) {
      PassWaits(p, s, k, schema);
    } else {
      PassReleases(p, s, k, schema);
    }
  }

  /** So the cluster waits for its own tasks alone exactly if it is not left with those of others only. */
  lemma OwnTasksDecideExactly(p: Policy, s: State, k: ResourceRef, schema: string)
    requires Sound(p) && Safe(p, s) && Draining(s, k, schema) && k in s.store.deployed
    ensures (HeldCluster(Pass(s, k).store, k) <==> OwnTasksRemain(s.store, k, schema))
      <==> (TasksRemain(s.store, schema) ==> OwnTasksRemain(s.store, k, schema))
  {
    HeldExactly(p, s, k, schema);
    if OwnTasksRemain(s.store, k, schema) {
      var node :| node in Tasks(s.store, schema) && NodeOf(k, NodeRef(schema, node), schema);
      assert TasksRemain(s.store, schema);
    }
  }

  /** The cluster is being deleted, its own nodes are idle, and node `n` of another one runs a task. */
  ghost predicate HeldByNeighbour(p: Policy, s: State, k: ResourceRef, n: NodeRef) {
    && Reaches(p, INITIAL, s)
    && Draining(s, k, n.schema) && k in s.store.deployed
    && !NodeOf(k, n, n.schema) && !OwnTasksRemain(s.store, k, n.schema)
    && n in s.store.enabled && n.node in Tasks(s.store, n.schema)
  }

  lemma RunsOnly(st: Store, k: ResourceRef, n: NodeRef)
    requires Tasks(st, n.schema) == multiset{n.node} && !NodeOf(k, n, n.schema)
    ensures !OwnTasksRemain(st, k, n.schema)
  {
  }

  /** Any node of the schema whose name does not start with the cluster's base name can do it. */
  lemma NeighbourRun(p: Policy, k: ResourceRef, n: NodeRef) returns (s: State)
    requires k in p.specs && n.schema == p.specs[k].schema && !NodeOf(k, n, n.schema)
    ensures HeldByNeighbour(p, s, k, n)
  {
    s := DeployRun(p, k);
    assert !NodeOfDeleted(s.store, n);
    s := Advance(p, INITIAL, s, EnableJobs(n));
    assert Tasks(s.store, n.schema) + multiset{n.node} == multiset{n.node};
    s := Advance(p, INITIAL, s, StartTask(n));
    RunsOnly(s.store, k, n);
    s := Advance(p, INITIAL, s, DeleteCluster(k));
    RunsOnly(s.store, k, n);
  }

  /** A pass over such a cluster leaves it waiting, although none of its own nodes has a task. */
  lemma NeighbourHolds(p: Policy, k: ResourceRef, n: NodeRef) returns (s: State)
    requires Sound(p) && k in p.specs && n.schema == p.specs[k].schema && !NodeOf(k, n, n.schema)
    ensures HeldByNeighbour(p, s, k, n)
    ensures HeldCluster(Pass(s, k).store, k)
  {
    s := NeighbourRun(p, k, n);
    ReachableSafe(p, s);
    HeldExactly(p, s, k, n.schema);
  }

  lemma ReachableSafe(p: Policy, s: State)
    requires Sound(p) && Reaches(p, INITIAL, s)
    ensures Safe(p, s)
  {
    var run :| AllowedRun(p, INITIAL, run) && Exec(INITIAL, run) == s;
    RunSafe(p, INITIAL, run);
  }

  /**
   Nor does the pattern keep to the cluster's own nodes: a deletion pass disables a node of another cluster
   exactly if they share the database and the names run together.
   */
  lemma NeighbourDisabledExactly(
      st: Store, k: ResourceRef, schema: string, n: NodeRef, other: string, nodeSet: string, ordinal: nat)
    requires n in st.enabled && n.node == PodName(other, nodeSet, ordinal)
    ensures n !in DisableNodes(st, k, schema).enabled
      <==> n.schema == schema && (k.name <= other || ExtendsInto(k.name, other, NodeSuffix(nodeSet, ordinal)))
  {
    PatternMatchesExactly(k.name, other, nodeSet, ordinal);
  }

  // ---------- A busy neighbour ----------

  /** Whole passes between which the neighbour starts a task and finishes one. */
  function BusyRounds(n: NodeRef, count: nat): seq<Round> {
    if count == 0 then [] else [Whole([StartTask(n), FinishTask(n)])] + BusyRounds(n, count - 1)
  }

  predicate Busy(st: Store, k: ResourceRef, n: NodeRef) {
    k in st.deployed && !NodeOf(k, n, n.schema) && n in st.enabled && n.node in Tasks(st, n.schema)
  }

  /** A task that follows another keeps the node busy. */
  lemma BusyStep(s: State, k: ResourceRef, n: NodeRef)
    requires Busy(s.store, k, n)
    ensures var t := Exec(s, [StartTask(n), FinishTask(n)]); Busy(t.store, k, n)
  {
    var s1 := Step(s, StartTask(n));
    assert Tasks(s1.store, n.schema) == Tasks(s.store, n.schema) + multiset{n.node};
    var s2 := Step(s1, FinishTask(n));
    assert Tasks(s2.store, n.schema) == Tasks(s1.store, n.schema) - multiset{n.node};
    assert [StartTask(n), FinishTask(n)][1..] == [FinishTask(n)];
    assert Exec(s, [StartTask(n), FinishTask(n)]) == Exec(s1, [FinishTask(n)]) == s2;
  }

  /** However many passes are made, the cluster waits: the drain is bounded only by what all clusters leave. */
  lemma {:induction false} BusyNeighbourHolds(
      p: Policy, s: State, k: ResourceRef, uid: nat, spec: Spec, n: NodeRef, count: nat)
    requires Sound(p) && Safe(p, s) && s.cw == Idle && Leaving(s.store, k, uid, spec)
    requires n.schema == spec.schema && Busy(s.store, k, n)
    ensures Leaving(AfterRounds(s, k, BusyRounds(n, count)).store, k, uid, spec)
    decreases count
  {
    if count > 0 {
      var after := [StartTask(n), FinishTask(n)];
      var t := Play(s, k, Whole(after));
      TasksAreAllowed(p, Pass(s, k), n);
      RoundSafe(p, s, k, Whole(after));
      WholeRound(p, s, k, uid, spec, after);
      PassWaits(p, s, k, spec.schema);
      assert Tasks(Pass(s, k).store, n.schema) == Tasks(s.store, n.schema);
      BusyStep(Pass(s, k), k, n);
      BusyNeighbourHolds(p, t, k, uid, spec, n, count - 1);
      assert BusyRounds(n, count)[1..] == BusyRounds(n, count - 1);
    }
  }

  lemma TasksAreAllowed(p: Policy, s: State, n: NodeRef)
    ensures AllowedRun(p, s, [StartTask(n), FinishTask(n)])
  {
    assert [StartTask(n), FinishTask(n)][1..] == [FinishTask(n)];
    assert [FinishTask(n)][1..] == [];
  }
}
