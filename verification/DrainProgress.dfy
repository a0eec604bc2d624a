/**
 Once the tasks drain, the deletion of a cluster completes, however many of its passes are interrupted by
 failures and conflicts.
 */
module DrainProgress {
  import opened Resources
  import opened Lifecycle
  import opened Coherence
  import opened LifecycleSafety
  import opened Drain
  import opened Passes

  /** A deleted cluster that waits for its tasks, between passes. */
  predicate Draining(s: State, k: ResourceRef, schema: string) {
    && s.cw == Idle
    && HeldCluster(s.store, k)
    && s.store.clusters[k].meta.deleting
    && s.store.clusters[k].spec.schema == schema
  }

  /** Both finalizers of the deletion are gone; `server` is NO_REF for an external database. */
  predicate Released(st: Store, k: ResourceRef, server: ResourceRef) {
    !HeldCluster(st, k)
    && (!server.IsZero() && server in st.databases ==> !Guarded(st.databases[server]))
  }

  /** The lookup of the database never stops a deletion pass. */
  lemma PassReachesNodes(p: Policy, s: State, k: ResourceRef, schema: string)
    requires Sound(p) && Safe(p, s) && Draining(s, k, schema)
    ensures var c := s.store.clusters[k];
      Pass(s, k) == Finish(s.(cw := ListNodes(k, c)))
  {
    var c := s.store.clusters[k];
    var s1 := Step(s, ClusterBegins(k));
    if External(c) {
      assert s1 == s.(cw := ListNodes(k, c));
    } else {
      assert ServerOf(k, c.spec) == k && ProtectedBy(s.store, k, k);
      assert s1 == s.(cw := GetDatabase(k, c));
      assert Step(s1, ClusterCalls) == s.(cw := ListNodes(k, c));
    }
  }

  /** With tasks left, the jobs are disabled and the pass ends. */
  lemma FinishWaits(s: State, k: ResourceRef, c: Cluster)
    requires s.cw == ListNodes(k, c)
    requires k in s.store.deployed && TasksRemain(s.store, c.spec.schema)
    ensures Finish(s) == s.(store := DisableNodes(s.store, k, c.spec.schema), cw := Idle)
  {
    var s1 := s.(cw := DisableJobs(k, c));
    var s2 := State(DisableNodes(s.store, k, c.spec.schema), CountTasks(k, c), s.dw);
    assert Step(s, ClusterCalls) == s1 && Step(s1, ClusterCalls) == s2;
    assert Tasks(s2.store, c.spec.schema) == Tasks(s.store, c.spec.schema);
    var s3 := s2.(cw := Idle);
    assert Step(s2, ClusterCalls) == s3;
    assert Finish(s) == Finish(s1);
    assert Finish(s1) == Finish(s2);
    assert Finish(s2) == Finish(s3) == s3;
  }

  /** With tasks left, a pass disables the jobs and changes nothing else. */
  lemma PassWaits(p: Policy, s: State, k: ResourceRef, schema: string)
    requires Sound(p) && Safe(p, s) && Draining(s, k, schema)
    requires k in s.store.deployed && TasksRemain(s.store, schema)
    ensures Pass(s, k) == s.(store := DisableNodes(s.store, k, schema))
  {
    PassReachesNodes(p, s, k, schema);
    var c := s.store.clusters[k];
    FinishWaits(s.(cw := ListNodes(k, c)), k, c);
  }

  /** The calls that drop the database's finalizer. */
  lemma FinishUnguards(s: State)
    requires s.cw.FetchDatabase? && !s.cw.server.IsZero()
    ensures Finish(s).store.clusters == s.store.clusters
    ensures s.cw.server in Finish(s).store.databases ==> !Guarded(Finish(s).store.databases[s.cw.server])
  {
    var s1 := Step(s, ClusterCalls);
    assert Finish(s) == Finish(s1);
    if s1.cw != Idle {
      var s2 := Step(s1, ClusterCalls);
      assert s2.cw == Idle;
      assert Finish(s1) == Finish(s2) == s2;
    }
  }

  /** A pass that has gone past its checks drops both finalizers. */
  lemma FinishReleases(s: State)
    requires s.cw.FetchCluster? && HeldCluster(s.store, s.cw.key)
    ensures Released(Finish(s).store, s.cw.key, s.cw.server)
  {
    var k, server := s.cw.key, s.cw.server;
    var s1 := Step(s, ClusterCalls);
    var s2 := Step(s1, ClusterCalls);
    assert s1.cw == ReleaseCluster(k, server, s.cw.schema, s.cw.reason, s.store.clusters[k]);
    assert !HeldCluster(s2.store, k) && s2.cw == AfterRelease(k, server);
    assert Finish(s) == Finish(s1) == Finish(s2);
    if !server.IsZero() {
      FinishUnguards(s2);
    }
  }

  /** With all tasks finished, the jobs are disabled and the pass goes on to its release. */
  lemma FinishDrained(s: State, k: ResourceRef, c: Cluster)
    requires s.cw == ListNodes(k, c) && HeldCluster(s.store, k)
    requires k in s.store.deployed && !TasksRemain(s.store, c.spec.schema)
    ensures Released(Finish(s).store, k, ServerOf(k, c.spec))
  {
    var s1 := s.(cw := DisableJobs(k, c));
    var s2 := State(DisableNodes(s.store, k, c.spec.schema), CountTasks(k, c), s.dw);
    assert Step(s, ClusterCalls) == s1 && Step(s1, ClusterCalls) == s2;
    assert Tasks(s2.store, c.spec.schema) == Tasks(s.store, c.spec.schema);
    var s3 := s2.(cw := FetchCluster(k, ServerOf(k, c.spec), c.spec.schema, Drained));
    assert Step(s2, ClusterCalls) == s3;
    assert Finish(s) == Finish(s1);
    assert Finish(s1) == Finish(s2);
    assert Finish(s2) == Finish(s3);
    FinishReleases(s3);
  }

  /** Without nodes, or without tasks left, one pass completes the deletion. */
  lemma PassReleases(p: Policy, s: State, k: ResourceRef, schema: string)
    requires Sound(p) && Safe(p, s) && Draining(s, k, schema)
    requires k !in s.store.deployed || !TasksRemain(s.store, schema)
    ensures Released(Pass(s, k).store, k, ServerOf(k, s.store.clusters[k].spec))
  {
    PassReachesNodes(p, s, k, schema);
    var c := s.store.clusters[k];
    var s0 := s.(cw := ListNodes(k, c));
    if k in s.store.deployed {
      FinishDrained(s0, k, c);
    } else {
      var s1 := Step(s0, ClusterCalls);
      assert Finish(s0) == Finish(s1);
      FinishReleases(s1);
    }
  }

  /** A drained cluster is released by every pass in which no call fails. */
  lemma FaultlessPassReleases(
      p: Policy, s: State, k: ResourceRef, schema: string, faults: seq<bool>, deploys: bool)
    requires Sound(p) && Safe(p, s) && Draining(s, k, schema)
    requires k !in s.store.deployed || !TasksRemain(s.store, schema)
    requires true !in faults
    ensures Released(PassWith(s, k, faults, deploys).store, k, ServerOf(k, s.store.clusters[k].spec))
  {
    DeletionPasses(s, k, faults, deploys);
    PassWithoutFaults(s, k, faults);
    PassReleases(p, s, k, schema);
  }

  // ---------- One cluster object, from its deletion on ----------

  /** The cluster object created with `uid` is being deleted and waits for its tasks. */
  predicate Leaving(st: Store, k: ResourceRef, uid: nat, spec: Spec) {
    && k in st.clusters && st.clusters[k].meta.uid == uid
    && st.clusters[k].meta.deleting && Waiting(st.clusters[k]) && st.clusters[k].spec == spec
  }

  /** It is gone, or at least waits no more. */
  predicate Freed(st: Store, k: ResourceRef, uid: nat) {
    && uid <= st.revision
    && (k in st.clusters && st.clusters[k].meta.uid == uid
        ==> st.clusters[k].meta.deleting && !Waiting(st.clusters[k]))
  }

  lemma ClusterUpdateLeaves(s: State, k: ResourceRef, uid: nat, spec: Spec)
    requires Coherent(s) && UpdatesCluster(s.cw)
    ensures var t := Step(s, ClusterCalls).store;
      && (Leaving(s.store, k, uid, spec) ==> Leaving(t, k, uid, spec) || Freed(t, k, uid))
      && (Freed(s.store, k, uid) ==> Freed(t, k, uid))
  {
  }

  lemma UserStepLeaves(st: Store, a: Action, k: ResourceRef, uid: nat, spec: Spec)
    ensures Leaving(st, k, uid, spec) ==> Leaving(UserStep(st, a), k, uid, spec)
    ensures Freed(st, k, uid) ==> Freed(UserStep(st, a), k, uid)
  {
  }

  /** A step of anyone leaves it waiting or frees it, and does not make a freed one wait again. */
  lemma StepLeaves(s: State, a: Action, k: ResourceRef, uid: nat, spec: Spec)
    requires Coherent(s)
    ensures var t := Step(s, a).store;
      && (Leaving(s.store, k, uid, spec) ==> Leaving(t, k, uid, spec) || Freed(t, k, uid))
      && (Freed(s.store, k, uid) ==> Freed(t, k, uid))
  {
    StepEvolves(s, a);
    match a {
      case ClusterCalls =>
        if UpdatesCluster(s.cw) {
          ClusterUpdateLeaves(s, k, uid, spec);
        } else {
          OtherCallsKeep(s.store, s.cw);
        }
      case DatabaseCalls =>
        assert Step(s, a).store.clusters == s.store.clusters;
      case _ => UserStepLeaves(s.store, a, k, uid, spec);
    }
  }

  lemma {:induction false} RunLeaves(s: State, run: seq<Action>, k: ResourceRef, uid: nat, spec: Spec)
    requires Coherent(s)
    requires Leaving(s.store, k, uid, spec) || Freed(s.store, k, uid)
    ensures var t := Exec(s, run).store;
      && (Leaving(t, k, uid, spec) || Freed(t, k, uid))
      && (Freed(s.store, k, uid) ==> Freed(t, k, uid))
    decreases |run|
  {
    if run != [] {
      StepCoherent(s, run[0]);
      StepLeaves(s, run[0], k, uid, spec);
      RunLeaves(Step(s, run[0]), run[1..], k, uid, spec);
    }
  }

  /** Others never free it. */
  predicate ByOthers(a: Action) {
    !a.ClusterBegins? && !a.ClusterCalls? && !a.ClusterFaults? && !a.ClusterStops?
  }

  lemma {:induction false} OthersStay(s: State, run: seq<Action>)
    requires forall a :: a in run ==> ByOthers(a)
    ensures Exec(s, run).cw == s.cw
    decreases |run|
  {
    if run != [] {
      assert run[0] in run;
      OthersStay(Step(s, run[0]), run[1..]);
    }
  }

  lemma {:induction false} OthersLeave(s: State, run: seq<Action>, k: ResourceRef, uid: nat, spec: Spec)
    requires Coherent(s)
    requires forall a :: a in run ==> ByOthers(a)
    ensures Leaving(s.store, k, uid, spec) ==> Leaving(Exec(s, run).store, k, uid, spec)
    decreases |run|
  {
    if run != [] {
      assert run[0] in run;
      StepCoherent(s, run[0]);
      OtherLeaves(s, run[0], k, uid, spec);
      OthersLeave(Step(s, run[0]), run[1..], k, uid, spec);
    }
  }

  lemma OtherLeaves(s: State, a: Action, k: ResourceRef, uid: nat, spec: Spec)
    requires Coherent(s) && ByOthers(a)
    ensures Leaving(s.store, k, uid, spec) ==> Leaving(Step(s, a).store, k, uid, spec)
  {
    if a.DatabaseCalls? {
      assert Step(s, a).store.clusters == s.store.clusters;
    } else {
      UserStepLeaves(s.store, a, k, uid, spec);
    }
  }

  // ---------- Rounds ----------

  /**
   What happens between two moments at which the StroomCluster controller rests: a whole pass over the cluster
   and then steps of others, or anything at all, passes over any clusters that fail, are refused for a conflict,
   interleave with others or are given up included.
   */
  datatype Round = Whole(after: seq<Action>) | Interrupted(steps: seq<Action>)

  function Play(s: State, k: ResourceRef, round: Round): State {
    match round
    case Whole(after) => Exec(Pass(s, k), after)
    case Interrupted(steps) => Exec(s, steps)
  }

  predicate MayPlay(p: Policy, s: State, k: ResourceRef, round: Round) {
    match round
    case Whole(after) => AllowedRun(p, Pass(s, k), after) && forall a :: a in after ==> ByOthers(a)
    case Interrupted(steps) => AllowedRun(p, s, steps) && Exec(s, steps).cw == Idle
  }

  function AfterRounds(s: State, k: ResourceRef, rounds: seq<Round>): State
    decreases |rounds|
  {
    if rounds == [] then s else AfterRounds(Play(s, k, rounds[0]), k, rounds[1..])
  }

  function Interruptions(rounds: seq<Round>): (n: nat)
    ensures n <= |rounds|
  {
    if rounds == [] then 0 else (if rounds[0].Interrupted? then 1 else 0) + Interruptions(rounds[1..])
  }

  function Load(st: Store, schema: string): nat {
    |Tasks(st, schema)|
  }

  /**
   The rounds keep to the policy, the number of tasks does not rise while the cluster waits, and it falls in a
   round with a whole pass as long as any remain.
   */
  predicate Eases(p: Policy, s: State, k: ResourceRef, uid: nat, spec: Spec, rounds: seq<Round>)
    decreases |rounds|
  {
    rounds != [] ==>
      && MayPlay(p, s, k, rounds[0])
      && var t := Play(s, k, rounds[0]);
        && (Leaving(s.store, k, uid, spec) && Leaving(t.store, k, uid, spec) ==>
              && Load(t.store, spec.schema) <= Load(s.store, spec.schema)
              && (rounds[0].Whole? && TasksRemain(s.store, spec.schema) ==>
                    Load(t.store, spec.schema) < Load(s.store, spec.schema)))
        && Eases(p, t, k, uid, spec, rounds[1..])
  }

  lemma RoundSafe(p: Policy, s: State, k: ResourceRef, round: Round)
    requires Sound(p) && Safe(p, s) && s.cw == Idle && MayPlay(p, s, k, round)
    ensures Safe(p, Play(s, k, round)) && Play(s, k, round).cw == Idle
  {
    match round {
      case Whole(after) =>
        PassKeepsSafe(p, s, k, [], true);
        RunSafe(p, Pass(s, k), after);
        OthersStay(Pass(s, k), after);
      case Interrupted(steps) => RunSafe(p, s, steps);
    }
  }

  lemma PassLeaves(p: Policy, s: State, k: ResourceRef, uid: nat, spec: Spec)
    requires Safe(p, s) && s.cw == Idle
    requires Leaving(s.store, k, uid, spec) || Freed(s.store, k, uid)
    ensures Coherent(Pass(s, k))
    ensures Leaving(Pass(s, k).store, k, uid, spec) || Freed(Pass(s, k).store, k, uid)
    ensures Freed(s.store, k, uid) ==> Freed(Pass(s, k).store, k, uid)
  {
    PassIsRun(p, s, k, [], true);
    var run :| AllowedRun(p, s, run) && Exec(s, run) == Pass(s, k);
    RunLeaves(s, run, k, uid, spec);
    RunCoherent(s, run);
  }

  lemma RoundLeaves(p: Policy, s: State, k: ResourceRef, uid: nat, spec: Spec, round: Round)
    requires Safe(p, s) && s.cw == Idle && MayPlay(p, s, k, round)
    requires Leaving(s.store, k, uid, spec) || Freed(s.store, k, uid)
    ensures var t := Play(s, k, round).store;
      && (Leaving(t, k, uid, spec) || Freed(t, k, uid))
      && (Freed(s.store, k, uid) ==> Freed(t, k, uid))
  {
    match round {
      case Whole(after) =>
        PassLeaves(p, s, k, uid, spec);
        RunLeaves(Pass(s, k), after, k, uid, spec);
      case Interrupted(steps) => RunLeaves(s, steps, k, uid, spec);
    }
  }

  /** A whole pass frees the cluster, and its database, exactly when no tasks hold it. */
  lemma WholeRound(p: Policy, s: State, k: ResourceRef, uid: nat, spec: Spec, after: seq<Action>)
    requires Sound(p) && Safe(p, s) && s.cw == Idle && MayPlay(p, s, k, Whole(after))
    requires Leaving(s.store, k, uid, spec)
    ensures Leaving(Play(s, k, Whole(after)).store, k, uid, spec)
      <==> k in s.store.deployed && TasksRemain(s.store, spec.schema)
    ensures !(k in s.store.deployed && TasksRemain(s.store, spec.schema))
      ==> Released(Pass(s, k).store, k, ServerOf(k, spec))
  {
    assert Draining(s, k, spec.schema);
    PassLeaves(p, s, k, uid, spec);
    if k in s.store.deployed && TasksRemain(s.store, spec.schema) {
      PassWaits(p, s, k, spec.schema);
      OthersLeave(Pass(s, k), after, k, uid, spec);
    } else {
      PassReleases(p, s, k, spec.schema);
      RunLeaves(Pass(s, k), after, k, uid, spec);
    }
  }

  lemma {:induction false} FreedForGood(
      p: Policy, s: State, k: ResourceRef, uid: nat, spec: Spec, rounds: seq<Round>)
    requires Sound(p) && Safe(p, s) && s.cw == Idle
    requires Freed(s.store, k, uid) && Eases(p, s, k, uid, spec, rounds)
    ensures Freed(AfterRounds(s, k, rounds).store, k, uid)
    decreases |rounds|
  {
    if rounds != [] {
      RoundSafe(p, s, k, rounds[0]);
      RoundLeaves(p, s, k, uid, spec, rounds[0]);
      FreedForGood(p, Play(s, k, rounds[0]), k, uid, spec, rounds[1..]);
    }
  }

  lemma FirstRound(s: State, k: ResourceRef, rounds: seq<Round>, n: nat)
    requires n < |rounds|
    ensures AfterRounds(s, k, rounds[..n + 1]) == AfterRounds(Play(s, k, rounds[0]), k, rounds[1..][..n])
    ensures Interruptions(rounds[..n + 1])
      == (if rounds[0].Interrupted? then 1 else 0) + Interruptions(rounds[1..][..n])
  {
    assert rounds[..n + 1][0] == rounds[0] && rounds[..n + 1][1..] == rounds[1..][..n];
  }

  /** One round brings the cluster out, or costs a task or an interruption. */
  lemma RoundOutcome(p: Policy, s: State, k: ResourceRef, uid: nat, spec: Spec, rounds: seq<Round>)
    requires Sound(p) && Safe(p, s) && s.cw == Idle && Leaving(s.store, k, uid, spec)
    requires rounds != [] && Eases(p, s, k, uid, spec, rounds)
    ensures var t := Play(s, k, rounds[0]);
      && Safe(p, t) && t.cw == Idle
      && (Leaving(t.store, k, uid, spec) || Freed(t.store, k, uid))
      && (Leaving(t.store, k, uid, spec) ==>
            Load(t.store, spec.schema) + (if rounds[0].Whole? then 1 else 0) <= Load(s.store, spec.schema))
      && (!Leaving(t.store, k, uid, spec) && rounds[0].Whole? ==> Released(Pass(s, k).store, k, ServerOf(k, spec)))
  {
    RoundSafe(p, s, k, rounds[0]);
    RoundLeaves(p, s, k, uid, spec, rounds[0]);
    if rounds[0].Whole? {
      WholeRound(p, s, k, uid, spec, rounds[0].after);
    }
  }

  /**
   A deletion completes within as many rounds as there are tasks, one more, and one more for each interrupted
   pass. Round `n` is the one in which the cluster stops waiting, for good, and if a whole pass does it, both
   finalizers go.
   */
  lemma {:induction false} DrainCompletes(
      p: Policy, s: State, k: ResourceRef, uid: nat, spec: Spec, rounds: seq<Round>) returns (n: nat)
    requires Sound(p) && Safe(p, s) && s.cw == Idle && Leaving(s.store, k, uid, spec)
    requires Eases(p, s, k, uid, spec, rounds)
    requires |rounds| > Load(s.store, spec.schema) + Interruptions(rounds)
    ensures n < |rounds| && n <= Load(s.store, spec.schema) + Interruptions(rounds[..n])
    ensures Leaving(AfterRounds(s, k, rounds[..n]).store, k, uid, spec)
    ensures Freed(AfterRounds(s, k, rounds[..n + 1]).store, k, uid)
    ensures Freed(AfterRounds(s, k, rounds).store, k, uid)
    ensures rounds[n].Whole? ==> Released(Pass(AfterRounds(s, k, rounds[..n]), k).store, k, ServerOf(k, spec))
    decreases |rounds|
  {
    var t := Play(s, k, rounds[0]);
    RoundOutcome(p, s, k, uid, spec, rounds);
    if Leaving(t.store, k, uid, spec) {
      n := DrainCompletes(p, t, k, uid, spec, rounds[1..]);
      FirstRound(s, k, rounds, n);
      FirstRound(s, k, rounds, n + 1);
      assert rounds[1..][n] == rounds[n + 1];
      n := n + 1;
    } else {
      n := 0;
      FirstRound(s, k, rounds, 0);
      FreedForGood(p, t, k, uid, spec, rounds[1..]);
    }
  }
}
