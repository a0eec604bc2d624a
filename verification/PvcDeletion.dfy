/** Deletion of the volume claims of nodes that a scale-down removes. */
module PvcDeletion {
  import opened Resources
  import opened Naming

  datatype DeletePolicy = Keep | ScaledownOnly | ScaledownAndClusterDeletion

  const MAX_INT32 := 0x7fff_ffff

  newtype int32 = x: int | -0x8000_0000 <= x <= 0x7fff_ffff

  /** The NodeSet `nodeSet` goes from `oldCount` observed replicas to `newCount`. */
  datatype Scaling = Scaling(nodeSet: string, oldCount: nat, newCount: nat)

  function PvcKey(cluster: ResourceRef, nodeSet: string, ordinal: nat): ResourceRef {
    ResourceRef(PvcName(cluster.name, nodeSet, ordinal), cluster.namespace)
  }

  /** The claims that a scaling targets, in the order of the loop. */
  function Targets(cluster: string, policy: DeletePolicy, s: Scaling): seq<string> {
    if policy.Keep? || s.oldCount <= s.newCount then []
    else
      var n := s.oldCount - s.newCount;
      seq(n, i requires 0 <= i < n => PvcName(cluster, s.nodeSet, s.newCount + i))
  }

  /**
   Claim `o` of NodeSet `nodeSet` is targeted exactly when that very NodeSet drops below it, under a scale-down
   policy.
   */
  lemma TargetsExactly(cluster: string, policy: DeletePolicy, s: Scaling, nodeSet: string, o: nat)
    ensures PvcName(cluster, nodeSet, o) in Targets(cluster, policy, s)
      <==> !policy.Keep? && s.nodeSet == nodeSet && s.newCount <= o < s.oldCount
  {
    var targets := Targets(cluster, policy, s);
    if PvcName(cluster, nodeSet, o) in targets {
      var i :| 0 <= i < |targets| && targets[i] == PvcName(cluster, nodeSet, o);
      PvcNameInjective(cluster, nodeSet, o, s.nodeSet, s.newCount + i);
    }
    if !policy.Keep? && s.nodeSet == nodeSet && s.newCount <= o < s.oldCount {
      assert targets[o - s.newCount] == PvcName(cluster, nodeSet, o);
    }
  }

  /** No claim is targeted twice. */
  lemma TargetsOnce(cluster: string, policy: DeletePolicy, s: Scaling, i: nat, j: nat)
    requires i < j < |Targets(cluster, policy, s)|
    ensures Targets(cluster, policy, s)[i] != Targets(cluster, policy, s)[j]
  {
    if Targets(cluster, policy, s)[i] == Targets(cluster, policy, s)[j] {
      PvcNameInjective(cluster, s.nodeSet, s.newCount + i, s.nodeSet, s.newCount + j);
    }
  }

  /** The claims left when those targeted in one namespace are deleted, except where deletion is refused. */
  function Without(claims: Labelled, refused: set<ResourceRef>, namespace: string, targets: seq<string>): Labelled {
    map c | c in claims && !(c.namespace == namespace && c.name in targets && c !in refused) :: claims[c]
  }

  /** The claims left after a sequence of scalings; every targeted claim that can be deleted is. */
  function AfterScalings(
      cluster: ResourceRef, policy: DeletePolicy, claims: Labelled, refused: set<ResourceRef>, scalings: seq<Scaling>)
    : Labelled
    decreases |scalings|
  {
    if scalings == [] then claims
    else
      var left := Without(claims, refused, cluster.namespace, Targets(cluster.name, policy, scalings[0]));
      AfterScalings(cluster, policy, left, refused, scalings[1..])
  }

  /**
   A claim outlives any sequence of scalings, of its own and of other NodeSets, that keeps its ordinal below
   the desired count.
   */
  lemma {:induction false} DesiredClaimsSurvive(
      cluster: ResourceRef, policy: DeletePolicy, claims: Labelled, refused: set<ResourceRef>, scalings: seq<Scaling>,
      nodeSet: string, o: nat)
    requires PvcKey(cluster, nodeSet, o) in claims
    requires forall s :: s in scalings && s.nodeSet == nodeSet ==> o < s.newCount
    ensures PvcKey(cluster, nodeSet, o) in AfterScalings(cluster, policy, claims, refused, scalings)
    decreases |scalings|
  {
    if scalings != [] {
      assert scalings[0] in scalings;
      TargetsExactly(cluster.name, policy, scalings[0], nodeSet, o);
      var left := Without(claims, refused, cluster.namespace, Targets(cluster.name, policy, scalings[0]));
      DesiredClaimsSurvive(cluster, policy, left, refused, scalings[1..], nodeSet, o);
    }
  }

  // ---------- The loop in 32 bits ----------

  /** An increment that wraps around. */
  function Next(x: int32): int32 {
    if x == 0x7fff_ffff then -0x8000_0000 else x + 1
  }

  /** The loop variable after `n` iterations from `start`. */
  function Counter(start: int32, n: nat): int32 {
    if n == 0 then start else Next(Counter(start, n - 1))
  }

  lemma {:induction false} CounterClimbs(start: int32, n: nat)
    requires start as int + n <= MAX_INT32
    ensures Counter(start, n) as int == start as int + n
  {
    if n > 0 {
      CounterClimbs(start, n - 1);
    }
  }

  /**
   The guard `podOrdinal <= oldReplicaCount` fails at some point exactly when the old count is not the greatest
   32-bit value.
   */
  lemma LoopEndsExactly(start: int32, oldCount: int32)
    ensures (exists n: nat :: Counter(start, n) > oldCount) <==> oldCount < 0x7fff_ffff
  {
    if oldCount < 0x7fff_ffff {
      if start > oldCount {
        assert Counter(start, 0) > oldCount;
      } else {
        var n := oldCount as int - start as int + 1;
        CounterClimbs(start, n);
        assert Counter(start, n) > oldCount;
      }
    }
  }

  lemma {:induction false} CounterWraps(start: int32, n: nat)
    requires MAX_INT32 < start as int + n <= MAX_INT32 + 0x1_0000_0000
    ensures Counter(start, n) as int == start as int + n - 0x1_0000_0000
  {
    if start as int + n == MAX_INT32 + 1 {
      CounterClimbs(start, n - 1);
    } else {
      CounterWraps(start, n - 1);
    }
  }

  function Before(x: int32): int32 {
    if x == -0x8000_0000 then 0x7fff_ffff else x - 1
  }

  /** The ordinal in the name that iteration `i` looks for. */
  function Ordinal(newCount: int32, i: nat): int32 {
    Before(Counter(Next(newCount), i))
  }

  /** The name that is looked for; a counter that has wrapped around shows its sign. */
  function ClaimName(cluster: string, nodeSet: string, ordinal: int32): string {
    if ordinal >= 0 then PvcName(cluster, nodeSet, ordinal as nat)
    else "data-" + NodeSetName(cluster, nodeSet) + "--" + Decimal((-(ordinal as int)) as nat)
  }

  predicate ScalesDown(policy: DeletePolicy, oldCount: int32, newCount: int32) {
    oldCount > newCount && !policy.Keep?
  }

  /** How many iterations the loop makes when it is stopped after at most `limit`. */
  function Iterations(policy: DeletePolicy, oldCount: int32, newCount: int32, limit: nat): nat {
    if !ScalesDown(policy, oldCount, newCount) then 0
    else if oldCount as int == MAX_INT32 || limit <= oldCount as int - newCount as int then limit
    else oldCount as int - newCount as int
  }

  /** The names that these iterations look for. */
  function Visited(
      cluster: string, policy: DeletePolicy, nodeSet: string, oldCount: int32, newCount: int32, limit: nat): seq<string>
  {
    seq(Iterations(policy, oldCount, newCount, limit),
        i requires 0 <= i => ClaimName(cluster, nodeSet, Ordinal(newCount, i)))
  }

  /** Below the greatest count, the loop looks for exactly the claims that the scaling drops. */
  lemma VisitedExactly(
      cluster: string, policy: DeletePolicy, nodeSet: string, oldCount: int32, newCount: int32, limit: nat)
    requires 0 <= newCount && 0 <= oldCount < 0x7fff_ffff && limit >= oldCount as nat
    ensures Visited(cluster, policy, nodeSet, oldCount, newCount, limit)
      == Targets(cluster, policy, Scaling(nodeSet, oldCount as nat, newCount as nat))
  {
    if ScalesDown(policy, oldCount, newCount) {
      forall i: nat | i < oldCount as int - newCount as int
        ensures Ordinal(newCount, i) as int == newCount as int + i
      {
        CounterClimbs(Next(newCount), i);
      }
    }
  }

  /**
   A claim below the desired count is looked for, if the loop is let run long enough, exactly if the old count is
   the greatest 32-bit value: the counter then comes round again.
   */
  lemma DesiredClaimVisitedExactly(
      cluster: string, policy: DeletePolicy, nodeSet: string, oldCount: int32, newCount: int32, o: int32)
    requires ScalesDown(policy, oldCount, newCount) && 0 <= o < newCount
    ensures (exists limit: nat :: PvcName(cluster, nodeSet, o as nat)
               in Visited(cluster, policy, nodeSet, oldCount, newCount, limit)) <==> oldCount == 0x7fff_ffff
  {
    if oldCount == 0x7fff_ffff {
      var i := 0x1_0000_0000 + o as int - newCount as int;
      CounterWraps(Next(newCount), i);
      assert Ordinal(newCount, i) == o;
      var visited := Visited(cluster, policy, nodeSet, oldCount, newCount, i + 1);
      assert visited[i] == PvcName(cluster, nodeSet, o as nat);
    } else {
      forall limit: nat
        ensures PvcName(cluster, nodeSet, o as nat) !in Visited(cluster, policy, nodeSet, oldCount, newCount, limit)
      {
        VisitedAreDropped(cluster, policy, nodeSet, oldCount, newCount, limit, nodeSet, o as nat);
      }
    }
  }

  /** Short of the greatest count, no claim of another NodeSet or below the desired count is looked for. */
  lemma VisitedAreDropped(
      cluster: string, policy: DeletePolicy, nodeSet: string, oldCount: int32, newCount: int32, limit: nat,
      other: string, o: nat)
    requires oldCount < 0x7fff_ffff && 0 <= newCount && (other == nodeSet ==> o < newCount as nat)
    ensures PvcName(cluster, other, o) !in Visited(cluster, policy, nodeSet, oldCount, newCount, limit)
  {
    var visited := Visited(cluster, policy, nodeSet, oldCount, newCount, limit);
    forall i: nat | i < |visited|
      ensures visited[i] != PvcName(cluster, other, o)
    {
      CounterClimbs(Next(newCount), i);
      if visited[i] == PvcName(cluster, other, o) {
        PvcNameInjective(cluster, nodeSet, newCount as nat + i, other, o);
      }
    }
  }

  /** The loop goes on exactly up to that many iterations. */
  lemma LoopGoesOn(policy: DeletePolicy, oldCount: int32, newCount: int32, limit: nat, n: nat)
    requires ScalesDown(policy, oldCount, newCount)
    requires n <= Iterations(policy, oldCount, newCount, limit)
    ensures Counter(Next(newCount), n) <= oldCount && n < limit <==> n < Iterations(policy, oldCount, newCount, limit)
  {
    if oldCount < 0x7fff_ffff {
      CounterClimbs(Next(newCount), n);
    }
  }

  /** What one iteration adds. */
  lemma VisitedStep(
      cluster: string, policy: DeletePolicy, nodeSet: string, oldCount: int32, newCount: int32, limit: nat, n: nat)
    requires n < Iterations(policy, oldCount, newCount, limit)
    ensures Visited(cluster, policy, nodeSet, oldCount, newCount, n + 1)
      == Visited(cluster, policy, nodeSet, oldCount, newCount, n)
         + [ClaimName(cluster, nodeSet, Before(Counter(Next(newCount), n)))]
  {
  }

  /** A loop stopped where it would end anyway makes the same iterations. */
  lemma IterationsAre(
      cluster: string, policy: DeletePolicy, nodeSet: string, oldCount: int32, newCount: int32, limit: nat)
    ensures Visited(cluster, policy, nodeSet, oldCount, newCount, Iterations(policy, oldCount, newCount, limit))
      == Visited(cluster, policy, nodeSet, oldCount, newCount, limit)
  {
  }

  /** Then its guard fails exactly if it was not stopped before. */
  lemma LoopStops(policy: DeletePolicy, oldCount: int32, newCount: int32, limit: nat)
    requires ScalesDown(policy, oldCount, newCount)
    ensures Counter(Next(newCount), Iterations(policy, oldCount, newCount, limit)) > oldCount
      <==> oldCount < 0x7fff_ffff && limit >= oldCount as int - newCount as int
  {
    if oldCount < 0x7fff_ffff {
      CounterClimbs(Next(newCount), Iterations(policy, oldCount, newCount, limit));
    }
  }

  lemma WithoutStep(
      claims: Labelled, refused: set<ResourceRef>, namespace: string, targets: seq<string>, name: string)
    ensures var key := ResourceRef(name, namespace);
      Without(claims, refused, namespace, targets + [name])
      == Without(claims, refused, namespace, targets) - (if key in refused then {} else {key})
  {
  }
}
