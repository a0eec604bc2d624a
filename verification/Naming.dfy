/** Names and labels derived from a StroomCluster (api/v1/stroomcluster_types.go). */
module Naming {

  const PROCESSING_ROLE := "Processing"
  const FRONTEND_ROLE := "Frontend"

  const CLUSTER_LABEL := "stroom/cluster"
  const NODE_SET_LABEL := "stroom/nodeSet"
  const NAME_LABEL := "app.kubernetes.io/name"
  const COMPONENT_LABEL := "app.kubernetes.io/component"

  function BaseName(cluster: string): string {
    "stroom-" + cluster
  }

  function NodeSetName(cluster: string, nodeSet: string): string {
    BaseName(cluster) + "-node-" + nodeSet
  }

  function NodeSetServiceName(cluster: string, nodeSet: string): string {
    NodeSetName(cluster, nodeSet) + "-http"
  }

  function Labels(cluster: string): map<string, string> {
    map[NAME_LABEL := "stroom", COMPONENT_LABEL := "stroom-cluster", CLUSTER_LABEL := cluster]
  }

  lemma LabelsDiffer()
    ensures NAME_LABEL != COMPONENT_LABEL && NAME_LABEL != CLUSTER_LABEL && COMPONENT_LABEL != CLUSTER_LABEL
    ensures NODE_SET_LABEL != NAME_LABEL && NODE_SET_LABEL != COMPONENT_LABEL && NODE_SET_LABEL != CLUSTER_LABEL
  {
    assert |NAME_LABEL| == 22 && |COMPONENT_LABEL| == 27 && |CLUSTER_LABEL| == 14 && |NODE_SET_LABEL| == 14;
    assert CLUSTER_LABEL[7] == 'c' && NODE_SET_LABEL[7] == 'n';
  }

  // ---------- Ordinals in decimal ----------

  function Digit(n: nat): char
    requires n < 10
  {
    ('0' as int + n) as char
  }

  function Decimal(n: nat): string {
    if n < 10 then [Digit(n)] else Decimal(n / 10) + [Digit(n % 10)]
  }

  predicate IsDigit(c: char) {
    '0' <= c <= '9'
  }

  /** The number that a string of digits denotes. */
  function ValueOf(s: string): nat
    requires forall i :: 0 <= i < |s| ==> IsDigit(s[i])
  {
    if s == [] then 0
    else
      assert IsDigit(s[|s| - 1]);
      10 * ValueOf(s[..|s| - 1]) + (s[|s| - 1] as int - '0' as int)
  }

  /** Ordinals are written in decimal digits that denote them, without a leading zero. */
  lemma {:induction false} DecimalDenotes(n: nat)
    ensures forall i :: 0 <= i < |Decimal(n)| ==> IsDigit(Decimal(n)[i])
    ensures ValueOf(Decimal(n)) == n
    ensures Decimal(n) != [] && (n > 0 ==> Decimal(n)[0] != '0') && (n == 0 ==> Decimal(n) == "0")
  {
    if n < 10 {
      assert Decimal(n)[..0] == [];
    } else {
      DecimalDenotes(n / 10);
      assert Decimal(n)[..|Decimal(n)| - 1] == Decimal(n / 10);
    }
  }

  lemma {:induction false} DecimalHasNoDash(n: nat)
    ensures '-' !in Decimal(n)
  {
    if n >= 10 {
      DecimalHasNoDash(n / 10);
    }
  }

  lemma {:induction false} DecimalInjective(a: nat, b: nat)
    requires Decimal(a) == Decimal(b)
    ensures a == b
  {
    var s, t := Decimal(a), Decimal(b);
    assert s[|s| - 1] == Digit(a % 10) && t[|t| - 1] == Digit(b % 10);
    DecimalNonEmpty(a / 10);
    DecimalNonEmpty(b / 10);
    if a >= 10 && b >= 10 {
      assert s[..|s| - 1] == Decimal(a / 10) && t[..|t| - 1] == Decimal(b / 10);
      DecimalInjective(a / 10, b / 10);
    }
  }

  lemma DecimalNonEmpty(n: nat)
    ensures |Decimal(n)| >= 1
  {
  }

  /** The name of a pod, which is also the name of its Stroom node. */
  function PodName(cluster: string, nodeSet: string, ordinal: nat): string {
    NodeSetName(cluster, nodeSet) + "-" + Decimal(ordinal)
  }

  /** `node_name like '<base name>%'` covers every node of the cluster. */
  lemma NodesStartWithBaseName(cluster: string, nodeSet: string, ordinal: nat)
    ensures BaseName(cluster) <= PodName(cluster, nodeSet, ordinal)
  {
    assert PodName(cluster, nodeSet, ordinal) == BaseName(cluster) + ("-node-" + nodeSet + "-" + Decimal(ordinal));
  }

  /** What follows the cluster's name in the name of a node. */
  function NodeSuffix(nodeSet: string, ordinal: nat): string {
    "-node-" + nodeSet + "-" + Decimal(ordinal)
  }

  /** `a` extends `b` by a beginning of `suffix`. */
  predicate ExtendsInto(a: string, b: string, suffix: string) {
    b <= a && a[|b|..] <= suffix
  }

  lemma PrefixOfJoin(a: string, b: string, suffix: string)
    ensures a <= b + suffix <==> a <= b || ExtendsInto(a, b, suffix)
  {
    var all := b + suffix;
    if a <= all && |a| > |b| {
      assert a[..|b|] == all[..|b|] == b && a[|b|..] == all[|b|..|a|] == suffix[..|a| - |b|];
    }
    if ExtendsInto(a, b, suffix) {
      assert a == b + a[|b|..];
    }
  }

  lemma SharedFront(front: string, a: string, b: string)
    ensures front + a <= front + b <==> a <= b
  {
    if front + a <= front + b {
      assert (front + a)[|front|..] == a && (front + b)[|front|..|front| + |a|] == b[..|a|];
    }
  }

  /**
   The pattern of cluster `a` matches a node of cluster `b` exactly if its name begins `b`, or continues `b` into
   the suffix that every node name has.
   */
  lemma PatternMatchesExactly(a: string, b: string, nodeSet: string, ordinal: nat)
    ensures BaseName(a) <= PodName(b, nodeSet, ordinal)
      <==> a <= b || ExtendsInto(a, b, NodeSuffix(nodeSet, ordinal))
  {
    assert PodName(b, nodeSet, ordinal) == "stroom-" + (b + NodeSuffix(nodeSet, ordinal));
    SharedFront("stroom-", a, b + NodeSuffix(nodeSet, ordinal));
    PrefixOfJoin(a, b, NodeSuffix(nodeSet, ordinal));
  }

  /** It covers every node that cluster `b` may have exactly if it does not get beyond what all of them share. */
  lemma PatternCoversExactly(a: string, b: string)
    ensures (forall nodeSet, ordinal :: BaseName(a) <= PodName(b, nodeSet, ordinal)) <==> a <= b + "-node-"
  {
    forall nodeSet: string, ordinal: nat
      ensures PodName(b, nodeSet, ordinal) == "stroom-" + (b + "-node-" + (nodeSet + "-" + Decimal(ordinal)))
      ensures a <= b + "-node-" ==> BaseName(a) <= PodName(b, nodeSet, ordinal)
    {
      assert PodName(b, nodeSet, ordinal) == "stroom-" + (b + "-node-" + (nodeSet + "-" + Decimal(ordinal)));
      if a <= b + "-node-" {
        SharedFront("stroom-", a, b + "-node-" + (nodeSet + "-" + Decimal(ordinal)));
      }
    }
    if BaseName(a) <= PodName(b, "x", 0) && BaseName(a) <= PodName(b, "y", 0) {
      var shared := b + "-node-";
      SharedFront("stroom-", a, shared + ("x" + "-" + Decimal(0)));
      SharedFront("stroom-", a, shared + ("y" + "-" + Decimal(0)));
      assert (shared + ("x" + "-" + Decimal(0)))[|shared|] == 'x';
      assert (shared + ("y" + "-" + Decimal(0)))[|shared|] == 'y';
      assert a <= shared;
    }
  }

  function PvcName(cluster: string, nodeSet: string, ordinal: nat): string {
    "data-" + PodName(cluster, nodeSet, ordinal)
  }

  lemma LongerFront(a: string, d: string, b: string, e: string)
    requires a + "-" + d == b + "-" + e && |a| < |b|
    ensures '-' in d
  {
    var s, t := a + "-" + d, b + "-" + e;
    assert t[|b|] == '-' && s[|b|] == d[|b| - |a| - 1];
  }

  /** What follows the last dash is determined, and so is what precedes it. */
  lemma LastDash(a: string, d: string, b: string, e: string)
    requires '-' !in d && '-' !in e && a + "-" + d == b + "-" + e
    ensures a == b && d == e
  {
    if |a| < |b| {
      LongerFront(a, d, b, e);
    } else if |b| < |a| {
      LongerFront(b, e, a, d);
    } else {
      var s, t := a + "-" + d, b + "-" + e;
      assert s[..|a|] == a && t[..|b|] == b && s[|a| + 1..] == d && t[|b| + 1..] == e;
    }
  }

  /**
   Within a cluster, a claim's name determines its NodeSet and its ordinal, dashes and digits in NodeSet names
   notwithstanding.
   */
  lemma PvcNameInjective(cluster: string, n1: string, o1: nat, n2: string, o2: nat)
    requires PvcName(cluster, n1, o1) == PvcName(cluster, n2, o2)
    ensures n1 == n2 && o1 == o2
  {
    var prefix := "data-" + BaseName(cluster) + "-node-";
    assert PvcName(cluster, n1, o1) == (prefix + n1) + "-" + Decimal(o1);
    assert PvcName(cluster, n2, o2) == (prefix + n2) + "-" + Decimal(o2);
    DecimalHasNoDash(o1);
    DecimalHasNoDash(o2);
    LastDash(prefix + n1, Decimal(o1), prefix + n2, Decimal(o2));
    assert (prefix + n1)[|prefix|..] == n1 && (prefix + n2)[|prefix|..] == n2;
    DecimalInjective(o1, o2);
  }
}
