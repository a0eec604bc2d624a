/** What whole passes leave of StatefulSets, volume claims and ingresses, object by object. */
module PassEffects {
  import opened Resources
  import opened Naming
  import opened Outcomes
  import opened PvcDeletion
  import opened Ingresses
  import opened Cleanup
  import opened ClusterObjects

  // ---------- Names ----------

  /** A cluster's objects, by the names that users know them under. */
  lemma NamesSpelled(c: ClusterSpec, n: NodeSet, o: nat)
    ensures AccountKey(c) == ResourceRef("stroom-" + c.name, c.namespace)
    ensures ConfigMaps(c)
      == {ObjectKey("ConfigMap", c.namespace, "stroom-" + c.name + "-static-content")}
         + if c.logSender then {ObjectKey("ConfigMap", c.namespace, "stroom-" + c.name + "-log-sender")} else {}
    ensures StatefulSetKey(c, n) == ResourceRef("stroom-" + c.name + "-node-" + n.name, c.namespace)
    ensures Services(c, n)
      == {ObjectKey("Service", c.namespace, "stroom-" + c.name + "-node-" + n.name),
          ObjectKey("Service", c.namespace, "stroom-" + c.name + "-node-" + n.name + "-http")}
    ensures PodName(c.name, n.name, o) == "stroom-" + c.name + "-node-" + n.name + "-" + Decimal(o)
    ensures PvcName(c.name, n.name, o) == "data-stroom-" + c.name + "-node-" + n.name + "-" + Decimal(o)
    ensures PvcLabels(c.name, n.name)
      == map["app.kubernetes.io/name" := "stroom", "app.kubernetes.io/component" := "stroom-cluster",
             "stroom/cluster" := c.name, "stroom/nodeSet" := n.name]
  {
  }

  // ---------- StatefulSets ----------

  /** The StatefulSet of a NodeSet. */
  function SetKey(c: ClusterSpec, nodeSet: string): ResourceRef {
    ResourceRef("stroom-" + c.name + "-node-" + nodeSet, c.namespace)
  }

  lemma SetKeysDiffer(c: ClusterSpec, a: string, b: string)
    ensures SetKey(c, a) == SetKey(c, b) <==> a == b
  {
    var front := "stroom-" + c.name + "-node-";
    assert SetKey(c, a).name[|front|..] == a && SetKey(c, b).name[|front|..] == b;
  }

  /** What the API server stores of a template. */
  function Admitted(admission: Admission, template: string): string {
    if template in admission.defaults then admission.defaults[template] else template
  }

  /** The last NodeSet of its name among the first `n`. */
  predicate IsLastOf(c: ClusterSpec, n: nat, i: nat)
    requires i < n <= |c.nodeSets|
  {
    forall j :: i < j < n ==> c.nodeSets[j].name != c.nodeSets[i].name
  }

  /** One NodeSet writes its own StatefulSet, which goes on reporting what it did, and no other. */
  lemma NodeSetWrites(w: Workload, admission: Admission, c: ClusterSpec, n: NodeSet, limit: nat, key: ResourceRef)
    ensures var sets := WithNodeSet(w, admission, c, n, limit).statefulSets;
      && (key == SetKey(c, n.name) ==>
            key in sets
            && sets[key]
               == StatefulSet(c.name, n.count, Admitted(admission, n.template), Reported(w.statefulSets, key)))
      && (key != SetKey(c, n.name) ==> Same(w.statefulSets, sets, key))
  {
    assert StatefulSetKey(c, n) == SetKey(c, n.name);
  }

  /** The replicas that a StatefulSet reports; a new one reports none. */
  function Reported(sets: StatefulSets, key: ResourceRef): int32 {
    if key in sets then sets[key].observed else 0
  }

  predicate Same(before: StatefulSets, after: StatefulSets, key: ResourceRef) {
    (key in after <==> key in before) && (key in after ==> after[key] == before[key])
  }

  lemma {:induction false} ReportsStay(
      w: Workload, admission: Admission, c: ClusterSpec, limit: nat, n: nat, key: ResourceRef)
    requires n <= |c.nodeSets|
    ensures Reported(WithNodeSets(w, admission, c, c.nodeSets[..n], limit).statefulSets, key)
      == Reported(w.statefulSets, key)
  {
    if n > 0 {
      ReportsStay(w, admission, c, limit, n - 1, key);
      assert c.nodeSets[..n][..n - 1] == c.nodeSets[..n - 1];
      NodeSetWrites(
        WithNodeSets(w, admission, c, c.nodeSets[..n - 1], limit), admission, c, c.nodeSets[n - 1], limit, key);
    }
  }

  /** Those that none of the first `n` NodeSets names are not touched. */
  lemma {:induction false} OtherSetsStay(
      w: Workload, admission: Admission, c: ClusterSpec, limit: nat, n: nat, key: ResourceRef)
    requires n <= |c.nodeSets| && forall i :: 0 <= i < n ==> key != SetKey(c, c.nodeSets[i].name)
    ensures Same(w.statefulSets, WithNodeSets(w, admission, c, c.nodeSets[..n], limit).statefulSets, key)
  {
    if n > 0 {
      OtherSetsStay(w, admission, c, limit, n - 1, key);
      assert c.nodeSets[..n][..n - 1] == c.nodeSets[..n - 1];
      NodeSetWrites(
        WithNodeSets(w, admission, c, c.nodeSets[..n - 1], limit), admission, c, c.nodeSets[n - 1], limit, key);
    }
  }

  /** The last NodeSet of a name has the last word on its StatefulSet. */
  lemma {:induction false} LastNodeSetWrites(
      w: Workload, admission: Admission, c: ClusterSpec, limit: nat, n: nat, i: nat)
    requires i < n <= |c.nodeSets| && IsLastOf(c, n, i)
    ensures var m, key := c.nodeSets[i], SetKey(c, c.nodeSets[i].name);
      var sets := WithNodeSets(w, admission, c, c.nodeSets[..n], limit).statefulSets;
      && key in sets
      && sets[key] == StatefulSet(c.name, m.count, Admitted(admission, m.template), Reported(w.statefulSets, key))
  {
    var last, key := c.nodeSets[n - 1], SetKey(c, c.nodeSets[i].name);
    var before := WithNodeSets(w, admission, c, c.nodeSets[..n - 1], limit);
    assert c.nodeSets[..n][..n - 1] == c.nodeSets[..n - 1];
    NodeSetWrites(before, admission, c, last, limit, key);
    if i == n - 1 {
      ReportsStay(w, admission, c, limit, n - 1, key);
    } else {
      SetKeysDiffer(c, last.name, c.nodeSets[i].name);
      LastNodeSetWrites(w, admission, c, limit, n - 1, i);
    }
  }

  // ---------- Volume claims dropped by a scale-down ----------

  /** No two NodeSets share a name, and counts are such that every loop ends. */
  predicate Regular(sets: StatefulSets, c: ClusterSpec, limit: nat) {
    && (forall i, j :: 0 <= i < j < |c.nodeSets| ==> c.nodeSets[i].name != c.nodeSets[j].name)
    && (forall i :: 0 <= i < |c.nodeSets| ==> c.nodeSets[i].count >= 0)
    && (forall key :: key in sets ==> sets[key].observed < 0x7fff_ffff)
    && limit >= 0x7fff_ffff
  }

  /** NodeSet `i` drops ordinal `o`: it is stored otherwise than specified, and reports more replicas than that. */
  predicate Drops(sets: StatefulSets, c: ClusterSpec, i: nat, o: nat)
    requires i < |c.nodeSets|
  {
    var n, key := c.nodeSets[i], SetKey(c, c.nodeSets[i].name);
    && key in sets && StatefulSet(c.name, n.count, n.template, sets[key].observed) != sets[key]
    && n.count as int <= o < sets[key].observed as int
    && (c.claimPolicy == ScaledownOnly || c.claimPolicy == ScaledownAndClusterDeletion)
  }

  /** The names that applying one NodeSet targets. */
  lemma TargetsDropped(sets: StatefulSets, c: ClusterSpec, n: NodeSet, limit: nat, nodeSet: string, o: nat)
    requires limit >= 0x7fff_ffff && n.count >= 0
    requires forall key :: key in sets ==> sets[key].observed < 0x7fff_ffff
    ensures var observed := Observed(sets, StatefulSetKey(c, n));
      PvcName(c.name, nodeSet, o) in Visited(c.name, c.claimPolicy, n.name, observed, n.count, limit)
      <==> c.claimPolicy != Keep && n.name == nodeSet && n.count as int <= o < observed as int
  {
    var observed := Observed(sets, StatefulSetKey(c, n));
    if ScalesDown(c.claimPolicy, observed, n.count) {
      VisitedExactly(c.name, c.claimPolicy, n.name, observed, n.count, limit);
      TargetsExactly(c.name, c.claimPolicy, Scaling(n.name, observed as nat, n.count as nat), nodeSet, o);
    }
  }

  /**
   Over a pass that applies the first `n` NodeSets, the claim for ordinal `o` of a NodeSet goes exactly if that NodeSet
   is among them and drops it and its deletion is not refused.
   */
  lemma {:induction false} ClaimsDroppedExactly(
      w: Workload, admission: Admission, c: ClusterSpec, limit: nat, n: nat, nodeSet: string, o: nat)
    requires n <= |c.nodeSets| && Regular(w.statefulSets, c, limit)
    requires PvcKey(ClusterKey(c), nodeSet, o) in w.pvcs
    ensures PvcKey(ClusterKey(c), nodeSet, o) in WithNodeSets(w, admission, c, c.nodeSets[..n], limit).pvcs
      <==> PvcKey(ClusterKey(c), nodeSet, o) in admission.refused
           || !(exists i :: 0 <= i < n && c.nodeSets[i].name == nodeSet && Drops(w.statefulSets, c, i, o))
  {
    if n > 0 {
      ClaimsDroppedExactly(w, admission, c, limit, n - 1, nodeSet, o);
      var last, front := c.nodeSets[n - 1], c.nodeSets[..n - 1];
      assert c.nodeSets[..n][..n - 1] == front;
      var u := WithNodeSets(w, admission, c, front, limit);
      var key := SetKey(c, last.name);
      assert StatefulSetKey(c, last) == key;
      forall i | 0 <= i < n - 1
        ensures key != SetKey(c, c.nodeSets[i].name)
      {
        SetKeysDiffer(c, last.name, c.nodeSets[i].name);
      }
      OtherSetsStay(w, admission, c, limit, n - 1, key);
      CountsEndKept(w, admission, c, front, limit);
      TargetsDropped(u.statefulSets, c, last, limit, nodeSet, o);
    }
  }

  /** Claims that no NodeSet of the cluster is named by are left alone, and none is made. */
  lemma {:induction false} OtherClaimsStay(
      w: Workload, admission: Admission, c: ClusterSpec, nodeSets: seq<NodeSet>, limit: nat, key: ResourceRef)
    ensures var pvcs := WithNodeSets(w, admission, c, nodeSets, limit).pvcs;
      && (key in pvcs ==> key in w.pvcs && pvcs[key] == w.pvcs[key])
      && (key in w.pvcs && (key.namespace != c.namespace || key in admission.refused) ==> key in pvcs)
  {
    if nodeSets != [] {
      OtherClaimsStay(w, admission, c, nodeSets[..|nodeSets| - 1], limit, key);
    }
  }

  // ---------- Passes ----------

  /** So much for the NodeSets that a pass gets to, whatever stops it. */
  lemma PassWritesStatefulSets(
      h: Holdings, admission: Admission, c: ClusterSpec, limit: nat, at: Progress, i: nat)
    requires MayStopAt(h, c, at) && i < at.nodeSets && IsLastOf(c, at.nodeSets, i)
    ensures var n, key := c.nodeSets[i], SetKey(c, c.nodeSets[i].name);
      var sets, before := DeployedTo(h, admission, c, limit, at).workload.statefulSets, h.workload.statefulSets;
      && key in sets
      && sets[key] == StatefulSet(c.name, n.count, Admitted(admission, n.template), Reported(before, key))
  {
    LastNodeSetWrites(h.workload, admission, c, limit, at.nodeSets, i);
  }

  lemma PassLeavesStatefulSets(
      h: Holdings, admission: Admission, c: ClusterSpec, limit: nat, at: Progress, key: ResourceRef)
    requires MayStopAt(h, c, at) && forall i :: 0 <= i < at.nodeSets ==> key != SetKey(c, c.nodeSets[i].name)
    ensures Same(h.workload.statefulSets, DeployedTo(h, admission, c, limit, at).workload.statefulSets, key)
  {
    OtherSetsStay(h.workload, admission, c, limit, at.nodeSets, key);
  }

  /** Every dropped claim that may be deleted is gone after the pass, and no claim else of a NodeSet. */
  lemma PassDropsClaimsExactly(
      h: Holdings, admission: Admission, c: ClusterSpec, limit: nat, at: Progress, nodeSet: string, o: nat)
    requires MayStopAt(h, c, at) && Regular(h.workload.statefulSets, c, limit)
    requires PvcKey(ClusterKey(c), nodeSet, o) in h.workload.pvcs
    ensures PvcKey(ClusterKey(c), nodeSet, o) !in DeployedTo(h, admission, c, limit, at).workload.pvcs
      <==> PvcKey(ClusterKey(c), nodeSet, o) !in admission.refused
           && exists i ::
                0 <= i < at.nodeSets && c.nodeSets[i].name == nodeSet && Drops(h.workload.statefulSets, c, i, o)
  {
    ClaimsDroppedExactly(h.workload, admission, c, limit, at.nodeSets, nodeSet, o);
  }

  // ---------- The clean-up ----------

  /** An object carries the three labels of a cluster, in its namespace. */
  predicate Carries(labels: map<string, string>, key: ResourceRef, c: ClusterSpec) {
    && key.namespace == c.namespace
    && "app.kubernetes.io/name" in labels && labels["app.kubernetes.io/name"] == "stroom"
    && "app.kubernetes.io/component" in labels && labels["app.kubernetes.io/component"] == "stroom-cluster"
    && "stroom/cluster" in labels && labels["stroom/cluster"] == c.name
  }

  lemma CarriesExactly(labels: map<string, string>, key: ResourceRef, c: ClusterSpec)
    ensures Carries(labels, key, c) <==> key.namespace == c.namespace && Matches(Labels(c.name), labels)
  {
    LabelsDiffer();
    assert Labels(c.name).Keys == {NAME_LABEL, COMPONENT_LABEL, CLUSTER_LABEL};
    assert Labels(c.name)[NAME_LABEL] == "stroom" && Labels(c.name)[COMPONENT_LABEL] == "stroom-cluster";
  }

  /**
   A completed deletion takes a volume claim exactly under the cluster-deletion policy, if the claim carries the
   cluster's labels, its list does not fail and its deletion is not refused; an ingress likewise, under any policy.
   Nothing else goes, and nothing changes or is made.
   */
  lemma CleanedUpExactly(h: Holdings, admission: Admission, faults: seq<bool>, c: ClusterSpec, key: ResourceRef)
    ensures var after := CleanedUp(h, admission, faults, c);
      && after.accounts == h.accounts && after.workload.statefulSets == h.workload.statefulSets
      && (key in after.workload.pvcs <==>
            key in h.workload.pvcs
            && !(c.claimPolicy == ScaledownAndClusterDeletion && Carries(h.workload.pvcs[key], key, c)
                 && !FailsAt(faults, 1) && key !in admission.refused))
      && (key in after.workload.pvcs ==> after.workload.pvcs[key] == h.workload.pvcs[key])
      && (key in after.ingresses <==>
            key in h.ingresses
            && !(Carries(h.ingresses[key].labels, key, c) && !FailsAt(faults, 0) && key !in admission.refused))
      && (key in after.ingresses ==> after.ingresses[key] == h.ingresses[key])
  {
    SkipStep(faults, 0);
    SkipStep(faults, 1);
    if key in h.workload.pvcs {
      CarriesExactly(h.workload.pvcs[key], key, c);
    }
    if key in h.ingresses {
      CarriesExactly(h.ingresses[key].labels, key, c);
    }
  }

  /** Of the claims made from NodeSets' templates, those of the deleted cluster go, under that policy, and no others. */
  lemma NodeSetClaimsCleanedUp(
      h: Holdings, admission: Admission, faults: seq<bool>, c: ClusterSpec,
      owner: ResourceRef, nodeSet: string, key: ResourceRef)
    requires key in h.workload.pvcs && key.namespace == owner.namespace
    requires h.workload.pvcs[key] == PvcLabels(owner.name, nodeSet)
    ensures key !in CleanedUp(h, admission, faults, c).workload.pvcs
      <==> owner == ClusterKey(c) && c.claimPolicy == ScaledownAndClusterDeletion
           && !FailsAt(faults, 1) && key !in admission.refused
  {
    CleanedUpExactly(h, admission, faults, c, key);
    CarriesExactly(h.workload.pvcs[key], key, c);
    PvcSelectedExactly(owner.name, nodeSet, c.name);
  }

  /** And of the ingresses that a NodeSet made, those whose user labels leave the cluster's as they are. */
  lemma NodeSetIngressesCleanedUp(
      h: Holdings, admission: Admission, faults: seq<bool>, c: ClusterSpec, n: NodeSet, key: ResourceRef)
    requires key in h.ingresses && key.namespace == c.namespace && h.ingresses[key].labels == IngressLabels(c, n)
    ensures key !in CleanedUp(h, admission, faults, c).ingresses
      <==> LeavesOwnLabels(c.name, n.labels) && !FailsAt(faults, 0) && key !in admission.refused
  {
    CleanedUpExactly(h, admission, faults, c, key);
    CarriesExactly(h.ingresses[key].labels, key, c);
    IngressSelectedExactly(c, n);
  }
}
