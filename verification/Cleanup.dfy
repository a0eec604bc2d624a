/**
 What the deletion of a cluster cleans up: its ingresses and, by policy, its volume claims, selected by label.
 */
module Cleanup {
  import opened Resources
  import opened Naming
  import opened Ingresses

  /** A label selector matches objects that carry all of its pairs. */
  predicate Matches(selector: map<string, string>, labels: map<string, string>) {
    forall key :: key in selector ==> key in labels && labels[key] == selector[key]
  }

  /** The labels of the volume claims made from a NodeSet's template. */
  function PvcLabels(cluster: string, nodeSet: string): map<string, string> {
    Labels(cluster)[NODE_SET_LABEL := nodeSet]
  }

  /** Whether user labels leave the cluster's own three as they are. */
  predicate LeavesOwnLabels(cluster: string, user: map<string, string>) {
    forall key :: key in user && key in Labels(cluster) ==> user[key] == Labels(cluster)[key]
  }

  /**
   An ingress of cluster `c` is selected by that cluster's clean-up exactly when the user labels do not
   override the cluster's.
   */
  lemma IngressSelectedExactly(c: ClusterSpec, n: NodeSet)
    ensures Matches(Labels(c.name), IngressLabels(c, n)) <==> LeavesOwnLabels(c.name, n.labels)
  {
    var own, all := Labels(c.name), IngressLabels(c, n);
    forall key | key in n.labels && key in own
      ensures all[key] == n.labels[key]
    {
    }
  }

  /** And then no other cluster's clean-up selects it. */
  lemma IngressNotSelectedByOthers(c: ClusterSpec, n: NodeSet, other: string)
    requires other != c.name && LeavesOwnLabels(c.name, n.labels)
    ensures !Matches(Labels(other), IngressLabels(c, n))
  {
    LabelsDiffer();
    assert CLUSTER_LABEL in Labels(other) && IngressLabels(c, n)[CLUSTER_LABEL] == c.name;
  }

  /** A volume claim is selected by its own cluster's clean-up and by no other's. */
  lemma PvcSelectedExactly(cluster: string, nodeSet: string, selecting: string)
    ensures Matches(Labels(selecting), PvcLabels(cluster, nodeSet)) <==> selecting == cluster
  {
    LabelsDiffer();
    assert CLUSTER_LABEL in Labels(selecting) && PvcLabels(cluster, nodeSet)[CLUSTER_LABEL] == cluster;
  }

  // ---------- The clean-up ----------

  /**
   The objects that go when those of one namespace with matching labels are deleted, except where deletion is
   refused.
   */
  function Selected(
      labels: Labelled, refused: set<ResourceRef>, namespace: string, selector: map<string, string>): set<ResourceRef>
  {
    set k | k in labels && k.namespace == namespace && Matches(selector, labels[k]) && k !in refused
  }

  function LabelsOf(ingresses: IngressMap): Labelled {
    map k | k in ingresses :: ingresses[k].labels
  }

  /** What the clean-up of a cluster leaves of the ingresses and of the volume claims. */
  function IngressesLeft(ingresses: IngressMap, refused: set<ResourceRef>, cluster: ResourceRef): IngressMap {
    ingresses - Selected(LabelsOf(ingresses), refused, cluster.namespace, Labels(cluster.name))
  }

  function PvcsLeft(pvcs: Labelled, refused: set<ResourceRef>, cluster: ResourceRef): Labelled {
    pvcs - Selected(pvcs, refused, cluster.namespace, Labels(cluster.name))
  }

  /**
   A claim that a NodeSet made survives the clean-up of a cluster exactly if it belongs to another one or
   cannot be deleted.
   */
  lemma PvcSurvivesExactly(
      pvcs: Labelled, refused: set<ResourceRef>, deleted: ResourceRef,
      owner: ResourceRef, nodeSet: string, claim: ResourceRef)
    requires claim in pvcs && claim.namespace == owner.namespace && pvcs[claim] == PvcLabels(owner.name, nodeSet)
    ensures claim in PvcsLeft(pvcs, refused, deleted)
      <==> owner != deleted || claim in refused
  {
    PvcSelectedExactly(owner.name, nodeSet, deleted.name);
  }

  /** Of the ingresses that a cluster made, the clean-up leaves none that kept its labels and can be deleted. */
  lemma NoIngressLeft(ingresses: IngressMap, refused: set<ResourceRef>, c: ClusterSpec, n: NodeSet, key: ResourceRef)
    requires key in ingresses && key.namespace == c.namespace && ingresses[key].labels == IngressLabels(c, n)
    ensures key in IngressesLeft(ingresses, refused, ResourceRef(c.name, c.namespace))
      <==> !LeavesOwnLabels(c.name, n.labels) || key in refused
  {
    IngressSelectedExactly(c, n);
  }

  /**
   End to end: after any pass over the cluster's ingresses and then its clean-up, the ingress that the cluster
   writes under a name is left exactly if the NodeSet that wrote it last overrides the cluster's labels, or if it
   cannot be deleted.
   */
  lemma CreatedIngressIsCleaned(
      m: IngressMap, refused: set<ResourceRef>, c: ClusterSpec, feedService: string, key: ResourceRef, i: nat)
    requires IsLastWriter(c, c.nodeSets, key, i)
    ensures key in IngressesLeft(Applied(m, AllIngresses(c, c.nodeSets, feedService)), refused,
                                 ResourceRef(c.name, c.namespace))
      <==> !LeavesOwnLabels(c.name, c.nodeSets[i].labels) || key in refused
  {
    LastWriterWins(m, c, c.nodeSets, feedService, key);
    NoIngressLeft(Applied(m, AllIngresses(c, c.nodeSets, feedService)), refused, c, c.nodeSets[i], key);
  }
}
