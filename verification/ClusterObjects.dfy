/**
 The objects that a StroomCluster is made of besides those of the protocol, and the operator's loops over them:
 NodeSets applied, volume claims of dropped nodes deleted, ingresses applied, and the clean-up after a deletion.
 */
module ClusterObjects {
  import opened Resources
  import opened Naming
  import opened Outcomes
  import opened PvcDeletion
  import opened Ingresses
  import opened Cleanup

  /**
   A StatefulSet of the cluster named `cluster` in its namespace. `template` stands for all that is not counted here,
   and `observed` is the number of replicas that the cluster last reported.
   */
  datatype StatefulSet = StatefulSet(cluster: string, count: int32, template: string, observed: int32)

  type StatefulSets = map<ResourceRef, StatefulSet>

  /**
   What the API server does of itself: it refuses to delete some objects, and it fills in what templates leave open.
   */
  datatype Admission = Admission(refused: set<ResourceRef>, defaults: map<string, string>) {
    function Stored(template: string): string {
      if template in defaults then defaults[template] else template
    }
  }

  datatype Workload = Workload(statefulSets: StatefulSets, pvcs: Labelled)

  function ClusterKey(c: ClusterSpec): ResourceRef {
    ResourceRef(c.name, c.namespace)
  }

  function AccountKey(c: ClusterSpec): ResourceRef {
    ResourceRef(BaseName(c.name), c.namespace)
  }

  function StatefulSetKey(c: ClusterSpec, n: NodeSet): ResourceRef {
    ResourceRef(NodeSetName(c.name, n.name), c.namespace)
  }

  function Observed(sets: StatefulSets, key: ResourceRef): int32 {
    if key in sets then sets[key].observed else 0
  }

  /** The StatefulSet is there and differs in anything from what is written for the NodeSet. */
  predicate Updates(sets: StatefulSets, c: ClusterSpec, n: NodeSet) {
    var key := StatefulSetKey(c, n);
    key in sets && !(sets[key].cluster == c.name && sets[key].count == n.count && sets[key].template == n.template)
  }

  /** One NodeSet applied; only an update is followed by the deletion of claims. */
  function WithNodeSet(w: Workload, admission: Admission, c: ClusterSpec, n: NodeSet, limit: nat): Workload {
    var key := StatefulSetKey(c, n);
    var observed := Observed(w.statefulSets, key);
    Workload(
      w.statefulSets[key := StatefulSet(c.name, n.count, admission.Stored(n.template), observed)],
      if Updates(w.statefulSets, c, n)
      then Without(w.pvcs, admission.refused, c.namespace,
                   Visited(c.name, c.claimPolicy, n.name, observed, n.count, limit))
      else w.pvcs)
  }

  function WithNodeSets(w: Workload, admission: Admission, c: ClusterSpec, nodeSets: seq<NodeSet>, limit: nat)
    : Workload
  {
    if nodeSets == [] then w
    else WithNodeSet(WithNodeSets(w, admission, c, nodeSets[..|nodeSets| - 1], limit), admission, c,
                     nodeSets[|nodeSets| - 1], limit)
  }

  lemma WithNodeSetsStep(w: Workload, admission: Admission, c: ClusterSpec, limit: nat, n: nat)
    requires n < |c.nodeSets|
    ensures WithNodeSets(w, admission, c, c.nodeSets[..n + 1], limit)
      == WithNodeSet(WithNodeSets(w, admission, c, c.nodeSets[..n], limit), admission, c, c.nodeSets[n], limit)
  {
    assert c.nodeSets[..n + 1][..n] == c.nodeSets[..n];
  }

  // ---------- Claims that are wanted ----------

  /** No StatefulSet reports the greatest 32-bit number of replicas. */
  predicate CountsEnd(sets: StatefulSets) {
    forall key :: key in sets ==> sets[key].observed < 0x7fff_ffff
  }

  /** Ordinal `o` of NodeSet `nodeSet` is below the count of every NodeSet of that name. */
  predicate Wants(nodeSets: seq<NodeSet>, nodeSet: string, o: nat) {
    forall i :: 0 <= i < |nodeSets| ==>
      0 <= nodeSets[i].count && (nodeSets[i].name == nodeSet ==> o < nodeSets[i].count as int)
  }

  lemma {:induction false} NodeSetsKeepWanted(
      w: Workload, admission: Admission, c: ClusterSpec, nodeSets: seq<NodeSet>, limit: nat,
      nodeSet: string, o: nat)
    requires CountsEnd(w.statefulSets) && Wants(nodeSets, nodeSet, o)
    requires PvcKey(ClusterKey(c), nodeSet, o) in w.pvcs
    ensures CountsEnd(WithNodeSets(w, admission, c, nodeSets, limit).statefulSets)
    ensures PvcKey(ClusterKey(c), nodeSet, o) in WithNodeSets(w, admission, c, nodeSets, limit).pvcs
  {
    if nodeSets != [] {
      var front, n := nodeSets[..|nodeSets| - 1], nodeSets[|nodeSets| - 1];
      NodeSetsKeepWanted(w, admission, c, front, limit, nodeSet, o);
      var u := WithNodeSets(w, admission, c, front, limit);
      var observed := Observed(u.statefulSets, StatefulSetKey(c, n));
      VisitedAreDropped(c.name, c.claimPolicy, n.name, observed, n.count, limit, nodeSet, o);
    }
  }

  /** A pass that gets as far as the NodeSets `applied`, from whatever StatefulSets it then finds. */
  datatype ChildPass = ChildPass(spec: ClusterSpec, found: StatefulSets, applied: seq<NodeSet>, limit: nat)

  predicate PassWants(x: ChildPass, cluster: ResourceRef, nodeSet: string, o: nat) {
    && ClusterKey(x.spec) == cluster && x.applied <= x.spec.nodeSets
    && CountsEnd(x.found) && Wants(x.spec.nodeSets, nodeSet, o)
  }

  function PvcsAfter(pvcs: Labelled, admission: Admission, passes: seq<ChildPass>): Labelled {
    if passes == [] then pvcs
    else
      var x := passes[|passes| - 1];
      var before := PvcsAfter(pvcs, admission, passes[..|passes| - 1]);
      WithNodeSets(Workload(x.found, before), admission, x.spec, x.applied, x.limit).pvcs
  }

  /**
   Over any number of passes, complete or not, with specifications and replica counts that change in between, no
   volume claim is deleted whose ordinal every specification wants.
   */
  lemma {:induction false} PassesKeepWantedClaims(
      pvcs: Labelled, admission: Admission, passes: seq<ChildPass>, cluster: ResourceRef, nodeSet: string, o: nat)
    requires forall i :: 0 <= i < |passes| ==> PassWants(passes[i], cluster, nodeSet, o)
    requires PvcKey(cluster, nodeSet, o) in pvcs
    ensures PvcKey(cluster, nodeSet, o) in PvcsAfter(pvcs, admission, passes)
    decreases |passes|
  {
    if passes != [] {
      var front, x := passes[..|passes| - 1], passes[|passes| - 1];
      PassesKeepWantedClaims(pvcs, admission, front, cluster, nodeSet, o);
      assert PassWants(x, cluster, nodeSet, o);
      assert forall i :: 0 <= i < |x.applied| ==> x.applied[i] == x.spec.nodeSets[i];
      NodeSetsKeepWanted(
        Workload(x.found, PvcsAfter(pvcs, admission, front)), admission, x.spec, x.applied, x.limit, nodeSet, o);
    }
  }

  // ---------- ConfigMaps and Services ----------

  function ConfigMaps(c: ClusterSpec): set<ObjectKey> {
    {ObjectKey("ConfigMap", c.namespace, BaseName(c.name) + "-static-content")}
    + if c.logSender then {ObjectKey("ConfigMap", c.namespace, BaseName(c.name) + "-log-sender")} else {}
  }

  /** The Service between the nodes of a NodeSet, and the one in front of them. */
  function Services(c: ClusterSpec, n: NodeSet): set<ObjectKey> {
    {ObjectKey("Service", c.namespace, NodeSetName(c.name, n.name)),
     ObjectKey("Service", c.namespace, NodeSetServiceName(c.name, n.name))}
  }

  /** Those of the first `n` NodeSets. */
  function AllServices(c: ClusterSpec, n: nat): set<ObjectKey>
    requires n <= |c.nodeSets|
  {
    if n == 0 then {} else AllServices(c, n - 1) + Services(c, c.nodeSets[n - 1])
  }

  lemma {:induction false} ServiceOf(c: ClusterSpec, n: nat, i: nat)
    requires i < n <= |c.nodeSets|
    ensures Services(c, c.nodeSets[i]) <= AllServices(c, n)
  {
    if i < n - 1 {
      ServiceOf(c, n - 1, i);
    }
  }

  /** Those of the first `full` NodeSets have been made, and at most those of the first `n`. */
  predicate MakesServices(before: set<ObjectKey>, after: set<ObjectKey>, c: ClusterSpec, full: nat, n: nat)
    requires full <= n <= |c.nodeSets|
  {
    before + AllServices(c, full) <= after <= before + AllServices(c, n)
  }

  /**
   What a pass that got so far has made of both: of the NodeSets before the last one that it applied, all Services,
   and of that one all if it came to the ingresses or settled.
   */
  ghost predicate Equips(before: set<ObjectKey>, after: set<ObjectKey>, c: ClusterSpec, at: Progress, settled: bool)
    requires at.nodeSets <= |c.nodeSets|
  {
    && before <= after <= before + ConfigMaps(c) + AllServices(c, at.nodeSets)
    && (settled || at.nodeSets > 0 || at.ingresses > 0 ==> ConfigMaps(c) <= after)
    && (at.nodeSets > 0 ==> AllServices(c, at.nodeSets - 1) <= after)
    && (settled || at.ingresses > 0 ==> AllServices(c, |c.nodeSets|) <= after)
  }

  lemma ServicesGrow(
      first: set<ObjectKey>, before: set<ObjectKey>, after: set<ObjectKey>, c: ClusterSpec, n: nat, all: bool)
    requires n < |c.nodeSets| && MakesServices(first, before, c, n, n)
    requires before <= after <= before + Services(c, c.nodeSets[n]) && (all ==> Services(c, c.nodeSets[n]) <= after)
    ensures MakesServices(first, after, c, if all then n + 1 else n, n + 1)
  {
  }

  /** A pass that comes to no NodeSet. */
  lemma BaseEquips(before: set<ObjectKey>, after: set<ObjectKey>, c: ClusterSpec, at: Progress)
    requires at.nodeSets == at.ingresses == 0 && before <= after <= before + ConfigMaps(c)
    ensures Equips(before, after, c, at, false)
  {
  }

  lemma PassEquips(
      before: set<ObjectKey>, ready: set<ObjectKey>, after: set<ObjectKey>, c: ClusterSpec, full: nat, at: Progress,
      settled: bool)
    requires full <= at.nodeSets <= |c.nodeSets| && at.nodeSets <= full + 1
    requires settled || at.ingresses > 0 ==> full == |c.nodeSets|
    requires before <= ready <= before + ConfigMaps(c) && ConfigMaps(c) <= ready
    requires MakesServices(ready, after, c, full, at.nodeSets)
    ensures Equips(before, after, c, at, settled)
  {
  }

  // ---------- What a pass leaves ----------

  datatype Holdings = Holdings(accounts: set<ResourceRef>, workload: Workload, ingresses: IngressMap)

  /**
   Whether a pass has created the ServiceAccount, and then ended, or how many NodeSets, and then how many
   ingresses, it has applied.
   */
  datatype Progress = Progress(account: bool, nodeSets: nat, ingresses: nat)

  const NO_PROGRESS := Progress(false, 0, 0)

  ghost function Complete(c: ClusterSpec): Progress {
    Progress(false, |c.nodeSets|, |WantedIngresses(c)|)
  }

  /** The deletion of claims that applying the NodeSet brings on comes to its end. */
  predicate Finishes(sets: StatefulSets, c: ClusterSpec, n: NodeSet, limit: nat) {
    var observed := Observed(sets, StatefulSetKey(c, n));
    Updates(sets, c, n) && ScalesDown(c.claimPolicy, observed, n.count) ==>
      observed < 0x7fff_ffff && limit >= observed as int - n.count as int
  }

  /** So do those that the first `count` NodeSets bring on. */
  predicate AllFinish(w: Workload, admission: Admission, c: ClusterSpec, limit: nat, count: nat)
    requires count <= |c.nodeSets|
  {
    forall i :: 0 <= i < count ==>
      Finishes(WithNodeSets(w, admission, c, c.nodeSets[..i], limit).statefulSets, c, c.nodeSets[i], limit)
  }

  /** They do unless a count is the greatest there is, or the operator's process ends. */
  lemma FiniteCountsFinish(w: Workload, admission: Admission, c: ClusterSpec, limit: nat, count: nat)
    requires count <= |c.nodeSets|
    requires CountsEnd(w.statefulSets) && limit >= MAX_INT32
    requires forall n :: n in c.nodeSets ==> 0 <= n.count
    ensures AllFinish(w, admission, c, limit, count)
  {
    forall i | 0 <= i < count
      ensures Finishes(WithNodeSets(w, admission, c, c.nodeSets[..i], limit).statefulSets, c, c.nodeSets[i], limit)
    {
      CountsEndKept(w, admission, c, c.nodeSets[..i], limit);
      assert c.nodeSets[i] in c.nodeSets;
    }
  }

  lemma {:induction false} CountsEndKept(
      w: Workload, admission: Admission, c: ClusterSpec, nodeSets: seq<NodeSet>, limit: nat)
    requires CountsEnd(w.statefulSets)
    ensures CountsEnd(WithNodeSets(w, admission, c, nodeSets, limit).statefulSets)
  {
    if nodeSets != [] {
      CountsEndKept(w, admission, c, nodeSets[..|nodeSets| - 1], limit);
    }
  }

  /** The calls for the ServiceAccount, which is there, and for the configuration maps. */
  function BaseCalls(c: ClusterSpec): nat {
    if c.logSender then 3 else 2
  }

  /** The first `n` NodeSets are written, with their Services. */
  predicate NodeSetsDone(
      w: Workload, admission: Admission, c: ClusterSpec, limit: nat, faults: seq<bool>, others: seq<bool>, n: nat)
    requires n <= |c.nodeSets|
  {
    Clear(faults, n) && Clear(others, 2 * n) && AllFinish(w, admission, c, limit, n)
  }

  /** And so is the StatefulSet of the next. */
  predicate NodeSetStarts(
      w: Workload, admission: Admission, c: ClusterSpec, limit: nat, faults: seq<bool>, others: seq<bool>, n: nat)
    requires n < |c.nodeSets|
  {
    NodeSetsDone(w, admission, c, limit, faults, others, n) && !FailsAt(faults, n)
  }

  lemma FirstStarts(
      w: Workload, admission: Admission, c: ClusterSpec, limit: nat, faults: seq<bool>, others: seq<bool>)
    requires c.nodeSets != []
    ensures NodeSetStarts(w, admission, c, limit, faults, others, 0) <==> !Fails(faults)
  {
  }

  /** What it takes to get one NodeSet further. */
  lemma NodeSetStep(
      w: Workload, admission: Admission, c: ClusterSpec, limit: nat, faults: seq<bool>, others: seq<bool>, n: nat)
    requires n < |c.nodeSets|
    ensures NodeSetsDone(w, admission, c, limit, faults, others, n + 1)
      <==> NodeSetStarts(w, admission, c, limit, faults, others, n) && Clear(Skip(others, 2 * n), 2)
           && Finishes(WithNodeSets(w, admission, c, c.nodeSets[..n], limit).statefulSets, c, c.nodeSets[n], limit)
  {
    SkipStep(faults, n);
    SkipJoin(others, 2 * n, 2);
  }

  /** Those before are done and started, and after one that is not done none starts. */
  lemma {:induction false} NodeSetsInOrder(
      w: Workload, admission: Admission, c: ClusterSpec, limit: nat, faults: seq<bool>, others: seq<bool>,
      m: nat, n: nat)
    requires m <= n <= |c.nodeSets|
    requires NodeSetsDone(w, admission, c, limit, faults, others, n)
    ensures NodeSetsDone(w, admission, c, limit, faults, others, m)
    ensures m < n ==> NodeSetStarts(w, admission, c, limit, faults, others, m)
  {
    if m < n {
      NodeSetStep(w, admission, c, limit, faults, others, n - 1);
      if m < n - 1 {
        NodeSetsInOrder(w, admission, c, limit, faults, others, m, n - 1);
      }
    }
  }

  /** If the first `n` are done but not one more, the NodeSets end there, with or without the StatefulSet of `n`. */
  lemma NodeSetsEnd(
      w: Workload, admission: Admission, c: ClusterSpec, limit: nat, faults: seq<bool>, others: seq<bool>, n: nat)
    requires n <= |c.nodeSets| && NodeSetsDone(w, admission, c, limit, faults, others, n)
    requires n < |c.nodeSets| ==> !NodeSetsDone(w, admission, c, limit, faults, others, n + 1)
    ensures forall i :: 0 <= i < n ==> NodeSetStarts(w, admission, c, limit, faults, others, i)
    ensures forall i :: n < i < |c.nodeSets| ==> !NodeSetStarts(w, admission, c, limit, faults, others, i)
    ensures NodeSetsDone(w, admission, c, limit, faults, others, |c.nodeSets|) <==> n == |c.nodeSets|
  {
    forall i | 0 <= i < n
      ensures NodeSetStarts(w, admission, c, limit, faults, others, i)
    {
      NodeSetsInOrder(w, admission, c, limit, faults, others, i, n);
    }
    forall i | n < i <= |c.nodeSets|
      ensures !NodeSetsDone(w, admission, c, limit, faults, others, i)
    {
      if NodeSetsDone(w, admission, c, limit, faults, others, i) {
        NodeSetsInOrder(w, admission, c, limit, faults, others, n + 1, i);
      }
    }
  }

  /**
   Where a pass stops whose calls for StatefulSets fail as `faults` says, and all others as `others` says. A NodeSet
   is applied exactly if nothing fails before it and its StatefulSet does not, and likewise an ingress.
   */
  ghost predicate StopsAt(
      h: Holdings, admission: Admission, c: ClusterSpec, limit: nat, faults: seq<bool>, others: seq<bool>, at: Progress)
  {
    var count, left := |c.nodeSets|, Skip(others, BaseCalls(c));
    var ready := AccountKey(c) in h.accounts && Clear(others, BaseCalls(c));
    && MayStopAt(h, c, at)
    && (at.account <==> AccountKey(c) !in h.accounts && Clear(others, 2))
    && (forall i :: 0 <= i < count ==>
          (i < at.nodeSets <==> ready && NodeSetStarts(h.workload, admission, c, limit, faults, left, i)))
    && at.ingresses
       == (if ready && NodeSetsDone(h.workload, admission, c, limit, faults, left, count)
           then Successes(Skip(left, 2 * count), |WantedIngresses(c)|) else 0)
  }

  /** A pass goes through to its end. */
  ghost predicate GoesThrough(
      h: Holdings, admission: Admission, c: ClusterSpec, limit: nat, faults: seq<bool>, others: seq<bool>)
  {
    var left := Skip(others, BaseCalls(c));
    && AccountKey(c) in h.accounts && Clear(others, BaseCalls(c))
    && NodeSetsDone(h.workload, admission, c, limit, faults, left, |c.nodeSets|)
    && Clear(Skip(left, 2 * |c.nodeSets|), |WantedIngresses(c)|)
  }

  /** A pass ends before its NodeSets, or with them and the ingresses. */
  lemma StopsBefore(
      h: Holdings, admission: Admission, c: ClusterSpec, limit: nat, faults: seq<bool>, others: seq<bool>, at: Progress)
    requires !(AccountKey(c) in h.accounts && Clear(others, BaseCalls(c)))
    requires at == NO_PROGRESS.(account := AccountKey(c) !in h.accounts && Clear(others, 2))
    ensures StopsAt(h, admission, c, limit, faults, others, at)
    ensures !GoesThrough(h, admission, c, limit, faults, others)
  {
  }

  lemma StopsWith(
      h: Holdings, admission: Admission, c: ClusterSpec, limit: nat, faults: seq<bool>, others: seq<bool>, at: Progress)
    requires AccountKey(c) in h.accounts && Clear(others, BaseCalls(c)) && MayStopAt(h, c, at) && !at.account
    requires forall i :: 0 <= i < |c.nodeSets| ==>
      (i < at.nodeSets
       <==> NodeSetStarts(h.workload, admission, c, limit, faults, Skip(others, BaseCalls(c)), i))
    requires var left := Skip(others, BaseCalls(c));
      at.ingresses == if NodeSetsDone(h.workload, admission, c, limit, faults, left, |c.nodeSets|)
                      then Successes(Skip(left, 2 * |c.nodeSets|), |WantedIngresses(c)|) else 0
    ensures StopsAt(h, admission, c, limit, faults, others, at)
  {
  }

  /** That is one place. */
  lemma StopsOnce(
      h: Holdings, admission: Admission, c: ClusterSpec, limit: nat, faults: seq<bool>, others: seq<bool>,
      at: Progress, at': Progress)
    requires StopsAt(h, admission, c, limit, faults, others, at)
    requires StopsAt(h, admission, c, limit, faults, others, at')
    ensures at == at'
  {
    var least := if at.nodeSets <= at'.nodeSets then at.nodeSets else at'.nodeSets;
    if least < |c.nodeSets| {
      var starts := NodeSetStarts(h.workload, admission, c, limit, faults, Skip(others, BaseCalls(c)), least);
    }
  }

  /** Without failures, and with counts that let the loops end, a pass with its account goes through. */
  lemma FaultlessPassGoesThrough(
      h: Holdings, admission: Admission, c: ClusterSpec, limit: nat, faults: seq<bool>, others: seq<bool>)
    requires true !in faults && true !in others && AccountKey(c) in h.accounts
    requires CountsEnd(h.workload.statefulSets) && limit >= MAX_INT32
    requires forall n :: n in c.nodeSets ==> 0 <= n.count
    ensures GoesThrough(h, admission, c, limit, faults, others)
  {
    var base, sets := BaseCalls(c), 2 * |c.nodeSets|;
    NoneFails(faults, |c.nodeSets|);
    NoneFails(others, base + (sets + |WantedIngresses(c)|));
    SkipJoin(others, base, sets + |WantedIngresses(c)|);
    SkipJoin(Skip(others, base), sets, |WantedIngresses(c)|);
    FiniteCountsFinish(h.workload, admission, c, limit, |c.nodeSets|);
  }

  ghost predicate MayStopAt(h: Holdings, c: ClusterSpec, at: Progress) {
    && at.nodeSets <= |c.nodeSets| && at.ingresses <= |WantedIngresses(c)|
    && (at.account ==> AccountKey(c) !in h.accounts && at.nodeSets == 0)
    && (at.ingresses > 0 ==> at.nodeSets == |c.nodeSets|)
  }

  ghost function DeployedTo(h: Holdings, admission: Admission, c: ClusterSpec, limit: nat, at: Progress): Holdings
    requires MayStopAt(h, c, at)
  {
    Holdings(
      if at.account then h.accounts + {AccountKey(c)} else h.accounts,
      WithNodeSets(h.workload, admission, c, c.nodeSets[..at.nodeSets], limit),
      Applied(h.ingresses, WantedIngresses(c)[..at.ingresses]))
  }

  /** Both lists are tried; a failing one leaves its kind of object alone. */
  function CleanedUp(h: Holdings, admission: Admission, faults: seq<bool>, c: ClusterSpec): Holdings {
    Holdings(
      h.accounts,
      h.workload.(pvcs :=
        if !c.claimPolicy.ScaledownAndClusterDeletion? || Fails(Rest(faults)) then h.workload.pvcs
        else PvcsLeft(h.workload.pvcs, admission.refused, ClusterKey(c))),
      if Fails(faults) then h.ingresses else IngressesLeft(h.ingresses, admission.refused, ClusterKey(c)))
  }

  /** A pass that applies nothing leaves everything as it is. */
  lemma NothingApplied(h: Holdings, admission: Admission, c: ClusterSpec, limit: nat)
    ensures DeployedTo(h, admission, c, limit, NO_PROGRESS) == h
  {
  }

  /** And one that ends with the account adds that. */
  lemma AccountApplied(h: Holdings, admission: Admission, c: ClusterSpec, limit: nat)
    requires AccountKey(c) !in h.accounts
    ensures MayStopAt(h, c, NO_PROGRESS.(account := true))
    ensures DeployedTo(h, admission, c, limit, NO_PROGRESS.(account := true))
      == h.(accounts := h.accounts + {AccountKey(c)})
  {
  }

  // ---------- The store as an object ----------

  class ObjectStore {
    var serviceAccounts: set<ResourceRef>
    var statefulSets: StatefulSets
    var pvcs: Labelled
    var ingresses: IngressMap
    /** ConfigMaps and Services, which are written anew by every pass. */
    var plain: set<ObjectKey>
    var faults: seq<bool>
    const admission: Admission
    ghost var targeted: seq<string>

    constructor (admission: Admission)
      ensures this.admission == admission && targeted == []
      ensures serviceAccounts == {} && statefulSets == map[] && pvcs == map[] && ingresses == map[]
      ensures plain == {} && faults == []
    {
      this.admission, this.faults, this.targeted := admission, [], [];
      serviceAccounts, statefulSets, pvcs, ingresses, plain := {}, map[], map[], map[], {};
    }

    function View(): Workload
      reads this
    {
      Workload(statefulSets, pvcs)
    }

    function Held(): Holdings
      reads this
    {
      Holdings(serviceAccounts, View(), ingresses)
    }

    /** Any call of which only the outcome matters here. */
    method Call() returns (ok: bool)
      modifies `faults
      ensures ok == !Fails(old(faults)) && faults == Rest(old(faults))
    {
      ok := !Fails(faults);
      faults := Rest(faults);
    }

    /** `CreateOrUpdate` of a ConfigMap or a Service. */
    method Apply(kind: string, namespace: string, name: string) returns (ok: bool)
      modifies `faults, `plain
      ensures ok == !Fails(old(faults)) && faults == Rest(old(faults))
      ensures plain == if ok then old(plain) + {ObjectKey(kind, namespace, name)} else old(plain)
    {
      ok := Call();
      if ok {
        plain := plain + {ObjectKey(kind, namespace, name)};
      }
    }

    /** A failing read is an error; only a missing account is created. */
    method GetOrCreateAccount(key: ResourceRef) returns (outcome: Creation)
      modifies `faults, `serviceAccounts
      ensures outcome == Existing <==> !Fails(old(faults)) && key in old(serviceAccounts)
      ensures outcome == Existing ==> faults == Rest(old(faults))
      ensures outcome == Created <==> key !in old(serviceAccounts) && Clear(old(faults), 2)
      ensures outcome == Created ==> faults == Rest(Rest(old(faults)))
      ensures outcome == Error ==> faults in [Rest(old(faults)), Rest(Rest(old(faults)))]
      ensures serviceAccounts == if outcome == Created then old(serviceAccounts) + {key} else old(serviceAccounts)
    {
      SkipStep(faults, 0);
      SkipStep(faults, 1);
      var ok := Call();
      if !ok {
        return Error;
      }
      if key in serviceAccounts {
        return Existing;
      }
      ok := Call();
      if !ok {
        return Error;
      }
      serviceAccounts := serviceAccounts + {key};
      outcome := Created;
    }

    /** The account exists and neither it nor the configuration maps meet a failure. */
    predicate BaseIsReady(c: ClusterSpec)
      reads this
    {
      AccountKey(c) in serviceAccounts && Clear(faults, BaseCalls(c))
    }

    /** A pass that comes to creating children gets to its first StatefulSet. */
    predicate Deploys(c: ClusterSpec)
      reads this
    {
      BaseIsReady(c) && c.nodeSets != []
    }

    /** The ServiceAccount, whose creation ends the pass, and the configuration maps. */
    method ReconcileBase(c: ClusterSpec) returns (ok: bool, created: bool)
      modifies `faults, `serviceAccounts, `plain
      ensures old(plain) <= plain <= old(plain) + ConfigMaps(c) && (ok && !created ==> ConfigMaps(c) <= plain)
      ensures ok && !created <==> old(BaseIsReady(c))
      ensures ok && !created ==> faults == Skip(old(faults), BaseCalls(c))
      ensures created ==> ok
      ensures created <==> AccountKey(c) !in old(serviceAccounts) && Clear(old(faults), 2)
      ensures serviceAccounts
        == if created then old(serviceAccounts) + {AccountKey(c)} else old(serviceAccounts)
      ensures true !in old(faults) ==> true !in faults
    {
      RestIsPart(faults);
      RestIsPart(Rest(faults));
      RestIsPart(Rest(Rest(faults)));
      SkipStep(faults, 0);
      SkipStep(faults, 1);
      SkipStep(faults, 2);
      var outcome := GetOrCreateAccount(AccountKey(c));
      if outcome != Existing {
        return outcome == Created, outcome == Created;
      }
      created := false;
      ok := Apply("ConfigMap", c.namespace, BaseName(c.name) + "-static-content");
      if ok && c.logSender {
        ok := Apply("ConfigMap", c.namespace, BaseName(c.name) + "-log-sender");
      }
    }

    // ---------- Volume claims ----------

    /** A claim that is missing or cannot be deleted is passed over. */
    method DeleteClaim(key: ResourceRef)
      modifies `pvcs, `targeted
      ensures pvcs == old(pvcs) - (if key in admission.refused then {} else {key})
      ensures targeted == old(targeted) + [key.name]
    {
      targeted := targeted + [key.name];
      if key in pvcs && key !in admission.refused {
        pvcs := pvcs - {key};
      }
    }

    /** The first `n` iterations of the loop below have been made on what was there. */
    ghost predicate DroppedSoFar(
        claims: Labelled, names: seq<string>, c: ClusterSpec, nodeSet: string, oldCount: int32, newCount: int32, n: nat)
      reads this
    {
      var visited := Visited(c.name, c.claimPolicy, nodeSet, oldCount, newCount, n);
      targeted == names + visited && pvcs == Without(claims, admission.refused, c.namespace, visited)
    }

    /** One iteration. */
    method DropOrdinal(
        c: ClusterSpec, nodeSet: string, podOrdinal: int32, ghost claims: Labelled, ghost names: seq<string>,
        ghost oldCount: int32, ghost newCount: int32, ghost limit: nat, ghost n: nat)
      requires podOrdinal == Counter(Next(newCount), n) && n < Iterations(c.claimPolicy, oldCount, newCount, limit)
      requires DroppedSoFar(claims, names, c, nodeSet, oldCount, newCount, n)
      modifies `pvcs, `targeted
      ensures DroppedSoFar(claims, names, c, nodeSet, oldCount, newCount, n + 1)
    {
      var name := ClaimName(c.name, nodeSet, Before(podOrdinal));
      VisitedStep(c.name, c.claimPolicy, nodeSet, oldCount, newCount, limit, n);
      WithoutStep(
        claims, admission.refused, c.namespace, Visited(c.name, c.claimPolicy, nodeSet, oldCount, newCount, n), name);
      DeleteClaim(ResourceRef(name, c.namespace));
    }

    /** The loop below, which the end of the operator's process may cut short after `limit` iterations. */
    method DeletePvcs(c: ClusterSpec, nodeSet: string, oldCount: int32, newCount: int32, limit: nat)
      returns (finished: bool)
      modifies `pvcs, `targeted
      ensures finished
        <==> (ScalesDown(c.claimPolicy, oldCount, newCount)
              ==> oldCount < 0x7fff_ffff && limit >= oldCount as int - newCount as int)
      ensures var visited := Visited(c.name, c.claimPolicy, nodeSet, oldCount, newCount, limit);
        targeted == old(targeted) + visited && pvcs == Without(old(pvcs), admission.refused, c.namespace, visited)
    {
      if oldCount > newCount && !c.claimPolicy.Keep? {
        finished := DropOrdinals(c, nodeSet, oldCount, newCount, limit);
        IterationsAre(c.name, c.claimPolicy, nodeSet, oldCount, newCount, limit);
      } else {
        finished := true;
      }
    }

    /** The loop itself. */
    method DropOrdinals(c: ClusterSpec, nodeSet: string, oldCount: int32, newCount: int32, limit: nat)
      returns (finished: bool)
      requires ScalesDown(c.claimPolicy, oldCount, newCount)
      modifies `pvcs, `targeted
      ensures finished <==> oldCount < 0x7fff_ffff && limit >= oldCount as int - newCount as int
      ensures DroppedSoFar(
        old(pvcs), old(targeted), c, nodeSet, oldCount, newCount,
        Iterations(c.claimPolicy, oldCount, newCount, limit))
    {
      var podOrdinal, n := Next(newCount), 0;
      while podOrdinal <= oldCount && n < limit
        invariant podOrdinal == Counter(Next(newCount), n)
        invariant n <= Iterations(c.claimPolicy, oldCount, newCount, limit)
        invariant DroppedSoFar(old(pvcs), old(targeted), c, nodeSet, oldCount, newCount, n)
        decreases limit - n
      {
        LoopGoesOn(c.claimPolicy, oldCount, newCount, limit, n);
        DropOrdinal(c, nodeSet, podOrdinal, old(pvcs), old(targeted), oldCount, newCount, limit, n);
        podOrdinal, n := Next(podOrdinal), n + 1;
      }
      finished := podOrdinal > oldCount;
      LoopGoesOn(c.claimPolicy, oldCount, newCount, limit, n);
      LoopStops(c.claimPolicy, oldCount, newCount, limit);
    }

    // ---------- NodeSets ----------

    /** `CreateOrUpdate` of the StatefulSet and, after an update, the deletion of the claims it drops. */
    method ApplyStatefulSet(c: ClusterSpec, n: NodeSet, limit: nat) returns (finished: bool)
      modifies `statefulSets, `pvcs, `targeted
      ensures View() == WithNodeSet(old(View()), admission, c, n, limit)
      ensures finished <==> Finishes(old(statefulSets), c, n, limit)
    {
      var key := StatefulSetKey(c, n);
      finished := true;
      var updated, oldReplicaCount := false, 0;
      if key in statefulSets {
        var found := statefulSets[key];
        oldReplicaCount := found.observed;
        updated := found.cluster != c.name || found.count != n.count || found.template != n.template;
      }
      statefulSets := statefulSets[key := StatefulSet(c.name, n.count, admission.Stored(n.template), oldReplicaCount)];
      if updated {
        finished := DeletePvcs(c, n.name, oldReplicaCount, n.count, limit);
      }
    }

    /** The StatefulSet of a NodeSet and its two Services. */
    method ApplyNodeSet(c: ClusterSpec, n: NodeSet, limit: nat) returns (ok: bool)
      modifies `faults, `statefulSets, `pvcs, `targeted, `plain
      ensures old(plain) <= plain <= old(plain) + Services(c, n) && (ok ==> Services(c, n) <= plain)
      ensures View() == WithNodeSet(old(View()), admission, c, n, limit)
      ensures ok <==> Finishes(old(statefulSets), c, n, limit) && Clear(old(faults), 2)
      ensures ok ==> faults == Skip(old(faults), 2)
    {
      SkipStep(faults, 0);
      SkipStep(faults, 1);
      ok := ApplyStatefulSet(c, n, limit);
      if ok {
        ok := Apply("Service", c.namespace, NodeSetName(c.name, n.name));
      }
      if ok {
        ok := Apply("Service", c.namespace, NodeSetServiceName(c.name, n.name));
      }
    }

    // ---------- Ingresses ----------

    /** `CreateOrUpdate` of each ingress in turn; the first failure ends the loop, with those before it applied. */
    method ApplyIngresses(created: seq<Ingress>) returns (applied: nat)
      modifies `faults, `ingresses
      ensures applied <= |created| && ingresses == Applied(old(ingresses), created[..applied])
      ensures applied == Successes(old(faults), |created|)
    {
      applied := 0;
      while applied < |created|
        invariant applied <= |created| && ingresses == Applied(old(ingresses), created[..applied])
        invariant Clear(old(faults), applied) && faults == Skip(old(faults), applied)
      {
        assert created[..applied + 1][..applied] == created[..applied];
        SkipStep(old(faults), applied);
        if FailsAt(old(faults), applied) {
          SuccessesAre(old(faults), |created|, applied);
        }
        var ok := Call();
        if !ok {
          return;
        }
        ingresses := ingresses[Key(created[applied]) := created[applied]];
        applied := applied + 1;
      }
    }

    method ReconcileIngresses(c: ClusterSpec) returns (ok: bool, ghost applied: nat)
      modifies `faults, `ingresses
      ensures applied <= |WantedIngresses(c)| && (ok <==> applied == |WantedIngresses(c)|)
      ensures ingresses == Applied(old(ingresses), WantedIngresses(c)[..applied])
      ensures applied == Successes(old(faults), |WantedIngresses(c)|)
    {
      var created := CreateIngresses(c);
      var count := ApplyIngresses(created);
      ok, applied := count == |created|, count;
    }

    // ---------- Clean-up ----------

    /** A failing list leaves its kind of object alone; a deletion that is refused is passed over. */
    method Cleanup(c: ClusterSpec)
      modifies `faults, `ingresses, `pvcs
      ensures Held() == CleanedUp(old(Held()), admission, old(faults), c)
    {
      var ok := Call();
      if ok {
        var gone := DeleteSelected(LabelsOf(ingresses), c.namespace, Labels(c.name));
        ingresses := ingresses - gone;
      }
      if c.claimPolicy.ScaledownAndClusterDeletion? {
        ok := Call();
        if ok {
          var gone := DeleteSelected(pvcs, c.namespace, Labels(c.name));
          pvcs := pvcs - gone;
        }
      }
    }

    /** The list and delete loop for one kind of object. */
    method DeleteSelected(labels: Labelled, namespace: string, selector: map<string, string>)
      returns (gone: set<ResourceRef>)
      ensures gone == Selected(labels, admission.refused, namespace, selector)
    {
      gone := {};
      var items := set k | k in labels && k.namespace == namespace && Matches(selector, labels[k]);
      var pending := items;
      while pending != {}
        invariant pending <= items
        invariant gone == set k | k in items && k !in pending && k !in admission.refused
        decreases |pending|
      {
        var k :| k in pending;
        if k !in admission.refused {
          gone := gone + {k};
        }
        pending := pending - {k};
      }
    }
  }
}
