/** Ingress construction per NodeSet, and where requests end up once all ingresses are applied. */
module Ingresses {
  import opened Resources
  import opened Naming
  import opened PvcDeletion

  /** `template` stands for all that its pods are made from. */
  datatype NodeSet = NodeSet(
    name: string,
    role: string,
    count: int32,
    template: string,
    ingressEnabled: Option<bool>,
    annotations: map<string, string>,
    labels: map<string, string>)

  datatype ClusterSpec = ClusterSpec(
    name: string,
    namespace: string,
    hostName: string,
    secretName: string,
    className: string,
    pathTypeOverride: bool,
    https: bool,
    logSender: bool,
    claimPolicy: DeletePolicy,
    nodeSets: seq<NodeSet>)

  datatype PathType = Exact | Prefix | ImplementationSpecific

  datatype Rule = Rule(host: string, path: string, pathType: PathType, service: string, port: string)

  datatype Tls = Tls(hosts: seq<string>, secretName: string)

  datatype Ingress = Ingress(
    name: string,
    namespace: string,
    labels: map<string, string>,
    annotations: map<string, string>,
    className: string,
    tls: Tls,
    rules: seq<Rule>)

  // ---------- Construction ----------

  function CreateIngressRule(c: ClusterSpec, pathType: PathType, path: string, service: string): Rule {
    Rule(c.hostName, path, if c.pathTypeOverride then ImplementationSpecific else pathType, service,
         if c.https then "app-https" else "app-http")
  }

  predicate Enabled(n: NodeSet) {
    n.ingressEnabled != Some(false)
  }

  /** Serves user traffic, or takes data feeds; a NodeSet without a role does both. */
  predicate ServesUsers(n: NodeSet) {
    Enabled(n) && n.role != PROCESSING_ROLE
  }

  predicate TakesFeeds(n: NodeSet) {
    Enabled(n) && n.role != FRONTEND_ROLE
  }

  function DefaultName(c: ClusterSpec): string {
    BaseName(c.name)
  }

  function DatafeedName(c: ClusterSpec): string {
    BaseName(c.name) + "-datafeed"
  }

  function DefaultKey(c: ClusterSpec): ResourceRef {
    ResourceRef(DefaultName(c), c.namespace)
  }

  function DatafeedKey(c: ClusterSpec): ResourceRef {
    ResourceRef(DatafeedName(c), c.namespace)
  }

  /** User labels take precedence over the cluster's own. */
  function IngressLabels(c: ClusterSpec, n: NodeSet): map<string, string> {
    Labels(c.name) + n.labels
  }

  function TlsOf(c: ClusterSpec): Tls {
    if c.https then Tls([c.hostName], c.secretName) else Tls([], "")
  }

  function DefaultIngress(c: ClusterSpec, n: NodeSet, feedService: string): Ingress {
    Ingress(
      DefaultName(c), c.namespace, IngressLabels(c, n),
      map["nginx.ingress.kubernetes.io/backend-protocol" := if c.https then "HTTPS" else "HTTP",
          "nginx.ingress.kubernetes.io/affinity" := "cookie",
          "nginx.ingress.kubernetes.io/affinity-mode" := "persistent",
          "nginx.ingress.kubernetes.io/proxy-body-size" := "0"] + n.annotations,
      c.className, TlsOf(c),
      [ CreateIngressRule(c, Exact, "/stroom/noauth/datafeed", feedService),
        CreateIngressRule(c, Prefix, "/", NodeSetServiceName(c.name, n.name)) ])
  }

  function DatafeedIngress(c: ClusterSpec, n: NodeSet): Ingress {
    Ingress(
      DatafeedName(c), c.namespace, IngressLabels(c, n),
      map["nginx.ingress.kubernetes.io/rewrite-target" := "/stroom/noauth/datafeed",
          "nginx.ingress.kubernetes.io/proxy-body-size" := "0",
          "haproxy.router.openshift.io/rewrite-target" := "/stroom/noauth/datafeed"] + n.annotations,
      c.className, TlsOf(c),
      [ CreateIngressRule(c, Exact, "/stroom/datafeeddirect", NodeSetServiceName(c.name, n.name)) ])
  }

  function IngressesOf(c: ClusterSpec, n: NodeSet, feedService: string): seq<Ingress> {
    (if ServesUsers(n) then [DefaultIngress(c, n, feedService)] else [])
    + (if TakesFeeds(n) then [DatafeedIngress(c, n)] else [])
  }

  function AllIngresses(c: ClusterSpec, nodeSets: seq<NodeSet>, feedService: string): seq<Ingress> {
    if nodeSets == [] then []
    else
      AllIngresses(c, nodeSets[..|nodeSets| - 1], feedService)
      + IngressesOf(c, nodeSets[|nodeSets| - 1], feedService)
  }

  /**
   The service to which the exact datafeed rule sends: that of the first NodeSet that is not a frontend, or
   none.
   */
  predicate IsFeedService(c: ClusterSpec, service: string) {
    (exists i :: 0 <= i < |c.nodeSets| && c.nodeSets[i].role != FRONTEND_ROLE
        && service == NodeSetServiceName(c.name, c.nodeSets[i].name)
        && forall j :: 0 <= j < i ==> c.nodeSets[j].role == FRONTEND_ROLE)
    || (service == "" && forall j :: 0 <= j < |c.nodeSets| ==> c.nodeSets[j].role == FRONTEND_ROLE)
  }

  lemma FeedServiceUnique(c: ClusterSpec, a: string, b: string)
    requires IsFeedService(c, a) && IsFeedService(c, b)
    ensures a == b
  {
  }

  /** There is such a service, whatever the NodeSets. */
  ghost function FeedService(c: ClusterSpec): (service: string)
    ensures IsFeedService(c, service)
  {
    FeedServiceExists(c, |c.nodeSets|);
    var s :| IsFeedService(c, s);
    s
  }

  /** Either some NodeSet is the first that is not a frontend, or the first `n` all are frontends. */
  lemma {:induction false} FeedServiceExists(c: ClusterSpec, n: nat)
    requires n <= |c.nodeSets|
    ensures (exists s :: IsFeedService(c, s)) || forall j :: 0 <= j < n ==> c.nodeSets[j].role == FRONTEND_ROLE
    ensures n == |c.nodeSets| ==> exists s :: IsFeedService(c, s)
  {
    if n > 0 {
      FeedServiceExists(c, n - 1);
      if (forall j :: 0 <= j < n - 1 ==> c.nodeSets[j].role == FRONTEND_ROLE)
        && c.nodeSets[n - 1].role != FRONTEND_ROLE {
        assert IsFeedService(c, NodeSetServiceName(c.name, c.nodeSets[n - 1].name));
      }
    }
    if n == |c.nodeSets| && forall j :: 0 <= j < n ==> c.nodeSets[j].role == FRONTEND_ROLE {
      assert IsFeedService(c, "");
    }
  }

  method FirstNonUiService(c: ClusterSpec) returns (service: string)
    ensures IsFeedService(c, service)
  {
    service := "";
    for i := 0 to |c.nodeSets|
      invariant service == "" && forall j :: 0 <= j < i ==> c.nodeSets[j].role == FRONTEND_ROLE
    {
      if c.nodeSets[i].role != FRONTEND_ROLE {
        service := NodeSetServiceName(c.name, c.nodeSets[i].name);
        break;
      }
    }
  }

  lemma AllIngressesStep(c: ClusterSpec, nodeSets: seq<NodeSet>, i: nat, feedService: string)
    requires i < |nodeSets|
    ensures AllIngresses(c, nodeSets[..i + 1], feedService)
      == AllIngresses(c, nodeSets[..i], feedService) + IngressesOf(c, nodeSets[i], feedService)
  {
    assert nodeSets[..i + 1][..i] == nodeSets[..i];
  }

  method NodeSetIngresses(c: ClusterSpec, n: NodeSet, feedService: string) returns (made: seq<Ingress>)
    ensures made == IngressesOf(c, n, feedService)
  {
    made := [];
    if n.ingressEnabled.Some? && !n.ingressEnabled.value {
      return;
    }
    if n.role != PROCESSING_ROLE {
      made := made + [DefaultIngress(c, n, feedService)];
    }
    if n.role != FRONTEND_ROLE {
      made := made + [DatafeedIngress(c, n)];
    }
  }

  /** All the ingresses that the cluster's specification calls for. */
  ghost function WantedIngresses(c: ClusterSpec): seq<Ingress> {
    AllIngresses(c, c.nodeSets, FeedService(c))
  }

  method CreateIngresses(c: ClusterSpec) returns (ingresses: seq<Ingress>)
    ensures ingresses == WantedIngresses(c)
  {
    var firstNonUiServiceName := FirstNonUiService(c);
    ingresses := [];
    for i := 0 to |c.nodeSets|
      invariant ingresses == AllIngresses(c, c.nodeSets[..i], firstNonUiServiceName)
    {
      AllIngressesStep(c, c.nodeSets, i, firstNonUiServiceName);
      var made := NodeSetIngresses(c, c.nodeSets[i], firstNonUiServiceName);
      ingresses := ingresses + made;
    }
    assert c.nodeSets[..|c.nodeSets|] == c.nodeSets;
    FeedServiceUnique(c, FeedService(c), firstNonUiServiceName);
  }

  // ---------- Application: the last writer of a name wins ----------

  type IngressMap = map<ResourceRef, Ingress>

  function Key(i: Ingress): ResourceRef {
    ResourceRef(i.name, i.namespace)
  }

  function Applied(m: IngressMap, ingresses: seq<Ingress>): IngressMap {
    if ingresses == [] then m
    else Applied(m, ingresses[..|ingresses| - 1])[Key(ingresses[|ingresses| - 1]) := ingresses[|ingresses| - 1]]
  }

  predicate Names(ingresses: seq<Ingress>, key: ResourceRef) {
    exists i :: 0 <= i < |ingresses| && Key(ingresses[i]) == key
  }

  /** Only the ingresses that `ingresses` does not name depend on what was there. */
  lemma AppliedForgets(m1: IngressMap, m2: IngressMap, ingresses: seq<Ingress>)
    requires forall key: ResourceRef :: !Names(ingresses, key) ==> Get(m1, key) == Get(m2, key)
    ensures Applied(m1, ingresses) == Applied(m2, ingresses)
  {
    forall key: ResourceRef
      ensures Get(Applied(m1, ingresses), key) == Get(Applied(m2, ingresses), key)
    {
      AppliedGets(m1, ingresses, key);
      AppliedGets(m2, ingresses, key);
    }
    var a, b := Applied(m1, ingresses), Applied(m2, ingresses);
    forall key: ResourceRef
      ensures key in a <==> key in b
      ensures key in a && key in b ==> a[key] == b[key]
    {
      assert Get(a, key) == Get(b, key);
    }
  }

  /** What the last ingress of that name makes of it. */
  function LastNamed(ingresses: seq<Ingress>, key: ResourceRef): Option<Ingress> {
    if ingresses == [] then None
    else if Key(ingresses[|ingresses| - 1]) == key then Some(ingresses[|ingresses| - 1])
    else LastNamed(ingresses[..|ingresses| - 1], key)
  }

  lemma {:induction false} AppliedGets(m: IngressMap, ingresses: seq<Ingress>, key: ResourceRef)
    ensures Names(ingresses, key) <==> LastNamed(ingresses, key).Some?
    ensures Get(Applied(m, ingresses), key)
      == if Names(ingresses, key) then LastNamed(ingresses, key) else Get(m, key)
  {
    if ingresses != [] {
      var front := ingresses[..|ingresses| - 1];
      AppliedGets(m, front, key);
      if Names(ingresses, key) && Key(ingresses[|ingresses| - 1]) != key {
        var i :| 0 <= i < |ingresses| && Key(ingresses[i]) == key;
        assert Key(front[i]) == key;
      }
      if Names(front, key) {
        var i :| 0 <= i < |front| && Key(front[i]) == key;
        assert Key(ingresses[i]) == key;
      }
    }
  }

  /** A pass that was cut short leaves no trace once a later one goes through. */
  lemma RetryHeals(m: IngressMap, ingresses: seq<Ingress>, n: nat)
    requires n <= |ingresses|
    ensures Applied(Applied(m, ingresses[..n]), ingresses) == Applied(m, ingresses)
  {
    forall key | !Names(ingresses, key)
      ensures Get(Applied(m, ingresses[..n]), key) == Get(m, key)
    {
      assert forall i :: 0 <= i < n ==> ingresses[..n][i] == ingresses[i];
      AppliedGets(m, ingresses[..n], key);
    }
    AppliedForgets(Applied(m, ingresses[..n]), m, ingresses);
  }

  // ---------- Routing ----------

  lemma {:induction false} AppliedJoin(m: IngressMap, a: seq<Ingress>, b: seq<Ingress>)
    ensures Applied(m, a + b) == Applied(Applied(m, a), b)
    decreases |b|
  {
    if b == [] {
      assert a + b == a;
    } else {
      AppliedJoin(m, a, b[..|b| - 1]);
      assert (a + b)[..|a + b| - 1] == a + b[..|b| - 1];
    }
  }

  function Get(m: IngressMap, key: ResourceRef): Option<Ingress> {
    if key in m then Some(m[key]) else None
  }

  /** Whether a NodeSet writes the ingress of that name, and what it writes. */
  predicate Writes(c: ClusterSpec, n: NodeSet, key: ResourceRef) {
    (key == DefaultKey(c) && ServesUsers(n)) || (key == DatafeedKey(c) && TakesFeeds(n))
  }

  function Written(c: ClusterSpec, n: NodeSet, feedService: string, key: ResourceRef): Ingress {
    if key == DefaultKey(c) then DefaultIngress(c, n, feedService) else DatafeedIngress(c, n)
  }

  lemma NamesDiffer(c: ClusterSpec)
    ensures DefaultKey(c) != DatafeedKey(c)
  {
    assert |DefaultName(c)| < |DatafeedName(c)|;
  }

  lemma AppliedPair(m: IngressMap, a: Ingress, b: Ingress)
    ensures Applied(m, [a]) == m[Key(a) := a]
    ensures Applied(m, [a, b]) == m[Key(a) := a][Key(b) := b]
  {
    assert [a][..0] == [] && [a, b][..1] == [a];
  }

  /** Applying the ingresses of one NodeSet. */
  lemma AppliedOne(m: IngressMap, c: ClusterSpec, n: NodeSet, feedService: string, key: ResourceRef)
    ensures Get(Applied(m, IngressesOf(c, n, feedService)), key)
      == if Writes(c, n, key) then Some(Written(c, n, feedService, key)) else Get(m, key)
  {
    NamesDiffer(c);
    var a, b := DefaultIngress(c, n, feedService), DatafeedIngress(c, n);
    AppliedPair(m, a, b);
    AppliedPair(m, b, a);
    assert IngressesOf(c, n, feedService)
      == if ServesUsers(n) && TakesFeeds(n) then [a, b]
         else if ServesUsers(n) then [a] else if TakesFeeds(n) then [b] else [];
  }

  /** `i` is the last NodeSet that writes the ingress of that name. */
  predicate IsLastWriter(c: ClusterSpec, nodeSets: seq<NodeSet>, key: ResourceRef, i: int) {
    && 0 <= i < |nodeSets| && Writes(c, nodeSets[i], key)
    && forall j :: i < j < |nodeSets| ==> !Writes(c, nodeSets[j], key)
  }

  /** What the last NodeSet that writes the ingress of that name makes of it. */
  function LastWritten(c: ClusterSpec, nodeSets: seq<NodeSet>, feedService: string, key: ResourceRef): Option<Ingress> {
    if nodeSets == [] then None
    else
      var last := nodeSets[|nodeSets| - 1];
      if Writes(c, last, key) then Some(Written(c, last, feedService, key))
      else LastWritten(c, nodeSets[..|nodeSets| - 1], feedService, key)
  }

  lemma {:induction false} LastWrittenAt(
      c: ClusterSpec, nodeSets: seq<NodeSet>, feedService: string, key: ResourceRef, i: nat)
    requires IsLastWriter(c, nodeSets, key, i)
    ensures LastWritten(c, nodeSets, feedService, key) == Some(Written(c, nodeSets[i], feedService, key))
  {
    var n := |nodeSets| - 1;
    if i < n {
      assert IsLastWriter(c, nodeSets[..n], key, i);
      LastWrittenAt(c, nodeSets[..n], feedService, key, i);
    }
  }

  lemma {:induction false} NoneWritten(c: ClusterSpec, nodeSets: seq<NodeSet>, feedService: string, key: ResourceRef)
    requires forall j :: 0 <= j < |nodeSets| ==> !Writes(c, nodeSets[j], key)
    ensures LastWritten(c, nodeSets, feedService, key) == None
  {
    if nodeSets != [] {
      NoneWritten(c, nodeSets[..|nodeSets| - 1], feedService, key);
    }
  }

  lemma {:induction false} AppliedAll(
      m: IngressMap, c: ClusterSpec, nodeSets: seq<NodeSet>, feedService: string, key: ResourceRef)
    ensures Get(Applied(m, AllIngresses(c, nodeSets, feedService)), key)
      == var written := LastWritten(c, nodeSets, feedService, key); if written.Some? then written else Get(m, key)
  {
    if nodeSets != [] {
      var front, last := nodeSets[..|nodeSets| - 1], nodeSets[|nodeSets| - 1];
      AppliedAll(m, c, front, feedService, key);
      AppliedJoin(m, AllIngresses(c, front, feedService), IngressesOf(c, last, feedService));
      AppliedOne(Applied(m, AllIngresses(c, front, feedService)), c, last, feedService, key);
    }
  }

  /**
   After all NodeSets, every ingress is what its last writer made it, and one without a writer is as it was.
   */
  lemma LastWriterWins(
      m: IngressMap, c: ClusterSpec, nodeSets: seq<NodeSet>, feedService: string, key: ResourceRef)
    ensures var after := Get(Applied(m, AllIngresses(c, nodeSets, feedService)), key);
      && (forall i :: IsLastWriter(c, nodeSets, key, i) ==> after == Some(Written(c, nodeSets[i], feedService, key)))
      && ((forall j :: 0 <= j < |nodeSets| ==> !Writes(c, nodeSets[j], key)) ==> after == Get(m, key))
  {
    AppliedAll(m, c, nodeSets, feedService, key);
    forall i | IsLastWriter(c, nodeSets, key, i)
      ensures LastWritten(c, nodeSets, feedService, key) == Some(Written(c, nodeSets[i], feedService, key))
    {
      LastWrittenAt(c, nodeSets, feedService, key, i);
    }
    if forall j :: 0 <= j < |nodeSets| ==> !Writes(c, nodeSets[j], key) {
      NoneWritten(c, nodeSets, feedService, key);
    }
  }

  /** The service behind a path of the stored ingress of that name. */
  predicate RoutesTo(m: IngressMap, key: ResourceRef, path: string, service: string) {
    key in m
    && exists i :: 0 <= i < |m[key].rules| && m[key].rules[i].path == path && m[key].rules[i].service == service
  }

  /**
   Where requests go: user traffic to the last NodeSet that serves users, the datafeed address to the last that
   takes feeds, and the exact datafeed path of the default ingress to the first NodeSet that is not a frontend.
   No other ingress is touched.
   */
  lemma Routing(m: IngressMap, c: ClusterSpec, feedService: string, i: int, j: int, other: ResourceRef)
    requires IsFeedService(c, feedService)
    requires 0 <= i < |c.nodeSets| && ServesUsers(c.nodeSets[i])
    requires forall k :: i < k < |c.nodeSets| ==> !ServesUsers(c.nodeSets[k])
    requires 0 <= j < |c.nodeSets| && TakesFeeds(c.nodeSets[j])
    requires forall k :: j < k < |c.nodeSets| ==> !TakesFeeds(c.nodeSets[k])
    requires other != DefaultKey(c) && other != DatafeedKey(c)
    ensures var after := Applied(m, AllIngresses(c, c.nodeSets, feedService));
      && RoutesTo(after, DefaultKey(c), "/", NodeSetServiceName(c.name, c.nodeSets[i].name))
      && RoutesTo(after, DefaultKey(c), "/stroom/noauth/datafeed", feedService)
      && RoutesTo(after, DatafeedKey(c), "/stroom/datafeeddirect", NodeSetServiceName(c.name, c.nodeSets[j].name))
      && Get(after, other) == Get(m, other)
  {
    NamesDiffer(c);
    var after := Applied(m, AllIngresses(c, c.nodeSets, feedService));
    LastWriterWins(m, c, c.nodeSets, feedService, DefaultKey(c));
    LastWriterWins(m, c, c.nodeSets, feedService, DatafeedKey(c));
    LastWriterWins(m, c, c.nodeSets, feedService, other);
    assert IsLastWriter(c, c.nodeSets, DefaultKey(c), i) && IsLastWriter(c, c.nodeSets, DatafeedKey(c), j);
    assert after[DefaultKey(c)] == DefaultIngress(c, c.nodeSets[i], feedService);
    assert after[DatafeedKey(c)] == DatafeedIngress(c, c.nodeSets[j]);
    assert after[DefaultKey(c)].rules[0].service == feedService && after[DefaultKey(c)].rules[1].path == "/";
    assert after[DatafeedKey(c)].rules[0].path == "/stroom/datafeeddirect";
  }
}
