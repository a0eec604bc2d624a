/** What every ingress of a cluster looks like, and that requests arrive at Services that exist. */
module IngressShapes {
  import opened Resources
  import opened Naming
  import opened Ingresses
  import opened ClusterObjects

  /** A NodeSet behind the default ingress, or behind the one for data feeds. */
  predicate ForUsers(n: NodeSet) {
    n.ingressEnabled != Some(false) && n.role != "Processing"
  }

  predicate ForFeeds(n: NodeSet) {
    n.ingressEnabled != Some(false) && n.role != "Frontend"
  }

  /** The Service in front of a NodeSet's nodes. */
  function FrontService(c: ClusterSpec, n: NodeSet): string {
    "stroom-" + c.name + "-node-" + n.name + "-http"
  }

  function RuleTo(c: ClusterSpec, path: string, service: string): Rule {
    Rule(c.hostName, path,
         if c.pathTypeOverride then ImplementationSpecific else if path == "/" then Prefix else Exact,
         service, if c.https then "app-https" else "app-http")
  }

  predicate IsFirstBackend(c: ClusterSpec, i: nat) {
    && i < |c.nodeSets| && c.nodeSets[i].role != "Frontend"
    && forall j :: 0 <= j < i ==> c.nodeSets[j].role == "Frontend"
  }

  lemma FeedServiceIs(c: ClusterSpec)
    ensures forall i: nat :: IsFirstBackend(c, i) ==> FeedService(c) == FrontService(c, c.nodeSets[i])
    ensures (forall j :: 0 <= j < |c.nodeSets| ==> c.nodeSets[j].role == "Frontend") ==> FeedService(c) == ""
  {
    forall i: nat | IsFirstBackend(c, i)
      ensures FeedService(c) == FrontService(c, c.nodeSets[i])
    {
      assert IsFeedService(c, NodeSetServiceName(c.name, c.nodeSets[i].name));
      FeedServiceUnique(c, FeedService(c), NodeSetServiceName(c.name, c.nodeSets[i].name));
    }
  }

  function UsersKey(c: ClusterSpec): ResourceRef {
    ResourceRef("stroom-" + c.name, c.namespace)
  }

  function FeedsKey(c: ClusterSpec): ResourceRef {
    ResourceRef("stroom-" + c.name + "-datafeed", c.namespace)
  }

  lemma KeysAre(c: ClusterSpec)
    ensures UsersKey(c) == DefaultKey(c) && FeedsKey(c) == DatafeedKey(c) && UsersKey(c) != FeedsKey(c)
  {
    NamesDiffer(c);
  }

  /** What the two ingresses route, and by which NodeSets. */
  lemma DefaultRules(c: ClusterSpec, n: NodeSet, feedService: string)
    ensures DefaultIngress(c, n, feedService).rules
      == [RuleTo(c, "/stroom/noauth/datafeed", feedService), RuleTo(c, "/", FrontService(c, n))]
    ensures ServesUsers(n) <==> ForUsers(n)
  {
    assert |"/"| == 1 && |"/stroom/noauth/datafeed"| == 23;
  }

  lemma DatafeedRules(c: ClusterSpec, n: NodeSet)
    ensures DatafeedIngress(c, n).rules == [RuleTo(c, "/stroom/datafeeddirect", FrontService(c, n))]
    ensures TakesFeeds(n) <==> ForFeeds(n)
  {
    assert |"/"| == 1 && |"/stroom/datafeeddirect"| == 22;
  }

  // ---------- Labels, annotations and TLS ----------

  /** `m` has the user's pairs, and those of `own` that the user does not set. */
  predicate Overlays(m: map<string, string>, own: map<string, string>, user: map<string, string>) {
    && (forall key :: key in user ==> key in m && m[key] == user[key])
    && (forall key :: key in own && key !in user ==> key in m && m[key] == own[key])
    && (forall key :: key in m ==> key in user || key in own)
  }

  function OwnAnnotations(c: ClusterSpec, forUsers: bool): map<string, string> {
    if forUsers then
      map["nginx.ingress.kubernetes.io/backend-protocol" := if c.https then "HTTPS" else "HTTP",
          "nginx.ingress.kubernetes.io/affinity" := "cookie",
          "nginx.ingress.kubernetes.io/affinity-mode" := "persistent",
          "nginx.ingress.kubernetes.io/proxy-body-size" := "0"]
    else
      map["nginx.ingress.kubernetes.io/rewrite-target" := "/stroom/noauth/datafeed",
          "nginx.ingress.kubernetes.io/proxy-body-size" := "0",
          "haproxy.router.openshift.io/rewrite-target" := "/stroom/noauth/datafeed"]
  }

  function OwnLabels(c: ClusterSpec): map<string, string> {
    map["app.kubernetes.io/name" := "stroom", "app.kubernetes.io/component" := "stroom-cluster",
        "stroom/cluster" := c.name]
  }

  /** The ingress is the one for users, or for feeds, that NodeSet `n` calls for. */
  predicate MadeFor(c: ClusterSpec, n: NodeSet, i: Ingress, forUsers: bool) {
    && n in c.nodeSets && (if forUsers then ForUsers(n) else ForFeeds(n))
    && ResourceRef(i.name, i.namespace) == (if forUsers then UsersKey(c) else FeedsKey(c))
    && i.className == c.className
    && i.tls == (if c.https then Tls([c.hostName], c.secretName) else Tls([], ""))
    && Overlays(i.labels, OwnLabels(c), n.labels)
    && Overlays(i.annotations, OwnAnnotations(c, forUsers), n.annotations)
  }

  lemma OwnPrevailOnlyUnset(own: map<string, string>, user: map<string, string>)
    ensures Overlays(own + user, own, user)
  {
  }

  lemma DefaultIngressMadeFor(c: ClusterSpec, n: NodeSet, feedService: string)
    requires n in c.nodeSets && ForUsers(n)
    ensures MadeFor(c, n, DefaultIngress(c, n, feedService), true)
  {
    OwnPrevailOnlyUnset(OwnLabels(c), n.labels);
    OwnPrevailOnlyUnset(OwnAnnotations(c, true), n.annotations);
    assert DefaultIngress(c, n, feedService).labels == OwnLabels(c) + n.labels;
    assert DefaultIngress(c, n, feedService).annotations == OwnAnnotations(c, true) + n.annotations;
  }

  lemma DatafeedIngressMadeFor(c: ClusterSpec, n: NodeSet)
    requires n in c.nodeSets && ForFeeds(n)
    ensures MadeFor(c, n, DatafeedIngress(c, n), false)
  {
    OwnPrevailOnlyUnset(OwnLabels(c), n.labels);
    OwnPrevailOnlyUnset(OwnAnnotations(c, false), n.annotations);
    assert DatafeedIngress(c, n).labels == OwnLabels(c) + n.labels;
    assert DatafeedIngress(c, n).annotations == OwnAnnotations(c, false) + n.annotations;
  }

  /** An ingress of the cluster is one of a NodeSet's. */
  lemma {:induction false} IngressIsOne(c: ClusterSpec, nodeSets: seq<NodeSet>, feedService: string, i: Ingress)
    returns (n: NodeSet)
    requires i in AllIngresses(c, nodeSets, feedService)
    ensures n in nodeSets
    ensures (ServesUsers(n) && i == DefaultIngress(c, n, feedService)) || (TakesFeeds(n) && i == DatafeedIngress(c, n))
  {
    n := nodeSets[|nodeSets| - 1];
    if i !in IngressesOf(c, n, feedService) {
      n := IngressIsOne(c, nodeSets[..|nodeSets| - 1], feedService, i);
    }
  }

  /**
   Every ingress of a cluster is made for one of its enabled NodeSets: class, TLS, and labels and annotations, of which
   the user's prevail.
   */
  lemma WantedIngressesMadeFor(c: ClusterSpec, i: Ingress) returns (n: NodeSet, forUsers: bool)
    requires i in WantedIngresses(c)
    ensures MadeFor(c, n, i, forUsers)
  {
    n := IngressIsOne(c, c.nodeSets, FeedService(c), i);
    DefaultRules(c, n, FeedService(c));
    DatafeedRules(c, n);
    forUsers := ServesUsers(n) && i == DefaultIngress(c, n, FeedService(c));
    if forUsers {
      DefaultIngressMadeFor(c, n, FeedService(c));
    } else {
      DatafeedIngressMadeFor(c, n);
    }
  }

  // ---------- Where requests go ----------

  function PlainService(c: ClusterSpec, service: string): ObjectKey {
    ObjectKey("Service", c.namespace, service)
  }

  /**
   After a pass over all ingresses the one for users routes feeds to the first NodeSet that is no frontend and all else
   to the last NodeSet for users.
   */
  lemma UsersArrive(m: IngressMap, c: ClusterSpec, b: nat, i: nat)
    requires IsFirstBackend(c, b)
    requires i < |c.nodeSets| && ForUsers(c.nodeSets[i])
      && forall k :: i < k < |c.nodeSets| ==> !ForUsers(c.nodeSets[k])
    ensures var after := Applied(m, WantedIngresses(c));
      && UsersKey(c) in after
      && after[UsersKey(c)].rules == [RuleTo(c, "/stroom/noauth/datafeed", FrontService(c, c.nodeSets[b])),
                                      RuleTo(c, "/", FrontService(c, c.nodeSets[i]))]
  {
    FeedServiceIs(c);
    KeysAre(c);
    DefaultRules(c, c.nodeSets[i], FeedService(c));
    LastWriterWins(m, c, c.nodeSets, FeedService(c), DefaultKey(c));
    assert IsLastWriter(c, c.nodeSets, DefaultKey(c), i);
  }

  /** The other one routes to the last NodeSet for feeds. */
  lemma FeedsArrive(m: IngressMap, c: ClusterSpec, j: nat)
    requires j < |c.nodeSets| && ForFeeds(c.nodeSets[j])
      && forall k :: j < k < |c.nodeSets| ==> !ForFeeds(c.nodeSets[k])
    ensures var after := Applied(m, WantedIngresses(c));
      && FeedsKey(c) in after
      && after[FeedsKey(c)].rules == [RuleTo(c, "/stroom/datafeeddirect", FrontService(c, c.nodeSets[j]))]
  {
    KeysAre(c);
    DatafeedRules(c, c.nodeSets[j]);
    LastWriterWins(m, c, c.nodeSets, FeedService(c), DatafeedKey(c));
    assert IsLastWriter(c, c.nodeSets, DatafeedKey(c), j);
  }

  /** Without a NodeSet for users, or for feeds, the ingress is left as it was, and so is every third one. */
  lemma NobodyServes(m: IngressMap, c: ClusterSpec, key: ResourceRef)
    requires key == UsersKey(c) ==> forall k :: 0 <= k < |c.nodeSets| ==> !ForUsers(c.nodeSets[k])
    requires key == FeedsKey(c) ==> forall k :: 0 <= k < |c.nodeSets| ==> !ForFeeds(c.nodeSets[k])
    ensures Get(Applied(m, WantedIngresses(c)), key) == Get(m, key)
  {
    KeysAre(c);
    LastWriterWins(m, c, c.nodeSets, FeedService(c), key);
    forall k | 0 <= k < |c.nodeSets|
      ensures !Writes(c, c.nodeSets[k], key)
    {
      DefaultRules(c, c.nodeSets[k], FeedService(c));
      DatafeedRules(c, c.nodeSets[k]);
    }
  }

  // ---------- The Services are there ----------

  lemma FrontServiceIsThere(plain: set<ObjectKey>, c: ClusterSpec, i: nat)
    requires i < |c.nodeSets| && AllServices(c, |c.nodeSets|) <= plain
    ensures PlainService(c, FrontService(c, c.nodeSets[i])) in plain
  {
    ServiceOf(c, |c.nodeSets|, i);
    assert PlainService(c, FrontService(c, c.nodeSets[i])) in Services(c, c.nodeSets[i]);
  }

  lemma FeedServiceIsThere(plain: set<ObjectKey>, c: ClusterSpec, n: nat)
    requires n <= |c.nodeSets| && AllServices(c, |c.nodeSets|) <= plain
    requires forall j :: 0 <= j < n ==> c.nodeSets[j].role == "Frontend"
    ensures FeedService(c) == "" || PlainService(c, FeedService(c)) in plain
    decreases |c.nodeSets| - n
  {
    FeedServiceIs(c);
    if n < |c.nodeSets| {
      if c.nodeSets[n].role == "Frontend" {
        FeedServiceIsThere(plain, c, n + 1);
      } else {
        assert IsFirstBackend(c, n);
        FrontServiceIsThere(plain, c, n);
      }
    }
  }

  /**
   Every ingress that a pass applies sends requests to Services that the pass has made, whatever stops it later; only
   without any NodeSet but frontends is there no Service for feeds.
   */
  lemma RoutesLeadToServices(
      before: set<ObjectKey>, after: set<ObjectKey>, c: ClusterSpec, at: Progress, settled: bool,
      i: Ingress, rule: Rule)
    requires at.nodeSets <= |c.nodeSets| && at.ingresses <= |WantedIngresses(c)|
    requires Equips(before, after, c, at, settled)
    requires i in WantedIngresses(c)[..at.ingresses] && rule in i.rules
    ensures PlainService(c, rule.service) in after
      || (rule.service == "" && forall n :: n in c.nodeSets ==> n.role == "Frontend")
  {
    var n := IngressIsOne(c, c.nodeSets, FeedService(c), i);
    var k :| 0 <= k < |c.nodeSets| && c.nodeSets[k] == n;
    FrontServiceIsThere(after, c, k);
    RuleLeads(c, n, FeedService(c), i, rule);
    FeedServiceIsThere(after, c, 0);
    FeedServiceIsNamed(c);
  }

  lemma RuleLeads(c: ClusterSpec, n: NodeSet, feedService: string, i: Ingress, rule: Rule)
    requires i == DefaultIngress(c, n, feedService) || i == DatafeedIngress(c, n)
    requires rule in i.rules
    ensures rule.service == FrontService(c, n) || rule.service == feedService
  {
    DefaultRules(c, n, feedService);
    DatafeedRules(c, n);
  }

  lemma FeedServiceIsNamed(c: ClusterSpec)
    ensures FeedService(c) == "" ==> forall n :: n in c.nodeSets ==> n.role == "Frontend"
  {
    FeedServiceIs(c);
    if exists j :: 0 <= j < |c.nodeSets| && c.nodeSets[j].role != "Frontend" {
      var b := FirstBackend(c, 0);
      assert FeedService(c) == FrontService(c, c.nodeSets[b]);
      assert |FeedService(c)| > 0;
    }
  }

  lemma FirstBackend(c: ClusterSpec, n: nat) returns (b: nat)
    requires n <= |c.nodeSets| && forall j :: 0 <= j < n ==> c.nodeSets[j].role == "Frontend"
    requires exists j :: 0 <= j < |c.nodeSets| && c.nodeSets[j].role != "Frontend"
    ensures IsFirstBackend(c, b)
    decreases |c.nodeSets| - n
  {
    b := n;
    if c.nodeSets[n].role == "Frontend" {
      b := FirstBackend(c, n + 1);
    }
  }
}
