/**
 The protocol by which the StroomCluster and DatabaseServer controllers share the API server.

 Every API call of either controller is one step, so that the two controllers, users and the Stroom nodes
 interleave between any two calls. `Update` succeeds only on the version that was read, and an object that is
 marked for deletion disappears with its last finalizer.
 */
module Lifecycle {
  import opened Resources
  import opened Naming

  // ---------- Stored objects ----------

  /** The operator's two finalizers, and those of other parties. */
  datatype Finalizer = StroomClusterFinalizer | WaitNodeTasksFinalizer | Foreign(name: string)

  datatype Meta = Meta(uid: nat, version: nat, deleting: bool, finalizers: set<Finalizer>)

  /**
   The part of a StroomClusterSpec that concerns its database: a managed server, or else an address, the user, and
   the schema that identifies the application database.
   */
  datatype Spec = Spec(serverRef: ResourceRef, address: ServerAddress, userName: string, schema: string)

  datatype Cluster = Cluster(meta: Meta, spec: Spec)

  datatype Database = Database(meta: Meta, claim: ResourceRef)

  /** A Stroom node as it is recorded in one application database. */
  datatype NodeRef = NodeRef(schema: string, node: string)

  /**
   `deployed` holds the clusters whose labels some StatefulSet carries, `enabled` the nodes with an enabled
   row in job_node, and `processing`, for each application database, one node for each processor task in
   state Processing.
   */
  datatype Store = Store(
    revision: nat,
    clusters: map<ResourceRef, Cluster>,
    databases: map<ResourceRef, Database>,
    deployed: set<ResourceRef>,
    enabled: set<NodeRef>,
    processing: map<string, multiset<string>>)

  predicate Waiting(c: Cluster) {
    WaitNodeTasksFinalizer in c.meta.finalizers
  }

  predicate Guarded(d: Database) {
    StroomClusterFinalizer in d.meta.finalizers
  }

  predicate External(c: Cluster) {
    c.spec.serverRef.IsZero()
  }

  /** The DatabaseServer that cluster `k` refers to, or NO_REF when its database is external. */
  function ServerOf(k: ResourceRef, spec: Spec): ResourceRef {
    if spec.serverRef.IsZero() then NO_REF else Resolve(spec.serverRef, k.namespace)
  }

  // ---------- API server ----------

  function Stamp(m: Meta, version: nat): Meta {
    m.(version := version)
  }

  predicate Finished(m: Meta) {
    m.deleting && m.finalizers == {}
  }

  function WriteCluster(st: Store, k: ResourceRef, c: Cluster): Store {
    var v := st.revision + 1;
    if Finished(c.meta) then
      st.(revision := v, clusters := st.clusters - {k})
    else
      st.(revision := v, clusters := st.clusters[k := c.(meta := Stamp(c.meta, v))])
  }

  function WriteDatabase(st: Store, r: ResourceRef, d: Database): Store {
    var v := st.revision + 1;
    if Finished(d.meta) then
      st.(revision := v, databases := st.databases - {r})
    else
      st.(revision := v, databases := st.databases[r := d.(meta := Stamp(d.meta, v))])
  }

  predicate ClusterIsAt(st: Store, k: ResourceRef, version: nat) {
    k in st.clusters && st.clusters[k].meta.version == version
  }

  predicate DatabaseIsAt(st: Store, r: ResourceRef, version: nat) {
    r in st.databases && st.databases[r].meta.version == version
  }

  /** An object that is being deleted takes no finalizer that it does not have. */
  predicate MayFollow(stored: Meta, fs: set<Finalizer>) {
    stored.deleting ==> fs <= stored.finalizers
  }

  /** Whether a write of an object with these properties, version included, takes effect. */
  predicate AcceptsCluster(st: Store, k: ResourceRef, m: Meta) {
    ClusterIsAt(st, k, m.version) && MayFollow(st.clusters[k].meta, m.finalizers)
  }

  predicate AcceptsDatabase(st: Store, r: ResourceRef, m: Meta) {
    DatabaseIsAt(st, r, m.version) && MayFollow(st.databases[r].meta, m.finalizers)
  }

  function SetFinalizers(m: Meta, fs: set<Finalizer>): Meta {
    m.(finalizers := fs)
  }

  /** A write that is not accepted leaves the store alone. */
  function UpdateCluster(st: Store, k: ResourceRef, read: Cluster, fs: set<Finalizer>): Store {
    if AcceptsCluster(st, k, SetFinalizers(read.meta, fs)) then
      WriteCluster(st, k, read.(meta := SetFinalizers(read.meta, fs)))
    else
      st
  }

  function UpdateDatabase(st: Store, r: ResourceRef, read: Database, claim: ResourceRef, fs: set<Finalizer>): Store {
    if AcceptsDatabase(st, r, SetFinalizers(read.meta, fs)) then
      WriteDatabase(st, r, Database(SetFinalizers(read.meta, fs), claim))
    else
      st
  }

  // ---------- StroomCluster controller ----------

  /** Why a cluster being deleted came to the removal of its wait-for-tasks finalizer. */
  datatype Reason = NoNodes | ListFailed | Drained

  /**
   The next API call of the reconcile pass in flight, with the copies read so far. `server` is NO_REF for an
   external database.
   */
  datatype ClusterWorker =
    | Idle
    | GetDatabase(key: ResourceRef, cluster: Cluster)
    | Claim(key: ResourceRef, cluster: Cluster, db: Database)
    | GuardDatabase(key: ResourceRef, cluster: Cluster, db: Database)
    | HoldCluster(key: ResourceRef, cluster: Cluster)
    | CreateChildren(key: ResourceRef)
    | ListNodes(key: ResourceRef, cluster: Cluster)
    | DisableJobs(key: ResourceRef, cluster: Cluster)
    | CountTasks(key: ResourceRef, cluster: Cluster)
    | FetchCluster(key: ResourceRef, server: ResourceRef, schema: string, reason: Reason)
    | ReleaseCluster(key: ResourceRef, server: ResourceRef, schema: string, reason: Reason, cluster: Cluster)
    | FetchDatabase(key: ResourceRef, server: ResourceRef)
    | ReleaseDatabase(key: ResourceRef, server: ResourceRef, db: Database)

  function Rank(w: ClusterWorker): nat {
    match w
    case Idle => 0
    case GetDatabase(_, _) => 12
    case Claim(_, _, _) => 11
    case GuardDatabase(_, _, _) => 10
    case HoldCluster(_, _) => 9
    case CreateChildren(_) => 8
    case ListNodes(_, _) => 7
    case DisableJobs(_, _) => 6
    case CountTasks(_, _) => 5
    case FetchCluster(_, _, _, _) => 4
    case ReleaseCluster(_, _, _, _, _) => 3
    case FetchDatabase(_, _) => 2
    case ReleaseDatabase(_, _, _) => 1
  }

  /** The pass once its database reference is resolved and, for a managed database, the finalizer is placed. */
  function AfterGuard(k: ResourceRef, c: Cluster): ClusterWorker {
    if c.meta.deleting then ListNodes(k, c)
    else if Waiting(c) then CreateChildren(k)
    else HoldCluster(k, c)
  }

  function AfterClaim(k: ResourceRef, c: Cluster, d: Database): ClusterWorker {
    if !c.meta.deleting && !Guarded(d) then GuardDatabase(k, c, d) else AfterGuard(k, c)
  }

  /** The pass once it has read its database: claim it, find it claimed by this cluster, or give up. */
  function AfterLookup(k: ResourceRef, c: Cluster, d: Database): ClusterWorker {
    if d.claim.IsZero() then Claim(k, c, d)
    else if d.claim == k then AfterClaim(k, c, d)
    else Idle
  }

  function AfterRelease(k: ResourceRef, server: ResourceRef): ClusterWorker {
    if server.IsZero() then Idle else FetchDatabase(k, server)
  }

  /** `node_name like '<base name>%'` */
  predicate NodeOf(k: ResourceRef, n: NodeRef, schema: string) {
    n.schema == schema && BaseName(k.name) <= n.node
  }

  function Tasks(st: Store, schema: string): multiset<string> {
    if schema in st.processing then st.processing[schema] else multiset{}
  }

  function DisableNodes(st: Store, k: ResourceRef, schema: string): Store {
    st.(enabled := set n | n in st.enabled && !NodeOf(k, n, schema))
  }

  /** The count covers every node of the application database, not only those of one cluster. */
  predicate TasksRemain(st: Store, schema: string) {
    Tasks(st, schema) != multiset{}
  }

  datatype State = State(store: Store, cw: ClusterWorker, dw: DatabaseWorker)

  function StartCluster(st: Store, k: ResourceRef): ClusterWorker {
    if k !in st.clusters then Idle
    else
      var c := st.clusters[k];
      if External(c) then AfterGuard(k, c) else GetDatabase(k, c)
  }

  function ClusterCall(st: Store, w: ClusterWorker): (Store, ClusterWorker) {
    match w
    case Idle => (st, Idle)
    case GetDatabase(k, c) =>
      var r := ServerOf(k, c.spec);
      if r !in st.databases then (st, Idle)
      else (st, AfterLookup(k, c, st.databases[r]))
    case Claim(k, c, d) =>
      // The reference written is the one the cluster holds, which names the database itself
      var r := ServerOf(k, c.spec);
      if AcceptsDatabase(st, r, d.meta) then
        var st' := UpdateDatabase(st, r, d, r, d.meta.finalizers);
        (st', AfterClaim(k, c, Database(Stamp(d.meta, st'.revision), r)))
      else (st, Idle)
    case GuardDatabase(k, c, d) =>
      var r := ServerOf(k, c.spec);
      if AcceptsDatabase(st, r, SetFinalizers(d.meta, d.meta.finalizers + {StroomClusterFinalizer})) then
        (UpdateDatabase(st, r, d, d.claim, d.meta.finalizers + {StroomClusterFinalizer}), AfterGuard(k, c))
      else (st, Idle)
    case HoldCluster(k, c) =>
      if AcceptsCluster(st, k, SetFinalizers(c.meta, c.meta.finalizers + {WaitNodeTasksFinalizer})) then
        (UpdateCluster(st, k, c, c.meta.finalizers + {WaitNodeTasksFinalizer}), CreateChildren(k))
      else (st, Idle)
    case CreateChildren(k) =>
      (st.(deployed := st.deployed + {k}), Idle)
    case ListNodes(k, c) =>
      if k in st.deployed then (st, DisableJobs(k, c))
      else (st, FetchCluster(k, ServerOf(k, c.spec), c.spec.schema, NoNodes))
    case DisableJobs(k, c) =>
      (DisableNodes(st, k, c.spec.schema), CountTasks(k, c))
    case CountTasks(k, c) =>
      if TasksRemain(st, c.spec.schema) then (st, Idle)
      else (st, FetchCluster(k, ServerOf(k, c.spec), c.spec.schema, Drained))
    case FetchCluster(k, server, schema, reason) =>
      if k !in st.clusters then (st, Idle)
      else if Waiting(st.clusters[k]) then (st, ReleaseCluster(k, server, schema, reason, st.clusters[k]))
      else (st, AfterRelease(k, server))
    case ReleaseCluster(k, server, schema, reason, c) =>
      if AcceptsCluster(st, k, SetFinalizers(c.meta, c.meta.finalizers - {WaitNodeTasksFinalizer})) then
        (UpdateCluster(st, k, c, c.meta.finalizers - {WaitNodeTasksFinalizer}), AfterRelease(k, server))
      else (st, Idle)
    case FetchDatabase(k, server) =>
      if server in st.databases && Guarded(st.databases[server]) then
        (st, ReleaseDatabase(k, server, st.databases[server]))
      else (st, Idle)
    case ReleaseDatabase(k, server, d) =>
      (UpdateDatabase(st, server, d, d.claim, d.meta.finalizers - {StroomClusterFinalizer}), Idle)
  }

  /**
   A call that fails for another reason than a missing object or a version conflict ends the pass, except
   that a failing list of the nodes counts as an empty one.
   */
  function ClusterFault(w: ClusterWorker): ClusterWorker {
    match w
    case ListNodes(k, c) => FetchCluster(k, ServerOf(k, c.spec), c.spec.schema, ListFailed)
    case _ => Idle
  }

  // ---------- DatabaseServer controller ----------

  datatype DatabaseWorker =
    | Resting
    | LookupCluster(key: ResourceRef, db: Database)
    | Unguard(key: ResourceRef, db: Database)
    | WriteStatus(key: ResourceRef, db: Database)

  /** The pass once it has read its database. */
  function AfterRead(r: ResourceRef, d: Database): DatabaseWorker {
    if !d.meta.deleting then WriteStatus(r, d)
    else if !Guarded(d) then Resting
    else if d.claim.IsZero() then Unguard(r, d)
    else LookupCluster(r, d)
  }

  function StartDatabase(st: Store, r: ResourceRef): DatabaseWorker {
    if r !in st.databases then Resting else AfterRead(r, st.databases[r])
  }

  function DatabaseCall(st: Store, w: DatabaseWorker): (Store, DatabaseWorker) {
    match w
    case Resting => (st, Resting)
    case LookupCluster(r, d) =>
      (st, if d.claim in st.clusters then Resting else Unguard(r, d))
    case Unguard(r, d) =>
      (UpdateDatabase(st, r, d, d.claim, d.meta.finalizers - {StroomClusterFinalizer}), Resting)
    case WriteStatus(r, d) =>
      // A status update leaves finalizers and claim alone but takes a new version
      (UpdateDatabase(st, r, d, d.claim, d.meta.finalizers), Resting)
  }

  /** Any failure to read the claiming cluster counts as its absence. */
  function DatabaseFault(w: DatabaseWorker): DatabaseWorker {
    match w
    case LookupCluster(r, d) => Unguard(r, d)
    case _ => Resting
  }

  // ---------- The whole system ----------

  datatype Action =
    // users and other parties
    | CreateCluster(key: ResourceRef, spec: Spec, finalizers: set<Finalizer>)
    | DeleteCluster(key: ResourceRef)
    | TouchCluster(key: ResourceRef, finalizers: set<Finalizer>)
    | CreateDatabase(key: ResourceRef, finalizers: set<Finalizer>)
    | DeleteDatabase(key: ResourceRef)
    | TouchDatabase(key: ResourceRef, finalizers: set<Finalizer>)
    | RemoveNodes(key: ResourceRef)
    // Stroom nodes
    | StartTask(node: NodeRef)
    | FinishTask(node: NodeRef)
    | EnableJobs(node: NodeRef)
    // the two controllers: begin a pass, make its next call, have that call fail, or give the pass up
    | ClusterBegins(key: ResourceRef)
    | ClusterCalls
    | ClusterFaults
    | ClusterStops
    | DatabaseBegins(key: ResourceRef)
    | DatabaseCalls
    | DatabaseFaults
    | DatabaseStops

  function DeleteObject(m: Meta): Meta {
    m.(deleting := true)
  }

  function UserStep(st: Store, a: Action): Store {
    match a
    case CreateCluster(k, spec, fs) =>
      if k in st.clusters || WaitNodeTasksFinalizer in fs then st
      else WriteCluster(st, k, Cluster(Meta(st.revision + 1, 0, false, fs), spec))
    case DeleteCluster(k) =>
      if k !in st.clusters then st
      else var c := st.clusters[k]; WriteCluster(st, k, c.(meta := DeleteObject(c.meta)))
    case TouchCluster(k, fs) =>
      if k !in st.clusters || (WaitNodeTasksFinalizer in fs <==> !Waiting(st.clusters[k])) then st
      else if !MayFollow(st.clusters[k].meta, fs) then st
      else var c := st.clusters[k]; WriteCluster(st, k, c.(meta := SetFinalizers(c.meta, fs)))
    case CreateDatabase(r, fs) =>
      if r in st.databases || StroomClusterFinalizer in fs then st
      else WriteDatabase(st, r, Database(Meta(st.revision + 1, 0, false, fs), NO_REF))
    case DeleteDatabase(r) =>
      if r !in st.databases then st
      else var d := st.databases[r]; WriteDatabase(st, r, d.(meta := DeleteObject(d.meta)))
    case TouchDatabase(r, fs) =>
      if r !in st.databases || (StroomClusterFinalizer in fs <==> !Guarded(st.databases[r])) then st
      else if !MayFollow(st.databases[r].meta, fs) then st
      else var d := st.databases[r]; WriteDatabase(st, r, d.(meta := SetFinalizers(d.meta, fs)))
    case RemoveNodes(k) => st.(deployed := st.deployed - {k})
    case StartTask(n) =>
      // A node whose jobs are disabled takes no new task
      if n in st.enabled then
        st.(processing := st.processing[n.schema := Tasks(st, n.schema) + multiset{n.node}])
      else st
    case FinishTask(n) => st.(processing := st.processing[n.schema := Tasks(st, n.schema) - multiset{n.node}])
    case EnableJobs(n) => st.(enabled := st.enabled + {n})
    case _ => st
  }

  function Step(s: State, a: Action): State {
    match a
    case ClusterBegins(k) => if s.cw.Idle? then s.(cw := StartCluster(s.store, k)) else s
    case ClusterCalls => var (st, w) := ClusterCall(s.store, s.cw); State(st, w, s.dw)
    case ClusterFaults => s.(cw := ClusterFault(s.cw))
    case ClusterStops => s.(cw := Idle)
    case DatabaseBegins(r) => if s.dw.Resting? then s.(dw := StartDatabase(s.store, r)) else s
    case DatabaseCalls => var (st, w) := DatabaseCall(s.store, s.dw); State(st, s.cw, w)
    case DatabaseFaults => s.(dw := DatabaseFault(s.dw))
    case DatabaseStops => s.(dw := Resting)
    case _ => s.(store := UserStep(s.store, a))
  }

  function Exec(s: State, run: seq<Action>): State
    decreases |run|
  {
    if run == [] then s else Exec(Step(s, run[0]), run[1..])
  }

  const EMPTY_STORE := Store(0, map[], map[], {}, {}, map[])
  const INITIAL := State(EMPTY_STORE, Idle, Resting)

  // ---------- What users and the environment may do ----------

  /**
   Whether a cluster may be created while its database is being deleted: never, only while no pass of the
   DatabaseServer controller is in flight, or at any time.
   */
  datatype Reuse = Never | BetweenPasses | AnyTime

  /**
   `specs` fixes the specification of each cluster name. `lookupErrors` lets the DatabaseServer controller's
   read of the claiming cluster fail, `listErrors` lets the list of a cluster's nodes fail, and `reenable` lets
   the jobs of a node of a cluster being deleted be enabled again.
   */
  datatype Policy = Policy(
    specs: map<ResourceRef, Spec>,
    lookupErrors: bool,
    listErrors: bool,
    reuse: Reuse,
    reenable: bool)

  predicate Terminating(st: Store, k: ResourceRef, spec: Spec) {
    !spec.serverRef.IsZero()
    && ServerOf(k, spec) in st.databases
    && st.databases[ServerOf(k, spec)].meta.deleting
  }

  predicate NodeOfDeleted(st: Store, n: NodeRef) {
    exists k :: k in st.clusters && st.clusters[k].meta.deleting && NodeOf(k, n, st.clusters[k].spec.schema)
  }

  predicate Allowed(p: Policy, s: State, a: Action) {
    match a
    case CreateCluster(k, spec, _) =>
      && k in p.specs && p.specs[k] == spec
      && (Terminating(s.store, k, spec) ==> p.reuse == AnyTime || (p.reuse == BetweenPasses && s.dw.Resting?))
    case ClusterFaults => s.cw.ListNodes? ==> p.listErrors
    case DatabaseFaults => s.dw.LookupCluster? ==> p.lookupErrors
    case EnableJobs(n) => NodeOfDeleted(s.store, n) ==> p.reenable
    case _ => true
  }

  predicate AllowedRun(p: Policy, s: State, run: seq<Action>)
    decreases |run|
  {
    run == [] || (Allowed(p, s, run[0]) && AllowedRun(p, Step(s, run[0]), run[1..]))
  }

  /** State `t` is the end of some run that the policy allows. */
  ghost predicate Reaches(p: Policy, s: State, t: State) {
    exists run :: AllowedRun(p, s, run) && Exec(s, run) == t
  }

  lemma {:induction false} ExecAppend(p: Policy, s: State, run: seq<Action>, a: Action)
    requires AllowedRun(p, s, run)
    ensures Exec(s, run + [a]) == Step(Exec(s, run), a)
    ensures Allowed(p, Exec(s, run), a) ==> AllowedRun(p, s, run + [a])
    decreases |run|
  {
    if run == [] {
      assert run + [a] == [a];
      assert [a][1..] == [];
    } else {
      ExecAppend(p, Step(s, run[0]), run[1..], a);
      assert (run + [a])[1..] == run[1..] + [a];
    }
  }

  lemma ReachesSelf(p: Policy, s: State)
    ensures Reaches(p, s, s)
  {
    assert AllowedRun(p, s, []) && Exec(s, []) == s;
  }

  lemma Advance(p: Policy, s: State, t: State, a: Action) returns (u: State)
    requires Reaches(p, s, t)
    requires Allowed(p, t, a)
    ensures u == Step(t, a)
    ensures Reaches(p, s, u)
  {
    var run :| AllowedRun(p, s, run) && Exec(s, run) == t;
    ExecAppend(p, s, run, a);
    u := Step(t, a);
    assert AllowedRun(p, s, run + [a]) && Exec(s, run + [a]) == u;
  }
}
