/**
 The StroomCluster controller in its own form: methods that read and update the API server call by call. Each
 is proved to make exactly the steps of the protocol, so that what is proved of all runs holds of a Reconcile.
 */
module ClusterReconciler {
  import opened Resources
  import opened Naming
  import opened Lifecycle
  import opened LifecycleSafety
  import opened Drain
  import opened DrainProgress
  import opened Outcomes
  import opened ApiServers
  import opened Passes
  import opened Rollout
  import opened Ingresses
  import opened ClusterObjects

  // ---------- What decides a pass ----------

  /** The lookup finds the database of a managed cluster, and its claim is free or names the cluster. */
  predicate Claimable(st: Store, k: ResourceRef, c: Cluster) {
    External(c) || var r := ServerOf(k, c.spec); r in st.databases && st.databases[r].claim in {NO_REF, k}
  }

  /** The database is being deleted and so takes no finalizer any more. */
  predicate TooLate(d: Database) {
    d.meta.deleting && !Guarded(d)
  }

  function One(b: bool): nat {
    if b then 1 else 0
  }

  /** The calls that look up the database and claim it. */
  function ClaimCalls(st: Store, k: ResourceRef, c: Cluster): nat {
    if External(c) then 0
    else var r := ServerOf(k, c.spec); 1 + One(r in st.databases && st.databases[r].claim.IsZero())
  }

  /** The calls that place the two finalizers. */
  function GuardCalls(c: Cluster, d: Option<Database>): nat {
    One(d.Some? && !Guarded(d.value)) + One(!Waiting(c))
  }

  function ServerOption(st: Store, k: ResourceRef, c: Cluster): Option<Database> {
    var r := ServerOf(k, c.spec);
    if !External(c) && r in st.databases then Some(st.databases[r]) else None
  }

  function EarlyCalls(st: Store, k: ResourceRef, c: Cluster): nat {
    ClaimCalls(st, k, c) + GuardCalls(c, ServerOption(st, k, c))
  }

  /** The pass of a cluster that stays comes to its children. */
  predicate ComesToChildren(st: Store, k: ResourceRef, c: Cluster, faults: seq<bool>) {
    && !c.meta.deleting && Claimable(st, k, c)
    && (External(c) || !TooLate(st.databases[ServerOf(k, c.spec)]))
    && Clear(faults, EarlyCalls(st, k, c))
  }

  /** Both finalizers are in place. */
  predicate Secured(st: Store, k: ResourceRef) {
    && HeldCluster(st, k)
    && (!External(st.clusters[k]) ==>
          var r := ServerOf(k, st.clusters[k].spec); r in st.databases && Guarded(st.databases[r]))
  }

  // ---------- The reconciler ----------

  /** How to reach the application database. */
  datatype Connection = Connection(address: ServerAddress, userName: string)

  datatype Lookup =
    | ExternalServer(connection: Connection)
    | ManagedServer(connection: Connection, db: Database)
    | LookupFailed

  /** The address of an operator-managed server: its headless Service, and the Secret made for it. */
  function ManagedAddress(server: ResourceRef): ServerAddress {
    ServerAddress(
      ServiceName(server) + "." + server.namespace + ".svc.cluster.local", DATABASE_PORT, DatabaseBaseName(server))
  }

  /**
   A connection leads to the children of its server: to the Service and the Secret that the rollout creates, in the
   server's namespace, as the server's status reports them.
   */
  lemma ConnectionLeadsToChildren(server: ResourceRef)
    ensures var address, stages := ManagedAddress(server), Stages(server);
      && ObjectKey("Secret", server.namespace, address.secretName) in stages
      && (exists service :: ObjectKey("Service", server.namespace, service) in stages
            && address.host == service + "." + server.namespace + ".svc.cluster.local"
            && DeployedStatus(server) == Status("Deployed", service, address.port))
      && address.port == 3306
  {
    var stages := Stages(server);
    assert stages[0] == ObjectKey("Secret", server.namespace, ManagedAddress(server).secretName);
    assert stages[4] == ObjectKey("Service", server.namespace, ServiceName(server));
  }

  /** A cluster's reference to its database, whose ResourceRef is filled in where it stands. */
  class DatabaseServerRef {
    var serverRef: ResourceRef
    const serverAddress: ServerAddress
    const userName: string

    constructor (spec: Spec)
      ensures serverRef == spec.serverRef && serverAddress == spec.address && userName == spec.userName
    {
      serverRef, serverAddress, userName := spec.serverRef, spec.address, spec.userName;
    }
  }

  class StroomClusterReconciler {
    const api: ApiServer
    const objects: ObjectStore

    constructor (api: ApiServer, objects: ObjectStore)
      ensures this.api == api && this.objects == objects
    {
      this.api, this.objects := api, objects;
    }

    /** Where the protocol ends up from the present store, worker `w` and upcoming failures. */
    ghost function Ahead(w: ClusterWorker, deploys: bool): State
      reads api
    {
      FinishWith(State(api.Snapshot(), w, Resting), api.faults, deploys)
    }

    /** Finds the DatabaseServer; an empty namespace in the reference is overwritten by the owner's. */
    method GetDatabaseConnectionInfo(dbRef: DatabaseServerRef, ownerNamespace: string) returns (info: Lookup)
      modifies dbRef, api`faults
      ensures api.Snapshot() == old(api.Snapshot())
      ensures old(dbRef.serverRef).IsZero() ==>
        && info == ExternalServer(Connection(dbRef.serverAddress, dbRef.userName))
        && dbRef.serverRef == old(dbRef.serverRef) && api.faults == old(api.faults)
      ensures !old(dbRef.serverRef).IsZero() ==>
        && dbRef.serverRef == Resolve(old(dbRef.serverRef), ownerNamespace)
        && api.faults == Rest(old(api.faults))
        && info == if !Fails(old(api.faults)) && dbRef.serverRef in api.databases
                   then ManagedServer(Connection(ManagedAddress(dbRef.serverRef), dbRef.userName),
                                      api.databases[dbRef.serverRef])
                   else LookupFailed
    {
      if dbRef.serverRef.IsZero() {
        return ExternalServer(Connection(dbRef.serverAddress, dbRef.userName));
      }
      if dbRef.serverRef.namespace == "" {
        dbRef.serverRef := dbRef.serverRef.(namespace := ownerNamespace);
      }
      var reply := api.GetDatabase(dbRef.serverRef);
      if !reply.Found? {
        return LookupFailed;
      }
      info := ManagedServer(Connection(ManagedAddress(dbRef.serverRef), dbRef.userName), reply.value);
    }

    method ClaimDatabaseServer(
        k: ResourceRef, ghost c: Cluster, dbRef: ResourceRef, db: Database, ghost deploys: bool)
      returns (ok: bool, claimed: Database)
      requires dbRef == ServerOf(k, c.spec)
      modifies api
      ensures Ahead(if ok then AfterClaim(k, c, claimed) else Idle, deploys)
        == old(Ahead(AfterLookup(k, c, db), deploys))
      ensures ok
        == if db.claim.IsZero() then !Fails(old(api.faults)) && AcceptsDatabase(old(api.Snapshot()), dbRef, db.meta)
           else db.claim == k
      ensures api.Snapshot() == if ok && db.claim.IsZero()
                                then WriteDatabase(old(api.Snapshot()), dbRef, db.(claim := dbRef))
                                else old(api.Snapshot())
      ensures api.faults == if db.claim.IsZero() then Rest(old(api.faults)) else old(api.faults)
      ensures claimed
        == if ok && db.claim.IsZero() then Database(Stamp(db.meta, api.revision), dbRef)
           else if db.claim.IsZero() then db.(claim := dbRef) else db
      ensures old(api.Faultless()) ==> api.Faultless()
    {
      if !db.claim.IsZero() {
        return db.claim == k, db;
      }
      ok, claimed := api.UpdateDatabaseObject(dbRef, db.(claim := dbRef));
    }

    method AddDatabaseFinalizer(
        k: ResourceRef, ghost c: Cluster, server: ResourceRef, db: Database, ghost deploys: bool)
      returns (ok: bool)
      requires server == ServerOf(k, c.spec) && !c.meta.deleting
      modifies api
      ensures Ahead(if ok then AfterGuard(k, c) else Idle, deploys) == old(Ahead(AfterClaim(k, c, db), deploys))
      ensures var m := SetFinalizers(db.meta, db.meta.finalizers + {StroomClusterFinalizer});
        && (ok <==> (!Guarded(db) ==> !Fails(old(api.faults)) && AcceptsDatabase(old(api.Snapshot()), server, m)))
        && api.Snapshot() == if ok && !Guarded(db) then WriteDatabase(old(api.Snapshot()), server, db.(meta := m))
                             else old(api.Snapshot())
      ensures api.faults == if Guarded(db) then old(api.faults) else Rest(old(api.faults))
    {
      ok := true;
      if StroomClusterFinalizer !in db.meta.finalizers {
        var fs := db.meta.finalizers + {StroomClusterFinalizer};
        var written;
        ok, written := api.UpdateDatabaseObject(server, db.(meta := db.meta.(finalizers := fs)));
      }
    }

    method AddClusterFinalizer(k: ResourceRef, c: Cluster, ghost deploys: bool) returns (ok: bool)
      requires !c.meta.deleting
      modifies api
      ensures Ahead(if ok then CreateChildren(k) else Idle, deploys) == old(Ahead(AfterGuard(k, c), deploys))
      ensures var m := SetFinalizers(c.meta, c.meta.finalizers + {WaitNodeTasksFinalizer});
        && (ok <==> (!Waiting(c) ==> !Fails(old(api.faults)) && AcceptsCluster(old(api.Snapshot()), k, m)))
        && api.Snapshot() == if ok && !Waiting(c) then WriteCluster(old(api.Snapshot()), k, c.(meta := m))
                             else old(api.Snapshot())
      ensures api.faults == if Waiting(c) then old(api.faults) else Rest(old(api.faults))
    {
      ok := true;
      if WaitNodeTasksFinalizer !in c.meta.finalizers {
        var fs := c.meta.finalizers + {WaitNodeTasksFinalizer};
        ok := api.UpdateClusterObject(k, c.(meta := c.meta.(finalizers := fs)));
      }
    }

    /** Reads the cluster again; one that is gone is an error, one without the finalizer is not. */
    method RemoveClusterFinalizer(
        k: ResourceRef, ghost server: ResourceRef, ghost schema: string, ghost reason: Reason, ghost deploys: bool)
      returns (ok: bool)
      modifies api
      ensures Ahead(if ok then AfterRelease(k, server) else Idle, deploys)
        == old(Ahead(FetchCluster(k, server, schema, reason), deploys))
      ensures ok ==> k in old(api.clusters) && !HeldCluster(api.Snapshot(), k)
      ensures api.Snapshot() == if ok && Waiting(old(api.clusters)[k])
                                then ReleasedCluster(old(api.Snapshot()), k) else old(api.Snapshot())
      ensures old(api.Faultless()) ==> api.Faultless() && ok == (k in old(api.clusters))
    {
      FetchCall(api.Snapshot(), k, server, schema, reason, Resting, api.faults, deploys);
      var reply := api.GetCluster(k);
      if !reply.Found? {
        return false;
      }
      ok := true;
      var c := reply.value;
      if WaitNodeTasksFinalizer in c.meta.finalizers {
        ReleaseCall(api.Snapshot(), k, server, schema, reason, Resting, api.faults, deploys);
        var fs := c.meta.finalizers - {WaitNodeTasksFinalizer};
        ok := api.UpdateClusterObject(k, c.(meta := c.meta.(finalizers := fs)));
      }
    }

    method RemoveDatabaseFinalizer(ghost k: ResourceRef, server: ResourceRef, ghost deploys: bool) returns (ok: bool)
      modifies api
      ensures Ahead(Idle, deploys) == old(Ahead(FetchDatabase(k, server), deploys))
      ensures ok ==> server in old(api.databases)
      ensures ok ==> server in api.databases ==> !Guarded(api.databases[server])
      ensures api.Snapshot() == if ok && Guarded(old(api.databases)[server])
                                then ReleasedDatabase(old(api.Snapshot()), server) else old(api.Snapshot())
      ensures old(api.Faultless()) ==> api.Faultless() && ok == (server in old(api.databases))
    {
      var reply := api.GetDatabase(server);
      if !reply.Found? {
        return false;
      }
      ok := true;
      var d := reply.value;
      assert Ahead(if Guarded(d) then ReleaseDatabase(k, server, d) else Idle, deploys)
        == old(Ahead(FetchDatabase(k, server), deploys));
      if StroomClusterFinalizer in d.meta.finalizers {
        var fs := d.meta.finalizers - {StroomClusterFinalizer};
        var written;
        ok, written := api.UpdateDatabaseObject(server, d.(meta := d.meta.(finalizers := fs)));
      }
    }

    method DisableTaskProcessing(k: ResourceRef, c: Cluster, ghost deploys: bool) returns (ok: bool)
      modifies api
      ensures Ahead(if ok then CountTasks(k, c) else Idle, deploys) == old(Ahead(DisableJobs(k, c), deploys))
      ensures api.Snapshot() == if ok then DisableNodes(old(api.Snapshot()), k, c.spec.schema) else old(api.Snapshot())
      ensures old(api.Faultless()) ==> api.Faultless() && ok
    {
      ok := api.DisableJobNodes(c.spec.schema, BaseName(k.name));
      assert ok ==> api.Snapshot() == DisableNodes(old(api.Snapshot()), k, c.spec.schema);
    }

    /** Fills a map from node name to task count. */
    method CountRemainingTasks(schema: string) returns (ok: bool, remaining: map<string, nat>)
      modifies api`faults
      ensures api.faults == Rest(old(api.faults)) && ok == !Fails(old(api.faults))
      ensures old(api.Faultless()) ==> api.Faultless() && ok
      ensures ok ==> forall x :: x in remaining <==> x in Tasks(api.Snapshot(), schema)
      ensures ok ==> forall x :: x in remaining ==> remaining[x] == Tasks(api.Snapshot(), schema)[x]
    {
      remaining := map[];
      var rows;
      ok, rows := api.QueryTasks(schema);
      if !ok {
        return;
      }
      for i := 0 to |rows|
        invariant forall x :: x in remaining <==> exists j :: 0 <= j < i && rows[j].0 == x
        invariant forall x :: x in remaining ==> remaining[x] == Tasks(api.Snapshot(), schema)[x]
      {
        var (node, count) := rows[i];
        if count > 0 {
          remaining := remaining[node := count];
        }
      }
    }

    /** Counts the tasks that are left in the whole schema. */
    method CheckDrained(k: ResourceRef, c: Cluster, ghost deploys: bool) returns (ok: bool, drained: bool)
      modifies api
      ensures api.Snapshot() == old(api.Snapshot())
      ensures ok ==> (drained <==> !TasksRemain(api.Snapshot(), c.spec.schema))
      ensures old(api.Faultless()) ==> api.Faultless() && ok
      ensures
        Ahead(if ok && drained then FetchCluster(k, ServerOf(k, c.spec), c.spec.schema, Drained) else Idle, deploys)
        == old(Ahead(CountTasks(k, c), deploys))
    {
      var remaining;
      ok, remaining := CountRemainingTasks(c.spec.schema);
      drained := |remaining| == 0;
      if ok {
        if drained {
          assert forall x :: x !in Tasks(api.Snapshot(), c.spec.schema);
        } else {
          var x :| x in remaining;
          assert x in Tasks(api.Snapshot(), c.spec.schema);
        }
      }
    }

    /** Disables the jobs of a cluster's nodes and counts the tasks that are left. */
    method DrainNodes(k: ResourceRef, c: Cluster, ghost deploys: bool) returns (ok: bool, drained: bool)
      modifies api
      ensures
        Ahead(if ok && drained then FetchCluster(k, ServerOf(k, c.spec), c.spec.schema, Drained) else Idle, deploys)
        == old(Ahead(DisableJobs(k, c), deploys))
      ensures ok ==> api.Snapshot() == DisableNodes(old(api.Snapshot()), k, c.spec.schema)
      ensures ok ==> (drained <==> !TasksRemain(api.Snapshot(), c.spec.schema))
      ensures api.deployed == old(api.deployed) && (old(api.Faultless()) ==> api.Faultless() && ok)
    {
      drained := false;
      ok := DisableTaskProcessing(k, c, deploys);
      if ok {
        ok, drained := CheckDrained(k, c, deploys);
      }
    }

    /** `info` holds the stored database, or one that its claim has let go. */
    predicate InHand(info: Lookup, server: ResourceRef)
      reads api
    {
      info.ManagedServer? ==>
        if server in api.databases then api.databases[server] == info.db else Finished(info.db.meta)
    }

    /** The finalizers of a cluster that stays. */
    method AddFinalizers(k: ResourceRef, c: Cluster, info: Lookup, server: ResourceRef, ghost deploys: bool)
      returns (ok: bool)
      requires server == ServerOf(k, c.spec) && k in api.clusters && api.clusters[k] == c && !c.meta.deleting
      requires !info.LookupFailed? && (info.ExternalServer? <==> External(c)) && InHand(info, server)
      modifies api
      ensures Ahead(if ok then CreateChildren(k) else Idle, deploys)
        == old(Ahead(if info.ManagedServer? then AfterClaim(k, c, info.db) else AfterGuard(k, c), deploys))
      ensures var calls := GuardCalls(c, if info.ManagedServer? then Some(info.db) else None);
        && (ok <==> (info.ManagedServer? ==> !TooLate(info.db)) && Clear(old(api.faults), calls))
        && (ok ==> api.faults == Skip(old(api.faults), calls))
      ensures ok ==> Secured(api.Snapshot(), k)
      ensures api.deployed == old(api.deployed)
    {
      SkipStep(api.faults, 0);
      SkipStep(api.faults, 1);
      if info.ManagedServer? {
        ok := AddDatabaseFinalizer(k, c, server, info.db, deploys);
        if !ok {
          return;
        }
      }
      ok := AddClusterFinalizer(k, c, deploys);
    }

    /** The finalizers of a cluster that stays, or the drain, release and clean-up of one that goes. */
    method CheckIfDeleted(
        k: ResourceRef, c: Cluster, spec: ClusterSpec, info: Lookup, server: ResourceRef, ghost deploys: bool)
      returns (ok: bool, requeue: bool, clusterDeleted: bool)
      requires server == ServerOf(k, c.spec) && ClusterKey(spec) == k && k in api.clusters && api.clusters[k] == c
      requires !info.LookupFailed? && (info.ExternalServer? <==> External(c)) && InHand(info, server)
      modifies api, objects`faults, objects`ingresses, objects`pvcs
      ensures clusterDeleted == c.meta.deleting
      ensures Ahead(if ok && !requeue && !clusterDeleted then CreateChildren(k) else Idle, deploys)
        == old(Ahead(if info.ManagedServer? then AfterClaim(k, c, info.db) else AfterGuard(k, c), deploys))
      ensures requeue ==> clusterDeleted && (ok ==> TasksRemain(api.Snapshot(), c.spec.schema))
      ensures ok && !requeue && clusterDeleted ==> !HeldCluster(api.Snapshot(), k)
      ensures !clusterDeleted ==> var calls := GuardCalls(c, if info.ManagedServer? then Some(info.db) else None);
        && (ok <==> (info.ManagedServer? ==> !TooLate(info.db)) && Clear(old(api.faults), calls))
        && (ok ==> api.faults == Skip(old(api.faults), calls) && Secured(api.Snapshot(), k))
      ensures clusterDeleted && old(api.Faultless()) && (info.ManagedServer? ==> server in old(api.databases)) ==> ok
      ensures api.deployed == old(api.deployed)
      ensures objects.Held()
        == if ok && !requeue && clusterDeleted
           then CleanedUp(old(objects.Held()), objects.admission, old(objects.faults), spec) else old(objects.Held())
      ensures !(ok && !requeue && clusterDeleted) ==> objects.faults == old(objects.faults)
    {
      clusterDeleted, requeue := c.meta.deleting, false;
      if !c.meta.deleting {
        ok := AddFinalizers(k, c, info, server, deploys);
        return;
      }
      ok, requeue := ReleaseBoth(k, c, info, server, deploys);
      if ok && !requeue {
        objects.Cleanup(spec);
      }
    }

    /** The deletion branch up to the clean-up. */
    method ReleaseBoth(k: ResourceRef, c: Cluster, info: Lookup, server: ResourceRef, ghost deploys: bool)
      returns (ok: bool, requeue: bool)
      requires server == ServerOf(k, c.spec) && c.meta.deleting
      requires !info.LookupFailed? && (info.ExternalServer? <==> External(c))
      modifies api
      ensures Ahead(Idle, deploys)
        == old(Ahead(if info.ManagedServer? then AfterClaim(k, c, info.db) else AfterGuard(k, c), deploys))
      ensures ok && requeue ==> TasksRemain(api.Snapshot(), c.spec.schema)
      ensures ok && !requeue ==> !HeldCluster(api.Snapshot(), k)
      ensures api.deployed == old(api.deployed)
      ensures old(api.Faultless()) && k in old(api.clusters) && (info.ManagedServer? ==> server in old(api.databases))
        ==> ok
    {
      requeue := false;
      var drained;
      ghost var reason;
      ok, drained, reason := DrainDeployed(k, c, deploys);
      if !ok || !drained {
        return ok, !drained;
      }
      ok := RemoveFinalizers(k, server, info.ManagedServer?, c.spec.schema, reason, deploys);
    }

    /** Lists the cluster's nodes, of which a failing list shows none, and drains them if there are any. */
    method DrainDeployed(k: ResourceRef, c: Cluster, ghost deploys: bool)
      returns (ok: bool, drained: bool, ghost reason: Reason)
      modifies api
      ensures
        Ahead(if ok && drained then FetchCluster(k, ServerOf(k, c.spec), c.spec.schema, reason) else Idle, deploys)
        == old(Ahead(ListNodes(k, c), deploys))
      ensures ok && !drained ==> TasksRemain(api.Snapshot(), c.spec.schema)
      ensures ok ==>
        api.Snapshot() in {old(api.Snapshot()), DisableNodes(old(api.Snapshot()), k, c.spec.schema)}
      ensures api.deployed == old(api.deployed) && (old(api.Faultless()) ==> api.Faultless() && ok)
    {
      label listing:
      ok, drained := true, true;
      var listed, any := api.ListStatefulSets(k);
      reason := if !listed then ListFailed else if !any then NoNodes else Drained;
      if listed && any {
        assert Ahead(DisableJobs(k, c), deploys) == old@listing(Ahead(ListNodes(k, c), deploys));
        ok, drained := DrainNodes(k, c, deploys);
      }
    }

    /** Both finalizers in turn. */
    method RemoveFinalizers(
        k: ResourceRef, server: ResourceRef, managed: bool, ghost schema: string, ghost reason: Reason,
        ghost deploys: bool)
      returns (ok: bool)
      requires managed <==> !server.IsZero()
      modifies api
      ensures Ahead(Idle, deploys) == old(Ahead(FetchCluster(k, server, schema, reason), deploys))
      ensures ok ==> Released(api.Snapshot(), k, server)
      ensures api.deployed == old(api.deployed)
      ensures old(api.Faultless()) && k in old(api.clusters) && (managed ==> server in old(api.databases)) ==> ok
    {
      ok := RemoveClusterFinalizer(k, server, schema, reason, deploys);
      if ok && managed {
        ghost var before := api.Snapshot();
        ok := RemoveDatabaseFinalizer(k, server, deploys);
        DatabaseReleaseKeepsClusters(before, server);
        assert api.Snapshot().clusters == before.clusters;
      }
    }

    /** Wherever a StatefulSet is, its cluster counts as deployed. */
    predicate Coupled()
      reads api, objects
    {
      forall key :: key in objects.statefulSets ==>
        ResourceRef(objects.statefulSets[key].cluster, key.namespace) in api.deployed
    }

    /** Everything the pass deploys once the cluster is found to stay. */
    method DeployChildren(k: ResourceRef, c: ClusterSpec, limit: nat, ghost deploys: bool)
      returns (result: Result, ghost at: Progress)
      requires deploys == objects.Deploys(c) && ClusterKey(c) == k
      modifies api`faults, api`deployed, objects
      ensures api.Snapshot()
        == if deploys && !Fails(old(api.faults)) then WithNodes(old(api.Snapshot()), k) else old(api.Snapshot())
      ensures api.deployed == if at.nodeSets > 0 then old(api.deployed) + {k} else old(api.deployed)
      ensures StopsAt(old(objects.Held()), objects.admission, c, limit, old(api.faults), old(objects.faults), at)
      ensures objects.Held() == DeployedTo(old(objects.Held()), objects.admission, c, limit, at)
      ensures result == Settled
        <==> GoesThrough(old(objects.Held()), objects.admission, c, limit, old(api.faults), old(objects.faults))
      ensures (result == Settled ==> at == Complete(c)) && (result == Requeue <==> at.account)
      ensures Equips(old(objects.plain), objects.plain, c, at, result == Settled)
      ensures old(Coupled()) ==> Coupled()
    {
      var ready, created;
      ready, created, at := Prepare(c, limit);
      result := if created then Requeue else Failure;
      if ready {
        var ok;
        ok, at := DeployReady(k, c, limit, old(objects.plain), old(objects.faults));
        result := if ok then Settled else Failure;
      }
    }

    /** The account and the ConfigMaps, at which the pass may end. */
    method Prepare(c: ClusterSpec, limit: nat) returns (ready: bool, created: bool, ghost at: Progress)
      modifies objects`faults, objects`serviceAccounts, objects`plain
      ensures ready <==> old(objects.BaseIsReady(c))
      ensures ready ==>
        && objects.Held() == old(objects.Held()) && objects.faults == Skip(old(objects.faults), BaseCalls(c))
        && old(objects.plain) <= objects.plain <= old(objects.plain) + ConfigMaps(c)
        && ConfigMaps(c) <= objects.plain && !created
      ensures !ready ==>
        && StopsAt(old(objects.Held()), objects.admission, c, limit, api.faults, old(objects.faults), at)
        && objects.Held() == DeployedTo(old(objects.Held()), objects.admission, c, limit, at)
        && !GoesThrough(old(objects.Held()), objects.admission, c, limit, api.faults, old(objects.faults))
        && Equips(old(objects.plain), objects.plain, c, at, false)
        && at == NO_PROGRESS.(account := created)
    {
      var ok;
      ok, created := objects.ReconcileBase(c);
      ready, at := ok && !created, NO_PROGRESS.(account := created);
      if !ready {
        NothingApplied(old(objects.Held()), objects.admission, c, limit);
        if created {
          AccountApplied(old(objects.Held()), objects.admission, c, limit);
        }
        BaseEquips(old(objects.plain), objects.plain, c, at);
        StopsBefore(old(objects.Held()), objects.admission, c, limit, api.faults, old(objects.faults), at);
      }
    }

    /** The rest of it, after the account and the ConfigMaps. */
    method DeployReady(k: ResourceRef, c: ClusterSpec, limit: nat, ghost plain: set<ObjectKey>, ghost others: seq<bool>)
      returns (ok: bool, ghost at: Progress)
      requires ClusterKey(c) == k && AccountKey(c) in objects.serviceAccounts && Clear(others, BaseCalls(c))
      requires objects.faults == Skip(others, BaseCalls(c))
      requires plain <= objects.plain <= plain + ConfigMaps(c) && ConfigMaps(c) <= objects.plain
      modifies api`faults, api`deployed, objects`faults, objects`statefulSets, objects`pvcs, objects`targeted,
               objects`ingresses, objects`plain
      ensures api.deployed == if at.nodeSets > 0 then old(api.deployed) + {k} else old(api.deployed)
      ensures at.nodeSets > 0 <==> c.nodeSets != [] && !Fails(old(api.faults))
      ensures StopsAt(old(objects.Held()), objects.admission, c, limit, old(api.faults), others, at) && !at.account
      ensures objects.Held() == DeployedTo(old(objects.Held()), objects.admission, c, limit, at)
      ensures ok <==> GoesThrough(old(objects.Held()), objects.admission, c, limit, old(api.faults), others)
      ensures ok ==> at == Complete(c)
      ensures Equips(plain, objects.plain, c, at, ok)
      ensures old(Coupled()) ==> Coupled()
    {
      ghost var ready, full := objects.plain, 0;
      ok, full, at := DeployObjects(k, c, limit);
      PassEquips(plain, ready, objects.plain, c, full, at, ok);
      StopsWith(old(objects.Held()), objects.admission, c, limit, old(api.faults), others, at);
    }

    /** The NodeSets, and then the ingresses; `full` NodeSets have both their Services. */
    method DeployObjects(k: ResourceRef, c: ClusterSpec, limit: nat)
      returns (ok: bool, ghost full: nat, ghost at: Progress)
      requires ClusterKey(c) == k
      modifies api`faults, api`deployed, objects`faults, objects`statefulSets, objects`pvcs, objects`targeted,
               objects`ingresses, objects`plain
      ensures api.deployed == if at.nodeSets > 0 then old(api.deployed) + {k} else old(api.deployed)
      ensures at.nodeSets > 0 <==> c.nodeSets != [] && !Fails(old(api.faults))
      ensures MayStopAt(old(objects.Held()), c, at) && !at.account && (ok ==> at == Complete(c))
      ensures full <= at.nodeSets <= full + 1 && (ok || at.ingresses > 0 ==> full == |c.nodeSets|)
      ensures MakesServices(old(objects.plain), objects.plain, c, full, at.nodeSets)
      ensures objects.Held() == DeployedTo(old(objects.Held()), objects.admission, c, limit, at)
      ensures forall i :: 0 <= i < |c.nodeSets| ==>
        (i < at.nodeSets <==> NodeSetStarts(
           old(objects.View()), objects.admission, c, limit, old(api.faults), old(objects.faults), i))
      ensures var done :=
          NodeSetsDone(
            old(objects.View()), objects.admission, c, limit, old(api.faults), old(objects.faults), |c.nodeSets|);
        var left := Skip(old(objects.faults), 2 * |c.nodeSets|);
        && at.ingresses == (if done then Successes(left, |WantedIngresses(c)|) else 0)
        && (ok <==> done && Clear(left, |WantedIngresses(c)|))
      ensures old(Coupled()) ==> Coupled()
    {
      ghost var done, applied := 0, 0;
      NothingApplied(objects.Held(), objects.admission, c, limit);
      ok, full, done := DeployNodeSets(k, c, limit);
      if ok {
        ok, applied := objects.ReconcileIngresses(c);
      }
      at := Progress(false, done, applied);
    }

    /**
     The NodeSets in turn: StatefulSet, dropped claims and two Services each. For the protocol it is the call for
     the first StatefulSet that counts.
     */
    method DeployNodeSets(k: ResourceRef, c: ClusterSpec, limit: nat)
      returns (ok: bool, ghost full: nat, ghost done: nat)
      requires ClusterKey(c) == k
      modifies api`faults, api`deployed, objects`faults, objects`statefulSets, objects`pvcs, objects`targeted,
               objects`plain
      ensures api.deployed == if done > 0 then old(api.deployed) + {k} else old(api.deployed)
      ensures done <= |c.nodeSets| && (ok ==> done == |c.nodeSets|)
      ensures objects.View() == WithNodeSets(old(objects.View()), objects.admission, c, c.nodeSets[..done], limit)
      ensures forall i :: 0 <= i < |c.nodeSets| ==>
        (i < done <==> NodeSetStarts(
           old(objects.View()), objects.admission, c, limit, old(api.faults), old(objects.faults), i))
      ensures ok
        <==> NodeSetsDone(
               old(objects.View()), objects.admission, c, limit, old(api.faults), old(objects.faults), |c.nodeSets|)
      ensures ok ==> objects.faults == Skip(old(objects.faults), 2 * |c.nodeSets|)
      ensures done > 0 <==> c.nodeSets != [] && !Fails(old(api.faults))
      ensures full <= done <= full + 1 && (ok ==> full == done)
      ensures MakesServices(old(objects.plain), objects.plain, c, full, done)
      ensures old(Coupled()) ==> Coupled()
    {
      ghost var before, faults, others := objects.View(), api.faults, objects.faults;
      ok, full, done := ApplyNodeSets(k, c, limit, before, faults, others);
      NodeSetsEnd(before, objects.admission, c, limit, faults, others, full);
      if c.nodeSets != [] {
        FirstStarts(before, objects.admission, c, limit, faults, others);
      }
    }

    /** The loop, from the workload `before` and with the calls that `faults` and `others` predict. */
    method ApplyNodeSets(
        k: ResourceRef, c: ClusterSpec, limit: nat,
        ghost before: Workload, ghost faults: seq<bool>, ghost others: seq<bool>)
      returns (ok: bool, ghost n: nat, ghost done: nat)
      requires ClusterKey(c) == k
      requires before == objects.View() && faults == api.faults && others == objects.faults
      modifies api`faults, api`deployed, objects`faults, objects`statefulSets, objects`pvcs, objects`targeted,
               objects`plain
      ensures if ok then n == done == |c.nodeSets| && GotTo(before, faults, others, c, limit, n)
              else n < |c.nodeSets| && GotInto(before, faults, others, c, limit, n, done)
      ensures n <= done <= n + 1 && done <= |c.nodeSets|
      ensures MakesServices(old(objects.plain), objects.plain, c, n, done)
      ensures api.deployed == if done > 0 then old(api.deployed) + {k} else old(api.deployed)
      ensures old(Coupled()) ==> Coupled()
    {
      ok, n, done := true, 0, 0;
      ghost var plain := objects.plain;
      SkipStep(faults, 0);
      SkipStep(others, 0);
      for i := 0 to |c.nodeSets|
        invariant ok && n == done == i && GotTo(before, faults, others, c, limit, i)
        invariant MakesServices(plain, objects.plain, c, i, i)
        invariant api.deployed == if i > 0 then old(api.deployed) + {k} else old(api.deployed)
        invariant old(Coupled()) ==> Coupled()
      {
        var started;
        ok, started := DeployNodeSet(k, c, i, limit, before, plain, faults, others);
        done := if started then i + 1 else i;
        if !ok {
          return;
        }
        n := i + 1;
      }
    }

    /** The first `n` NodeSets are applied to `before`, and their calls, as `faults` and `others` say, are made. */
    predicate GotTo(
        before: Workload, faults: seq<bool>, others: seq<bool>, c: ClusterSpec, limit: nat, n: nat)
      requires n <= |c.nodeSets|
      reads api, objects
    {
      && NodeSetsDone(before, objects.admission, c, limit, faults, others, n)
      && api.faults == Skip(faults, n) && objects.faults == Skip(others, 2 * n)
      && objects.View() == WithNodeSets(before, objects.admission, c, c.nodeSets[..n], limit)
    }

    /** The next one is not finished, although it may be started. */
    predicate GotInto(
        before: Workload, faults: seq<bool>, others: seq<bool>, c: ClusterSpec, limit: nat, n: nat, done: nat)
      requires n < |c.nodeSets|
      reads objects
    {
      && NodeSetsDone(before, objects.admission, c, limit, faults, others, n)
      && !NodeSetsDone(before, objects.admission, c, limit, faults, others, n + 1)
      && done == (if NodeSetStarts(before, objects.admission, c, limit, faults, others, n) then n + 1 else n)
      && objects.View() == WithNodeSets(before, objects.admission, c, c.nodeSets[..done], limit)
    }

    /** The next NodeSet. */
    method DeployNodeSet(
        k: ResourceRef, c: ClusterSpec, n: nat, limit: nat,
        ghost before: Workload, ghost plain: set<ObjectKey>, ghost faults: seq<bool>, ghost others: seq<bool>)
      returns (ok: bool, started: bool)
      requires ClusterKey(c) == k && n < |c.nodeSets| && GotTo(before, faults, others, c, limit, n)
      requires MakesServices(plain, objects.plain, c, n, n)
      modifies api`faults, api`deployed, objects`faults, objects`statefulSets, objects`pvcs, objects`targeted,
               objects`plain
      ensures started == NodeSetStarts(before, objects.admission, c, limit, faults, others, n)
      ensures ok == NodeSetsDone(before, objects.admission, c, limit, faults, others, n + 1) && (ok ==> started)
      ensures ok ==> GotTo(before, faults, others, c, limit, n + 1)
      ensures api.deployed == if started then old(api.deployed) + {k} else old(api.deployed)
      ensures objects.View()
        == WithNodeSets(before, objects.admission, c, c.nodeSets[..if started then n + 1 else n], limit)
      ensures MakesServices(plain, objects.plain, c, if ok then n + 1 else n, if started then n + 1 else n)
      ensures old(Coupled()) ==> Coupled()
    {
      WithNodeSetsStep(before, objects.admission, c, limit, n);
      SkipStep(faults, n);
      SkipJoin(others, 2 * n, 2);
      NodeSetStep(before, objects.admission, c, limit, faults, others, n);
      ghost var held := objects.plain;
      ok, started := ApplyOne(k, c, c.nodeSets[n], limit);
      if started {
        ServicesGrow(plain, held, objects.plain, c, n, ok);
      }
    }

    /** The StatefulSet, of which the protocol's call takes note, and the rest of one NodeSet. */
    method ApplyOne(k: ResourceRef, c: ClusterSpec, n: NodeSet, limit: nat) returns (ok: bool, started: bool)
      requires ClusterKey(c) == k
      modifies api`faults, api`deployed, objects`faults, objects`statefulSets, objects`pvcs, objects`targeted,
               objects`plain
      ensures started == !Fails(old(api.faults)) && api.faults == Rest(old(api.faults))
      ensures ok <==> started && Finishes(old(objects.statefulSets), c, n, limit) && Clear(old(objects.faults), 2)
      ensures ok ==> objects.faults == Skip(old(objects.faults), 2)
      ensures api.deployed == if started then old(api.deployed) + {k} else old(api.deployed)
      ensures objects.View()
        == if started then WithNodeSet(old(objects.View()), objects.admission, c, n, limit) else old(objects.View())
      ensures old(objects.plain) <= objects.plain <= old(objects.plain) + Services(c, n)
      ensures (ok ==> Services(c, n) <= objects.plain) && (!started ==> objects.plain == old(objects.plain))
      ensures old(Coupled()) ==> Coupled()
    {
      started := api.ApplyChildren(k);
      ok := started;
      if started {
        ok := objects.ApplyNodeSet(c, n, limit);
      }
    }

    /** Reads and claims the database of a managed cluster. */
    method ClaimedDatabase(k: ResourceRef, c: Cluster, ghost deploys: bool)
      returns (ok: bool, info: Lookup, server: ResourceRef)
      modifies api
      ensures ok ==> server == ServerOf(k, c.spec) && !info.LookupFailed? && (info.ExternalServer? <==> External(c))
      ensures api.clusters == old(api.clusters) && api.deployed == old(api.deployed)
      ensures ok <==>
        Claimable(old(api.Snapshot()), k, c) && Clear(old(api.faults), ClaimCalls(old(api.Snapshot()), k, c))
      ensures ok ==> api.faults == Skip(old(api.faults), ClaimCalls(old(api.Snapshot()), k, c))
      ensures ok && info.ManagedServer? ==>
        && InHand(info, server) && info.db.meta.deleting == old(api.databases)[server].meta.deleting
        && info.db.meta.finalizers == old(api.databases)[server].meta.finalizers
      ensures old(api.Faultless()) ==> api.Faultless()
      ensures
        Ahead(
          if !ok then Idle else if info.ManagedServer? then AfterClaim(k, c, info.db) else AfterGuard(k, c), deploys)
        == old(Ahead(if External(c) then AfterGuard(k, c) else Lifecycle.GetDatabase(k, c), deploys))
    {
      SkipStep(api.faults, 0);
      SkipStep(api.faults, 1);
      var dbRef := new DatabaseServerRef(c.spec);
      ok := true;
      info := GetDatabaseConnectionInfo(dbRef, k.namespace);
      server := NO_REF;
      if info.LookupFailed? {
        ok := false;
      } else if info.ManagedServer? {
        server := dbRef.serverRef;
        assert Ahead(AfterLookup(k, c, info.db), deploys) == old(Ahead(Lifecycle.GetDatabase(k, c), deploys));
        var claimed;
        ok, claimed := ClaimDatabaseServer(k, c, dbRef.serverRef, info.db, deploys);
        info := info.(db := claimed);
      }
    }

    /**
     One pass over cluster `k`, of which `spec` is the rest of the specification. The protocol's objects end up as
     in its pass. The others are left alone unless the cluster is there and its pass gets past the lookup, the claim
     and the finalizers, or completes a deletion; then they are deployed up to the point at which the calls stop it,
     or cleaned up.
     */
    method Reconcile(k: ResourceRef, spec: ClusterSpec, limit: nat) returns (result: Result, ghost at: Progress)
      requires ClusterKey(spec) == k
      modifies api, objects
      ensures State(api.Snapshot(), Idle, Resting)
        == PassWith(State(old(api.Snapshot()), Idle, Resting), k, old(api.faults), old(objects.Deploys(spec)))
      ensures k !in old(api.clusters) || Fails(old(api.faults)) ==>
        && objects.Held() == old(objects.Held()) && objects.plain == old(objects.plain)
        && at == NO_PROGRESS && api.deployed == old(api.deployed)
        && result == if Fails(old(api.faults)) then Failure else Settled
      ensures k in old(api.clusters) && !Fails(old(api.faults)) ==>
        if old(api.clusters)[k].meta.deleting then
          Deleted(old(api.Snapshot()), Rest(old(api.faults)), old(objects.Held()), old(objects.faults),
                  k, old(api.clusters)[k], spec, result) && at == NO_PROGRESS && objects.plain == old(objects.plain)
        else
          Stayed(old(api.Snapshot()), Rest(old(api.faults)),
                 old(objects.Held()), old(objects.plain), old(objects.faults),
                 k, old(api.clusters)[k], spec, limit, result, at)
      ensures old(Coupled()) ==> Coupled()
    {
      at := NO_PROGRESS;
      ghost var deploys := objects.Deploys(spec);
      BeginCall(api.Snapshot(), k, Resting, api.faults, deploys);
      var reply := api.GetCluster(k);
      if !reply.Found? {
        result := if reply.NotFound? then Settled else Failure;
        return;
      }
      result, at := ReconcileFound(k, reply.value, spec, limit, deploys);
    }

    /**
     What the pass of a cluster being deleted leaves: everything as it was until it is complete, and then cleaned up.
     It fails only if some call did, or the claim is another's, or the database is missing or should be.
     */
    ghost predicate Deleted(
        st: Store, faults: seq<bool>, h: Holdings, others: seq<bool>,
        k: ResourceRef, c: Cluster, spec: ClusterSpec, result: Result)
      reads api, objects
    {
      && api.deployed == st.deployed
      && objects.Held() == (if result == Settled then CleanedUp(h, objects.admission, others, spec) else h)
      && (result == Settled ==> !HeldCluster(api.Snapshot(), k))
      && (result == Requeue ==> TasksRemain(api.Snapshot(), c.spec.schema))
      && (!Claimable(st, k, c) ==> result == Failure)
      && (result == Failure ==>
            true in faults || !Claimable(st, k, c)
            || (!External(c) && Finished(st.databases[ServerOf(k, c.spec)].meta)))
    }

    /**
     What the pass of any other cluster leaves: with both finalizers in place, the children up to the point where
     the calls stop it, and everything as it was if it does not come so far.
     */
    ghost predicate Stayed(
        st: Store, faults: seq<bool>, h: Holdings, plain: set<ObjectKey>, others: seq<bool>,
        k: ResourceRef, c: Cluster, spec: ClusterSpec, limit: nat, result: Result, at: Progress)
      reads api, objects
    {
      var left := Skip(faults, EarlyCalls(st, k, c));
      && api.deployed == (if at.nodeSets > 0 then st.deployed + {k} else st.deployed)
      && if ComesToChildren(st, k, c, faults) then
           && Secured(api.Snapshot(), k)
           && StopsAt(h, objects.admission, spec, limit, left, others, at)
           && objects.Held() == DeployedTo(h, objects.admission, spec, limit, at)
           && Equips(plain, objects.plain, spec, at, result == Settled)
           && (result == Settled <==> GoesThrough(h, objects.admission, spec, limit, left, others))
           && (result == Settled ==> at == Complete(spec)) && (result == Requeue <==> at.account)
         else
           objects.Held() == h && objects.plain == plain && at == NO_PROGRESS && result == Failure
    }

    /** The claim and the finalizers, or the whole of a deletion. */
    method ClaimAndCheck(k: ResourceRef, c: Cluster, spec: ClusterSpec, ghost deploys: bool) returns (result: Result)
      requires ClusterKey(spec) == k && k in api.clusters && api.clusters[k] == c
      modifies api, objects`faults, objects`ingresses, objects`pvcs
      ensures Ahead(if result == Settled && !c.meta.deleting then CreateChildren(k) else Idle, deploys)
        == old(Ahead(if External(c) then AfterGuard(k, c) else Lifecycle.GetDatabase(k, c), deploys))
      ensures c.meta.deleting ==>
        Deleted(old(api.Snapshot()), old(api.faults), old(objects.Held()), old(objects.faults), k, c, spec, result)
      ensures !c.meta.deleting ==>
        && objects.Held() == old(objects.Held()) && objects.faults == old(objects.faults)
        && api.deployed == old(api.deployed) && result != Requeue
        && (result == Settled <==> ComesToChildren(old(api.Snapshot()), k, c, old(api.faults)))
        && (result == Settled ==>
              && api.faults == Skip(old(api.faults), EarlyCalls(old(api.Snapshot()), k, c))
              && Secured(api.Snapshot(), k))
    {
      SkipJoin(
        api.faults, ClaimCalls(api.Snapshot(), k, c), GuardCalls(c, ServerOption(api.Snapshot(), k, c)));
      var ok, info, server := ClaimedDatabase(k, c, deploys);
      if !ok {
        return Failure;
      }
      var requeue, clusterDeleted;
      ok, requeue, clusterDeleted := CheckIfDeleted(k, c, spec, info, server, deploys);
      result := if !ok then Failure else if requeue then Requeue else Settled;
    }

    /** The pass once it has read its cluster. */
    method ReconcileFound(k: ResourceRef, c: Cluster, spec: ClusterSpec, limit: nat, ghost deploys: bool)
      returns (result: Result, ghost at: Progress)
      requires ClusterKey(spec) == k && deploys == objects.Deploys(spec)
      requires k in api.clusters && api.clusters[k] == c
      modifies api, objects
      ensures Ahead(Idle, deploys)
        == old(Ahead(if External(c) then AfterGuard(k, c) else Lifecycle.GetDatabase(k, c), deploys))
      ensures if c.meta.deleting then
          Deleted(old(api.Snapshot()), old(api.faults), old(objects.Held()), old(objects.faults), k, c, spec, result)
          && at == NO_PROGRESS && objects.plain == old(objects.plain)
        else
          Stayed(
            old(api.Snapshot()), old(api.faults), old(objects.Held()), old(objects.plain), old(objects.faults),
            k, c, spec, limit, result, at)
      ensures old(Coupled()) ==> Coupled()
    {
      at := NO_PROGRESS;
      result := ClaimAndCheck(k, c, spec, deploys);
      if result != Settled || c.meta.deleting {
        return;
      }
      ChildrenCall(api.Snapshot(), k, Resting, api.faults, deploys);
      result, at := DeployChildren(k, spec, limit, deploys);
    }
  }

  /**
   A Reconcile in which no call fails, on a deleted cluster without nodes or tasks, removes both finalizers: `after`
   is the store that its contract allows.
   */
  lemma ReconcileReleases(
      p: Policy, before: Store, after: Store, k: ResourceRef, schema: string, faults: seq<bool>, deploys: bool)
    requires Sound(p) && Safe(p, State(before, Idle, Resting)) && Draining(State(before, Idle, Resting), k, schema)
    requires k !in before.deployed || !TasksRemain(before, schema)
    requires true !in faults
    requires State(after, Idle, Resting) == PassWith(State(before, Idle, Resting), k, faults, deploys)
    ensures Released(after, k, ServerOf(k, before.clusters[k].spec))
  {
    FaultlessPassReleases(p, State(before, Idle, Resting), k, schema, faults, deploys);
  }
}
