/** The API server and the application databases as an object, whose calls the controllers make one by one. */
module ApiServers {
  import opened Resources
  import opened Lifecycle
  import opened Outcomes

  datatype Reply<+T> = Found(value: T) | NotFound | Failed

  class ApiServer {
    var revision: nat
    var clusters: map<ResourceRef, Cluster>
    var databases: map<ResourceRef, Database>
    var deployed: set<ResourceRef>
    var enabled: set<NodeRef>
    var processing: map<string, multiset<string>>
    var faults: seq<bool>

    function Snapshot(): Store
      reads this
    {
      Store(revision, clusters, databases, deployed, enabled, processing)
    }

    predicate Faultless()
      reads this`faults
    {
      true !in faults
    }

    method TakeFault() returns (failed: bool)
      modifies `faults
      ensures failed == Fails(old(faults)) && faults == Rest(old(faults))
      ensures old(Faultless()) ==> Faultless() && !failed
    {
      RestIsPart(faults);
      failed := Fails(faults);
      faults := Rest(faults);
    }

    method GetCluster(k: ResourceRef) returns (reply: Reply<Cluster>)
      modifies `faults
      ensures faults == Rest(old(faults)) && (old(Faultless()) ==> Faultless() && !Fails(old(faults)))
      ensures reply == if Fails(old(faults)) then Failed else if k in clusters then Found(clusters[k]) else NotFound
    {
      var failed := TakeFault();
      reply := if failed then Failed else if k in clusters then Found(clusters[k]) else NotFound;
    }

    method GetDatabase(r: ResourceRef) returns (reply: Reply<Database>)
      modifies `faults
      ensures faults == Rest(old(faults)) && (old(Faultless()) ==> Faultless() && !Fails(old(faults)))
      ensures reply == if Fails(old(faults)) then Failed else if r in databases then Found(databases[r]) else NotFound
    {
      var failed := TakeFault();
      reply := if failed then Failed else if r in databases then Found(databases[r]) else NotFound;
    }

    /** Writes the whole object; the caller's copy takes the new version. */
    method UpdateClusterObject(k: ResourceRef, c: Cluster) returns (ok: bool)
      modifies this
      ensures faults == Rest(old(faults)) && (old(Faultless()) ==> Faultless() && !Fails(old(faults)))
      ensures ok == (!Fails(old(faults)) && AcceptsCluster(old(Snapshot()), k, c.meta))
      ensures Snapshot() == if ok then WriteCluster(old(Snapshot()), k, c) else old(Snapshot())
    {
      var failed := TakeFault();
      ok := !failed && k in clusters && clusters[k].meta.version == c.meta.version
        && (clusters[k].meta.deleting ==> c.meta.finalizers <= clusters[k].meta.finalizers);
      if ok {
        revision := revision + 1;
        if c.meta.deleting && c.meta.finalizers == {} {
          clusters := clusters - {k};
        } else {
          clusters := clusters[k := c.(meta := c.meta.(version := revision))];
        }
      }
    }

    method UpdateDatabaseObject(r: ResourceRef, d: Database) returns (ok: bool, written: Database)
      modifies this
      ensures faults == Rest(old(faults)) && (old(Faultless()) ==> Faultless() && !Fails(old(faults)))
      ensures ok == (!Fails(old(faults)) && AcceptsDatabase(old(Snapshot()), r, d.meta))
      ensures Snapshot() == if ok then WriteDatabase(old(Snapshot()), r, d) else old(Snapshot())
      ensures written == if ok then d.(meta := Stamp(d.meta, revision)) else d
    {
      var failed := TakeFault();
      written := d;
      ok := !failed && r in databases && databases[r].meta.version == d.meta.version
        && (databases[r].meta.deleting ==> d.meta.finalizers <= databases[r].meta.finalizers);
      if ok {
        revision := revision + 1;
        written := d.(meta := d.meta.(version := revision));
        if d.meta.deleting && d.meta.finalizers == {} {
          databases := databases - {r};
        } else {
          databases := databases[r := written];
        }
      }
    }

    /** Whether some StatefulSet carries the cluster's labels. */
    method ListStatefulSets(k: ResourceRef) returns (ok: bool, any: bool)
      modifies `faults
      ensures faults == Rest(old(faults)) && (old(Faultless()) ==> Faultless() && !Fails(old(faults)))
      ensures ok == !Fails(old(faults)) && (ok ==> any == (k in deployed))
    {
      var failed := TakeFault();
      ok, any := !failed, k in deployed;
    }

    method ApplyChildren(k: ResourceRef) returns (ok: bool)
      modifies `faults, `deployed
      ensures faults == Rest(old(faults)) && ok == !Fails(old(faults))
      ensures old(Faultless()) ==> Faultless() && ok
      ensures deployed == if ok then old(deployed) + {k} else old(deployed)
    {
      var failed := TakeFault();
      ok := !failed;
      if ok {
        deployed := deployed + {k};
      }
    }

    /** Disables the rows of the nodes of one application database whose name begins with `prefix`. */
    method DisableJobNodes(schema: string, prefix: string) returns (ok: bool)
      modifies `faults, `enabled
      ensures faults == Rest(old(faults)) && ok == !Fails(old(faults))
      ensures old(Faultless()) ==> Faultless() && ok
      ensures enabled == if ok then set n | n in old(enabled) && !(n.schema == schema && prefix <= n.node)
                         else old(enabled)
    {
      var failed := TakeFault();
      ok := !failed;
      if ok {
        enabled := set n | n in enabled && !(n.schema == schema && prefix <= n.node);
      }
    }

    /** Processing tasks grouped by node: one row a node, in no particular order. */
    method QueryTasks(schema: string) returns (ok: bool, rows: seq<(string, nat)>)
      modifies `faults
      ensures faults == Rest(old(faults)) && ok == !Fails(old(faults))
      ensures old(Faultless()) ==> Faultless() && ok
      ensures ok ==> forall i :: 0 <= i < |rows| ==> rows[i].1 > 0 && rows[i].1 == Tasks(Snapshot(), schema)[rows[i].0]
      ensures ok ==> forall x :: x in Tasks(Snapshot(), schema) ==> exists i :: 0 <= i < |rows| && rows[i].0 == x
    {
      var failed := TakeFault();
      ok, rows := !failed, [];
      var all := if schema in processing then processing[schema] else multiset{};
      var left := all;
      while left != multiset{}
        invariant forall x :: left[x] == 0 || left[x] == all[x]
        invariant forall i :: 0 <= i < |rows| ==> rows[i].1 > 0 && rows[i].1 == all[rows[i].0]
        invariant forall x :: x in all && x !in left ==> exists i :: 0 <= i < |rows| && rows[i].0 == x
        decreases |left|
      {
        var x :| x in left;
        ghost var before := rows;
        rows := rows + [(x, left[x])];
        assert rows[|before|].0 == x;
        assert forall i :: 0 <= i < |before| ==> rows[i] == before[i];
        left := left[x := 0];
      }
    }
  }
}
