/**
 The DatabaseServer controller in its own form: the finalizer logic of the protocol, then the staged creation
 of the children and the status that reports it.
 */
module DatabaseReconciler {
  import opened Resources
  import opened Lifecycle
  import opened Outcomes
  import opened Passes
  import opened ApiServers
  import opened Rollout

  // ---------- Child objects ----------

  class ChildServer {
    var objects: map<ObjectKey, string>
    var faults: seq<bool>

    /** A failing read is an error; only a missing object is created. */
    method GetOrCreate(key: ObjectKey, content: string) returns (outcome: Creation)
      modifies this
      ensures key in old(objects) ==> objects == old(objects) && outcome != Created
      ensures key !in old(objects) ==> outcome != Existing
      ensures key !in old(objects) && outcome == Created ==> objects == old(objects)[key := content]
      ensures outcome == Error ==> objects == old(objects) && true in old(faults)
      ensures true !in old(faults) ==> true !in faults
    {
      var getFails := Fails(faults);
      assert getFails ==> true in faults;
      faults := Rest(faults);
      if getFails {
        return Error;
      }
      if key in objects {
        return Existing;
      }
      var createFails := Fails(faults);
      assert createFails ==> true in faults && true in old(faults);
      faults := Rest(faults);
      if createFails {
        return Error;
      }
      objects := objects[key := content];
      outcome := Created;
    }
  }

  class DatabaseServerReconciler {
    const api: ApiServer
    const children: ChildServer
    var statuses: map<ResourceRef, Status>

    constructor (api: ApiServer, children: ChildServer)
      ensures this.api == api && this.children == children && statuses == map[]
    {
      this.api, this.children, this.statuses := api, children, map[];
    }

    ghost function Ahead(w: DatabaseWorker): State
      reads api
    {
      FinishDatabase(State(api.Snapshot(), Idle, w), api.faults)
    }

    /** The database exists and is not being deleted. */
    predicate Lives(r: ResourceRef)
      reads api
    {
      r in api.databases && !api.databases[r].meta.deleting
    }

    predicate NoFaults()
      reads api, children
    {
      true !in api.faults && true !in children.faults
    }

    method CheckIfDeleted(r: ResourceRef, d: Database) returns (deleted: bool, ok: bool)
      modifies api
      ensures deleted == d.meta.deleting
      ensures !deleted ==> ok && api.Snapshot() == old(api.Snapshot()) && api.faults == old(api.faults)
      ensures deleted ==> Ahead(Resting) == old(Ahead(AfterRead(r, d)))
      ensures !ok && r in old(api.databases) && old(api.databases)[r] == d ==> true in old(api.faults)
    {
      RestIsPart(api.faults);
      RestIsPart(Rest(api.faults));
      deleted, ok := d.meta.deleting, true;
      if deleted && StroomClusterFinalizer in d.meta.finalizers {
        if !d.claim.IsZero() {
          var reply := api.GetCluster(d.claim);
          if reply.Found? {
            return;
          }
        }
        assert Ahead(Unguard(r, d)) == old(Ahead(AfterRead(r, d)));
        var fs := d.meta.finalizers - {StroomClusterFinalizer};
        var written;
        ok, written := api.UpdateDatabaseObject(r, d.(meta := d.meta.(finalizers := fs)));
      }
    }

    /** A status update takes a new version and changes nothing else of the protocol. */
    method UpdateStatus(r: ResourceRef, d: Database, status: Status) returns (ok: bool)
      modifies api, `statuses
      ensures Ahead(Resting) == old(Ahead(WriteStatus(r, d)))
      ensures statuses == if ok then old(statuses)[r := status] else old(statuses)
      ensures ok == (!Fails(old(api.faults)) && AcceptsDatabase(old(api.Snapshot()), r, d.meta))
    {
      var written;
      ok, written := api.UpdateDatabaseObject(r, d);
      assert d.(meta := SetFinalizers(d.meta, d.meta.finalizers)) == d;
      if ok {
        statuses := statuses[r := status];
      }
    }

    /**
     The stages in order, stopping at the first child that was missing or failed, with the outcome there. `status`
     is what the pass then reports: nothing before the StatefulSet is reached, "Deployed" only when every child was
     found.
     */
    method DeployChildren(r: ResourceRef, contents: seq<string>) returns (outcome: Creation, status: Option<Status>)
      requires |contents| == STAGE_COUNT
      modifies children
      ensures var next := RolloutPass(old(children.objects), Stages(r), contents);
        && (children.objects == old(children.objects) || children.objects == next)
        && (true !in old(children.faults) ==> children.objects == next)
      ensures outcome == Created <==> children.objects != old(children.objects)
      ensures outcome == Error ==> true in old(children.faults)
      ensures outcome == Existing <==> status == Some(DeployedStatus(r))
      ensures outcome == Existing ==> Missing(old(children.objects), Stages(r)) == 0
      ensures true !in old(children.faults) ==> var i := FirstMissing(old(children.objects), Stages(r));
        status == if i < 3 then None else if i < STAGE_COUNT then Some(UNDEPLOYED) else Some(DeployedStatus(r))
      ensures status == None || status == Some(UNDEPLOYED) || status == Some(DeployedStatus(r))
    {
      var stages := Stages(r);
      ghost var before, faultless := children.objects, true !in children.faults;
      MissingNone(before, stages);

      outcome := children.GetOrCreate(stages[0], contents[0]);
      if outcome != Existing {
        return outcome, None;
      }
      outcome := children.GetOrCreate(stages[1], contents[1]);
      if outcome != Existing {
        return outcome, None;
      }
      outcome := children.GetOrCreate(stages[2], contents[2]);
      if outcome != Existing {
        return outcome, None;
      }
      outcome := children.GetOrCreate(stages[3], contents[3]);
      if outcome != Existing {
        return outcome, Some(UNDEPLOYED);
      }
      outcome := children.GetOrCreate(stages[4], contents[4]);
      if outcome != Existing {
        return outcome, Some(UNDEPLOYED);
      }
      return Existing, Some(DeployedStatus(r));
    }

    /**
     One pass. A database being deleted is handled as the protocol says and its children are left alone;
     otherwise one stage is advanced and, if there is a status to report, it is written under the version that
     was read. The pass asks to be repeated exactly if it created something.
     */
    method Reconcile(r: ResourceRef, contents: seq<string>) returns (result: Result, reported: bool)
      requires |contents| == STAGE_COUNT
      modifies api, children, `statuses
      // the result
      ensures result == Requeue <==> children.objects != old(children.objects)
      ensures result == Failure ==> true in old(api.faults) || true in old(children.faults)
      ensures result == Settled && old(Lives(r)) ==>
        Missing(old(children.objects), Stages(r)) == 0 && statuses == old(statuses)[r := DeployedStatus(r)]
      // the protocol
      ensures !Fails(old(api.faults)) && (old(Lives(r)) ==> reported) ==>
        Ahead(Resting) == FinishDatabase(
          State(old(api.Snapshot()), Idle, StartDatabase(old(api.Snapshot()), r)), Rest(old(api.faults)))
      ensures Fails(old(api.faults)) || (old(Lives(r)) && !reported) ==> api.Snapshot() == old(api.Snapshot())
      // the children
      ensures var next := RolloutPass(old(children.objects), Stages(r), contents);
        && (children.objects == old(children.objects) || (old(Lives(r)) && children.objects == next))
        && (old(Lives(r) && NoFaults()) ==> children.objects == next)
      // the status
      ensures statuses == old(statuses) || statuses == old(statuses)[r := UNDEPLOYED]
        || (Missing(old(children.objects), Stages(r)) == 0 && statuses == old(statuses)[r := DeployedStatus(r)])
      ensures old(Lives(r) && NoFaults()) && Missing(old(children.objects), Stages(r)) == 0 ==>
        result == Settled
    {
      RestIsPart(api.faults);
      MissingNone(children.objects, Stages(r));
      reported := false;
      var reply := api.GetDatabase(r);
      if !reply.Found? {
        result := if reply.NotFound? then Settled else Failure;
        return;
      }
      var d := reply.value;
      assert AfterRead(r, d) == StartDatabase(old(api.Snapshot()), r);
      var deleted, ok := CheckIfDeleted(r, d);
      if deleted || !ok {
        result := if ok then Settled else Failure;
        return;
      }
      result, reported := Roll(r, d, contents);
    }

    /** The pass for a database that stays: a child, and the status. */
    method Roll(r: ResourceRef, d: Database, contents: seq<string>) returns (result: Result, reported: bool)
      requires |contents| == STAGE_COUNT
      modifies api, children, `statuses
      ensures result == Requeue <==> children.objects != old(children.objects)
      ensures result == Failure ==>
        Fails(old(api.faults)) || true in old(children.faults) || !AcceptsDatabase(old(api.Snapshot()), r, d.meta)
      ensures result == Settled ==>
        Missing(old(children.objects), Stages(r)) == 0 && statuses == old(statuses)[r := DeployedStatus(r)]
      ensures if reported then Ahead(Resting) == old(Ahead(WriteStatus(r, d)))
              else api.Snapshot() == old(api.Snapshot())
      ensures var next := RolloutPass(old(children.objects), Stages(r), contents);
        && (children.objects == old(children.objects) || children.objects == next)
        && (true !in old(children.faults) ==> children.objects == next)
      ensures statuses == old(statuses) || statuses == old(statuses)[r := UNDEPLOYED]
        || (Missing(old(children.objects), Stages(r)) == 0 && statuses == old(statuses)[r := DeployedStatus(r)])
    {
      MissingNone(children.objects, Stages(r));
      var outcome, status := DeployChildren(r, contents);
      result := match outcome case Existing => Settled case Created => Requeue case Error => Failure;
      reported := status.Some?;
      if reported {
        var ok := UpdateStatus(r, d, status.value);
        if !ok && outcome == Existing {
          // A status that cannot be written is an error only when it reports a complete rollout
          result := Failure;
        }
      }
    }
  }
}
