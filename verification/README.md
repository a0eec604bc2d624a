# Verification of the Stroom Kubernetes operator

The Stroom operator runs Stroom clusters on Kubernetes. This project models the parts of it in which state,
interleaving and arithmetic meet, and proves what they promise:

- **The lifecycle protocol.** The StroomCluster and the DatabaseServer controllers share an API server and
  coordinate through a claim (`StroomClusterRef`), two finalizers and deletion marks, so that a database outlives
  its cluster and a cluster goes away only after its tasks have drained. `Lifecycle` is a state machine in which
  every single API call of either controller is a step of its own, between any two of which users, Stroom nodes and
  the other controller may act, calls may fail and passes may be given up.
- **The task autoscaler.** A store of CPU samples, pruned on every visit, drives a bounded step controller for the
  task limit of each node.
- **The objects of a cluster.** StatefulSets, the deletion of volume claims on scale-down, the ingresses and where
  requests end up, the label-based clean-up after a deletion, and the staged creation of a database's children; the
  controllers' passes are composed of them.

Code that works on objects in place has its own form here: the two reconcilers, the autoscaler, its metric map and
the stores they write to are classes whose methods mutate fields, each proved against a function on the state; the
properties are then proved about that function over all runs.

`dafny verify dfyconfig.toml` checks everything.

## How the modules fit together

| module | content |
|---|---|
| `Resources`, `Naming` | references, names, labels; which names determine what |
| `Lifecycle` | store, API server, both controllers as call-by-call state machines, users and nodes, policies, runs |
| `Coherence` | optimistic concurrency: a copy with the stored version is the stored object, in every run |
| `Footprint` | what the controllers leave alone: other parties' finalizers, the objects they hold, and the nodes |
| `LifecycleSafety` | the invariant behind the finalizers and the claim, and that every step of everyone keeps it |
| `LifecycleExactness` | the runs that lose a database, and the condition under which there are none |
| `ClaimOnce` | the claim is write-once; a cluster it does not name is refused for good |
| `GuardExactness` | when an existing cluster's database can go, and when a cluster object can outlive it |
| `Deployment` | what is in place whenever a cluster gets its first StatefulSet |
| `Stranding` | which failing calls leave a database's finalizer behind, how long it stays, and the ways out |
| `Outcomes`, `Passes` | whole passes in which any calls fail, as runs of the protocol |
| `Drain`, `DrainExactness`, `DrainProgress` | the drain gate, exactly when it holds, and that deletion completes |
| `Neighbours` | clusters that share an application database |
| `PvcDeletion`, `Ingresses`, `Cleanup` | the rules for volume claims, ingresses and the clean-up |
| `ClusterObjects` | the objects of a cluster as a store, and the loops over them |
| `PassEffects`, `IngressShapes` | what whole passes leave, object by object, and where requests arrive |
| `ApiServers` | the API server as an object |
| `ClusterReconciler`, `DatabaseReconciler` | the controllers' methods, proved to make exactly the protocol's steps |
| `Rollout` | staged creation of a database's children over repeated passes |
| `Metrics`, `Autoscaler` | the sample store and the autoscaler's pass, as classes and as functions |
| `VisitOutcomes`, `AttemptSchedule` | how visits and passes end, and exactly when attempts are made |
| `AutoscalerRuns`, `TaskLimits` | history, books, rate, range, rounding and convergence over whole runs |

## What the main results say

A `Policy` describes what may happen around the controllers: the specification each cluster name has, whether reads
of the claiming cluster and lists of nodes may fail for another reason than a missing object, when the name of a
deleted cluster may be used again, and whether the jobs of a cluster being deleted may be switched on again. The
central results are equivalences:

- `LifecycleExactly`: a cluster that waits for its tasks has its database, in every reachable state, **if and only
  if** there is no managed database at all or (a) every cluster that refers to a managed DatabaseServer shares its
  name and namespace, (b) the DatabaseServer controller's read of the claiming cluster fails only for a missing one,
  and (c) no cluster is created for a database being deleted while a pass of the DatabaseServer controller is in
  flight. Under these the finalizer and the claim are in place as well.
- `DrainGateExactly`: each time a wait-for-tasks finalizer goes, the cluster has no StatefulSet, or all its nodes are
  disabled and run nothing, **if and only if** there are no clusters at all or lists of nodes do not fail and nobody
  enables the jobs of a cluster being deleted.
- `DatabaseKeptExactly`: under (a), (b) and (c), in every reachable state, the database of a managed cluster that is
  not being deleted can be lost while that cluster stays **if and only if** the database lacks the operator's
  finalizer or a deletion pass left over from an earlier cluster of that name is about to take it.
- `OutlivedExactly`: likewise, a cluster object can be there without its database at some later time **unless** it is
  already being deleted and the wait for its tasks is all that holds it.
- `DeployedWithDatabaseExactly`: whenever a managed cluster gets its first StatefulSet its database is there, and is
  guarded and claimed by that cluster, in every run, **if and only if** the policy is safe in the sense of
  `LifecycleExactly`; that it waits for its tasks by then holds under every policy (`DeployedWhenHeld`).
- `StrandsExactly`: a deletion pass lets the cluster go but leaves the finalizer on its database **if and only if** its
  calls fail at certain places, which it names.
- `AttemptsOnSchedule`, `PassDropsClaimsExactly`, `CleanedUpExactly`: exactly when the autoscaler makes its attempts, and
  exactly which volume claims and ingresses a pass over a cluster takes, while it stays and once it goes.
- `RefusedExactly`, `HeldExactly`, `PatternMatchesExactly`: exactly which clusters the claim refuses, which a deletion
  pass leaves waiting, and whose nodes the pattern for disabling jobs matches.

For each condition that fails there is a run, built step by step, that ends in the loss. The contract of the
StroomCluster controller's `Reconcile` leaves nothing open in the pass of a cluster that stays: which pattern of failing
calls brings it how far, what is there then, and how it ends (`Stayed`, `StopsAt`, `StopsOnce`). `DrainCompletes` bounds how
many passes a deletion takes, interrupted ones included, by the tasks that are left in the whole schema.

## Where the code and its documentation differ

The model follows the code.

- `api/v1/databaseserver_types.go:44-47` documents the claim as the reference of the StroomCluster that binds to the
  database. `internal/controller/stroomcluster_controller.go:98` passes the *database's* reference, and line 557
  stores it, while line 545 compares what is stored with the *cluster's* name and namespace. A cluster named
  differently from its database is therefore refused from its second pass on, and no other is (`RefusedExactly`,
  `RefusedForGood`), and its database is not held back (`MismatchOrphans`).
- The operator's own `README.md:142` says that the order of deletion does not matter, because a DatabaseServer goes
  only when its StroomCluster has gone. The code does not keep to that even under (a), (b) and (c): the finalizer that
  holds the database is placed by the cluster's first pass, after the claim, so that a database deleted before then
  goes at once (`EarlyDeletionLoses`), and a deletion pass removes it while the cluster object may live on, if another
  party's finalizer holds it (`LingeringOutlives`). What holds: a cluster that waits for its tasks has its database
  (`LifecycleExactly`); a database that has the finalizer loses it only to the deletion pass of the cluster of its name
  (`GuardLostOnlyByRelease`); and `DatabaseKeptExactly` and `OutlivedExactly` say exactly when the database of a
  cluster that stays, or of a cluster object that is still there, can go. The removal of the two finalizers is not
  atomic: a pass whose calls fail between them, or that is given up there, leaves the database's in place
  (`StrandsExactly`, `InterruptedReleaseStrands`). It then stays, whatever both controllers, users and failures do,
  until the database is deleted or a cluster of that name is created (`StrandedStays`). Its own controller drops it
  once the database is deleted (`StrandedGuardGoes`), and creating and deleting the cluster again can remove it
  without that (`RecreationReleases`).
- `api/v1/databaseserver_types.go:45` and the comment at
  `internal/controller/databaseserver_controller.go:194` speak of a cluster that does not exist; the code takes
  any failure to read it for its absence (`LookupErrorOrphans`). Likewise a list of nodes that fails counts as an
  empty one at `internal/controller/stroomcluster_controller.go:342` (`ListErrorBreaches`).
- The comment at `internal/controller/stroomcluster_controller.go:441-442` speaks of the tasks of the cluster's
  pods. The query counts the tasks of every node in the application database: a pass leaves the cluster waiting if and
  only if it is deployed and any of those has one (`HeldExactly`), and `NeighbourHolds` reaches a cluster being deleted
  whose own nodes are idle and that waits all the same. `DrainCompletes` therefore
  bounds the passes by the load of the whole schema, and a busy neighbour holds a deletion for as many passes as it
  likes (`BusyNeighbourHolds`).
- The pattern at `internal/controller/stroomcluster_controller.go:433` is meant for the nodes of the cluster being
  deleted. It matches those of another cluster in the same schema exactly if that one's name goes on from the
  cluster's, as `dev2` from `dev`, or if the cluster's runs on into the node names of the other
  (`NeighbourDisabledExactly`).
- The loop at `internal/controller/stroomcluster_controller.go:291` does not end for an old count of 2^31 - 1
  (`LoopEndsExactly`), and its counter then comes round to the claims that are still wanted
  (`DesiredClaimVisitedExactly`).

## Hypotheses

- The API server serialises writes and refuses an update whose version is not the stored one. An object without
  finalizers disappears when it is deleted, and one being deleted disappears with its last finalizer and takes no
  finalizer that it does not have. Reads are current: stale caches are not modelled, but any amount may happen
  between a read and the write based on it.
- Each controller runs one pass at a time. `spec.databaseServerRef` and the schema of a cluster name do not change.
- Users and other parties create, delete and touch objects, including finalizers of their own, but do not edit the
  operator's two finalizers or the claim. Only the operator creates StatefulSets with its labels; anybody may remove
  them.
- A node whose jobs are disabled starts no task; tasks finish at any time.
- Names of clusters are lower-case DNS labels, so that the pattern of `like` has no wildcard but its last character.
- Times are integers in nanoseconds and CPU usage is in thousandths of a core. The autoscaler's integers are
  unbounded.
- The CPU percentage is computed in exact arithmetic. In floating point,
  `internal/controller/stroomtaskautoscaler_controller.go:171` may come out one point lower where the quotient is a
  whole percentage. What the division yields without a CPU limit depends on the platform; it is the parameter
  `unlimitedPercent`, and the rounding results are for a positive limit.

## Model

| member | source | states |
|---|---|---|
| LifecycleExactness.LifecycleExactly | internal/controller/databaseserver_controller.go:177-209 | the database of every waiting cluster exists (and is guarded by the finalizer and claimed by that cluster) in all reachable states, for exactly the policies with shared names, lookups that fail only for a missing cluster and no name reuse during a pass |
| LifecycleExactness.MismatchOrphans | internal/controller/stroomcluster_controller.go:540-566 | for every cluster whose name differs from its database's there is a run in which the database is dropped while the cluster still waits for its tasks |
| LifecycleExactness.LookupErrorOrphans | internal/controller/databaseserver_controller.go:187-196 | if the read of the claiming cluster may fail, every managed cluster can lose its database that way, even before its first children are created |
| LifecycleExactness.ReuseOrphans | internal/controller/databaseserver_controller.go:187-200 | a cluster created again between the controller's read and its write holds itself without writing the database, so the finalizer's removal succeeds and the database is lost |
| LifecycleExactness.ReachableProtected | internal/controller/stroomcluster_controller.go:313-331 | in every state reachable under a safe policy a waiting cluster's database exists, carries the finalizer and is claimed by that cluster |
| Deployment.DeployedWhenHeld | internal/controller/stroomcluster_controller.go:103-112 | under any policy, at every step of every run that gives a cluster its first StatefulSet the wait-for-tasks finalizer is in place |
| Deployment.DeployedWithDatabaseExactly | internal/controller/stroomcluster_controller.go:91-112 | at every such step the database of a managed cluster is there, guarded by the finalizer and claimed by that cluster, for exactly the safe policies |
| GuardExactness.GuardLostOnlyByRelease | internal/controller/stroomcluster_controller.go:380-387 | from a cluster whose database is guarded, waiting or not, no step of anyone takes that guard but the release call of a deletion pass of its own name |
| GuardExactness.DatabaseKeptExactly | README.md:142 | in every reachable state, the database of a cluster that is not being deleted can go while that cluster stays exactly if it lacks the finalizer or a deletion pass left over from an earlier cluster of the name is about to take it |
| GuardExactness.OutlivedExactly | README.md:142 | in every reachable state, a cluster object can come to be there without its database exactly unless it is being deleted and held by the wait for its tasks alone |
| GuardExactness.EarlyDeletionLoses | internal/controller/stroomcluster_controller.go:315-331 | for every managed cluster name there is a run in which the database is deleted before the first pass and is gone while the cluster is not being deleted |
| GuardExactness.LingeringOutlives | internal/controller/stroomcluster_controller.go:370-387 | a cluster that something else than its tasks holds, or can hold, is brought by a run to a state in which it is there and its database is not |
| Stranding.InterruptedReleaseStrands | internal/controller/stroomcluster_controller.go:375-387 | there is a run that ends between passes with the cluster gone and its undeleted database still carrying the finalizer |
| Stranding.StrandsExactly | internal/controller/stroomcluster_controller.go:332-387 | a deletion pass of a managed cluster ends with the cluster let go and its database still guarded exactly if no call up to the first release fails, save the list of nodes, no tasks remain of nodes it found, and one of the two calls that remove the database's finalizer fails; if nothing else held the cluster, the finalizer is then stranded |
| Stranding.StrandedStays | internal/controller/stroomcluster_controller.go:380-387 | from there, through every run without a deletion of the database or a creation of a cluster of its name, the cluster is gone, the database is there, undeleted and guarded, and no pass is after its finalizer |
| Stranding.StrandedGuardGoes | internal/controller/databaseserver_controller.go:177-209 | such a finalizer holds nothing up: once the database is deleted, one pass of its controller drops it, in every reachable state |
| Stranding.RecreationReleases | internal/controller/stroomcluster_controller.go:544-555 | from every reachable stranded state at rest there is a run, by way of a new cluster of that name, to one in which the same database is there, undeleted and without the finalizer |
| LifecycleSafety.StepSafe | internal/controller/stroomcluster_controller.go:90-112 | every API call of either controller, every failure and every user action keeps the invariant, including what a pass in flight has come to rely on |
| LifecycleSafety.RunSafe | internal/controller/stroomcluster_controller.go:75-112 | the invariant holds at the end of every allowed run from any state in which it holds |
| LifecycleSafety.RunConforms | internal/controller/stroomcluster_controller.go:91-97 | no run changes the specification of a cluster, stale full-object writes included |
| Coherence.RunCoherent | internal/controller/stroomcluster_controller.go:398-421 | under any interleaving, a copy that a controller will write back either equals the stored object or will be refused |
| Footprint.ControllersLeaveOthers | internal/controller/stroomcluster_controller.go:398-421 | no step of either controller, in any coherent state, adds or takes a finalizer of another party, changes what an object is, or removes an object that such a finalizer holds or that is not being deleted; a claim changes only from none |
| Footprint.ControllersLeaveNodes | internal/controller/stroomcluster_controller.go:424-439 | nor does it start or finish tasks, enable jobs, disable any but those that match a cluster being deleted, or take StatefulSets away |
| Footprint.ClusterKeepsOthers | internal/controller/stroomcluster_controller.go:398-421 | through every run in which nobody touches its finalizers, a cluster object has exactly the finalizers of other parties that it had, and is there as long as it has any |
| Footprint.DatabaseKeepsOthers | internal/controller/databaseserver_controller.go:177-209 | the same of a database object |
| ClaimOnce.ClaimWriteOnce | internal/controller/stroomcluster_controller.go:540-566 | between any two moments of one database object's life a claim that is set never changes, whatever both controllers, users and failures do |
| ClaimOnce.RunOwnClaims | internal/controller/stroomcluster_controller.go:556-558 | under any policy the only claim ever stored is the database's own reference |
| ClaimOnce.RefusedPassChangesNothing | internal/controller/stroomcluster_controller.go:90-101 | a whole pass of a cluster that the claim does not name, with any calls failing, leaves the protocol's state as it was; Reconcile says the same of all other objects |
| ClaimOnce.RefusedForGood | internal/controller/stroomcluster_controller.go:97-101 | as long as that database object exists the cluster stays refused through every run, and a waiting one goes on waiting |
| ClaimOnce.RefusedExactly | internal/controller/stroomcluster_controller.go:97-101 | once its database is claimed, a cluster is refused exactly if its name differs from the database's, in every reachable state between passes |
| DrainExactness.DrainGateExactly | internal/controller/stroomcluster_controller.go:332-378 | every removal of a wait-for-tasks finalizer in every run finds no StatefulSet of the cluster or all its nodes disabled and idle, for exactly the policies without list errors and without re-enabling |
| DrainExactness.ListErrorBreaches | internal/controller/stroomcluster_controller.go:341-346 | if the list of nodes may fail, any cluster can be released while one of its tasks runs |
| DrainExactness.ReenableBreaches | internal/controller/stroomcluster_controller.go:371-377 | if jobs are enabled again after the count, any cluster can be released while one of its tasks runs |
| Drain.OnlyReleaseReleases | internal/controller/stroomcluster_controller.go:410-421 | in every coherent state the only step that takes the finalizer from a cluster, or the waiting cluster from the store, is the controller's own update |
| Drain.GateHolds | internal/controller/stroomcluster_controller.go:349-378 | under a gated policy every such step in every run finds no StatefulSet or a quiet cluster |
| Drain.RunDrains | internal/controller/stroomcluster_controller.go:348-378 | what a deletion pass has found out about its nodes and tasks stays true until it acts on it, in every run |
| DrainProgress.PassReachesNodes | internal/controller/stroomcluster_controller.go:91-112 | by the invariant, neither the database lookup nor the claim ever stops the pass of a waiting cluster being deleted |
| DrainProgress.PassWaits | internal/controller/stroomcluster_controller.go:350-369 | with tasks left a pass disables the jobs of the cluster's nodes and changes nothing else |
| DrainProgress.PassReleases | internal/controller/stroomcluster_controller.go:370-387 | without nodes, or without tasks left, one pass removes both finalizers |
| DrainProgress.FaultlessPassReleases | internal/controller/stroomcluster_controller.go:370-387 | the same of a pass with any predicted outcomes among which is no failure |
| DrainProgress.DrainCompletes | internal/controller/stroomcluster_controller.go:332-392 | if tasks do not increase and a round with a whole pass costs one while any remain, the cluster stops waiting, for good, after at most as many rounds as there are tasks, one more, and one more for each interrupted one; rounds may be whole passes or anything at all, failed, conflicting and abandoned passes over any clusters included; if a whole pass ends it, both finalizers go |
| DrainProgress.WholeRound | internal/controller/stroomcluster_controller.go:348-392 | a whole pass over the leaving cluster, followed by steps of others, leaves it waiting exactly if it is deployed and tasks remain, and otherwise removes both finalizers |
| Neighbours.HeldExactly | internal/controller/stroomcluster_controller.go:348-378 | a whole deletion pass leaves the cluster waiting exactly if it is deployed and any node of the schema has a task |
| Neighbours.OwnTasksDecideExactly | internal/controller/stroomcluster_controller.go:441-477 | so whether it waits is decided by the tasks of its own nodes exactly if tasks of others do not remain alone |
| Neighbours.NeighbourHolds | internal/controller/stroomcluster_controller.go:441-477 | for every node of the schema outside the cluster there is a run to a cluster being deleted whose own nodes are idle and which a whole pass leaves waiting |
| Neighbours.BusyNeighbourHolds | internal/controller/stroomcluster_controller.go:352-369 | a neighbour that always starts a task before it finishes one keeps the cluster waiting through any number of whole passes |
| Neighbours.NeighbourDisabledExactly | internal/controller/stroomcluster_controller.go:424-439 | an enabled node of another cluster is disabled by a deletion pass exactly if they share the schema and the names run together |
| Passes.PassIsRun | internal/controller/stroomcluster_controller.go:75-112 | a Reconcile in which any calls fail, or which ends before its first StatefulSet, is a run of the protocol |
| Passes.PassKeepsSafe | internal/controller/stroomcluster_controller.go:75-112 | and so it keeps the lifecycle invariant, wherever it fails |
| Passes.PassWithoutFaults | internal/controller/stroomcluster_controller.go:75-112 | any prediction without a failure makes the uninterrupted pass of which progress is proved |
| ClusterReconciler.StroomClusterReconciler.Reconcile | internal/controller/stroomcluster_controller.go:75-282 | for every store and every pattern of failing calls: the protocol's objects end up as in its pass. All other objects stay as they were if the cluster is missing, cannot be read or is refused, if a finalizer cannot be placed, or if a deletion is not complete; a complete one is followed by the clean-up. Otherwise both finalizers are in place and the children are deployed up to exactly the point at which the calls stop the pass, with the cluster counted as deployed exactly from its first StatefulSet on; the pass settles exactly if it goes through, is repeated exactly if it created the account, and fails otherwise. A deletion fails only for a failing call, a refused claim, or a database that is missing or should be |
| ClusterReconciler.ReconcileReleases | internal/controller/stroomcluster_controller.go:370-392 | by that contract, a Reconcile without failures of a deleted cluster without nodes or tasks leaves a store in which both finalizers are gone |
| ClusterReconciler.StroomClusterReconciler.DeployNodeSets | internal/controller/stroomcluster_controller.go:177-255 | a NodeSet is applied, with the volume claims that it drops, exactly if no call fails before it, no deletion of claims before it is endless, and its own StatefulSet is written; the cluster is deployed exactly if one is applied, and every StatefulSet belongs to a deployed cluster |
| ClusterReconciler.StroomClusterReconciler.DeployChildren | internal/controller/stroomcluster_controller.go:114-281 | account, configuration, NodeSets and ingresses in that order, up to exactly the point at which the calls stop the pass, or the creation of the account; it settles exactly if all calls succeed and all deletions of claims end; ConfigMaps come before StatefulSets and Services before ingresses |
| ClusterObjects.StopsOnce | internal/controller/stroomcluster_controller.go:114-281 | the calls determine that point |
| ClusterObjects.FiniteCountsFinish | internal/controller/stroomcluster_controller.go:284-310 | all deletions of claims end if no StatefulSet reports the greatest 32-bit count, no wanted count is negative, and the process lives long enough |
| ClusterObjects.FaultlessPassGoesThrough | internal/controller/stroomcluster_controller.go:114-281 | without failures and with such counts, the pass of a cluster whose account is there goes through |
| ClusterReconciler.StroomClusterReconciler.AddFinalizers | internal/controller/stroomcluster_controller.go:319-331 | succeeds exactly if its calls do and the database does not lack the finalizer while it is being deleted, and then both finalizers are in place |
| ClusterReconciler.StroomClusterReconciler.GetDatabaseConnectionInfo | internal/controller/database_connection.go:17-54 | an empty reference is an external database with the address given; otherwise an empty namespace is overwritten by the owner's and the outcome is the stored DatabaseServer with the address of its Service, its port, its Secret and the user, or a failure; no object changes |
| ClusterReconciler.ConnectionLeadsToChildren | internal/controller/database_connection.go:44-50 | host and Secret of a managed connection are the Service and the Secret that the server's rollout creates, and Service and port those that its status reports |
| Resources.ReferenceIsRelative | internal/controller/database_connection.go:28-33 | a bare name means another database to every namespace, and a full reference the same one to all |
| ClusterReconciler.StroomClusterReconciler.ClaimDatabaseServer | internal/controller/stroomcluster_controller.go:540-566 | claims a free database under the version read, accepts one claimed by this cluster and refuses any other, as the protocol's step |
| ClusterReconciler.StroomClusterReconciler.AddDatabaseFinalizer | internal/controller/stroomcluster_controller.go:398-408 | places the finalizer on a database that lacks it, or ends the pass on a conflict, as the protocol's step |
| ClusterReconciler.StroomClusterReconciler.AddClusterFinalizer | internal/controller/stroomcluster_controller.go:398-408 | the same for the wait-for-tasks finalizer on the cluster |
| ClusterReconciler.StroomClusterReconciler.RemoveClusterFinalizer | internal/controller/stroomcluster_controller.go:410-421 | reads the cluster again and removes the finalizer under that version; a finalizer that is already gone counts as success |
| ClusterReconciler.StroomClusterReconciler.RemoveDatabaseFinalizer | internal/controller/stroomcluster_controller.go:380-387 | the same on the database, as the last step of a deletion |
| ClusterReconciler.StroomClusterReconciler.DisableTaskProcessing | internal/controller/stroomcluster_controller.go:424-439 | disables exactly the nodes of the schema whose name starts with the cluster's base name |
| ClusterReconciler.StroomClusterReconciler.CountRemainingTasks | internal/controller/stroomcluster_controller.go:443-477 | the map filled holds exactly the nodes with a Processing task in the schema, each with its number of tasks |
| ClusterReconciler.StroomClusterReconciler.DrainNodes | internal/controller/stroomcluster_controller.go:352-378 | disabling and then counting makes the protocol's steps, and the nodes have drained exactly if both succeeded and no task was left |
| ClusterReconciler.StroomClusterReconciler.CheckIfDeleted | internal/controller/stroomcluster_controller.go:313-396 | both branches with all their early returns make the protocol's steps; children are deployed only if the cluster is not being deleted and nothing failed, and the clean-up runs exactly after a completed release |
| ClusterReconciler.StroomClusterReconciler.DrainDeployed | internal/controller/stroomcluster_controller.go:335-369 | a failing or empty list goes straight on, any other is drained first, as the protocol's steps |
| Passes.DatabasePassIsRun | internal/controller/databaseserver_controller.go:63-81 | a pass of the DatabaseServer controller in which any calls fail is a run of the protocol |
| DatabaseReconciler.DatabaseServerReconciler.CheckIfDeleted | internal/controller/databaseserver_controller.go:177-209 | a database being deleted keeps its finalizer while its claiming cluster is found and otherwise loses it, as the protocol's steps; any other database is left alone |
| DatabaseReconciler.ChildServer.GetOrCreate | internal/controller/databaseserver_controller.go:211-232 | an object that is there is never written, one that is missing is created unless a call fails, and an error changes nothing |
| DatabaseReconciler.DatabaseServerReconciler.UpdateStatus | internal/controller/databaseserver_controller.go:163-172 | a status update is a protocol step that leaves finalizers and claim alone, and it takes effect exactly when the version read is the stored one |
| DatabaseReconciler.DatabaseServerReconciler.DeployChildren | internal/controller/databaseserver_controller.go:83-154 | a pass creates the first missing child and no other, and reports "Deployed" only if none was missing; without failures both are exact |
| DatabaseReconciler.DatabaseServerReconciler.Reconcile | internal/controller/databaseserver_controller.go:63-161 | protocol step, creation of one child, status and result in one pass: it asks to be repeated exactly if it created a child, fails only if some call failed, and settles for a live database only when all five children are there and "Deployed" is written; children of a database being deleted, or of none, are left alone |
| Rollout.RolloutCompletes | internal/controller/databaseserver_controller.go:83-160 | from any subset of the children, n passes create exactly the n first missing ones until none is missing, later passes create nothing, and what is there keeps its content |
| Rollout.RolloutContents | internal/controller/databaseserver_controller.go:83-150 | a child missing behind m others is created by the pass after m others, with the content that this pass made for it |
| Rollout.DependenciesFirst | internal/controller/databaseserver_controller.go:83-150 | at every point of a rollout the StatefulSet comes after Secret and configuration and the Service after the StatefulSet |
| Rollout.StagesDistinct | api/v1/databaseserver_types.go:51-81 | the five children never collide in kind and name, although Secret, configuration and StatefulSet share a name |
| Rollout.StagesSpelled | api/v1/databaseserver_types.go:51-81 | the names of a database's children, and the two statuses, written out |
| Metrics.StroomNodeMetricMap.AddMetric | internal/controller/stroomtaskautoscaler.go:37-43 | appends the sample to its pod's list, making the list if need be, and touches nothing else |
| Metrics.StroomNodeMetricMap.SetLastScaled | internal/controller/stroomtaskautoscaler.go:50-52 | sets the pod's time and touches nothing else |
| Metrics.StroomNodeMetricMap.DeletePodData | internal/controller/stroomtaskautoscaler.go:54-57 | removes the pod from both maps and touches nothing else |
| Metrics.StroomNodeMetricMap.ShouldScale | internal/controller/stroomtaskautoscaler.go:59-65 | a pod is due exactly if it has a last-scaled time that lies strictly more than the interval back; that this brings attempts about is AttemptsOnSchedule |
| Metrics.StroomNodeMetricMap.AgeOff | internal/controller/stroomtaskautoscaler.go:68-81 | every pod keeps exactly its samples later than the cutoff, in order, and stays in the map even without any |
| Metrics.StroomNodeMetricMap.GetSlidingWindowMean | internal/controller/stroomtaskautoscaler.go:84-105 | the mean of exactly the samples later than the window's start, or nothing if there are none |
| Metrics.MeanTruncates | internal/controller/stroomtaskautoscaler.go:86-101 | the mean is the sum of the samples over their number with the fraction dropped, towards zero |
| Metrics.MeanIsBetween | internal/controller/stroomtaskautoscaler.go:86-101 | it lies between any bounds that all the samples keep |
| Metrics.LaterKeeps | internal/controller/stroomtaskautoscaler.go:72-77 | a sample survives pruning exactly if it is strictly later than the cutoff |
| Metrics.LaterTwice | internal/controller/stroomtaskautoscaler.go:68-95 | pruning and then windowing keeps what the later of the two cutoffs alone would |
| Metrics.LaterJoin | internal/controller/stroomtaskautoscaler.go:72-77 | pruning keeps what is late enough, all of it and in order |
| Autoscaler.StroomTaskAutoscalerReconciler.ScaleStroomNode | internal/controller/stroomtaskautoscaler_controller.go:161-220 | the task limits and the error it leaves are those of an attempt, for every answer of the database; samples are not touched |
| Autoscaler.StroomTaskAutoscalerReconciler.HandlePod | internal/controller/stroomtaskautoscaler_controller.go:106-155 | one pod of one pass: forget, skip, or record, prune, perhaps scale, and set the time after success and failure alike |
| Autoscaler.StroomTaskAutoscalerReconciler.Reconcile | internal/controller/stroomtaskautoscaler_controller.go:88-158 | visits the pods of all but the frontend NodeSets in order and stops at the first error or missing metrics |
| AutoscalerRuns.PassIsRun | internal/controller/stroomtaskautoscaler_controller.go:88-158 | a pass, however it ends, is a sequence of visits, so that what holds over all such sequences holds over passes |
| VisitOutcomes.VisitEndsExactly | internal/controller/stroomtaskautoscaler_controller.go:106-220 | a visit ends the pass exactly if there are no metrics, and with an error exactly if the database cannot be reached or refuses another limit; it sets the limit of its own pod's node and task exactly if another is called for and not refused, and no other |
| VisitOutcomes.PassEndsExactly | internal/controller/stroomtaskautoscaler_controller.go:88-158 | a pass is one over the pods of all NodeSets but frontends up to a failing list; the first visit that does not go on ends it, and if all go on it fails exactly if a list did |
| AutoscalerRuns.PruningLosesNothing | internal/controller/stroomtaskautoscaler.go:67-81 | after any run with a clock that does not go back, the stored samples later than a cutoff that no pruning has passed are those of the pod's full history |
| AutoscalerRuns.WindowIsFullHistory | internal/controller/stroomtaskautoscaler_controller.go:136-143 | the samples in an attempt's window, after any run of pruning, are exactly those ever added for the pod since its data was last deleted, restricted to the last min(window, 60) minutes |
| AutoscalerRuns.AttemptUsesFullHistory | internal/controller/stroomtaskautoscaler_controller.go:136-170 | and so the mean that it uses is the mean over that full history |
| AutoscalerRuns.BooksBalance | internal/controller/stroomtaskautoscaler_controller.go:106-158 | after every visit, early return or error, the pods with samples are those with a last-scaled time, and no sample is older than 60 minutes before the most recent pruning |
| AttemptSchedule.AttemptsOnSchedule | internal/controller/stroomtaskautoscaler_controller.go:136-155 | from an empty store the attempts on a pod are made at exactly the visits with a sample that come more than the interval after its last attempt or, before that, its first sample, since its metrics were last missing |
| AttemptSchedule.AttemptsCome | internal/controller/stroomtaskautoscaler_controller.go:136-155 | between two samples of a pod more than an interval apart, with its metrics found in between, an attempt is made |
| AutoscalerRuns.AttemptsAreSpaced | internal/controller/stroomtaskautoscaler_controller.go:139-154 | over every run the i-th and j-th attempt on a pod lie more than j-i intervals apart, failed attempts, deleted data and re-registration included |
| AutoscalerRuns.AttemptsWithin | internal/controller/stroomtaskautoscaler_controller.go:139-154 | k attempts within a period, wherever it starts, need (k-1) intervals to be less than it |
| TaskLimits.RoundingBound | internal/controller/stroomtaskautoscaler_controller.go:171 | the percentage compared with the bounds never exceeds the true load and falls below it by less than 1 + 100/limit points |
| TaskLimits.StepsFollowTheLoad | internal/controller/stroomtaskautoscaler_controller.go:174-205 | the limit falls only if the true load exceeds the maximum, rises only if it is below the minimum plus 100/limit and no slot is idle, and does fall if the load exceeds the maximum by more than the rounding error |
| TaskLimits.StepIsBounded | internal/controller/stroomtaskautoscaler_controller.go:187-205 | one decision moves the limit by at most the step amount and never away from its range |
| TaskLimits.AttemptSucceeds | internal/controller/stroomtaskautoscaler_controller.go:186-213 | an attempt with samples and without failures stores exactly the limit that its mean and active tasks call for and no other |
| TaskLimits.RunKeepsRange | internal/controller/stroomtaskautoscaler_controller.go:187-213 | over every run, from any limit and with any readings, the distance to the range never grows, so a limit inside it stays there |
| TaskLimits.DriftPerAttempt | internal/controller/stroomtaskautoscaler_controller.go:106-213 | over every run the limit moves by at most one step amount per attempt on its pod |
| TaskLimits.DriftRate | internal/controller/stroomtaskautoscaler_controller.go:106-213 | over a run of a given length the limit moves by at most k step amounts, where (k-1) intervals fit into that length |
| TaskLimits.OverloadConverges | internal/controller/stroomtaskautoscaler_controller.go:199-205 | over every run in which each attempt on the pod succeeds and reads overload, whatever other visits lie in between, the limit after n attempts is the greater of its minimum and n steps less than at first, and is at the minimum exactly if n is at least ceil((limit - min)/step) |
| TaskLimits.UnderloadConverges | internal/controller/stroomtaskautoscaler_controller.go:187-198 | likewise upwards, while the load is below the minimum and all slots are in use: at the maximum exactly if n is at least ceil((max - limit)/step) |
| ClusterObjects.ObjectStore.DeletePvcs | internal/controller/stroomcluster_controller.go:284-310 | for every pair of counts, however far the loop gets: the names it has looked for, in order, and that of these the claims that can be deleted are gone and no others; it ends exactly if the old count is not the greatest 32-bit one |
| ClusterObjects.ObjectStore.ApplyStatefulSet | internal/controller/stroomcluster_controller.go:177-214 | claims are deleted, from the replica count last reported, after any reported difference between the stored StatefulSet, with whatever the API server has filled in, and the one written, and not after a creation or without a difference |
| PassEffects.PassWritesStatefulSets | internal/controller/stroomcluster_controller.go:177-208 | whatever stops a pass, the StatefulSet of the last NodeSet of each name that it got to has that NodeSet's count and admitted template and the cluster's labels |
| PassEffects.PassLeavesStatefulSets | internal/controller/stroomcluster_controller.go:177-208 | and no other StatefulSet is touched |
| PassEffects.PassDropsClaimsExactly | internal/controller/stroomcluster_controller.go:190-214 | of the claims of a cluster's NodeSets a pass takes exactly those whose NodeSet it got to and which that one drops: it is stored otherwise than specified, reports more replicas than specified, the policy deletes on scale-down, the ordinal lies between and its deletion is not refused |
| ClusterObjects.PassesKeepWantedClaims | internal/controller/stroomcluster_controller.go:177-214 | no volume claim whose ordinal every specification wants is deleted over any number of passes, complete or not, whatever counts they find, as long as none finds the greatest 32-bit count |
| PvcDeletion.VisitedExactly | internal/controller/stroomcluster_controller.go:289-295 | below the greatest count the loop looks for exactly the claims that the scaling drops |
| PvcDeletion.DesiredClaimVisitedExactly | internal/controller/stroomcluster_controller.go:289-295 | a loop that runs long enough comes to look for a claim that is still wanted exactly if the old count is the greatest 32-bit value |
| PvcDeletion.TargetsExactly | internal/controller/stroomcluster_controller.go:289-295 | a claim is targeted exactly if its own NodeSet drops below its ordinal under a scale-down policy |
| PvcDeletion.TargetsOnce | internal/controller/stroomcluster_controller.go:291-295 | no claim is targeted twice by one scaling |
| PvcDeletion.DesiredClaimsSurvive | internal/controller/stroomcluster_controller.go:187-214 | a claim outlives any sequence of scalings, its own NodeSet's and others', that keeps its ordinal below the desired count |
| PvcDeletion.LoopEndsExactly | internal/controller/stroomcluster_controller.go:291 | in 32 bits with wrap-around the loop's guard fails at some point exactly if the old count is below 2^31 - 1 |
| Naming.PvcNameInjective | internal/controller/stroomcluster_controller.go:292-294 | within a cluster the name of a claim determines its NodeSet and its ordinal, whatever dashes and digits NodeSet names contain |
| Naming.DecimalDenotes | internal/controller/stroomcluster_controller.go:292-294 | ordinals are written in decimal digits that denote them, without a leading zero |
| PassEffects.NamesSpelled | api/v1/stroomcluster_types.go:46-87 | the names of a cluster's account, ConfigMaps, StatefulSets, Services, pods and claims, and the labels of the last, written out |
| Naming.NodesStartWithBaseName | api/v1/stroomcluster_types.go:46-56 | the pattern used to disable jobs covers every node of every NodeSet of the cluster |
| Naming.PatternMatchesExactly | internal/controller/stroomcluster_controller.go:433 | the pattern of one cluster matches a node of another exactly if its name begins the other's or runs on into the rest of the node's name |
| Naming.PatternCoversExactly | internal/controller/stroomcluster_controller.go:433 | it matches every node that the other may ever have exactly if its name begins the other's followed by "-node-" |
| Ingresses.FirstNonUiService | internal/controller/stroomcluster.go:762-769 | the service of the first NodeSet that is not a frontend, or none if there is none |
| Ingresses.CreateIngresses | internal/controller/stroomcluster.go:757-893 | the ingresses of all enabled NodeSets in order, each by its role, all with the same datafeed service |
| Ingresses.FeedServiceExists | internal/controller/stroomcluster.go:762-769 | every cluster has a datafeed service, unique by its definition, so that what is said of it is said of something |
| ClusterObjects.ObjectStore.ReconcileIngresses | internal/controller/stroomcluster_controller.go:259-279 | the ingresses stored are the old ones overwritten by a prefix of the created ones in turn, all of them exactly if no call fails |
| Ingresses.RetryHeals | internal/controller/stroomcluster_controller.go:259-279 | a pass cut short after any prefix leaves no trace once a later pass goes through |
| Ingresses.LastWriterWins | internal/controller/stroomcluster_controller.go:259-279 | after a pass every ingress is what the last NodeSet that writes its name made it, and one that none writes is as it was |
| Ingresses.Routing | internal/controller/stroomcluster.go:762-884 | user traffic goes to the last NodeSet that serves users, the datafeed address to the last that takes feeds, the exact datafeed path to the first that is not a frontend, and no third ingress is touched |
| IngressShapes.UsersArrive | internal/controller/stroomcluster.go:762-884 | after all ingresses are applied the one for users has exactly two rules, with host, path, path type, Service and port: feeds to the first NodeSet that is no frontend, all else to the last one for users |
| IngressShapes.FeedsArrive | internal/controller/stroomcluster.go:762-884 | and the one for feeds exactly one, to the last NodeSet for feeds |
| IngressShapes.NobodyServes | internal/controller/stroomcluster.go:772-884 | without a NodeSet for users, or for feeds, that ingress stays as it was, and so does every third one |
| IngressShapes.WantedIngressesMadeFor | internal/controller/stroomcluster.go:778-884 | every ingress is made for an enabled NodeSet, with the cluster's class and TLS and with labels and annotations of which the user's prevail |
| IngressShapes.RoutesLeadToServices | internal/controller/stroomcluster_controller.go:216-279 | every ingress that a pass applies sends requests to Services that this pass has made before, unless all NodeSets are frontends |
| ClusterObjects.ObjectStore.Cleanup | internal/controller/stroomcluster_controller.go:480-515 | deletes exactly the ingresses and, only under the cluster-deletion policy, the volume claims that carry the cluster's labels in its namespace; a failing list or deletion leaves the rest of the work undisturbed |
| PassEffects.CleanedUpExactly | internal/controller/stroomcluster_controller.go:480-515 | a completed deletion takes a claim exactly under the cluster-deletion policy, and an ingress under any, if it carries the three labels in the cluster's namespace, its list does not fail and its deletion is not refused; nothing else goes, changes or is made |
| PassEffects.NodeSetClaimsCleanedUp | internal/controller/stroomcluster_controller.go:500-515 | of the claims made from NodeSets' templates it takes exactly the cluster's own, under that policy |
| PassEffects.NodeSetIngressesCleanedUp | internal/controller/stroomcluster_controller.go:490-499 | of the cluster's ingresses it takes exactly those whose user labels leave the cluster's as they are |
| Cleanup.CreatedIngressIsCleaned | internal/controller/stroomcluster_controller.go:480-499 | after the cluster's ingresses are applied to anything and then cleaned up, one is left exactly if its last writer overrides the labels or it cannot be deleted |
| Cleanup.IngressSelectedExactly | internal/controller/stroomcluster.go:798-802 | the clean-up selects an ingress exactly if the user's labels do not override the cluster's three |
| Cleanup.IngressNotSelectedByOthers | internal/controller/stroomcluster.go:850-854 | and then the clean-up of no other cluster selects it |
| Cleanup.PvcSelectedExactly | internal/controller/stroomcluster.go:41-46 | a volume claim made from a NodeSet's template is selected by its own cluster's labels and no other's |
| Cleanup.PvcSurvivesExactly | internal/controller/stroomcluster_controller.go:500-515 | a volume claim survives the clean-up of a cluster exactly if it belongs to another one or cannot be deleted |
| Cleanup.NoIngressLeft | internal/controller/stroomcluster_controller.go:490-499 | an ingress of the cluster survives exactly if its labels were overridden or it cannot be deleted |

## Left out

- ClusterObjects.ObjectStore.DeletePvcs: a missing claim and one whose deletion fails are both passed over, without the log lines. The operator's process may end at any iteration, which is the only way out of the loop for an old count of 2^31 - 1.
- DrainProgress.DrainCompletes: bounds the passes by the tasks of the whole schema and the interruptions, not by the cluster's own tasks, of which no bound holds (BusyNeighbourHolds). When an interrupted round frees the cluster, the database's finalizer may stay (InterruptedReleaseStrands).
- ClusterReconciler.StroomClusterReconciler.Reconcile: in the pass of a cluster being deleted, which of the calls failed is told by the protocol's store, not by the result alone. Services, ConfigMaps and the account are their kind and name, without content, and opening the application database and its statement are one call. The objects that only the operator writes fail by a sequence of outcomes of their own.
- Autoscaler.StroomTaskAutoscalerReconciler.Reconcile: the reads of the autoscaler and of its cluster before the loop are left out; they change nothing.
- TaskLimits.RoundingBound: exact arithmetic instead of floating point at line 171.
- SQL text, MySQL connections and the lookup of the password Secret: abstract maps of nodes and tasks take their place.
- The delays after which a pass is repeated, and the error values of failing passes.
- The Kubernetes client, caches, watches, event order and leader election, and overflow of times and CPU quantities.
- Construction of pods, StatefulSets, Services, ConfigMaps, CronJobs and probes, backups, the log sender and password generation: record building. A StatefulSet is its cluster, its replica count and one value for the rest, to which the API server may add.
- Owner references on ingresses, which internal/controller/stroomcluster.go:886-890 sets on copies.
- Uniqueness of names across clusters, which does not hold when names contain "-node-".
- autoScaleStroomNodeTasks, which only logs.
