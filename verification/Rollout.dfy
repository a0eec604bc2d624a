/** Staged creation of the children of a DatabaseServer. */
module Rollout {
  import opened Resources

  datatype Status = Status(state: string, address: string, port: int)

  /** The objects in the store with their contents. */
  type Objects = map<ObjectKey, string>

  const DATABASE_PORT := 3306
  const UNDEPLOYED := Status("Undeployed", "", 0)

  function DatabaseBaseName(r: ResourceRef): string {
    "stroom-" + r.name + "-db"
  }

  function ServiceName(r: ResourceRef): string {
    DatabaseBaseName(r) + "-headless"
  }

  function DeployedStatus(r: ResourceRef): Status {
    Status("Deployed", ServiceName(r), DATABASE_PORT)
  }

  const STAGE_COUNT := 5

  /** The children in the order in which they are created. */
  function Stages(r: ResourceRef): (stages: seq<ObjectKey>)
    ensures |stages| == STAGE_COUNT
  {
    [ ObjectKey("Secret", r.namespace, DatabaseBaseName(r)),
      ObjectKey("ConfigMap", r.namespace, DatabaseBaseName(r)),
      ObjectKey("ConfigMap", r.namespace, DatabaseBaseName(r) + "-init"),
      ObjectKey("StatefulSet", r.namespace, DatabaseBaseName(r)),
      ObjectKey("Service", r.namespace, ServiceName(r)) ]
  }

  predicate Distinct(stages: seq<ObjectKey>) {
    forall i, j :: 0 <= i < j < |stages| ==> stages[i] != stages[j]
  }

  lemma StagesDistinct(r: ResourceRef)
    ensures Distinct(Stages(r))
  {
    var s := Stages(r);
    assert |DatabaseBaseName(r) + "-init"| != |DatabaseBaseName(r)|;
    assert |s[0].kind| == 6 && |s[1].kind| == |s[2].kind| == 9 && |s[3].kind| == 11 && |s[4].kind| == 7;
    assert s[1].name != s[2].name;
  }

  /** The children by the names that users know them under, and what the status tells of them. */
  lemma StagesSpelled(r: ResourceRef)
    ensures var name := "stroom-" + r.name + "-db";
      && Stages(r) == [ObjectKey("Secret", r.namespace, name), ObjectKey("ConfigMap", r.namespace, name),
                       ObjectKey("ConfigMap", r.namespace, name + "-init"),
                       ObjectKey("StatefulSet", r.namespace, name),
                       ObjectKey("Service", r.namespace, name + "-headless")]
      && DeployedStatus(r) == Status("Deployed", name + "-headless", 3306)
      && UNDEPLOYED == Status("Undeployed", "", 0)
  {
  }

  /** The position of the first stage that is not there, or the number of stages. */
  function FirstMissing(objects: Objects, stages: seq<ObjectKey>): (i: nat)
    ensures i <= |stages|
    ensures forall j :: 0 <= j < i ==> stages[j] in objects
    ensures i < |stages| ==> stages[i] !in objects
  {
    if stages == [] || stages[0] !in objects then 0
    else
      var i := FirstMissing(objects, stages[1..]);
      assert forall j :: 1 <= j < i + 1 ==> stages[j] == stages[1..][j - 1];
      i + 1
  }

  /** One error-free pass: the first missing child is created from its freshly generated content. */
  function RolloutPass(objects: Objects, stages: seq<ObjectKey>, contents: seq<string>): Objects
    requires |contents| == |stages|
  {
    var i := FirstMissing(objects, stages);
    if i == |stages| then objects else objects[stages[i] := contents[i]]
  }

  function Missing(objects: Objects, stages: seq<ObjectKey>): nat {
    if stages == [] then 0
    else (if stages[0] in objects then 0 else 1) + Missing(objects, stages[1..])
  }

  lemma {:induction false} MissingNone(objects: Objects, stages: seq<ObjectKey>)
    ensures Missing(objects, stages) == 0 <==> FirstMissing(objects, stages) == |stages|
  {
    if stages != [] {
      MissingNone(objects, stages[1..]);
    }
  }

  lemma {:induction false} MissingAfterCreate(objects: Objects, stages: seq<ObjectKey>, i: nat, content: string)
    requires Distinct(stages) && i < |stages| && stages[i] !in objects
    ensures Missing(objects[stages[i] := content], stages) == Missing(objects, stages) - 1
  {
    var tail := stages[1..];
    if i == 0 {
      assert forall j :: 0 <= j < |tail| ==> tail[j] == stages[j + 1];
      MissingElsewhere(objects, tail, stages[0], content);
    } else {
      assert stages[i] == tail[i - 1];
      MissingAfterCreate(objects, tail, i - 1, content);
    }
  }

  lemma {:induction false} MissingElsewhere(objects: Objects, stages: seq<ObjectKey>, key: ObjectKey, content: string)
    requires key !in stages
    ensures Missing(objects[key := content], stages) == Missing(objects, stages)
  {
    if stages != [] {
      MissingElsewhere(objects, stages[1..], key, content);
    }
  }

  function AfterPasses(objects: Objects, stages: seq<ObjectKey>, contents: seq<seq<string>>): Objects
    requires forall c :: c in contents ==> |c| == |stages|
    decreases |contents|
  {
    if contents == [] then objects
    else AfterPasses(RolloutPass(objects, stages, contents[0]), stages, contents[1..])
  }

  /**
   From any subset of the children every pass creates exactly one of those missing, so that as many passes as
   children are missing complete the rollout; later passes create nothing, and nothing that is there, the first
   Secret included, is ever overwritten.
   */
  lemma {:induction false} RolloutCompletes(objects: Objects, stages: seq<ObjectKey>, contents: seq<seq<string>>)
    requires Distinct(stages)
    requires forall c :: c in contents ==> |c| == |stages|
    ensures var after := AfterPasses(objects, stages, contents);
      && Missing(after, stages)
        == (if |contents| <= Missing(objects, stages) then Missing(objects, stages) - |contents| else 0)
      && (forall key :: key in objects ==> key in after && after[key] == objects[key])
      && (Missing(objects, stages) == 0 ==> after == objects)
    decreases |contents|
  {
    if contents != [] {
      var next := RolloutPass(objects, stages, contents[0]);
      var i := FirstMissing(objects, stages);
      MissingNone(objects, stages);
      if i < |stages| {
        MissingAfterCreate(objects, stages, i, contents[0][i]);
      }
      RolloutCompletes(next, stages, contents[1..]);
    }
  }

  lemma {:induction false} FirstMissingOfPrefix(objects: Objects, stages: seq<ObjectKey>, i: nat)
    requires i < |stages| && stages[i] !in objects
    ensures FirstMissing(objects, stages) <= i
    ensures FirstMissing(objects, stages) == i <==> Missing(objects, stages[..i]) == 0
    decreases |stages|
  {
    if i > 0 {
      assert stages[..i][1..] == stages[1..][..i - 1] && stages[..i][0] == stages[0];
      if stages[0] in objects {
        FirstMissingOfPrefix(objects, stages[1..], i - 1);
      }
    }
  }

  lemma MissingOfPrefix(objects: Objects, stages: seq<ObjectKey>, i: nat, content: string)
    requires Distinct(stages) && i < |stages|
    requires FirstMissing(objects, stages) < i
    ensures var first := FirstMissing(objects, stages);
      Missing(objects[stages[first] := content], stages[..i]) == Missing(objects, stages[..i]) - 1
      && Missing(objects, stages[..i]) > 0
  {
    var first := FirstMissing(objects, stages);
    assert forall j :: 0 <= j < i ==> stages[..i][j] == stages[j];
    MissingAfterCreate(objects, stages[..i], first, content);
  }

  /**
   A child that is missing with `m` others missing before it is created by the pass after `m` others, with the content
   that this pass made for it.
   */
  lemma {:induction false} RolloutContents(
      objects: Objects, stages: seq<ObjectKey>, contents: seq<seq<string>>, i: nat)
    requires Distinct(stages) && i < |stages| && stages[i] !in objects
    requires forall c :: c in contents ==> |c| == |stages|
    ensures var after, m := AfterPasses(objects, stages, contents), Missing(objects, stages[..i]);
      && (stages[i] in after <==> m < |contents|)
      && (m < |contents| ==> after[stages[i]] == contents[m][i])
    decreases |contents|
  {
    if contents != [] {
      var first, next := FirstMissing(objects, stages), RolloutPass(objects, stages, contents[0]);
      FirstMissingOfPrefix(objects, stages, i);
      assert contents[0] in contents;
      if first == i {
        RolloutCompletes(next, stages, contents[1..]);
      } else {
        MissingOfPrefix(objects, stages, i, contents[0][first]);
        RolloutContents(next, stages, contents[1..], i);
      }
    }
  }

  /** What is there is a prefix of the stages. */
  predicate InOrder(objects: Objects, stages: seq<ObjectKey>) {
    forall i, j :: 0 <= i < j < |stages| && stages[j] in objects ==> stages[i] in objects
  }

  lemma {:induction false} PassesKeepOrder(objects: Objects, stages: seq<ObjectKey>, contents: seq<seq<string>>)
    requires Distinct(stages) && InOrder(objects, stages)
    requires forall c :: c in contents ==> |c| == |stages|
    ensures InOrder(AfterPasses(objects, stages, contents), stages)
    decreases |contents|
  {
    if contents != [] {
      PassesKeepOrder(RolloutPass(objects, stages, contents[0]), stages, contents[1..]);
    }
  }

  /**
   In a rollout from nothing, the StatefulSet never exists without its Secret and configuration, nor the
   Service without the StatefulSet.
   */
  lemma DependenciesFirst(r: ResourceRef, contents: seq<seq<string>>)
    requires forall c :: c in contents ==> |c| == STAGE_COUNT
    ensures var after := AfterPasses(map[], Stages(r), contents);
      && (ObjectKey("StatefulSet", r.namespace, DatabaseBaseName(r)) in after ==>
            && ObjectKey("Secret", r.namespace, DatabaseBaseName(r)) in after
            && ObjectKey("ConfigMap", r.namespace, DatabaseBaseName(r)) in after
            && ObjectKey("ConfigMap", r.namespace, DatabaseBaseName(r) + "-init") in after)
      && (ObjectKey("Service", r.namespace, ServiceName(r)) in after ==>
            ObjectKey("StatefulSet", r.namespace, DatabaseBaseName(r)) in after)
  {
    StagesDistinct(r);
    PassesKeepOrder(map[], Stages(r), contents);
    var after, stages := AfterPasses(map[], Stages(r), contents), Stages(r);
    assert stages[3] in after ==> stages[0] in after && stages[1] in after && stages[2] in after;
    assert stages[4] in after ==> stages[3] in after;
  }
}
