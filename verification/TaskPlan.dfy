/**
 The task plan of a run: a map from task key to the keys it depends on
 (`_build_task_plan`), and what it takes for such a plan to be executable.
*/
module TaskPlan {
  import opened KeyOrder
  import opened Text
  import opened Wrappers

  type Plan = map<Key, seq<Key>>

  /** One entry of `config_snapshot.tasks`; the source skips entries that are not objects. */
  datatype TaskItem = TaskItem(id: string, dependsOn: seq<string>, requiredArtifacts: seq<string>) | NotAnObject

  datatype ConfigSnapshot = NoSnapshot | Snapshot(tasks: seq<TaskItem>, steps: seq<string>)

  const FALLBACK_PLAN: Plan := map["task:1" := []]

  function CleanNames(raw: seq<string>): (names: seq<Key>)
    ensures forall n :: n in names ==> n != "" && Trimmed(n)
  {
    if raw == [] then []
    else
      var n := Strip(raw[0]);
      (if n == "" then [] else [n]) + CleanNames(raw[1..])
  }

  /** The later of two entries with one id wins, as in a dictionary. */
  function PlanOfTasks(items: seq<TaskItem>): Plan {
    if items == [] then map[]
    else
      var last := items[|items| - 1];
      var before := PlanOfTasks(items[..|items| - 1]);
      if last.NotAnObject? || Strip(last.id) == "" then before
      else before[Strip(last.id) := CleanNames(last.dependsOn)]
  }

  /** Each step depends on the step before it. */
  function PlanOfSteps(names: seq<Key>): Plan {
    if names == [] then map[]
    else
      var n := |names| - 1;
      PlanOfSteps(names[..n])[names[n] := if n == 0 then [] else [names[n - 1]]]
  }

  function BuildPlan(config: ConfigSnapshot): (plan: Plan)
    ensures plan.Keys != {}
  {
    if config.NoSnapshot? then assert "task:1" in FALLBACK_PLAN; FALLBACK_PLAN
    else if PlanOfTasks(config.tasks).Keys != {} then PlanOfTasks(config.tasks)
    else if PlanOfSteps(CleanNames(config.steps)).Keys != {} then PlanOfSteps(CleanNames(config.steps))
    else assert "task:1" in FALLBACK_PLAN; FALLBACK_PLAN
  }

  lemma {:induction false} CleanNamesAppend(raw: seq<string>, x: string)
    ensures CleanNames(raw + [x]) == CleanNames(raw) + (if Strip(x) == "" then [] else [Strip(x)])
  {
    hide Strip;
    if raw == [] {
      assert raw + [x] == [x];
      assert CleanNames([x][1..]) == [];
    } else {
      CleanNamesAppend(raw[1..], x);
      assert (raw + [x])[1..] == raw[1..] + [x];
    }
  }

  lemma {:induction false} PlanOfStepsAppend(names: seq<Key>, key: Key)
    ensures PlanOfSteps(names + [key]) ==
            PlanOfSteps(names)[key := if names == [] then [] else [names[|names| - 1]]]
  {
    assert (names + [key])[..|names|] == names;
  }

  lemma CleanNamesPrefix(raw: seq<string>, i: nat)
    requires i < |raw|
    ensures CleanNames(raw[..i + 1]) == CleanNames(raw[..i]) + (if Strip(raw[i]) == "" then [] else [Strip(raw[i])])
  {
    CleanNamesAppend(raw[..i], raw[i]);
    assert raw[..i + 1] == raw[..i] + [raw[i]];
  }

  /** `_build_task_plan`; its two dictionary-filling loops are the methods below. */
  method BuildTaskPlan(config: ConfigSnapshot) returns (plan: Plan)
    ensures plan == BuildPlan(config)
  {
    if config.NoSnapshot? {
      return FALLBACK_PLAN;
    }
    plan := CollectTasks(config.tasks);
    if plan.Keys != {} {
      return;
    }
    plan := CollectSteps(config.steps);
    if plan.Keys != {} {
      return;
    }
    return FALLBACK_PLAN;
  }

  method CollectTasks(items: seq<TaskItem>) returns (out: Plan)
    ensures out == PlanOfTasks(items)
  {
    hide Strip, CleanNames;
    out := map[];
    assert items[..0] == [];
    for i := 0 to |items|
      invariant out == PlanOfTasks(items[..i])
    {
      assert items[..i + 1][..i] == items[..i];
      var item := items[i];
      if item.TaskItem? {
        var key := Strip(item.id);
        if key != "" {
          out := out[key := CleanNames(item.dependsOn)];
        }
      }
    }
    assert items[..|items|] == items;
  }

  /** The dictionary and the previous name after one more step. */
  lemma StepTaken(raw: seq<string>, i: nat, names: seq<Key>)
    requires i < |raw| && names == CleanNames(raw[..i])
    ensures Strip(raw[i]) == "" ==> CleanNames(raw[..i + 1]) == names
    ensures Strip(raw[i]) != "" ==>
              && CleanNames(raw[..i + 1]) == names + [Strip(raw[i])]
              && PlanOfSteps(names + [Strip(raw[i])])
                 == PlanOfSteps(names)[Strip(raw[i]) := if names == [] then [] else [names[|names| - 1]]]
  {
    hide Strip, CleanNames, PlanOfSteps;
    CleanNamesPrefix(raw, i);
    if Strip(raw[i]) != "" {
      PlanOfStepsAppend(names, Strip(raw[i]));
    }
  }

  method CollectSteps(raw: seq<string>) returns (out: Plan)
    ensures out == PlanOfSteps(CleanNames(raw))
  {
    hide Strip, CleanNames, PlanOfSteps;
    out := map[];
    ghost var names: seq<Key> := [];
    var prev: Option<Key> := None;
    NoStepsYet(raw);
    for i := 0 to |raw|
      invariant names == CleanNames(raw[..i])
      invariant out == PlanOfSteps(names)
      invariant prev == if names == [] then None else Some(names[|names| - 1])
    {
      StepTaken(raw, i, names);
      var key := Strip(raw[i]);
      if key != "" {
        out := out[key := if prev.Some? then [prev.value] else []];
        names := names + [key];
        prev := Some(key);
      }
    }
    assert raw[..|raw|] == raw;
  }

  lemma NoStepsYet(raw: seq<string>)
    ensures CleanNames(raw[..0]) == [] && PlanOfSteps([]) == map[]
  {
    assert raw[..0] == [];
  }

  // ----- executable plans -----

  /** Every dependency is itself a task of the plan. */
  ghost predicate Closed(plan: Plan) {
    forall k, d :: k in plan && d in plan[k] ==> d in plan
  }

  ghost predicate IsRanking(plan: Plan, rank: map<Key, nat>) {
    plan.Keys <= rank.Keys
    && forall k, d :: k in plan && d in plan[k] && d in plan ==> rank[d] < rank[k]
  }

  ghost predicate Acyclic(plan: Plan) {
    exists rank :: IsRanking(plan, rank)
  }

  ghost predicate Distinct<T>(s: seq<T>) {
    forall i, j :: 0 <= i < j < |s| ==> s[i] != s[j]
  }

  // ----- chains of steps -----

  /** The entry a step name keeps is the one of its last occurrence. */
  ghost predicate IsLastOccurrence(names: seq<Key>, i: nat) {
    i < |names| && forall j :: i < j < |names| ==> names[j] != names[i]
  }

  lemma StepEntry(names: seq<Key>, i: nat)
    requires IsLastOccurrence(names, i)
    ensures names[i] in PlanOfSteps(names)
    ensures PlanOfSteps(names)[names[i]] == if i == 0 then [] else [names[i - 1]]
  {
    var n := |names| - 1;
    if i < n {
      assert IsLastOccurrence(names[..n], i);
      StepEntry(names[..n], i);
    }
  }

  lemma LastOccurrence(names: seq<Key>, i: nat) returns (last: nat)
    requires i < |names|
    ensures i <= last && IsLastOccurrence(names, last) && names[last] == names[i]
    decreases |names| - i
  {
    if j :| i < j < |names| && names[j] == names[i] {
      last := LastOccurrence(names, j);
    } else {
      last := i;
    }
  }

  lemma StepKeys(names: seq<Key>)
    ensures forall k :: k in PlanOfSteps(names) <==> k in names
  {
    if names != [] {
      StepKeys(names[..|names| - 1]);
    }
  }

  lemma ChainEntries(names: seq<Key>, k: Key) returns (i: nat)
    requires k in PlanOfSteps(names)
    ensures IsLastOccurrence(names, i) && names[i] == k
    ensures PlanOfSteps(names)[k] == if i == 0 then [] else [names[i - 1]]
  {
    StepKeys(names);
    var j :| 0 <= j < |names| && names[j] == k;
    i := LastOccurrence(names, j);
    StepEntry(names, i);
  }

  /** No key occurring after a repeated name's first place can have a rank: the chain loops. */
  lemma {:induction false} RepeatHasNoRank(names: seq<Key>, first: nat, x: nat, rank: map<Key, nat>)
    requires IsRanking(PlanOfSteps(names), rank)
    requires first < |names| && !IsLastOccurrence(names, first)
    requires IsLastOccurrence(names, x) && first < x
    requires names[x] in rank
    ensures false
    decreases rank[names[x]]
  {
    StepKeys(names);
    StepEntry(names, x);
    var y := LastOccurrence(names, x - 1);
    assert names[x - 1] in PlanOfSteps(names)[names[x]];
    assert y != first;
    RepeatHasNoRank(names, first, y, rank);
  }

  /** A list of steps yields an executable plan exactly when no step name occurs twice. */
  lemma StepsAcyclicIffDistinct(names: seq<Key>)
    ensures Closed(PlanOfSteps(names))
    ensures Acyclic(PlanOfSteps(names)) <==> Distinct(names)
  {
    var plan := PlanOfSteps(names);
    StepKeys(names);
    forall k, d | k in plan && d in plan[k] ensures d in plan {
      var i := ChainEntries(names, k);
    }
    if Distinct(names) {
      var rank := map k | k in plan :: Position(names, k);
      forall k, d | k in plan && d in plan[k] && d in plan ensures rank[d] < rank[k] {
        var i := ChainEntries(names, k);
        assert Position(names, k) == i && Position(names, d) == i - 1;
      }
      assert IsRanking(plan, rank);
    }
    if Acyclic(plan) && !Distinct(names) {
      var rank :| IsRanking(plan, rank);
      var i, j :| 0 <= i < j < |names| && names[i] == names[j];
      var last := LastOccurrence(names, j);
      RepeatHasNoRank(names, i, last, rank);
    }
  }

  ghost function Position(names: seq<Key>, k: Key): (i: nat)
    requires k in names
    ensures i < |names| && names[i] == k
  {
    var i :| 0 <= i < |names| && names[i] == k;
    i
  }

  // ----- the built plan, entry by entry -----

  /** `names` are the entries of `raw` that are not blank, stripped, in their order; `at` are their places. */
  ghost predicate AreCleanedAt(raw: seq<string>, names: seq<string>, at: seq<nat>) {
    && |at| == |names|
    && (forall j :: 0 <= j < |at| ==> at[j] < |raw| && names[j] == Strip(raw[at[j]]))
    && (forall i, j :: 0 <= i < j < |at| ==> at[i] < at[j])
    && (forall i: nat :: i < |raw| ==> (i in at <==> Strip(raw[i]) != ""))
  }

  ghost predicate AreCleaned(raw: seq<string>, names: seq<string>) {
    exists at :: AreCleanedAt(raw, names, at)
  }

  lemma OneMoreCleaned(raw: seq<string>, names: seq<string>, at: seq<nat>)
    requires raw != [] && AreCleanedAt(raw[..|raw| - 1], names, at)
    ensures var n := |raw| - 1;
      if Strip(raw[n]) == "" then AreCleanedAt(raw, names, at) else AreCleanedAt(raw, names + [Strip(raw[n])], at + [n])
  {
    hide Strip;
    var n := |raw| - 1;
    assert n !in at;
    assert forall i: nat :: i < n ==> raw[..n][i] == raw[i];
  }

  lemma {:induction false} CleanNamesAre(raw: seq<string>)
    ensures AreCleaned(raw, CleanNames(raw))
    decreases |raw|
  {
    hide Strip, AreCleanedAt;
    if raw == [] {
      assert AreCleanedAt([], [], []) by { NothingCleaned(); }
    } else {
      var n := |raw| - 1;
      CleanNamesAre(raw[..n]);
      CleanNamesPrefix(raw, n);
      assert raw[..n + 1] == raw;
      var at :| AreCleanedAt(raw[..n], CleanNames(raw[..n]), at);
      OneMoreCleaned(raw, CleanNames(raw[..n]), at);
      assert CleanNames(raw[..n]) + [] == CleanNames(raw[..n]);
    }
  }

  lemma NothingCleaned()
    ensures AreCleanedAt([], [], [])
  {
  }

  /** The entry names the key: it is an object whose id, stripped, is the key and not blank. */
  predicate Names(item: TaskItem, key: Key) {
    item.TaskItem? && key != "" && Strip(item.id) == key
  }

  ghost predicate IsLastNaming(items: seq<TaskItem>, key: Key, i: nat) {
    i < |items| && Names(items[i], key) && forall j :: i < j < |items| ==> !Names(items[j], key)
  }

  lemma {:induction false} TaskKeys(items: seq<TaskItem>, key: Key)
    ensures key in PlanOfTasks(items) <==> exists item :: item in items && Names(item, key)
    decreases |items|
  {
    hide Strip, CleanNames;
    if items != [] {
      var n := |items| - 1;
      TaskKeys(items[..n], key);
      assert items[n] in items;
      forall item | item in items[..n] ensures item in items {}
      forall item | item in items ensures item in items[..n] || item == items[n] {}
    }
  }

  lemma {:induction false} TaskEntry(items: seq<TaskItem>, key: Key, i: nat)
    requires IsLastNaming(items, key, i)
    ensures key in PlanOfTasks(items) && PlanOfTasks(items)[key] == CleanNames(items[i].dependsOn)
    decreases |items|
  {
    hide Strip, CleanNames;
    var n := |items| - 1;
    if i < n {
      assert IsLastNaming(items[..n], key, i);
      TaskEntry(items[..n], key, i);
      assert !Names(items[n], key);
    }
  }

  /**
   Some task entry is usable: then the keys of the plan are the stripped ids of the usable
   entries, each with the cleaned dependencies of the last entry that names it, and the
   steps do not matter.
  */
  lemma PlanOfTaskEntries(items: seq<TaskItem>, steps: seq<string>, other: seq<string>, key: Key)
    requires exists item :: item in items && item.TaskItem? && Strip(item.id) != ""
    ensures var plan := BuildPlan(Snapshot(items, steps));
      && (key in plan <==> exists item :: item in items && item.TaskItem? && Strip(item.id) == key && key != "")
      && (forall i :: 0 <= i < |items| && items[i].TaskItem? && Strip(items[i].id) == key && key != ""
            && (forall j :: i < j < |items| ==> items[j].NotAnObject? || Strip(items[j].id) != key)
            ==> key in plan && AreCleaned(items[i].dependsOn, plan[key]))
      && BuildPlan(Snapshot(items, other)) == plan
  {
    hide Strip, CleanNames, PlanOfTasks, PlanOfSteps, AreCleaned;
    var used :| used in items && used.TaskItem? && Strip(used.id) != "";
    TaskKeys(items, Strip(used.id));
    assert Names(used, Strip(used.id)) && Strip(used.id) in PlanOfTasks(items).Keys;
    TaskKeys(items, key);
    forall i | 0 <= i < |items| && Names(items[i], key) && (forall j :: i < j < |items| ==> !Names(items[j], key))
      ensures key in PlanOfTasks(items) && AreCleaned(items[i].dependsOn, PlanOfTasks(items)[key])
    {
      TaskEntry(items, key, i);
      CleanNamesAre(items[i].dependsOn);
    }
  }

  /** Every name is a key, and depends on the name before its last occurrence. */
  ghost predicate IsChain(plan: Plan, names: seq<Key>) {
    && plan.Keys == (set n | n in names)
    && forall i :: 0 <= i < |names| && names[i] !in names[i + 1..] ==> plan[names[i]] == if i == 0 then [] else [names[i - 1]]
  }

  lemma StepsFormChain(names: seq<Key>)
    ensures IsChain(PlanOfSteps(names), names)
  {
    hide PlanOfSteps, IsLastOccurrence;
    StepKeys(names);
    var plan := PlanOfSteps(names);
    assert plan.Keys == (set n | n in names);
    forall i | 0 <= i < |names| && names[i] !in names[i + 1..]
      ensures plan[names[i]] == if i == 0 then [] else [names[i - 1]]
    {
      NotInRest(names, i);
      StepEntry(names, i);
    }
  }

  lemma NotInRest(names: seq<Key>, i: nat)
    requires i < |names| && names[i] !in names[i + 1..]
    ensures IsLastOccurrence(names, i)
  {
    forall j | i < j < |names| ensures names[j] != names[i] {
      assert names[j] == names[i + 1..][j - i - 1];
    }
  }

  /** No task entry is usable: the steps that are not blank form a chain, and without any the plan is the single task `task:1`. */
  lemma PlanOfStepEntries(items: seq<TaskItem>, steps: seq<string>)
    requires forall item :: item in items ==> item.NotAnObject? || Strip(item.id) == ""
    ensures var plan := BuildPlan(Snapshot(items, steps));
      exists names :: AreCleaned(steps, names) && if names == [] then plan == map["task:1" := []] else IsChain(plan, names)
    ensures BuildPlan(NoSnapshot) == map["task:1" := []]
  {
    hide Strip, CleanNames, PlanOfSteps, AreCleaned, IsChain;
    NoTaskEntries(items);
    CleanNamesAre(steps);
    StepsFormChain(CleanNames(steps));
    ChainKeys(CleanNames(steps));
    assert AreCleaned(steps, CleanNames(steps));
  }

  lemma ChainKeys(names: seq<Key>)
    ensures PlanOfSteps(names).Keys == {} <==> names == []
  {
    StepKeys(names);
    if names != [] {
      assert names[0] in PlanOfSteps(names).Keys;
    }
  }

  lemma {:induction false} NoTaskEntries(items: seq<TaskItem>)
    requires forall item :: item in items ==> item.NotAnObject? || Strip(item.id) == ""
    ensures PlanOfTasks(items) == map[]
    decreases |items|
  {
    hide Strip;
    if items != [] {
      assert items[|items| - 1] in items;
      NoTaskEntries(items[..|items| - 1]);
    }
  }
}
