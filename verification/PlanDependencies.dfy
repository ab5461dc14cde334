/** What becomes of a plan's `depends_on` in execution, from the submitted body to the agent's calls. */
module PlanDependencies {
  import opened Json
  import opened PlanGraph
  import opened PlanValidation
  import opened StepSchedule
  import opened ScheduleProperties
  import Loop = PlanExecution
  import opened ExecutionProperties

  // ---- Prerequisites in the body ----

  predicate Awaits(plan: seq<Fields>, i: nat, j: nat)
    requires i < |plan| && j < |plan|
  {
    TextAt(plan[j], "id") in StringsAt(plan[i], "depends_on")
  }

  /** Every step another one depends on has a stable id: a string, and not the empty one. */
  ghost predicate NamedPrerequisites(plan: seq<Fields>) {
    forall i, j :: 0 <= i < |plan| && 0 <= j < |plan| && Awaits(plan, i, j) ==> TextAt(plan[j], "stable_id") != ""
  }

  /** Its stable id is a string. */
  ghost predicate TextPrerequisites(plan: seq<Fields>) {
    forall i, j :: 0 <= i < |plan| && 0 <= j < |plan| && Awaits(plan, i, j) ==> HasText(plan[j], "stable_id")
  }

  /** A body the gate accepts, and the steps the executor makes of it. */
  ghost predicate ExecutedAs(body: Body, steps: seq<ScheduledStep>, order: seq<nat>) {
    && GoAccepts(body) && HasSteps(body) && Schedulable(StableSteps(StepsOf(body)))
    && ScheduledAs(StepsOf(body), steps, order)
  }

  ghost predicate PlainIds(plan: seq<Fields>, refs: seq<StepRef>) {
    && IdsMatch(plan, refs) && DistinctIds(refs) && KnownReferences(refs)
    && forall i :: 0 <= i < |plan| ==> HasText(plan[i], "id")
  }

  lemma AcceptedIds(body: Body)
    requires GoAccepts(body)
    ensures HasSteps(body) && PlainIds(StepsOf(body), RefsOf(PlanOf(body)["steps"].items))
  {
    var items := PlanOf(body)["steps"].items;
    AllObjects(items);
    assert forall i :: 0 <= i < |items| ==> StepShape(items[i]);
  }

  // ---- Resolution ----

  lemma {:induction false} MappedAt(plan: seq<Fields>, refs: seq<StepRef>, n: nat, j: nat)
    requires PlainIds(plan, refs) && j < n <= |plan| && HasText(plan[j], "stable_id")
    ensures TextAt(plan[j], "id") in StableIdMap(plan[..n])
    ensures StableIdMap(plan[..n])[TextAt(plan[j], "id")] == TextAt(plan[j], "stable_id")
  {
    assert plan[..n][..n - 1] == plan[..n - 1];
    if j < n - 1 {
      MappedAt(plan, refs, n - 1, j);
      assert refs[j].id != refs[n - 1].id;
    }
  }

  ghost predicate StemsFrom(plan: seq<Fields>, i: nat, j: nat, s: string)
    requires i < |plan| && j < |plan|
  {
    Awaits(plan, i, j) && HasText(plan[j], "stable_id") && TextAt(plan[j], "stable_id") == s
  }

  /** A dependency is kept exactly if the stable id of its step is a string. */
  lemma ResolvedIff(plan: seq<Fields>, refs: seq<StepRef>, i: nat, s: string)
    requires PlainIds(plan, refs) && i < |plan|
    ensures s in StableStep(plan, plan[i]).dependsOn <==> exists j :: 0 <= j < |plan| && StemsFrom(plan, i, j, s)
  {
    var ids, deps := StableIdMap(plan), StringsAt(plan[i], "depends_on");
    ResolvedMembers(ids, deps, s);
    if s in StableStep(plan, plan[i]).dependsOn {
      var d :| d in deps && d in ids && ids[d] == s;
      var j := StableIdMapEntry(plan, d);
      assert StemsFrom(plan, i, j, s);
    }
    if j :| 0 <= j < |plan| && StemsFrom(plan, i, j, s) {
      assert plan[..|plan|] == plan;
      MappedAt(plan, refs, |plan|, j);
    }
  }

  // ---- The scheduled steps ----

  lemma PositionOf(plan: seq<Fields>, steps: seq<ScheduledStep>, order: seq<nat>, j: nat) returns (k: nat)
    requires ScheduledAs(plan, steps, order) && j < |plan|
    ensures k < |steps| && order[k] == j && steps[k].fields == plan[j]
  {
    Permutations.PermutationCovers(order, |plan|, j);
    k :| 0 <= k < |order| && order[k] == j;
  }

  lemma ScheduledIsDistinct(plan: seq<Fields>, refs: seq<StepRef>, steps: seq<ScheduledStep>, order: seq<nat>)
    requires PlainIds(plan, refs) && DistinctIds(StableSteps(plan)) && ScheduledAs(plan, steps, order)
    ensures DistinctIds(Refs(steps)) && StableIdsDiffer(steps)
  {
    var stable := StableSteps(plan);
    forall i, j | 0 <= i < j < |steps|
      ensures Refs(steps)[i].id != Refs(steps)[j].id && Loop.StableIdOf(steps[i]) != Loop.StableIdOf(steps[j])
    {
      assert order[i] != order[j];
      assert refs[order[i]].id != refs[order[j]].id && stable[order[i]].id != stable[order[j]].id;
    }
  }

  /** If prerequisites have strings as stable ids, the schedule puts them first. */
  lemma TextPrerequisitesComeFirst(plan: seq<Fields>, refs: seq<StepRef>, steps: seq<ScheduledStep>, order: seq<nat>)
    requires PlainIds(plan, refs) && ScheduledAs(plan, steps, order) && TextPrerequisites(plan)
    ensures PrerequisitesEarlier(steps)
  {
    var stable := StableSteps(plan);
    ScheduleRespectsDependencies(stable, order);
    forall k, d | 0 <= k < |steps| && d in Prerequisites(steps[k]) ensures EarlierStep(steps, k, d) {
      var i := order[k];
      assert d in refs[i].dependsOn && d in IdsOf(refs);
      var j :| 0 <= j < |refs| && refs[j].id == d;
      assert Awaits(plan, i, j);
      assert StemsFrom(plan, i, j, stable[j].id);
      ResolvedIff(plan, refs, i, stable[j].id);
      assert DependsOn(stable, i, j) && j in order[..k];
      var m :| 0 <= m < k && order[..k][m] == j;
      assert IdOf(steps[m]) == d;
    }
  }

  lemma StepsAnnotated(plan: seq<Fields>, refs: seq<StepRef>, steps: seq<ScheduledStep>, order: seq<nat>, k: nat)
    requires PlainIds(plan, refs) && ScheduledAs(plan, steps, order) && TextPrerequisites(plan) && k < |steps|
    ensures Annotates(steps, k)
  {
    forall s ensures s in steps[k].depStableIds <==> StableIdAwaited(steps, k, s) {
      ResolvedIff(plan, refs, order[k], s);
      if s in steps[k].depStableIds {
        var j :| 0 <= j < |plan| && StemsFrom(plan, order[k], j, s);
        var m := PositionOf(plan, steps, order, j);
        assert WaitsFor(steps, k, m);
      }
      if StableIdAwaited(steps, k, s) {
        var m :| 0 <= m < |steps| && WaitsFor(steps, k, m) && Loop.StableIdOf(steps[m]) == s;
        assert Awaits(plan, order[k], order[m]);
        assert StemsFrom(plan, order[k], order[m], s);
      }
    }
  }

  lemma NamedPlanIsTopological(plan: seq<Fields>, refs: seq<StepRef>, steps: seq<ScheduledStep>, order: seq<nat>)
    requires PlainIds(plan, refs) && DistinctIds(StableSteps(plan)) && ScheduledAs(plan, steps, order)
    requires NamedPrerequisites(plan)
    ensures Topological(steps) && NamedDependencies(steps)
  {
    assert TextPrerequisites(plan);
    ScheduledIsDistinct(plan, refs, steps, order);
    TextPrerequisitesComeFirst(plan, refs, steps, order);
    forall k | 0 <= k < |steps| ensures Annotates(steps, k) {
      StepsAnnotated(plan, refs, steps, order, k);
    }
    forall k, m | 0 <= k < |steps| && 0 <= m < |steps| && WaitsFor(steps, k, m)
        ensures Loop.StableIdOf(steps[m]) != "" {
      assert Awaits(plan, order[k], order[m]);
    }
  }

  ghost predicate Permuted(a: seq<StepRef>, b: seq<StepRef>, order: seq<nat>) {
    && DistinctIds(a) && DistinctIds(b) && Permutations.Permutation(order, |b|) && |a| == |b|
    && forall k :: 0 <= k < |a| ==> a[k] == b[order[k]]
  }

  lemma PermutedAt(a: seq<StepRef>, b: seq<StepRef>, order: seq<nat>, id: string)
    requires Permuted(a, b, order) && id in IdsOf(a)
    ensures id in IdsOf(b) && GraphOf(a)[id] == GraphOf(b)[id]
  {
    var k :| 0 <= k < |a| && a[k].id == id;
    GraphAt(a, k);
    GraphAt(b, order[k]);
  }

  lemma PermutedCovers(a: seq<StepRef>, b: seq<StepRef>, order: seq<nat>, id: string)
    requires Permuted(a, b, order) && id in IdsOf(b)
    ensures id in IdsOf(a)
  {
    var j :| 0 <= j < |b| && b[j].id == id;
    Permutations.PermutationCovers(order, |b|, j);
    var k :| 0 <= k < |order| && order[k] == j;
    assert a[k] in a;
  }

  lemma PermutedGraph(a: seq<StepRef>, b: seq<StepRef>, order: seq<nat>)
    requires Permuted(a, b, order)
    ensures GraphOf(a) == GraphOf(b)
  {
    var g, h := GraphOf(a), GraphOf(b);
    forall id | id in g ensures id in h && g[id] == h[id] {
      PermutedAt(a, b, order, id);
    }
    forall id | id in h ensures id in g {
      PermutedCovers(a, b, order, id);
    }
  }

  /** The graph of `depends_on` is that of the body, whatever the executor drops. */
  lemma SameGraph(body: Body, steps: seq<ScheduledStep>, order: seq<nat>)
    requires ExecutedAs(body, steps, order)
    ensures DepGraph(steps) == StepGraph(body)
  {
    var plan, refs := StepsOf(body), RefsOf(PlanOf(body)["steps"].items);
    AcceptedIds(body);
    ScheduledIsDistinct(plan, refs, steps, order);
    PermutedGraph(Refs(steps), refs, order);
  }

  lemma NoSelfDependency(body: Body, i: nat)
    requires GoAccepts(body) && HasSteps(body) && i < |StepsOf(body)|
    ensures !Awaits(StepsOf(body), i, i)
  {
    var refs := RefsOf(PlanOf(body)["steps"].items);
    AcceptedIds(body);
    if Awaits(StepsOf(body), i, i) {
      GraphAt(refs, i);
      assert Cycle(StepGraph(body), [refs[i].id, refs[i].id]);
    }
  }

  lemma UnnamedPrerequisiteLeaks(body: Body, steps: seq<ScheduledStep>, order: seq<nat>)
    requires ExecutedAs(body, steps, order) && !NamedPrerequisites(StepsOf(body))
    ensures var inputs := OnlyUnnamedDeviates(steps);
            && Going(steps, inputs, |steps|) && !BlockedIsClosure(steps, inputs)
            && exists k :: 0 <= k < |steps| && !CalledInOrder(steps, inputs, k)
  {
    var plan := StepsOf(body);
    AcceptedIds(body);
    ScheduledIsDistinct(plan, RefsOf(PlanOf(body)["steps"].items), steps, order);
    var i, j :| 0 <= i < |plan| && 0 <= j < |plan| && Awaits(plan, i, j) && TextAt(plan[j], "stable_id") == "";
    var k := PositionOf(plan, steps, order, i);
    var m := PositionOf(plan, steps, order, j);
    NoSelfDependency(body, i);
    UnnamedDependencyLeaks(steps, k, m);
  }

  /** An accepted body whose steps are told apart by stable id is executed by the rules of its
      `depends_on` exactly when every step another one depends on has a stable id: then each step comes
      after what it depends on, and in every run the blocked steps are those that deviated and those that
      transitively depend on one, and the agent is called for a step only after all it transitively
      depends on has completed. Otherwise a run breaks both. */
  lemma DependenciesRespectedIff(body: Body, steps: seq<ScheduledStep>, order: seq<nat>)
    requires ExecutedAs(body, steps, order)
    ensures DepGraph(steps) == StepGraph(body)
    ensures NamedPrerequisites(StepsOf(body)) ==> PrerequisitesEarlier(steps)
    ensures NamedPrerequisites(StepsOf(body)) <==>
            forall inputs :: Going(steps, inputs, |steps|) ==> BlockedIsClosure(steps, inputs)
    ensures NamedPrerequisites(StepsOf(body)) <==>
            forall inputs, k :: 0 <= k < |steps| ==> CalledInOrder(steps, inputs, k)
  {
    SameGraph(body, steps, order);
    AcceptedIds(body);
    if NamedPrerequisites(StepsOf(body)) {
      NamedPlanIsTopological(StepsOf(body), RefsOf(PlanOf(body)["steps"].items), steps, order);
      forall inputs | Going(steps, inputs, |steps|) ensures BlockedIsClosure(steps, inputs) {
        FinishedRunBlocksClosure(steps, inputs);
      }
      forall inputs, k | 0 <= k < |steps| ensures CalledInOrder(steps, inputs, k) {
        AllCallsAreInOrder(steps, inputs, k);
      }
    } else {
      UnnamedPrerequisiteLeaks(body, steps, order);
    }
  }

  // ---- Accepted bodies that break it ----

  /** A step "b" that waits for a step "a", listed after it, whose stable id is this value. */
  function TwoSteps(stableId: Value): seq<Value> {
    [EncodeStep(PlanStep("b", "b", 1, ["a"], "second", "edit", [])),
     Object(EncodeStep(PlanStep("a", "a", 2, [], "first", "edit", [])).fields["stable_id" := stableId])]
  }

  function TwoStepBody(stableId: Value): Body {
    Parsed(Object(map["schema_version" := String("v1"), "plan_type" := String("implementation"),
                      "intent_summary" := String("intent"), "steps" := Array(TwoSteps(stableId))]))
  }

  lemma TwoStepRefs(stableId: Value)
    ensures RefsOf(TwoSteps(stableId)) == [StepRef("b", ["a"]), StepRef("a", [])]
  {
    StringsOfEncoded([]);
    StringsOfEncoded(["a"]);
  }

  lemma TwoStepsAcyclic(refs: seq<StepRef>)
    requires refs == [StepRef("b", ["a"]), StepRef("a", [])]
    ensures DistinctIds(refs) && KnownReferences(refs) && !HasCycle(GraphOf(refs))
  {
    var order := ["a", "b"];
    assert IdsOf(refs) == {refs[0].id, refs[1].id};
    forall k, d | 0 <= k < |order| && Edge(GraphOf(refs), order[k], d) ensures d in order[..k] {
      var i := EdgeComesFromStep(refs, order[k], d);
      assert i == 0 && d == "a" && k == 1;
      assert order[..1][0] == "a";
    }
    OrderExcludesCycles(GraphOf(refs), order);
  }

  lemma TwoStepsAccepted(stableId: Value)
    ensures GoAccepts(TwoStepBody(stableId)) && HasSteps(TwoStepBody(stableId))
    ensures StepsOf(TwoStepBody(stableId)) == [TwoSteps(stableId)[0].fields, TwoSteps(stableId)[1].fields]
  {
    TwoStepRefs(stableId);
    TwoStepsAcyclic(RefsOf(TwoSteps(stableId)));
    AllObjects(TwoSteps(stableId));
  }

  predicate Unnamed(stableId: Value) {
    stableId.String? ==> stableId.text == ""
  }

  lemma TwoStepsScheduled(stableId: Value)
    requires Unnamed(stableId)
    ensures HasSteps(TwoStepBody(stableId)) && Schedulable(StableSteps(StepsOf(TwoStepBody(stableId))))
    ensures !NamedPrerequisites(StepsOf(TwoStepBody(stableId)))
  {
    var body := TwoStepBody(stableId);
    TwoStepsAccepted(stableId);
    AcceptedPlanSchedules(body);
    StringsOfEncoded(["a"]);
    var plan := StepsOf(body);
    assert StableSteps(plan)[0].id == "b" && StableSteps(plan)[1].id == "";
    assert Awaits(plan, 0, 1);
  }

  /** The gate accepts a plan whose prerequisite has a stable id that is empty or no string at all, such as
      a number, and the executor schedules it. In a run in which that step deviates the other is executed
      all the same. */
  lemma AcceptedPlanLeaks(stableId: Value, steps: seq<ScheduledStep>, order: seq<nat>)
    requires Unnamed(stableId)
    ensures GoAccepts(TwoStepBody(stableId)) && HasSteps(TwoStepBody(stableId))
    ensures Schedulable(StableSteps(StepsOf(TwoStepBody(stableId))))
    ensures ScheduledAs(StepsOf(TwoStepBody(stableId)), steps, order) ==>
              Going(steps, OnlyUnnamedDeviates(steps), |steps|) && !BlockedIsClosure(steps, OnlyUnnamedDeviates(steps))
  {
    var body := TwoStepBody(stableId);
    TwoStepsAccepted(stableId);
    TwoStepsScheduled(stableId);
    if ScheduledAs(StepsOf(body), steps, order) {
      UnnamedPrerequisiteLeaks(body, steps, order);
    }
  }

  lemma NothingResolved(stableId: Value)
    requires !stableId.String?
    ensures HasSteps(TwoStepBody(stableId)) && InPlanOrder(StableSteps(StepsOf(TwoStepBody(stableId))))
  {
    var body := TwoStepBody(stableId);
    TwoStepsAccepted(stableId);
    AcceptedIds(body);
    var plan, refs := StepsOf(body), RefsOf(PlanOf(body)["steps"].items);
    TwoStepRefs(stableId);
    forall i, j | 0 <= i < |plan| && 0 <= j < |plan| ensures !DependsOn(StableSteps(plan), i, j) {
      ResolvedIff(plan, refs, i, StableSteps(plan)[j].id);
      assert Awaits(plan, i, 0) ==> refs[i].dependsOn == [] || refs[i].dependsOn == ["a"];
      assert !HasText(plan[1], "stable_id");
    }
  }

  /** If it is no string, the dependency is dropped even from the order: the dependent runs first. */
  lemma DependentRunsFirst(stableId: Value, steps: seq<ScheduledStep>, order: seq<nat>)
    requires !stableId.String? && HasSteps(TwoStepBody(stableId))
    requires ScheduledAs(StepsOf(TwoStepBody(stableId)), steps, order)
    ensures |steps| == 2 && IdOf(steps[0]) == "b" && IdOf(steps[1]) == "a" && WaitsFor(steps, 0, 1)
  {
    var plan := StepsOf(TwoStepBody(stableId));
    TwoStepsAccepted(stableId);
    NothingResolved(stableId);
    OrderedPlanUnchanged(StableSteps(plan), order);
    StringsOfEncoded(["a"]);
    assert order == [0, 1] && |steps| == 2;
  }
}
