/** Which steps a run skips, which it hands to the agent, and what its final counts mean. */
module ExecutionProperties {
  import opened Json
  import opened PlanGraph
  import opened PlanValidation
  import opened StepSchedule
  import opened PlanExecution

  // ---- Steps by id ----

  function IdOf(step: ScheduledStep): string {
    TextAt(step.fields, "id")
  }

  /** The ids a step's `depends_on` lists. */
  function Prerequisites(step: ScheduledStep): seq<string> {
    StringsAt(step.fields, "depends_on")
  }

  function Refs(steps: seq<ScheduledStep>): seq<StepRef> {
    seq(|steps|, i requires 0 <= i < |steps| => StepRef(IdOf(steps[i]), Prerequisites(steps[i])))
  }

  ghost function DepGraph(steps: seq<ScheduledStep>): Graph {
    GraphOf(Refs(steps))
  }

  predicate WaitsFor(steps: seq<ScheduledStep>, k: nat, m: nat)
    requires k < |steps| && m < |steps|
  {
    IdOf(steps[m]) in Prerequisites(steps[k])
  }

  ghost predicate EarlierStep(steps: seq<ScheduledStep>, k: nat, d: string)
    requires k <= |steps|
  {
    exists m :: 0 <= m < k && IdOf(steps[m]) == d
  }

  /** Every step comes after those its `depends_on` names. */
  ghost predicate PrerequisitesEarlier(steps: seq<ScheduledStep>) {
    forall k, d :: 0 <= k < |steps| && d in Prerequisites(steps[k]) ==> EarlierStep(steps, k, d)
  }

  ghost predicate StableIdsDiffer(steps: seq<ScheduledStep>) {
    forall i, j :: 0 <= i < j < |steps| ==> StableIdOf(steps[i]) != StableIdOf(steps[j])
  }

  /** The step carries the stable ids of what it waits for, and no others. */
  ghost predicate Annotates(steps: seq<ScheduledStep>, k: nat)
    requires k < |steps|
  {
    forall s :: s in steps[k].depStableIds <==> StableIdAwaited(steps, k, s)
  }

  ghost predicate StableIdAwaited(steps: seq<ScheduledStep>, k: nat, s: string)
    requires k < |steps|
  {
    exists m :: 0 <= m < |steps| && WaitsFor(steps, k, m) && StableIdOf(steps[m]) == s
  }

  /** Steps told apart by id and by stable id, after their prerequisites, and annotated with them. */
  ghost predicate Topological(steps: seq<ScheduledStep>) {
    && DistinctIds(Refs(steps)) && StableIdsDiffer(steps) && PrerequisitesEarlier(steps)
    && forall k :: 0 <= k < |steps| ==> Annotates(steps, k)
  }

  /** No step waits for one without a stable id. */
  ghost predicate NamedDependencies(steps: seq<ScheduledStep>) {
    forall k, m :: 0 <= k < |steps| && 0 <= m < |steps| && WaitsFor(steps, k, m) ==> StableIdOf(steps[m]) != ""
  }

  lemma SameId(steps: seq<ScheduledStep>, i: nat, j: nat)
    requires DistinctIds(Refs(steps)) && i < |steps| && j < |steps| && IdOf(steps[i]) == IdOf(steps[j])
    ensures i == j
  {
    assert Refs(steps)[i].id == Refs(steps)[j].id;
  }

  lemma WaitsForEarlier(steps: seq<ScheduledStep>, k: nat, m: nat)
    requires DistinctIds(Refs(steps)) && PrerequisitesEarlier(steps) && k < |steps| && m < |steps|
    requires WaitsFor(steps, k, m)
    ensures m < k
  {
    assert EarlierStep(steps, k, IdOf(steps[m]));
    var j :| 0 <= j < k && IdOf(steps[j]) == IdOf(steps[m]);
    SameId(steps, j, m);
  }

  // ---- Blocked steps ----

  ghost predicate StepBetween(steps: seq<ScheduledStep>, j: nat, k: nat, s: string)
    requires j <= k <= |steps|
  {
    exists m :: j <= m < k && StableIdOf(steps[m]) == s
  }

  ghost predicate Going(steps: seq<ScheduledStep>, inputs: nat -> StepInput, k: nat)
    requires k <= |steps|
  {
    StateAfter(steps, inputs, k).phase.Going?
  }

  /** The text of the last deviation event speaks of success: there was none, or nothing was left to do. */
  predicate Succeeds(text: string) {
    text == "" || "already_satisfied:" <= text
  }

  /** The verdict on a finished stream, by its text. */
  lemma JudgeIff(text: string)
    ensures Judge(text) == StepCompleted <==> Succeeds(text)
    ensures Judge(text) == StepFailed <==> "execution_error:" <= text
    ensures Judge(text) in {StepFailed, StepCompleted, StepDeviated}
  {
    assert "execution_error:" <= text ==> text[0] == 'e';
    assert "requires_human:" <= text ==> text[0] == 'r';
    assert "already_satisfied:" <= text ==> text[0] == 'a';
  }

  /** Step `k` ran and itself deviated or failed. */
  ghost predicate Deviates(steps: seq<ScheduledStep>, inputs: nat -> StepInput, k: nat)
    requires k < |steps|
  {
    && BlockingDep(steps[k].depStableIds, StateAfter(steps, inputs, k).blocked) == ""
    && !Succeeds(inputs(k).stream.deviation)
  }

  ghost predicate Blocked(steps: seq<ScheduledStep>, inputs: nat -> StepInput, k: nat, m: nat)
    requires k <= |steps| && m < |steps|
  {
    StableIdOf(steps[m]) in StateAfter(steps, inputs, k).blocked
  }

  lemma {:induction false} BlockedGrows(steps: seq<ScheduledStep>, inputs: nat -> StepInput, j: nat, k: nat)
    requires j <= k <= |steps| && Going(steps, inputs, k)
    ensures Going(steps, inputs, j)
    ensures StateAfter(steps, inputs, j).blocked <= StateAfter(steps, inputs, k).blocked
    ensures forall s :: s in StateAfter(steps, inputs, k).blocked && s !in StateAfter(steps, inputs, j).blocked ==>
                          StepBetween(steps, j, k, s)
    decreases k - j
  {
    if j < k {
      BlockedGrows(steps, inputs, j, k - 1);
      var before, after := StateAfter(steps, inputs, k - 1), StateAfter(steps, inputs, k);
      assert after == Advance(before, steps[k - 1], inputs(k - 1));
      assert after.blocked <= before.blocked + {StableIdOf(steps[k - 1])};
      forall s | s in after.blocked && s !in StateAfter(steps, inputs, j).blocked ensures StepBetween(steps, j, k, s) {
        if s in before.blocked {
          assert StepBetween(steps, j, k - 1, s);
        }
      }
    }
  }

  /** Whether a step is blocked is settled when the loop leaves it. */
  lemma BlockedSettles(steps: seq<ScheduledStep>, inputs: nat -> StepInput, m: nat, j: nat, k: nat)
    requires StableIdsDiffer(steps) && m < j <= k <= |steps| && Going(steps, inputs, k)
    ensures StableIdOf(steps[m]) in StateAfter(steps, inputs, j).blocked <==>
            StableIdOf(steps[m]) in StateAfter(steps, inputs, k).blocked
  {
    BlockedGrows(steps, inputs, j, k);
    OwnStableId(steps, m);
  }

  lemma OwnStableId(steps: seq<ScheduledStep>, m: nat)
    requires StableIdsDiffer(steps) && m < |steps|
    ensures forall i :: 0 <= i < |steps| && i != m ==> StableIdOf(steps[i]) != StableIdOf(steps[m])
  {
  }

  lemma AnnotationBlocks(steps: seq<ScheduledStep>, blocked: set<string>, m: nat)
    requires Topological(steps) && NamedDependencies(steps) && m < |steps|
    ensures BlockingDep(steps[m].depStableIds, blocked) == "" <==>
            forall j :: 0 <= j < |steps| && WaitsFor(steps, m, j) ==> StableIdOf(steps[j]) !in blocked
  {
    var deps := steps[m].depStableIds;
    assert Annotates(steps, m);
    assert "" in deps ==> StableIdAwaited(steps, m, "");
    BlockingDepIsBlocked(deps, blocked);
    forall j | 0 <= j < |steps| && WaitsFor(steps, m, j) ensures StableIdOf(steps[j]) in deps {
      assert StableIdAwaited(steps, m, StableIdOf(steps[j]));
    }
    forall d | d in deps ensures StableIdAwaited(steps, m, d) {
    }
  }

  ghost predicate WaitsForBlocked(steps: seq<ScheduledStep>, inputs: nat -> StepInput, k: nat, m: nat)
    requires k <= |steps| && m < |steps|
  {
    exists j :: 0 <= j < |steps| && WaitsFor(steps, m, j) && Blocked(steps, inputs, k, j)
  }

  lemma SettledBefore(steps: seq<ScheduledStep>, inputs: nat -> StepInput, m: nat, k: nat)
    requires Topological(steps) && m < k <= |steps| && Going(steps, inputs, k)
    ensures Going(steps, inputs, m) && (WaitsForBlocked(steps, inputs, m, m) <==> WaitsForBlocked(steps, inputs, k, m))
  {
    BlockedGrows(steps, inputs, m, k);
    forall j | 0 <= j < |steps| && WaitsFor(steps, m, j)
        ensures Blocked(steps, inputs, m, j) <==> Blocked(steps, inputs, k, j) {
      WaitsForEarlier(steps, m, j);
      BlockedSettles(steps, inputs, j, m, k);
    }
  }

  /** The loop leaves a step blocked if it deviated or one it waits for was blocked. */
  lemma BlocksOnLeaving(steps: seq<ScheduledStep>, inputs: nat -> StepInput, m: nat)
    requires m < |steps| && Going(steps, inputs, m) && Going(steps, inputs, m + 1)
    ensures Blocked(steps, inputs, m + 1, m) <==>
            || Blocked(steps, inputs, m, m) || Deviates(steps, inputs, m)
            || BlockingDep(steps[m].depStableIds, StateAfter(steps, inputs, m).blocked) != ""
  {
    JudgeIff(inputs(m).stream.deviation);
    assert StateAfter(steps, inputs, m + 1) == Advance(StateAfter(steps, inputs, m), steps[m], inputs(m));
  }

  /** A step is blocked exactly if it deviates or waits for a blocked one. */
  lemma BlockedLocally(steps: seq<ScheduledStep>, inputs: nat -> StepInput, m: nat, k: nat)
    requires Topological(steps) && NamedDependencies(steps) && m < k <= |steps| && Going(steps, inputs, k)
    ensures Blocked(steps, inputs, k, m) <==> Deviates(steps, inputs, m) || WaitsForBlocked(steps, inputs, k, m)
  {
    BlockedGrows(steps, inputs, m + 1, k);
    BlockedGrows(steps, inputs, 0, m);
    BlockedSettles(steps, inputs, m, m + 1, k);
    SettledBefore(steps, inputs, m, k);
    OwnStableId(steps, m);
    AnnotationBlocks(steps, StateAfter(steps, inputs, m).blocked, m);
    BlocksOnLeaving(steps, inputs, m);
  }

  lemma EdgeIsPrerequisite(steps: seq<ScheduledStep>, i: nat, b: string)
    requires DistinctIds(Refs(steps)) && i < |steps| && Edge(DepGraph(steps), IdOf(steps[i]), b)
    ensures b in Prerequisites(steps[i])
  {
    var m := EdgeComesFromStep(Refs(steps), IdOf(steps[i]), b);
    SameId(steps, i, m);
  }

  lemma PrerequisiteIsEdge(steps: seq<ScheduledStep>, m: nat, d: string)
    requires DistinctIds(Refs(steps)) && m < |steps| && d in Prerequisites(steps[m])
    ensures Edge(DepGraph(steps), IdOf(steps[m]), d)
  {
    GraphAt(Refs(steps), m);
  }

  /** Step `m` is, or transitively depends on, step `j`. */
  ghost predicate DependsOnStep(steps: seq<ScheduledStep>, m: nat, j: nat)
    requires m < |steps| && j < |steps|
  {
    Reaches(DepGraph(steps), IdOf(steps[m]), IdOf(steps[j]))
  }

  ghost predicate DependsOnDeviation(steps: seq<ScheduledStep>, inputs: nat -> StepInput, m: nat, k: nat)
    requires m < |steps| && k <= |steps|
  {
    exists j :: 0 <= j < k && Deviates(steps, inputs, j) && DependsOnStep(steps, m, j)
  }

  lemma {:induction false} BlockedReachesDeviation(steps: seq<ScheduledStep>, inputs: nat -> StepInput, m: nat, k: nat)
    requires Topological(steps) && NamedDependencies(steps) && m < k <= |steps| && Going(steps, inputs, k)
    requires Blocked(steps, inputs, k, m)
    ensures DependsOnDeviation(steps, inputs, m, k)
  {
    BlockedLocally(steps, inputs, m, k);
    if Deviates(steps, inputs, m) {
      ReachesSelf(DepGraph(steps), IdOf(steps[m]));
      assert DependsOnStep(steps, m, m);
    } else {
      var i :| 0 <= i < |steps| && WaitsFor(steps, m, i) && Blocked(steps, inputs, k, i);
      WaitsForEarlier(steps, m, i);
      BlockedReachesDeviation(steps, inputs, i, k);
      var j :| 0 <= j < k && Deviates(steps, inputs, j) && DependsOnStep(steps, i, j);
      PrerequisiteIsEdge(steps, m, IdOf(steps[i]));
      ReachesFurther(DepGraph(steps), IdOf(steps[m]), IdOf(steps[i]), IdOf(steps[j]));
      assert DependsOnStep(steps, m, j);
    }
  }

  /** Along a dependency chain that starts among the first `k` steps everything is among them, and a
      blocked end blocks the start. */
  lemma {:induction false} ChainBlocks(steps: seq<ScheduledStep>, inputs: nat -> StepInput, k: nat, i: nat, b: string,
                                       w: seq<string>)
    returns (m: nat)
    requires Topological(steps) && NamedDependencies(steps) && i < k <= |steps| && Going(steps, inputs, k)
    requires Leads(DepGraph(steps), IdOf(steps[i]), b, w)
    ensures m <= i && IdOf(steps[m]) == b
    ensures Blocked(steps, inputs, k, m) ==> Blocked(steps, inputs, k, i)
    decreases |w|
  {
    if |w| == 1 {
      m := i;
    } else {
      assert Edge(DepGraph(steps), w[0], w[0 + 1]);
      EdgeIsPrerequisite(steps, i, w[1]);
      assert EarlierStep(steps, i, w[1]);
      var j :| 0 <= j < i && IdOf(steps[j]) == w[1];
      var rest := w[1..];
      forall n | 0 <= n < |rest| - 1 ensures Edge(DepGraph(steps), rest[n], rest[n + 1]) {
        assert Edge(DepGraph(steps), w[n + 1], w[n + 1 + 1]);
      }
      assert Leads(DepGraph(steps), IdOf(steps[j]), b, rest);
      m := ChainBlocks(steps, inputs, k, j, b, rest);
      BlockedLocally(steps, inputs, i, k);
      assert WaitsFor(steps, i, j);
    }
  }

  /** The blocked steps are exactly those that deviated and those that transitively depend on one. */
  ghost predicate BlockedIsClosure(steps: seq<ScheduledStep>, inputs: nat -> StepInput) {
    forall m :: 0 <= m < |steps| ==>
      (Blocked(steps, inputs, |steps|, m) <==> DependsOnDeviation(steps, inputs, m, |steps|))
  }

  lemma FinishedRunBlocksClosure(steps: seq<ScheduledStep>, inputs: nat -> StepInput)
    requires Topological(steps) && NamedDependencies(steps) && Going(steps, inputs, |steps|)
    ensures BlockedIsClosure(steps, inputs)
  {
    var n := |steps|;
    forall m | 0 <= m < n ensures Blocked(steps, inputs, n, m) <==> DependsOnDeviation(steps, inputs, m, n) {
      if Blocked(steps, inputs, n, m) {
        BlockedReachesDeviation(steps, inputs, m, n);
      }
      if DependsOnDeviation(steps, inputs, m, n) {
        var j :| 0 <= j < n && Deviates(steps, inputs, j) && DependsOnStep(steps, m, j);
        BlockedLocally(steps, inputs, j, n);
        var w :| Leads(DepGraph(steps), IdOf(steps[m]), IdOf(steps[j]), w);
        var end := ChainBlocks(steps, inputs, n, m, IdOf(steps[j]), w);
        SameId(steps, end, j);
      }
    }
  }

  // ---- Steps handed to the agent ----

  ghost predicate CallsAgent(steps: seq<ScheduledStep>, inputs: nat -> StepInput, k: nat)
    requires k < |steps|
  {
    StateAfter(steps, inputs, k + 1).called == StateAfter(steps, inputs, k).called + [StableIdOf(steps[k])]
  }

  /** Step `m` was handed to the agent before, and its stream ended without deviation. */
  ghost predicate Completes(steps: seq<ScheduledStep>, inputs: nat -> StepInput, m: nat)
    requires m < |steps|
  {
    CallsAgent(steps, inputs, m) && Going(steps, inputs, m + 1) && Succeeds(inputs(m).stream.deviation)
  }

  lemma {:induction false} UnblockedCompleted(steps: seq<ScheduledStep>, inputs: nat -> StepInput, m: nat, k: nat)
    requires m < k <= |steps| && Going(steps, inputs, k) && !Blocked(steps, inputs, k, m)
    ensures Completes(steps, inputs, m)
  {
    BlockedGrows(steps, inputs, k - 1, k);
    JudgeIff(inputs(k - 1).stream.deviation);
    if m < k - 1 {
      UnblockedCompleted(steps, inputs, m, k - 1);
    }
  }

  /** When step `k` is handed to the agent, what it transitively depends on has completed. */
  ghost predicate CalledInOrder(steps: seq<ScheduledStep>, inputs: nat -> StepInput, k: nat)
    requires k < |steps|
  {
    CallsAgent(steps, inputs, k) ==>
      forall d, b :: d in Prerequisites(steps[k]) && Reaches(DepGraph(steps), d, b) ==>
          CompletedBefore(steps, inputs, k, b)
  }

  ghost predicate CompletedBefore(steps: seq<ScheduledStep>, inputs: nat -> StepInput, k: nat, b: string)
    requires k <= |steps|
  {
    exists m :: 0 <= m < k && IdOf(steps[m]) == b && Completes(steps, inputs, m)
  }

  lemma NamedCallsAreInOrder(steps: seq<ScheduledStep>, inputs: nat -> StepInput, k: nat, d: string, b: string)
    requires Topological(steps) && NamedDependencies(steps) && k < |steps| && CallsAgent(steps, inputs, k)
    requires d in Prerequisites(steps[k]) && Reaches(DepGraph(steps), d, b)
    ensures CompletedBefore(steps, inputs, k, b)
  {
    AnnotationBlocks(steps, StateAfter(steps, inputs, k).blocked, k);
    assert EarlierStep(steps, k, d);
    var i :| 0 <= i < k && IdOf(steps[i]) == d;
    var w :| Leads(DepGraph(steps), d, b, w);
    assert WaitsFor(steps, k, i) && !Blocked(steps, inputs, k, i);
    var m := ChainBlocks(steps, inputs, k, i, b, w);
    UnblockedCompleted(steps, inputs, m, k);
  }

  lemma AllCallsAreInOrder(steps: seq<ScheduledStep>, inputs: nat -> StepInput, k: nat)
    requires Topological(steps) && NamedDependencies(steps) && k < |steps|
    ensures CalledInOrder(steps, inputs, k)
  {
    if CallsAgent(steps, inputs, k) {
      forall d, b | d in Prerequisites(steps[k]) && Reaches(DepGraph(steps), d, b)
          ensures CompletedBefore(steps, inputs, k, b) {
        NamedCallsAreInOrder(steps, inputs, k, d, b);
      }
    }
  }

  // ---- A step without a stable id ----

  /** Only steps without a stable id deviate; everything else succeeds. */
  function OnlyUnnamedDeviates(steps: seq<ScheduledStep>): nat -> StepInput {
    (i: nat) => StepInput(false, true, true, true, true, true, true, Stream(false,
      if i < |steps| && StableIdOf(steps[i]) == "" then "off plan" else "", Artifacts([], [], [])))
  }

  lemma {:induction false} UnnamedNeverBlocks(deps: seq<string>, blocked: set<string>)
    requires blocked <= {""}
    ensures BlockingDep(deps, blocked) == ""
  {
    if deps != [] {
      UnnamedNeverBlocks(deps[1..], blocked);
    }
  }

  lemma {:induction false} UnnamedRun(steps: seq<ScheduledStep>, k: nat)
    requires k <= |steps|
    ensures Going(steps, OnlyUnnamedDeviates(steps), k)
    ensures StateAfter(steps, OnlyUnnamedDeviates(steps), k).blocked <= {""}
  {
    if k > 0 {
      UnnamedRun(steps, k - 1);
      UnnamedNeverBlocks(steps[k - 1].depStableIds, StateAfter(steps, OnlyUnnamedDeviates(steps), k - 1).blocked);
    }
  }

  lemma UnnamedStepDeviates(steps: seq<ScheduledStep>, j: nat)
    requires j < |steps| && StableIdOf(steps[j]) == ""
    ensures Deviates(steps, OnlyUnnamedDeviates(steps), j)
  {
    UnnamedRun(steps, j);
    UnnamedNeverBlocks(steps[j].depStableIds, StateAfter(steps, OnlyUnnamedDeviates(steps), j).blocked);
  }

  /** `findBlockingDep` reports a blocking step by its stable id and uses the empty string for "none", and
      a stable id that is not a string is read as the empty one. So as soon as step `k` waits for a step
      `j` without one there is a run that reaches its end, in which `j` deviates and `k` is executed. */
  lemma UnnamedDependencyLeaks(steps: seq<ScheduledStep>, k: nat, j: nat)
    requires DistinctIds(Refs(steps)) && StableIdsDiffer(steps)
    requires k < |steps| && j < |steps| && k != j && WaitsFor(steps, k, j) && StableIdOf(steps[j]) == ""
    ensures var inputs := OnlyUnnamedDeviates(steps);
            Going(steps, inputs, |steps|) && !BlockedIsClosure(steps, inputs) && !CalledInOrder(steps, inputs, k)
  {
    var inputs := OnlyUnnamedDeviates(steps);
    UnnamedRun(steps, |steps|);
    UnnamedStepDeviates(steps, j);
    assert StableIdOf(steps[k]) != "";
    assert !Blocked(steps, inputs, |steps|, k);
    PrerequisiteIsEdge(steps, k, IdOf(steps[j]));
    ReachesSelf(DepGraph(steps), IdOf(steps[j]));
    ReachesFurther(DepGraph(steps), IdOf(steps[k]), IdOf(steps[j]), IdOf(steps[j]));
    assert DependsOnStep(steps, k, j);
    assert DependsOnDeviation(steps, inputs, k, |steps|);
    UnnamedCallOutOfOrder(steps, k, j);
  }

  /** In that run the dependent is handed to the agent although its prerequisite did not complete. */
  lemma UnnamedCallOutOfOrder(steps: seq<ScheduledStep>, k: nat, j: nat)
    requires DistinctIds(Refs(steps)) && k < |steps| && j < |steps| && WaitsFor(steps, k, j)
    requires StableIdOf(steps[j]) == ""
    ensures !CalledInOrder(steps, OnlyUnnamedDeviates(steps), k)
  {
    var inputs := OnlyUnnamedDeviates(steps);
    UnnamedRun(steps, k);
    UnnamedNeverBlocks(steps[k].depStableIds, StateAfter(steps, inputs, k).blocked);
    assert CallsAgent(steps, inputs, k);
    ReachesSelf(DepGraph(steps), IdOf(steps[j]));
    forall m | 0 <= m < k && IdOf(steps[m]) == IdOf(steps[j]) ensures !Completes(steps, inputs, m) {
      SameId(steps, m, j);
    }
    assert !CompletedBefore(steps, inputs, k, IdOf(steps[j]));
  }

  // ---- The final counts ----

  ghost function Deviations(steps: seq<ScheduledStep>, inputs: nat -> StepInput, k: nat): nat
    requires k <= |steps|
  {
    if k == 0 then 0 else Deviations(steps, inputs, k - 1) + if Deviates(steps, inputs, k - 1) then 1 else 0
  }

  /** Skipped steps whose row could not be created or marked. */
  ghost function LostSkips(steps: seq<ScheduledStep>, inputs: nat -> StepInput, k: nat): nat
    requires k <= |steps|
  {
    if k == 0 then 0 else
      var skipped := BlockingDep(steps[k - 1].depStableIds, StateAfter(steps, inputs, k - 1).blocked) != "";
      LostSkips(steps, inputs, k - 1)
      + if skipped && !(inputs(k - 1).rowCreated && inputs(k - 1).rowStored) then 1 else 0
  }

  lemma CountStep(steps: seq<ScheduledStep>, inputs: nat -> StepInput, k: nat)
    requires StableIdsDiffer(steps) && k < |steps| && Going(steps, inputs, k + 1)
    ensures CountIn(steps[..k + 1], StateAfter(steps, inputs, k + 1).blocked) ==
            CountIn(steps[..k], StateAfter(steps, inputs, k).blocked)
            + if StableIdOf(steps[k]) in StateAfter(steps, inputs, k + 1).blocked then 1 else 0
  {
    var before, after := StateAfter(steps, inputs, k).blocked, StateAfter(steps, inputs, k + 1).blocked;
    assert steps[..k + 1][..k] == steps[..k];
    BlockedGrows(steps, inputs, k, k + 1);
    OwnStableId(steps, k);
    CountDepends(steps[..k], before, after);
  }

  lemma RowStep(steps: seq<ScheduledStep>, inputs: nat -> StepInput, k: nat)
    requires k < |steps| && Going(steps, inputs, k + 1)
    ensures var sid, st := StableIdOf(steps[k]), StateAfter(steps, inputs, k);
            var blocking := BlockingDep(steps[k].depStableIds, st.blocked) != "";
            && (sid !in st.blocked ==>
                  (sid in StateAfter(steps, inputs, k + 1).blocked <==> blocking || Deviates(steps, inputs, k)))
            && CountSkipped(StateAfter(steps, inputs, k + 1).rows) ==
               CountSkipped(st.rows) + if blocking && inputs(k).rowCreated && inputs(k).rowStored then 1 else 0
  {
    var st := StateAfter(steps, inputs, k);
    JudgeIff(inputs(k).stream.deviation);
    RowCounts(st.rows, SkipStatus(inputs(k)), StableIdOf(steps[k]));
    RowCounts(st.rows, Stored(inputs(k), Judge(inputs(k).stream.deviation)), StableIdOf(steps[k]));
    assert StateAfter(steps, inputs, k + 1) == Advance(st, steps[k], inputs(k));
  }

  lemma BlockedCountStep(steps: seq<ScheduledStep>, inputs: nat -> StepInput, k: nat)
    requires StableIdsDiffer(steps) && k < |steps| && Going(steps, inputs, k + 1)
    ensures CountIn(steps[..k + 1], StateAfter(steps, inputs, k + 1).blocked)
            - CountIn(steps[..k], StateAfter(steps, inputs, k).blocked) ==
            Deviations(steps, inputs, k + 1) - Deviations(steps, inputs, k)
            + LostSkips(steps, inputs, k + 1) - LostSkips(steps, inputs, k)
            + CountSkipped(StateAfter(steps, inputs, k + 1).rows) - CountSkipped(StateAfter(steps, inputs, k).rows)
  {
    BlockedGrows(steps, inputs, 0, k);
    BlockedGrows(steps, inputs, k, k + 1);
    OwnStableId(steps, k);
    CountStep(steps, inputs, k);
    RowStep(steps, inputs, k);
  }

  lemma {:induction false} BlockedCount(steps: seq<ScheduledStep>, inputs: nat -> StepInput, k: nat)
    requires StableIdsDiffer(steps) && k <= |steps| && Going(steps, inputs, k)
    ensures CountIn(steps[..k], StateAfter(steps, inputs, k).blocked) ==
            Deviations(steps, inputs, k) + LostSkips(steps, inputs, k) + CountSkipped(StateAfter(steps, inputs, k).rows)
  {
    if k > 0 {
      BlockedGrows(steps, inputs, k - 1, k);
      BlockedCount(steps, inputs, k - 1);
      BlockedCountStep(steps, inputs, k - 1);
    }
  }

  lemma RowCounts(rows: seq<StepRow>, status: StepStatus, sid: string)
    ensures CountSkipped(rows + [StepRow(sid, status)]) == CountSkipped(rows) + if status == StepSkipped then 1 else 0
  {
    assert (rows + [StepRow(sid, status)])[..|rows|] == rows;
  }

  lemma {:induction false} CountDepends(steps: seq<ScheduledStep>, a: set<string>, b: set<string>)
    requires forall m :: 0 <= m < |steps| ==> (StableIdOf(steps[m]) in a <==> StableIdOf(steps[m]) in b)
    ensures CountIn(steps, a) == CountIn(steps, b)
  {
    if steps != [] {
      CountDepends(steps[..|steps| - 1], a, b);
    }
  }

  /** `deviatedSteps` is never negative; it is the number of steps that themselves deviated, plus the
      skipped steps whose row is missing from the listing. */
  lemma {:induction false} DeviatedStepsMeaning(record: ExecutionRecord, report: Report, steps: seq<ScheduledStep>,
                             inputs: nat -> StepInput, start: ExecStatus, listed: bool, finished: bool)
    requires StableIdsDiffer(steps) && Going(steps, inputs, |steps|)
    requires RanLoop(record, report, steps, inputs, start, listed, finished)
    ensures report.deviatedSteps ==
            Deviations(steps, inputs, |steps|) + LostSkips(steps, inputs, |steps|)
            + if listed then 0 else CountSkipped(StateAfter(steps, inputs, |steps|).rows)
    ensures report.deviatedSteps >= 0
    ensures listed ==> report.completedSteps + report.deviatedSteps + report.skippedSteps == |steps|
  {
    BlockedCount(steps, inputs, |steps|);
    assert steps[..|steps|] == steps;
  }
}
