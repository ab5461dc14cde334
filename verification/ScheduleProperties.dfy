/** What the step order guarantees: it is unique, leaves an ordered plan alone, and exists for a
    validated plan exactly when the plan's stable ids are distinct. */
module ScheduleProperties {
  import opened Json
  import opened PlanGraph
  import opened PlanValidation
  import opened Permutations
  import opened StepSchedule

  // ---- Uniqueness ----

  lemma {:induction false} SamePasses(refs: seq<StepRef>, order: seq<nat>, p: seq<nat>, q: seq<nat>, k: nat)
    requires DependenciesEarlier(refs, order) && EarliestPasses(refs, p) && EarliestPasses(refs, q)
    requires k < |order|
    ensures forall m :: 0 <= m <= k ==> p[order[m]] == q[order[m]]
  {
    if k > 0 {
      SamePasses(refs, order, p, q, k - 1);
    }
    PassAtMost(refs, order, p, q, k);
    PassAtMost(refs, order, q, p, k);
  }

  lemma PassAtMost(refs: seq<StepRef>, order: seq<nat>, p: seq<nat>, q: seq<nat>, k: nat)
    requires DependenciesEarlier(refs, order) && EarliestPasses(refs, p) && EarliestPasses(refs, q)
    requires k < |order| && forall m :: 0 <= m < k ==> p[order[m]] == q[order[m]]
    ensures p[order[k]] <= q[order[k]]
  {
    var i := order[k];
    if p[i] > 0 {
      assert Held(refs, p, i);
      var j :| 0 <= j < |refs| && DependsOn(refs, i, j) && p[j] + Delay(i, j) == p[i];
      assert j in order[..k];
      var m :| 0 <= m < k && order[..k][m] == j;
      assert q[j] + Delay(i, j) <= q[i];
    }
  }

  lemma {:induction false} SortedAlike(a: seq<nat>, b: seq<nat>, pass: seq<nat>, k: nat)
    requires Permutation(a, |pass|) && Permutation(b, |pass|) && SortedByPass(a, pass) && SortedByPass(b, pass)
    requires k <= |pass|
    ensures a[..k] == b[..k]
  {
    if k > 0 {
      SortedAlike(a, b, pass, k - 1);
      NotLater(a, b, pass, k - 1);
      NotLater(b, a, pass, k - 1);
      assert a[..k] == a[..k - 1] + [a[k - 1]] && b[..k] == b[..k - 1] + [b[k - 1]];
    }
  }

  lemma NotLater(a: seq<nat>, b: seq<nat>, pass: seq<nat>, k: nat)
    requires Permutation(a, |pass|) && Permutation(b, |pass|) && SortedByPass(a, pass)
    requires k < |pass| && a[..k] == b[..k]
    ensures a[k] == b[k] || Sooner(pass, a[k], b[k])
  {
    PermutationCovers(a, |pass|, b[k]);
    var m :| 0 <= m < |a| && a[m] == b[k];
    assert forall n :: 0 <= n < k ==> a[..k][n] == b[n];
  }

  lemma ScheduleUnique(refs: seq<StepRef>, a: seq<nat>, b: seq<nat>)
    requires IsSchedule(refs, a) && IsSchedule(refs, b)
    ensures a == b
  {
    ScheduleRespectsDependencies(refs, a);
    var p :| EarliestPasses(refs, p) && SortedByPass(a, p);
    var q :| EarliestPasses(refs, q) && SortedByPass(b, q);
    if refs != [] {
      SamePasses(refs, a, p, q, |refs| - 1);
      forall i: nat | i < |refs| ensures p[i] == q[i] {
        PermutationCovers(a, |refs|, i);
        var m :| 0 <= m < |a| && a[m] == i;
      }
    }
    assert p == q;
    SortedAlike(a, b, p, |refs|);
    assert a[..|refs|] == a && b[..|refs|] == b;
  }

  // ---- Plans already in order ----

  ghost predicate InPlanOrder(refs: seq<StepRef>) {
    forall i, j :: 0 <= i < |refs| && 0 <= j < |refs| && DependsOn(refs, i, j) ==> j < i
  }

  function Identity(n: nat): seq<nat> {
    seq(n, i => i)
  }

  /** A plan whose dependencies all point upwards is executed in plan order, and only such a plan is. */
  lemma OrderedPlanUnchanged(refs: seq<StepRef>, order: seq<nat>)
    requires IsSchedule(refs, order)
    ensures order == Identity(|refs|) <==> InPlanOrder(refs)
  {
    if InPlanOrder(refs) {
      var zero := seq(|refs|, i => 0);
      assert EarliestPasses(refs, zero) && SortedByPass(Identity(|refs|), zero);
      ScheduleUnique(refs, order, Identity(|refs|));
    }
    if order == Identity(|refs|) {
      ScheduleRespectsDependencies(refs, order);
      forall i, j | 0 <= i < |refs| && 0 <= j < |refs| && DependsOn(refs, i, j) ensures j < i {
        assert j in order[..i];
      }
    }
  }

  // ---- Validated plans ----

  ghost predicate IdsMatch(steps: seq<Fields>, refs: seq<StepRef>) {
    |steps| == |refs| &&
    forall i :: 0 <= i < |steps| ==> refs[i] == StepRef(TextAt(steps[i], "id"), StringsAt(steps[i], "depends_on"))
  }

  lemma ResolvedStemsFromStep(steps: seq<Fields>, i: nat, s: string) returns (k: nat)
    requires i < |steps| && s in StableStep(steps, steps[i]).dependsOn
    ensures k < |steps| && TextAt(steps[k], "stable_id") == s
    ensures TextAt(steps[k], "id") in StringsAt(steps[i], "depends_on")
  {
    var ids, deps := StableIdMap(steps), StringsAt(steps[i], "depends_on");
    ResolvedMembers(ids, deps, s);
    var d :| d in deps && d in ids && ids[d] == s;
    k := StableIdMapEntry(steps, d);
  }

  /** A dependency between stable ids stems from one between step ids. */
  lemma StableEdgeStemsFromIds(steps: seq<Fields>, refs: seq<StepRef>, i: nat, j: nat)
    requires IdsMatch(steps, refs) && DistinctIds(refs) && DistinctIds(StableSteps(steps))
    requires i < |steps| && j < |steps|
    requires Edge(GraphOf(StableSteps(steps)), StableSteps(steps)[i].id, StableSteps(steps)[j].id)
    ensures Edge(GraphOf(refs), refs[i].id, refs[j].id)
  {
    var stable := StableSteps(steps);
    GraphAt(stable, i);
    var k := ResolvedStemsFromStep(steps, i, stable[j].id);
    assert stable[k].id == stable[j].id;
    assert k == j;
    GraphAt(refs, i);
  }

  ghost function IndexOf(refs: seq<StepRef>, s: string): (i: nat)
    requires s in IdsOf(refs)
    ensures i < |refs| && refs[i].id == s
  {
    var i :| 0 <= i < |refs| && refs[i].id == s;
    i
  }

  lemma CycleStaysInPlan(steps: seq<Fields>, w: seq<string>, k: nat)
    requires DistinctIds(StableSteps(steps)) && Cycle(GraphOf(StableSteps(steps)), w) && k < |w|
    ensures w[k] in IdsOf(StableSteps(steps))
  {
    StableReferencesKnown(steps);
    KnownReferencesClose(StableSteps(steps));
    if k < |w| - 1 {
      assert Edge(GraphOf(StableSteps(steps)), w[k], w[k + 1]);
    } else {
      assert Edge(GraphOf(StableSteps(steps)), w[0], w[0 + 1]);
    }
  }

  /** The step ids of a walk over stable ids. */
  ghost function IdWalk(refs: seq<StepRef>, stable: seq<StepRef>, w: seq<string>): (v: seq<string>)
    requires |refs| == |stable| && forall k :: 0 <= k < |w| ==> w[k] in IdsOf(stable)
    ensures |v| == |w| && forall k :: 0 <= k < |w| ==> v[k] == IdFor(refs, stable, w[k])
  {
    seq(|w|, k requires 0 <= k < |w| => IdFor(refs, stable, w[k]))
  }

  ghost function IdFor(refs: seq<StepRef>, stable: seq<StepRef>, s: string): string
    requires |refs| == |stable| && s in IdsOf(stable)
  {
    refs[IndexOf(stable, s)].id
  }

  lemma EdgeOfIds(steps: seq<Fields>, refs: seq<StepRef>, stable: seq<StepRef>, a: string, b: string)
    requires IdsMatch(steps, refs) && DistinctIds(refs) && stable == StableSteps(steps) && DistinctIds(stable)
    requires a in IdsOf(stable) && b in IdsOf(stable) && Edge(GraphOf(stable), a, b)
    ensures Edge(GraphOf(refs), IdFor(refs, stable, a), IdFor(refs, stable, b))
  {
    StableEdgeStemsFromIds(steps, refs, IndexOf(stable, a), IndexOf(stable, b));
  }

  /** A cycle carried over to another graph, step by step. */
  lemma CycleCarriesOver(g: Graph, h: Graph, w: seq<string>, v: seq<string>)
    requires Cycle(g, w) && |v| == |w| && v[0] == v[|v| - 1]
    requires forall k :: 0 <= k < |w| - 1 && Edge(g, w[k], w[k + 1]) ==> Edge(h, v[k], v[k + 1])
    ensures Cycle(h, v)
  {
  }

  lemma StableCycleStemsFromIds(steps: seq<Fields>, refs: seq<StepRef>)
    requires IdsMatch(steps, refs) && DistinctIds(refs) && DistinctIds(StableSteps(steps))
    requires HasCycle(GraphOf(StableSteps(steps)))
    ensures HasCycle(GraphOf(refs))
  {
    var w :| Cycle(GraphOf(StableSteps(steps)), w);
    forall k | 0 <= k < |w| ensures w[k] in IdsOf(StableSteps(steps)) {
      CycleStaysInPlan(steps, w, k);
    }
    CycleOfIds(steps, refs, StableSteps(steps), w, IdWalk(refs, StableSteps(steps), w));
  }

  lemma CycleOfIds(steps: seq<Fields>, refs: seq<StepRef>, stable: seq<StepRef>, w: seq<string>, v: seq<string>)
    requires IdsMatch(steps, refs) && DistinctIds(refs) && stable == StableSteps(steps) && DistinctIds(stable)
    requires Cycle(GraphOf(stable), w) && forall k :: 0 <= k < |w| ==> w[k] in IdsOf(stable)
    requires |v| == |w| && forall k :: 0 <= k < |w| ==> v[k] == IdFor(refs, stable, w[k])
    ensures Cycle(GraphOf(refs), v)
  {
    forall k | 0 <= k < |w| - 1 && Edge(GraphOf(stable), w[k], w[k + 1])
      ensures Edge(GraphOf(refs), v[k], v[k + 1])
    {
      EdgeOfIds(steps, refs, stable, w[k], w[k + 1]);
    }
    CycleCarriesOver(GraphOf(stable), GraphOf(refs), w, v);
  }

  lemma {:induction false} AllObjects(items: seq<Value>)
    requires forall i :: 0 <= i < |items| ==> items[i].Object?
    ensures |Objects(items)| == |items|
    ensures forall i :: 0 <= i < |items| ==> Objects(items)[i] == items[i].fields
  {
    if items != [] {
      AllObjects(items[1..]);
    }
  }

  /** A plan the Go gate accepts is scheduled exactly when no two of its steps share a stable id. */
  lemma AcceptedPlanSchedules(body: Body)
    requires GoAccepts(body)
    ensures HasSteps(body)
    ensures Schedulable(StableSteps(StepsOf(body))) <==> DistinctIds(StableSteps(StepsOf(body)))
  {
    var items := PlanOf(body)["steps"].items;
    AllObjects(items);
    var steps, refs := StepsOf(body), RefsOf(items);
    assert forall i :: 0 <= i < |items| ==> StepShape(items[i]);
    if DistinctIds(StableSteps(steps)) && HasCycle(GraphOf(StableSteps(steps))) {
      StableCycleStemsFromIds(steps, refs);
    }
  }

  /** The Go gate does not compare stable ids: this plan passes it, and the executor then reports a
      dependency cycle although no step depends on another. */
  lemma AcceptedPlanMayFail() returns (plan: PlanBody)
    ensures GoAccepts(EncodePlan(plan)) && HasSteps(EncodePlan(plan))
    ensures forall i :: 0 <= i < |plan.steps| ==> plan.steps[i].dependsOn == []
    ensures !Schedulable(StableSteps(StepsOf(EncodePlan(plan))))
  {
    var a := PlanStep("a", "same", 1, [], "first", "edit", []);
    var b := PlanStep("b", "same", 2, [], "second", "edit", []);
    plan := PlanBody("implementation", "intent", [], [a, b]);
    var refs := TypedRefs(plan.steps);
    assert refs == [StepRef("a", []), StepRef("b", [])];
    NoEdgesNoCycle(refs);
    ValidatorsAgree(plan);
    SharedStableId(plan, a, b);
  }

  lemma SharedStableId(plan: PlanBody, a: PlanStep, b: PlanStep)
    requires plan.steps == [a, b] && a.stableId == b.stableId
    ensures HasSteps(EncodePlan(plan)) && !DistinctIds(StableSteps(StepsOf(EncodePlan(plan))))
  {
    var items := EncodeSteps(plan.steps);
    assert items == [EncodeStep(a), EncodeStep(b)];
    AllObjects(items);
    var stable := StableSteps(StepsOf(EncodePlan(plan)));
    assert stable[0].id == a.stableId && stable[1].id == b.stableId;
  }

  lemma NoEdgesNoCycle(refs: seq<StepRef>)
    requires DistinctIds(refs) && forall i :: 0 <= i < |refs| ==> refs[i].dependsOn == []
    ensures !HasCycle(GraphOf(refs))
  {
    if w :| Cycle(GraphOf(refs), w) {
      assert Edge(GraphOf(refs), w[0], w[0 + 1]);
      var i := EdgeComesFromStep(refs, w[0], w[1]);
    }
  }
}
