/** The two plan validators: the Go gate in front of plan persistence and the agent's own. */
module PlanValidation {
  import opened Json
  import opened PlanGraph
  import CycleSearch

  datatype StepRef = StepRef(id: string, dependsOn: seq<string>)

  function IdsOf(refs: seq<StepRef>): set<string> {
    set r | r in refs :: r.id
  }

  ghost predicate DistinctIds(refs: seq<StepRef>) {
    forall i, j :: 0 <= i < j < |refs| ==> refs[i].id != refs[j].id
  }

  ghost predicate KnownReferences(refs: seq<StepRef>) {
    forall i, d :: 0 <= i < |refs| && d in refs[i].dependsOn ==> d in IdsOf(refs)
  }

  /** The map both validators build; a later step with the same id wins. */
  function GraphOf(refs: seq<StepRef>): (g: Graph)
    ensures g.Keys == IdsOf(refs)
  {
    if refs == [] then map[] else
      var last := refs[|refs| - 1];
      var g := GraphOf(refs[..|refs| - 1])[last.id := last.dependsOn];
      assert refs == refs[..|refs| - 1] + [last];
      g
  }

  lemma {:induction false} GraphAt(refs: seq<StepRef>, i: nat)
    requires DistinctIds(refs) && i < |refs|
    ensures refs[i].id in GraphOf(refs) && GraphOf(refs)[refs[i].id] == refs[i].dependsOn
  {
    if i < |refs| - 1 {
      GraphAt(refs[..|refs| - 1], i);
    }
  }

  lemma EdgeComesFromStep(refs: seq<StepRef>, a: string, b: string) returns (i: nat)
    requires DistinctIds(refs) && Edge(GraphOf(refs), a, b)
    ensures i < |refs| && refs[i].id == a && b in refs[i].dependsOn
  {
    assert a in IdsOf(refs);
    i :| 0 <= i < |refs| && refs[i].id == a;
    GraphAt(refs, i);
  }

  lemma KnownReferencesClose(refs: seq<StepRef>)
    requires DistinctIds(refs) && KnownReferences(refs)
    ensures Closed(GraphOf(refs))
  {
    forall a, b | Edge(GraphOf(refs), a, b) ensures b in GraphOf(refs) {
      var i := EdgeComesFromStep(refs, a, b);
    }
  }

  method BuildGraph(refs: seq<StepRef>) returns (g: Graph)
    ensures g == GraphOf(refs)
  {
    g := map[];
    for i := 0 to |refs|
      invariant g == GraphOf(refs[..i])
    {
      assert refs[..i + 1][..i] == refs[..i];
      g := g[refs[i].id := refs[i].dependsOn];
    }
    assert refs[..|refs|] == refs;
  }

  // ---- Go: validatePlanBody ----

  /** What unmarshalling the request body can produce. */
  datatype Body = Empty | Malformed | Parsed(value: Value)

  datatype PlanError =
    | EmptyBody
    | NotJson
    | MissingField(field: string)
    | UnsupportedSchema
    | StepsNotArray
    | NoSteps
    | StepNotObject(index: nat)
    | StepMissingField(index: nat, field: string)
    | EmptyId(index: nat)
    | DuplicateId(id: string)
    | UnknownDependency(id: string, dependency: string)
    | DependencyCycle

  const PLAN_FIELDS := ["schema_version", "plan_type", "steps", "intent_summary"]
  const STEP_FIELDS := ["id", "stable_id", "order", "title", "type"]

  predicate HasFields(fields: Fields, names: seq<string>) {
    forall name :: name in names ==> name in fields
  }

  /** JSON `null` unmarshals into a nil map. */
  predicate DecodesToMap(body: Body) {
    body.Parsed? && (body.value.Object? || body.value.Null?)
  }

  function PlanOf(body: Body): Fields
    requires DecodesToMap(body)
  {
    if body.value.Object? then body.value.fields else map[]
  }

  predicate PlanShape(plan: Fields) {
    HasFields(plan, PLAN_FIELDS) && TextAt(plan, "schema_version") == "v1"
    && plan["steps"].Array? && plan["steps"].items != []
  }

  predicate StepShape(step: Value) {
    step.Object? && HasFields(step.fields, STEP_FIELDS) && TextAt(step.fields, "id") != ""
  }

  function RefOf(step: Value): StepRef {
    if step.Object? then StepRef(TextAt(step.fields, "id"), StringsAt(step.fields, "depends_on"))
    else StepRef("", [])
  }

  function RefsOf(items: seq<Value>): seq<StepRef> {
    seq(|items|, i requires 0 <= i < |items| => RefOf(items[i]))
  }

  /** Everything the Go gate asks of a plan short of acyclicity. */
  ghost predicate WellFormed(body: Body) {
    DecodesToMap(body) && PlanShape(PlanOf(body)) &&
    var items := PlanOf(body)["steps"].items;
    && (forall i :: 0 <= i < |items| ==> StepShape(items[i]))
    && DistinctIds(RefsOf(items))
    && KnownReferences(RefsOf(items))
  }

  ghost function StepGraph(body: Body): Graph
    requires WellFormed(body)
  {
    GraphOf(RefsOf(PlanOf(body)["steps"].items))
  }

  ghost predicate GoAccepts(body: Body) {
    WellFormed(body) && !HasCycle(StepGraph(body))
  }

  ghost predicate StepsPresent(body: Body) {
    DecodesToMap(body) && "steps" in PlanOf(body) && PlanOf(body)["steps"].Array?
  }

  /** The reported error is a fact about the submitted body. */
  ghost predicate Justified(body: Body, error: PlanError) {
    match error
    case EmptyBody => body.Empty?
    case NotJson => !body.Empty? && !DecodesToMap(body)
    case MissingField(f) => DecodesToMap(body) && f in PLAN_FIELDS && f !in PlanOf(body)
    case UnsupportedSchema => DecodesToMap(body) && TextAt(PlanOf(body), "schema_version") != "v1"
    case StepsNotArray => DecodesToMap(body) && !StepsPresent(body)
    case NoSteps => StepsPresent(body) && PlanOf(body)["steps"].items == []
    case _ =>
      StepsPresent(body) &&
      var items := PlanOf(body)["steps"].items;
      StepsUnfit(items, error)
  }

  ghost predicate StepsUnfit(items: seq<Value>, error: PlanError) {
    var refs := RefsOf(items);
    match error
    case StepNotObject(i) => i < |items| && !items[i].Object?
    case StepMissingField(i, f) => i < |items| && items[i].Object? && f in STEP_FIELDS && f !in items[i].fields
    case EmptyId(i) => i < |items| && items[i].Object? && TextAt(items[i].fields, "id") == ""
    case DuplicateId(id) => exists i, j :: 0 <= i < j < |refs| && refs[i].id == refs[j].id == id
    case UnknownDependency(id, d) =>
      d !in IdsOf(refs) && exists i :: 0 <= i < |refs| && refs[i].id == id && d in refs[i].dependsOn
    case DependencyCycle => HasCycle(GraphOf(refs))
    case _ => false
  }

  method FirstMissing(fields: Fields, names: seq<string>) returns (missing: Option<string>)
    ensures missing.None? <==> HasFields(fields, names)
    ensures missing.Some? ==> missing.value in names && missing.value !in fields
  {
    for i := 0 to |names|
      invariant forall j :: 0 <= j < i ==> names[j] in fields
    {
      if names[i] !in fields {
        return Some(names[i]);
      }
    }
    return None;
  }

  /** Per-step checks, in order; the first failing step decides. */
  method CollectSteps(items: seq<Value>) returns (error: Option<PlanError>, refs: seq<StepRef>)
    ensures error.Some? ==> StepsUnfit(items, error.value) && !error.value.DependencyCycle?
    ensures error.Some? ==> !((forall i :: 0 <= i < |items| ==> StepShape(items[i])) && DistinctIds(RefsOf(items)))
    ensures error.None? ==> refs == RefsOf(items) && DistinctIds(refs)
    ensures error.None? ==> forall i :: 0 <= i < |items| ==> StepShape(items[i])
  {
    error, refs := None, [];
    var stepIds: set<string> := {};
    for i := 0 to |items|
      invariant error.None? && refs == RefsOf(items)[..i] && DistinctIds(refs)
      invariant stepIds == IdsOf(refs)
      invariant forall j :: 0 <= j < i ==> StepShape(items[j])
    {
      if !items[i].Object? {
        return Some(StepNotObject(i)), refs;
      }
      var step := items[i].fields;
      var missing := FirstMissing(step, STEP_FIELDS);
      if missing.Some? {
        return Some(StepMissingField(i, missing.value)), refs;
      }
      var id := TextAt(step, "id");
      if id == "" {
        return Some(EmptyId(i)), refs;
      }
      if id in stepIds {
        ghost var k :| 0 <= k < i && refs[k].id == id;
        assert RefsOf(items)[k].id == RefsOf(items)[i].id;
        return Some(DuplicateId(id)), refs;
      }
      stepIds := stepIds + {id};
      refs := refs + [StepRef(id, StringsAt(step, "depends_on"))];
    }
  }

  method FirstUnknownReference(refs: seq<StepRef>) returns (error: Option<PlanError>)
    ensures error.None? <==> KnownReferences(refs)
    ensures error.Some? ==> error.value.UnknownDependency?
    ensures error.Some? ==> error.value.dependency !in IdsOf(refs)
    ensures error.Some? ==>
              exists i :: 0 <= i < |refs| && refs[i].id == error.value.id && error.value.dependency in refs[i].dependsOn
  {
    for i := 0 to |refs|
      invariant forall j, d :: 0 <= j < i && d in refs[j].dependsOn ==> d in IdsOf(refs)
    {
      var deps := refs[i].dependsOn;
      for k := 0 to |deps|
        invariant forall m :: 0 <= m < k ==> deps[m] in IdsOf(refs)
      {
        if deps[k] !in IdsOf(refs) {
          return Some(UnknownDependency(refs[i].id, deps[k]));
        }
      }
    }
    return None;
  }

  method ValidatePlanBody(body: Body) returns (error: Option<PlanError>)
    ensures error.None? <==> GoAccepts(body)
    ensures error == Some(DependencyCycle) <==> WellFormed(body) && HasCycle(StepGraph(body))
    ensures error.Some? ==> Justified(body, error.value)
  {
    if body.Empty? {
      return Some(EmptyBody);
    }
    if !DecodesToMap(body) {
      return Some(NotJson);
    }
    var plan := PlanOf(body);
    var missing := FirstMissing(plan, PLAN_FIELDS);
    if missing.Some? {
      return Some(MissingField(missing.value));
    }
    if TextAt(plan, "schema_version") != "v1" {
      return Some(UnsupportedSchema);
    }
    if !plan["steps"].Array? {
      return Some(StepsNotArray);
    }
    var items := plan["steps"].items;
    if items == [] {
      return Some(NoSteps);
    }
    var refs;
    error, refs := CollectSteps(items);
    if error.Some? {
      return;
    }
    error := FirstUnknownReference(refs);
    if error.Some? {
      return;
    }
    KnownReferencesClose(refs);
    var depMap := BuildGraph(refs);
    var search := new CycleSearch.ColourSearch.Lazy(depMap);
    var cyclic := CycleSearch.SearchFrom(search, IdsOf(refs));
    return if cyclic then Some(DependencyCycle) else None;
  }

  // ---- Python: PlanValidator ----

  datatype PlanStep = PlanStep(id: string, stableId: string, order: int, dependsOn: seq<string>,
                               title: string, kind: string, files: seq<string>)

  datatype PlanBody = PlanBody(planType: string, intent: string, affectedFiles: seq<string>, steps: seq<PlanStep>)

  datatype Issue = EmptyPlan | RepeatedId(id: string) | UnknownId(step: string, dependency: string) | CyclicSteps

  datatype Warning = RepeatedStableId(id: string) | UnlistedFile(title: string, path: string)

  datatype Verdict = Verdict(valid: bool, errors: seq<Issue>, warnings: seq<Warning>)

  function TypedRefs(steps: seq<PlanStep>): seq<StepRef> {
    seq(|steps|, i requires 0 <= i < |steps| => StepRef(steps[i].id, steps[i].dependsOn))
  }

  function StableRefs(steps: seq<PlanStep>): seq<StepRef> {
    seq(|steps|, i requires 0 <= i < |steps| => StepRef(steps[i].stableId, []))
  }

  ghost predicate DistinctStableIds(steps: seq<PlanStep>) {
    DistinctIds(StableRefs(steps))
  }

  ghost predicate PythonAccepts(plan: PlanBody) {
    var refs := TypedRefs(plan.steps);
    plan.steps != [] && DistinctIds(refs) && KnownReferences(refs) && !HasCycle(GraphOf(refs))
  }

  ghost predicate WarnsOfStableIds(warnings: seq<Warning>) {
    exists s :: RepeatedStableId(s) in warnings
  }

  lemma IdsExtend(refs: seq<StepRef>, n: nat)
    requires n < |refs|
    ensures IdsOf(refs[..n + 1]) == IdsOf(refs[..n]) + {refs[n].id}
    ensures DistinctIds(refs[..n + 1]) <==> DistinctIds(refs[..n]) && refs[n].id !in IdsOf(refs[..n])
  {
    var shorter, longer := refs[..n], refs[..n + 1];
    assert longer == shorter + [refs[n]];
    if refs[n].id in IdsOf(shorter) {
      var k :| 0 <= k < n && shorter[k].id == refs[n].id;
      assert longer[k].id == longer[n].id;
    }
    if !DistinctIds(shorter) {
      var i, j :| 0 <= i < j < n && shorter[i].id == shorter[j].id;
      assert longer[i].id == longer[j].id;
    }
  }

  method CheckIdentifiers(steps: seq<PlanStep>) returns (errors: seq<Issue>, warnings: seq<Warning>, ids: set<string>)
    ensures errors == [] <==> DistinctIds(TypedRefs(steps))
    ensures CyclicSteps !in errors && EmptyPlan !in errors
    ensures warnings == [] <==> DistinctStableIds(steps)
    ensures forall w :: w in warnings ==> w.RepeatedStableId?
    ensures ids == IdsOf(TypedRefs(steps))
  {
    errors, warnings, ids := [], [], {};
    var stableIds: set<string> := {};
    for n := 0 to |steps|
      invariant ids == IdsOf(TypedRefs(steps)[..n])
      invariant stableIds == IdsOf(StableRefs(steps)[..n])
      invariant errors == [] <==> DistinctIds(TypedRefs(steps)[..n])
      invariant warnings == [] <==> DistinctIds(StableRefs(steps)[..n])
      invariant forall e :: e in errors ==> e.RepeatedId?
      invariant forall w :: w in warnings ==> w.RepeatedStableId?
    {
      IdsExtend(TypedRefs(steps), n);
      IdsExtend(StableRefs(steps), n);
      if steps[n].id in ids {
        errors := errors + [RepeatedId(steps[n].id)];
      }
      ids := ids + {steps[n].id};
      if steps[n].stableId in stableIds {
        warnings := warnings + [RepeatedStableId(steps[n].stableId)];
      }
      stableIds := stableIds + {steps[n].stableId};
    }
    assert TypedRefs(steps)[..|steps|] == TypedRefs(steps) && StableRefs(steps)[..|steps|] == StableRefs(steps);
  }

  method CheckReferences(steps: seq<PlanStep>, ids: set<string>, before: seq<Issue>) returns (errors: seq<Issue>)
    requires ids == IdsOf(TypedRefs(steps))
    requires CyclicSteps !in before && EmptyPlan !in before
    ensures before <= errors
    ensures errors == before <==> KnownReferences(TypedRefs(steps))
    ensures CyclicSteps !in errors && EmptyPlan !in errors
  {
    errors := before;
    for i := 0 to |steps|
      invariant before <= errors && CyclicSteps !in errors && EmptyPlan !in errors
      invariant errors == before <==> forall j, d :: 0 <= j < i && d in steps[j].dependsOn ==> d in ids
    {
      var deps := steps[i].dependsOn;
      for k := 0 to |deps|
        invariant before <= errors && CyclicSteps !in errors && EmptyPlan !in errors
        invariant errors == before <==>
                  && (forall j, d :: 0 <= j < i && d in steps[j].dependsOn ==> d in ids)
                  && (forall m :: 0 <= m < k ==> deps[m] in ids)
      {
        if deps[k] !in ids {
          errors := errors + [UnknownId(steps[i].id, deps[k])];
        }
      }
    }
    assert forall j :: 0 <= j < |steps| ==> TypedRefs(steps)[j].dependsOn == steps[j].dependsOn;
  }

  method Validate(plan: PlanBody) returns (verdict: Verdict)
    ensures verdict.valid <==> PythonAccepts(plan)
    ensures verdict.valid <==> verdict.errors == []
    ensures CyclicSteps in verdict.errors <==>
              && plan.steps != []
              && DistinctIds(TypedRefs(plan.steps))
              && KnownReferences(TypedRefs(plan.steps))
              && HasCycle(GraphOf(TypedRefs(plan.steps)))
    ensures plan.steps != [] ==> (WarnsOfStableIds(verdict.warnings) <==> !DistinctStableIds(plan.steps))
  {
    if plan.steps == [] {
      return Verdict(false, [EmptyPlan], []);
    }
    var errors, warnings, ids := CheckIdentifiers(plan.steps);
    ghost var stableWarnings := warnings;
    errors := CheckReferences(plan.steps, ids, errors);
    if errors != [] {
      assert warnings != [] ==> warnings[0] in warnings;
      return Verdict(false, errors, warnings);
    }
    KnownReferencesClose(TypedRefs(plan.steps));
    var depMap := BuildGraph(TypedRefs(plan.steps));
    var search := new CycleSearch.ColourSearch.Prefilled(depMap);
    var cyclic := CycleSearch.SearchFrom(search, ids);
    if cyclic {
      errors := errors + [CyclicSteps];
    }
    for i := 0 to |plan.steps|
      invariant stableWarnings <= warnings
      invariant forall w :: w in warnings[|stableWarnings|..] ==> w.UnlistedFile?
    {
      for k := 0 to |plan.steps[i].files|
        invariant stableWarnings <= warnings
        invariant forall w :: w in warnings[|stableWarnings|..] ==> w.UnlistedFile?
      {
        if plan.affectedFiles != [] && plan.steps[i].files[k] !in plan.affectedFiles {
          warnings := warnings + [UnlistedFile(plan.steps[i].title, plan.steps[i].files[k])];
        }
      }
    }
    assert warnings == stableWarnings + warnings[|stableWarnings|..];
    assert stableWarnings != [] ==> stableWarnings[0] in warnings;
    return Verdict(errors == [], errors, warnings);
  }

  // ---- The two verdicts compared ----

  function EncodeStep(step: PlanStep): Value {
    Object(map["id" := String(step.id), "stable_id" := String(step.stableId),
               "order" := Number(step.order as real), "depends_on" := Array(Encode(step.dependsOn)),
               "title" := String(step.title), "type" := String(step.kind),
               "affected_files" := Array(Encode(step.files))])
  }

  function EncodeSteps(steps: seq<PlanStep>): seq<Value> {
    seq(|steps|, i requires 0 <= i < |steps| => EncodeStep(steps[i]))
  }

  /** The agent's plan as the JSON object Go receives. */
  function EncodePlan(plan: PlanBody): Body {
    Parsed(Object(map["schema_version" := String("v1"), "plan_type" := String(plan.planType),
                      "intent_summary" := String(plan.intent), "steps" := Array(EncodeSteps(plan.steps))]))
  }

  lemma EncodedRefs(steps: seq<PlanStep>)
    ensures RefsOf(EncodeSteps(steps)) == TypedRefs(steps)
  {
    forall i | 0 <= i < |steps| ensures RefOf(EncodeStep(steps[i])) == StepRef(steps[i].id, steps[i].dependsOn) {
      StringsOfEncoded(steps[i].dependsOn);
    }
  }

  /** Go accepts exactly the agent-accepted plans none of whose step ids is empty: on plans with
      unique non-empty ids and known references the two cycle verdicts coincide. */
  lemma ValidatorsAgree(plan: PlanBody)
    ensures GoAccepts(EncodePlan(plan)) <==>
            PythonAccepts(plan) && forall i :: 0 <= i < |plan.steps| ==> plan.steps[i].id != ""
  {
    EncodedRefs(plan.steps);
    var body := EncodePlan(plan);
    var items := EncodeSteps(plan.steps);
    assert PlanOf(body)["steps"].items == items;
    assert PlanShape(PlanOf(body)) <==> plan.steps != [];
    forall i | 0 <= i < |items| ensures StepShape(items[i]) <==> plan.steps[i].id != "" {
    }
  }
}
