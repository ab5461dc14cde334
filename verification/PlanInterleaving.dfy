/** The approval gate again, with requests taken apart: the statements of an edit and of an execution
    start interleave with each other, with all other requests and with the planning goroutines. */
module PlanInterleaving {
  import opened Json
  import opened PlanValidation
  import opened WorkItems
  import Atomic = PlanApproval

  // ---- Statements ----

  /** A plan handed to a run, and how many plans had been stored when it was read; the state of the
      approval when the run is launched: the plan approved last, how many plans had been stored by then,
      how many withdrawals took effect since, and the item's approval. */
  datatype Execution = Execution(plan: Plan, readAt: nat, approved: Option<Plan>, approvedAt: nat, withdrawn: nat,
                                 approval: Approval)

  /** A request under way, by its next statement. */
  datatype Call =
    | Drafted
    | Storing(body: Body)
    | Resetting
    | Reading
    | Creating(plan: Plan, readAt: nat)
    | Launching(plan: Plan, readAt: nat)

  datatype System = System(item: Item, planners: seq<Atomic.Planner>, calls: map<nat, Call>, approved: Option<Plan>,
                           approvedAt: nat, withdrawn: nat, executions: seq<Execution>)

  datatype Action =
    | OpenEdit(call: nat, org: string, body: Body)
    | OpenStart(call: nat, org: string, workspaceReady: bool)
    | Continue(call: nat, fault: bool)
    | Single(org: string, request: Atomic.Request)
    | Goroutine(index: nat, fault: bool, reply: Atomic.AgentReply)
    | Orchestrator(update: Update)

  /** The item has been inserted; its request is about to start planning. */
  function Initial(org: string): System {
    System(NewItem(org), [], map[0 := Drafted], None, 0, 0, [])
  }

  ghost predicate MayEdit(item: Item, org: string, body: Body) {
    !body.Empty? && item.org == org && item.status in {PlanReady, PlanApproved} && GoAccepts(body)
  }

  predicate MayStart(item: Item, org: string, workspaceReady: bool) {
    item.org == org && item.approval == Approved && item.status == PlanApproved && workspaceReady
  }

  function Closed(s: System, c: nat): System {
    s.(calls := s.calls - {c})
  }

  function Launched(s: System, plan: Plan, readAt: nat, item: Item): System {
    var e := Execution(plan, readAt, s.approved, s.approvedAt, s.withdrawn, s.item.approval);
    s.(item := item, executions := s.executions + [e])
  }

  /** The next statement of a request; a failing one ends it, unless its error is ignored. */
  function Continued(s: System, c: nat, fault: bool): System
    requires c in s.calls
  {
    match s.calls[c]
    case Drafted =>
      if fault || !Allowed(s.item, StartPlanning) then Closed(s, c)
      else Closed(s.(item := Apply(s.item, StartPlanning), planners := s.planners + [Atomic.Loading]), c)
    case Storing(body) =>
      if fault then Closed(s, c)
      else s.(item := Apply(s.item, CreatePlan(body)), calls := s.calls[c := Resetting])
    case Resetting =>
      Closed(if fault then s else s.(item := Apply(s.item, ResetApprovalAfterEdit), withdrawn := s.withdrawn + 1), c)
    case Reading =>
      var plan := ActivePlan(s.item.plans);
      if fault || plan.None? then Closed(s, c)
      else s.(calls := s.calls[c := Creating(plan.value, |s.item.plans|)])
    case Creating(plan, readAt) => if fault then Closed(s, c) else s.(calls := s.calls[c := Launching(plan, readAt)])
    case Launching(plan, readAt) =>
      Closed(Launched(s, plan, readAt, if fault then s.item else Apply(s.item, TransitionToExecuting)), c)
  }

  /** Requests with one statement that changes anything. */
  ghost function Handled(s: System, org: string, r: Atomic.Request): System {
    var (item, code) := Atomic.Handle(s.item, org, r);
    match r
    case Replan(_, _) =>
      if code == 200 then s.(item := item, planners := s.planners + [Atomic.Loading], withdrawn := s.withdrawn + 1)
      else s
    case ApproveTask(_) =>
      if code == 200 then s.(item := item, approved := ActivePlan(s.item.plans), approvedAt := |s.item.plans|,
                             withdrawn := 0)
      else s
    case CancelTask(_) => s.(item := item)
    case _ => s
  }

  ghost function Planned(s: System, i: nat, fault: bool, reply: Atomic.AgentReply): System
    requires i < |s.planners|
  {
    var (item, next) := Atomic.PlannerStep(s.item, s.planners[i], fault, reply);
    s.(item := item, planners := s.planners[..i] + (if next.Some? then [next.value] else []) + s.planners[i + 1..])
  }

  ghost function After(s: System, a: Action): System {
    match a
    case OpenEdit(c, org, body) =>
      if c !in s.calls && MayEdit(s.item, org, body) then s.(calls := s.calls[c := Storing(body)]) else s
    case OpenStart(c, org, workspaceReady) =>
      if c !in s.calls && MayStart(s.item, org, workspaceReady) then s.(calls := s.calls[c := Reading]) else s
    case Continue(c, fault) => if c in s.calls then Continued(s, c, fault) else s
    case Single(org, r) => Handled(s, org, r)
    case Goroutine(i, fault, reply) => if i < |s.planners| then Planned(s, i, fault, reply) else s
    case Orchestrator(u) =>
      if u.TransitionToRepairing? || u.TransitionToDone? || u.TransitionToPublishing? || u.TransitionToFailed?
      then s.(item := Apply(s.item, u)) else s
  }

  ghost function Run(start: System, actions: seq<Action>): System {
    if actions == [] then start else After(Run(start, actions[..|actions| - 1]), actions[|actions| - 1])
  }

  // ---- What every interleaving keeps ----

  /** The plan stored as number `at`, as it was while it was the newest. */
  ghost predicate StoredAs(plans: seq<Plan>, plan: Plan, at: nat) {
    1 <= at <= |plans| && plan == Plan(at, true, plans[at - 1].body) && GoAccepts(plan.body)
  }

  ghost predicate InForce(approved: Option<Plan>, withdrawn: nat, approval: Approval) {
    approval == Approved <==> approved.Some? && withdrawn == 0
  }

  ghost predicate Sound(e: Execution) {
    && GoAccepts(e.plan.body) && e.approved.Some? && InForce(e.approved, e.withdrawn, e.approval)
    && e.plan.version == e.readAt && e.approved.value.version == e.approvedAt
    && (e.approved.value == e.plan <==> e.readAt == e.approvedAt)
  }

  ghost predicate SoundCall(c: Call, plans: seq<Plan>, approved: Option<Plan>) {
    match c
    case Drafted => true
    case Storing(body) => GoAccepts(body)
    case Resetting => plans != []
    case Reading => approved.Some?
    case Creating(plan, readAt) => StoredAs(plans, plan, readAt) && approved.Some?
    case Launching(plan, readAt) => StoredAs(plans, plan, readAt) && approved.Some?
  }

  ghost predicate SoundPlanner(p: Atomic.Planner, plans: seq<Plan>) {
    (p.Persisting? ==> GoAccepts(p.body)) && (p.MarkingReady? ==> plans != [])
  }

  ghost predicate SafeItem(item: Item, approved: Option<Plan>, approvedAt: nat, withdrawn: nat) {
    && ApprovalMatches(item) && Versioned(item.plans) && Atomic.ValidPlans(item.plans)
    && (item.status in {PlanReady, PlanApproved} ==> item.plans != [])
    && InForce(approved, withdrawn, item.approval)
    && (approved.Some? ==> StoredAs(item.plans, approved.value, approvedAt))
  }

  ghost predicate SoundCalls(calls: map<nat, Call>, plans: seq<Plan>, approved: Option<Plan>) {
    forall c :: c in calls ==> SoundCall(calls[c], plans, approved)
  }

  ghost predicate SoundPlanners(planners: seq<Atomic.Planner>, plans: seq<Plan>) {
    forall i :: 0 <= i < |planners| ==> SoundPlanner(planners[i], plans)
  }

  ghost predicate SoundExecutions(executions: seq<Execution>) {
    forall i :: 0 <= i < |executions| ==> Sound(executions[i])
  }

  ghost predicate Safe(s: System) {
    && SafeItem(s.item, s.approved, s.approvedAt, s.withdrawn) && SoundCalls(s.calls, s.item.plans, s.approved)
    && SoundPlanners(s.planners, s.item.plans) && SoundExecutions(s.executions)
  }

  /** Plans are only ever added, and keep their bodies. */
  ghost predicate Extends(after: seq<Plan>, plans: seq<Plan>) {
    |after| >= |plans| && forall i :: 0 <= i < |plans| ==> after[i].body == plans[i].body
  }

  lemma WithPlanExtends(plans: seq<Plan>, body: Body)
    ensures Extends(WithPlan(plans, body), plans) && |WithPlan(plans, body)| == |plans| + 1
  {
  }

  lemma StoredStays(plans: seq<Plan>, after: seq<Plan>, plan: Plan, at: nat)
    requires StoredAs(plans, plan, at) && Extends(after, plans)
    ensures StoredAs(after, plan, at)
  {
  }

  lemma StoringKeepsSafe(item: Item, approved: Option<Plan>, approvedAt: nat, withdrawn: nat, body: Body)
    requires SafeItem(item, approved, approvedAt, withdrawn) && GoAccepts(body)
    ensures var after := Apply(item, CreatePlan(body));
            SafeItem(after, approved, approvedAt, withdrawn) && after.plans != [] && Extends(after.plans, item.plans)
  {
    Atomic.StoredPlanFits(item.plans, body);
    WithPlanExtends(item.plans, body);
    if approved.Some? {
      StoredStays(item.plans, WithPlan(item.plans, body), approved.value, approvedAt);
    }
  }

  lemma CallsStaySound(s: System, plans: seq<Plan>)
    requires Safe(s) && Extends(plans, s.item.plans)
    ensures SoundCalls(s.calls, plans, s.approved) && SoundPlanners(s.planners, plans)
  {
    forall c | c in s.calls ensures SoundCall(s.calls[c], plans, s.approved) {
      assert SoundCall(s.calls[c], s.item.plans, s.approved);
    }
    forall i | 0 <= i < |s.planners| ensures SoundPlanner(s.planners[i], plans) {
      assert SoundPlanner(s.planners[i], s.item.plans);
    }
  }

  /** What is read as the active plan is the one stored last. */
  lemma NewestIsStored(plans: seq<Plan>)
    requires Versioned(plans) && Atomic.ValidPlans(plans) && plans != []
    ensures ActivePlan(plans).Some? && StoredAs(plans, ActivePlan(plans).value, |plans|)
  {
    var n := |plans| - 1;
    var newest := plans[n];
    assert newest.version == n + 1 && newest.active;
    assert newest == Plan(n + 1, true, newest.body);
    ActivePlanIsNewest(plans);
  }

  lemma ClosedKeepsSafe(s: System, c: nat)
    requires Safe(s)
    ensures Safe(Closed(s, c))
  {
  }

  lemma StoredKeepsSafe(s: System, body: Body)
    requires Safe(s) && GoAccepts(body)
    ensures Safe(s.(item := Apply(s.item, CreatePlan(body))))
  {
    StoringKeepsSafe(s.item, s.approved, s.approvedAt, s.withdrawn, body);
    CallsStaySound(s, Apply(s.item, CreatePlan(body)).plans);
  }

  lemma ReplacedKeepsSafe(s: System, c: nat, call: Call)
    requires Safe(s) && SoundCall(call, s.item.plans, s.approved)
    ensures Safe(s.(calls := s.calls[c := call]))
  {
  }

  lemma LaunchedKeepsSafe(s: System, plan: Plan, readAt: nat, item: Item)
    requires Safe(s) && StoredAs(s.item.plans, plan, readAt) && s.approved.Some?
    requires item == s.item || item == Apply(s.item, TransitionToExecuting)
    ensures Safe(Launched(s, plan, readAt, item))
  {
    var e := Execution(plan, readAt, s.approved, s.approvedAt, s.withdrawn, s.item.approval);
    assert Sound(e);
  }

  lemma StoringContinues(s: System, c: nat, body: Body, fault: bool)
    requires Safe(s) && c in s.calls && s.calls[c] == Storing(body)
    ensures Safe(Continued(s, c, fault))
  {
    assert SoundCall(s.calls[c], s.item.plans, s.approved);
    ClosedKeepsSafe(s, c);
    StoredKeepsSafe(s, body);
    StoringKeepsSafe(s.item, s.approved, s.approvedAt, s.withdrawn, body);
    ReplacedKeepsSafe(s.(item := Apply(s.item, CreatePlan(body))), c, Resetting);
  }

  lemma ResettingContinues(s: System, c: nat, fault: bool)
    requires Safe(s) && c in s.calls && s.calls[c] == Resetting
    ensures Safe(Continued(s, c, fault))
  {
    assert SoundCall(s.calls[c], s.item.plans, s.approved);
    ClosedKeepsSafe(s, c);
    ClosedKeepsSafe(s.(item := Apply(s.item, ResetApprovalAfterEdit), withdrawn := s.withdrawn + 1), c);
  }

  lemma ReadingContinues(s: System, c: nat, fault: bool)
    requires Safe(s) && c in s.calls && s.calls[c] == Reading
    ensures Safe(Continued(s, c, fault))
  {
    assert SoundCall(s.calls[c], s.item.plans, s.approved);
    ClosedKeepsSafe(s, c);
    NewestIsStored(s.item.plans);
    ReplacedKeepsSafe(s, c, Creating(ActivePlan(s.item.plans).value, |s.item.plans|));
  }

  lemma LaunchContinues(s: System, c: nat, plan: Plan, readAt: nat, fault: bool)
    requires Safe(s) && c in s.calls && (s.calls[c] == Creating(plan, readAt) || s.calls[c] == Launching(plan, readAt))
    ensures Safe(Continued(s, c, fault))
  {
    assert SoundCall(s.calls[c], s.item.plans, s.approved);
    var item := if fault then s.item else Apply(s.item, TransitionToExecuting);
    ClosedKeepsSafe(s, c);
    ReplacedKeepsSafe(s, c, Launching(plan, readAt));
    LaunchedKeepsSafe(s, plan, readAt, item);
    ClosedKeepsSafe(Launched(s, plan, readAt, item), c);
  }

  lemma DraftedContinues(s: System, c: nat, fault: bool)
    requires Safe(s) && c in s.calls && s.calls[c] == Drafted
    ensures Safe(Continued(s, c, fault))
  {
    ClosedKeepsSafe(s, c);
    ClosedKeepsSafe(s.(item := Apply(s.item, StartPlanning), planners := s.planners + [Atomic.Loading]), c);
  }

  lemma ContinuedKeepsSafe(s: System, c: nat, fault: bool)
    requires Safe(s) && c in s.calls
    ensures Safe(Continued(s, c, fault))
  {
    match s.calls[c]
    case Drafted => DraftedContinues(s, c, fault);
    case Storing(body) => StoringContinues(s, c, body, fault);
    case Resetting => ResettingContinues(s, c, fault);
    case Reading => ReadingContinues(s, c, fault);
    case Creating(plan, readAt) => LaunchContinues(s, c, plan, readAt, fault);
    case Launching(plan, readAt) => LaunchContinues(s, c, plan, readAt, fault);
  }

  lemma ApprovalKeepsSafe(s: System, org: string)
    requires Safe(s) && Allowed(s.item, Approve(org))
    ensures var approved := ActivePlan(s.item.plans);
            && approved.Some? && SafeItem(Apply(s.item, Approve(org)), approved, |s.item.plans|, 0)
            && SoundCalls(s.calls, s.item.plans, approved)
  {
    NewestIsStored(s.item.plans);
    forall c | c in s.calls ensures SoundCall(s.calls[c], s.item.plans, ActivePlan(s.item.plans)) {
      assert SoundCall(s.calls[c], s.item.plans, s.approved);
    }
  }

  lemma HandledKeepsSafe(s: System, org: string, r: Atomic.Request)
    requires Safe(s)
    ensures Safe(Handled(s, org, r))
  {
    if r.ApproveTask? && Atomic.Handle(s.item, org, r).1 == 200 {
      ApprovalKeepsSafe(s, org);
    }
  }

  lemma PlannerStepKeepsSafe(s: System, p: Atomic.Planner, fault: bool, reply: Atomic.AgentReply)
    requires Safe(s) && SoundPlanner(p, s.item.plans)
    ensures var (item, next) := Atomic.PlannerStep(s.item, p, fault, reply);
            && SafeItem(item, s.approved, s.approvedAt, s.withdrawn)
            && Extends(item.plans, s.item.plans) && (next.Some? ==> SoundPlanner(next.value, item.plans))
  {
    if p.Persisting? && !fault {
      StoringKeepsSafe(s.item, s.approved, s.approvedAt, s.withdrawn, p.body);
    }
  }

  lemma PlannedKeepsSafe(s: System, i: nat, fault: bool, reply: Atomic.AgentReply)
    requires Safe(s) && i < |s.planners|
    ensures Safe(Planned(s, i, fault, reply))
  {
    var (item, _) := Atomic.PlannerStep(s.item, s.planners[i], fault, reply);
    assert SoundPlanner(s.planners[i], s.item.plans);
    PlannerStepKeepsSafe(s, s.planners[i], fault, reply);
    CallsStaySound(s, item.plans);
  }

  lemma OpenKeepsSafe(s: System, a: Action)
    requires Safe(s) && (a.OpenEdit? || a.OpenStart?)
    ensures Safe(After(s, a))
  {
  }

  lemma OrchestratorKeepsSafe(s: System, u: Update)
    requires Safe(s)
    ensures Safe(After(s, Orchestrator(u)))
  {
  }

  lemma StepKeepsSafe(s: System, a: Action)
    requires Safe(s)
    ensures Safe(After(s, a))
  {
    match a
    case Continue(c, fault) =>
      if c in s.calls {
        ContinuedKeepsSafe(s, c, fault);
      }
    case Single(org, r) => HandledKeepsSafe(s, org, r);
    case Goroutine(i, fault, reply) =>
      if i < |s.planners| {
        PlannedKeepsSafe(s, i, fault, reply);
      }
    case Orchestrator(u) => OrchestratorKeepsSafe(s, u);
    case _ => OpenKeepsSafe(s, a);
  }

  lemma {:induction false} EveryInterleavingIsSafe(org: string, actions: seq<Action>)
    ensures Safe(Run(Initial(org), actions))
  {
    if actions != [] {
      EveryInterleavingIsSafe(org, actions[..|actions| - 1]);
      StepKeepsSafe(Run(Initial(org), actions[..|actions| - 1]), actions[|actions| - 1]);
    }
  }

  /** In every interleaving, when an execution is launched its plan is acceptable; the plan is the one
      approved last exactly when none was stored between its reading and that approval, whichever came
      first; and the approval is in force exactly when no withdrawal took effect since. */
  lemma ExecutesApprovedPlanIff(org: string, actions: seq<Action>, e: Execution)
    requires e in Run(Initial(org), actions).executions
    ensures GoAccepts(e.plan.body)
    ensures e.approval == Approved && e.approved == Some(e.plan) <==> e.readAt == e.approvedAt && e.withdrawn == 0
    ensures e.approved == Some(e.plan) <==> e.readAt == e.approvedAt
    ensures e.approval == Approved <==> e.withdrawn == 0
  {
    EveryInterleavingIsSafe(org, actions);
  }

  // ---- Atomic requests ----

  /** The statements of an atomic action, one straight after the other. */
  function Statements(a: Atomic.Action): seq<Action> {
    match a
    case User(org, r) =>
      (match r
       case UpdatePlan(body, storeFault, resetFault) =>
           [OpenEdit(0, org, body), Continue(0, storeFault), Continue(0, resetFault)]
       case StartExecution(workspaceReady, storeFault, transitionFault) =>
         [OpenStart(0, org, workspaceReady), Continue(0, false), Continue(0, storeFault), Continue(0, transitionFault)]
       case _ => [Single(org, r)])
    case Goroutine(i, fault, reply) => [Goroutine(i, fault, reply)]
    case Orchestrator(u) => [Orchestrator(u)]
  }

  function AllStatements(fault: bool, actions: seq<Atomic.Action>): seq<Action> {
    if actions == [] then [Continue(0, fault)]
    else AllStatements(fault, actions[..|actions| - 1]) + Statements(actions[|actions| - 1])
  }

  ghost predicate SameExecutions(executions: seq<Execution>, others: seq<Atomic.Execution>) {
    |executions| == |others|
    && forall i :: 0 <= i < |executions| ==>
         executions[i].plan == others[i].plan && executions[i].approved == others[i].approved
  }

  /** No request is under way, and the atomic model is in the same state. */
  ghost predicate Matches(s: System, t: Atomic.System) {
    && s.calls == map[] && s.item == t.item && s.planners == t.planners && s.approved == t.approved
    && SameExecutions(s.executions, t.executions)
  }

  lemma {:induction false} RunConcat(start: System, a: seq<Action>, b: seq<Action>)
    ensures Run(start, a + b) == Run(Run(start, a), b)
  {
    if b == [] {
      assert a + b == a;
    } else {
      var m := |b| - 1;
      RunConcat(start, a, b[..m]);
      assert (a + b)[..|a + b| - 1] == a + b[..m];
    }
  }

  lemma RunOne(start: System, a: Action)
    ensures Run(start, [a]) == After(start, a)
  {
    assert [a][..0] == [];
  }

  lemma RunTwo(start: System, a: Action, b: Action)
    ensures Run(start, [a, b]) == After(After(start, a), b)
  {
    assert [a, b] == [a] + [b];
    RunConcat(start, [a], [b]);
    RunOne(start, a);
    RunOne(After(start, a), b);
  }

  lemma RunThree(start: System, a: Action, b: Action, c: Action)
    ensures Run(start, [a, b, c]) == After(After(After(start, a), b), c)
  {
    assert [a, b, c] == [a, b] + [c];
    RunConcat(start, [a, b], [c]);
    RunTwo(start, a, b);
    RunOne(After(After(start, a), b), c);
  }

  lemma RunFour(start: System, a: Action, b: Action, c: Action, d: Action)
    ensures Run(start, [a, b, c, d]) == After(After(After(After(start, a), b), c), d)
  {
    assert [a, b, c, d] == [a, b] + [c, d];
    RunConcat(start, [a, b], [c, d]);
    RunTwo(start, a, b);
    RunTwo(After(After(start, a), b), c, d);
  }

  lemma EditMatches(s: System, t: Atomic.System, org: string, body: Body, storeFault: bool, resetFault: bool)
    requires Matches(s, t)
    ensures var r := Atomic.UpdatePlan(body, storeFault, resetFault);
            Matches(Run(s, Statements(Atomic.User(org, r))), Atomic.After(t, Atomic.User(org, r)))
  {
    RunThree(s, OpenEdit(0, org, body), Continue(0, storeFault), Continue(0, resetFault));
    if MayEdit(s.item, org, body) {
      assert s.calls[0 := Storing(body)][0 := Resetting] - {0} == map[];
      assert s.calls[0 := Storing(body)] - {0} == map[];
    }
  }

  lemma StartMatches(s: System, t: Atomic.System, org: string, workspaceReady: bool, storeFault: bool,
                     transitionFault: bool)
    requires Matches(s, t)
    ensures var r := Atomic.StartExecution(workspaceReady, storeFault, transitionFault);
            Matches(Run(s, Statements(Atomic.User(org, r))), Atomic.After(t, Atomic.User(org, r)))
  {
    var open, read, store, move := OpenStart(0, org, workspaceReady), Continue(0, false), Continue(0, storeFault),
        Continue(0, transitionFault);
    RunFour(s, open, read, store, move);
    var plan := ActivePlan(s.item.plans);
    if MayStart(s.item, org, workspaceReady) {
      assert After(s, open) == s.(calls := map[0 := Reading]);
      if plan.None? {
        assert After(After(s, open), read) == s;
      } else {
        var creating := Creating(plan.value, |s.item.plans|);
        assert After(After(s, open), read) == s.(calls := map[0 := creating]);
        if storeFault {
          assert Closed(s.(calls := map[0 := creating]), 0) == s;
        } else {
          assert After(s.(calls := map[0 := creating]), store) ==
              s.(calls := map[0 := Launching(plan.value, |s.item.plans|)]);
        }
      }
    }
  }

  lemma StepMatches(s: System, t: Atomic.System, a: Atomic.Action)
    requires Matches(s, t)
    ensures Matches(Run(s, Statements(a)), Atomic.After(t, a))
  {
    match a
    case User(org, r) =>
      match r {
        case UpdatePlan(body, storeFault, resetFault) => EditMatches(s, t, org, body, storeFault, resetFault);
        case StartExecution(workspaceReady, storeFault, transitionFault) =>
          StartMatches(s, t, org, workspaceReady, storeFault, transitionFault);
        case _ => RunOne(s, Single(org, r));
      }
    case Goroutine(i, fault, reply) => RunOne(s, Goroutine(i, fault, reply));
    case Orchestrator(u) => RunOne(s, Orchestrator(u));
  }

  /** Every run of atomic requests is one of these interleavings: the item, the goroutines and what is
      executed agree. */
  lemma {:induction false} AtomicRunsAreInterleavings(org: string, fault: bool, actions: seq<Atomic.Action>)
    ensures Matches(Run(Initial(org), AllStatements(fault, actions)), Atomic.Run(Atomic.Initial(org, fault), actions))
  {
    if actions == [] {
      RunOne(Initial(org), Continue(0, fault));
      assert map[0 := Drafted] - {0} == map[];
    } else {
      var m := |actions| - 1;
      AtomicRunsAreInterleavings(org, fault, actions[..m]);
      RunConcat(Initial(org), AllStatements(fault, actions[..m]), Statements(actions[m]));
      StepMatches(Run(Initial(org), AllStatements(fault, actions[..m])),
                  Atomic.Run(Atomic.Initial(org, fault), actions[..m]), actions[m]);
    }
  }

  // ---- An execution starts inside an edit ----

  /** Planned and approved. */
  function ApprovedRun(org: string, planned: Body): seq<Action> {
    AllStatements(false, Atomic.PlanningRun(planned) + [Atomic.User(org, Atomic.ApproveTask(false))])
  }

  function ApprovedState(org: string, planned: Body): System {
    System(NewItem(org).(status := PlanApproved, approval := Approved, plans := [Plan(1, true, planned)]), [], map[],
           Some(Plan(1, true, planned)), 1, 0, [])
  }

  lemma AtomicApproval(org: string, planned: Body)
    requires GoAccepts(planned)
    ensures Atomic.Run(Atomic.Initial(org, false), Atomic.PlanningRun(planned) +
                       [Atomic.User(org, Atomic.ApproveTask(false))]) ==
            Atomic.System(ApprovedState(org, planned).item, [], Some(Plan(1, true, planned)), 0, [])
  {
    Atomic.PlannedRun(org, planned);
    Atomic.RunExtends(Atomic.Initial(org, false), Atomic.PlanningRun(planned),
                      Atomic.User(org, Atomic.ApproveTask(false)));
    assert ActivePlan([Plan(1, true, planned)]) == Some(Plan(1, true, planned));
  }

  lemma ApprovedIsNewest(s: System, org: string, planned: Body)
    requires Safe(s) && s.(approvedAt := 1, withdrawn := 0) == ApprovedState(org, planned)
    ensures s == ApprovedState(org, planned)
  {
    assert StoredAs(s.item.plans, s.approved.value, s.approvedAt);
  }

  lemma ApprovedRunEnds(org: string, planned: Body)
    requires GoAccepts(planned)
    ensures Run(Initial(org), ApprovedRun(org, planned)) == ApprovedState(org, planned)
  {
    var actions := Atomic.PlanningRun(planned) + [Atomic.User(org, Atomic.ApproveTask(false))];
    AtomicRunsAreInterleavings(org, false, actions);
    AtomicApproval(org, planned);
    EveryInterleavingIsSafe(org, ApprovedRun(org, planned));
    ApprovedIsNewest(Run(Initial(org), ApprovedRun(org, planned)), org, planned);
  }

  /** An edit stores its plan; before it withdraws the approval, an execution starts. */
  function StartInsideEdit(org: string, edited: Body): seq<Action> {
    [OpenEdit(1, org, edited), Continue(1, false)] +
    [OpenStart(2, org, true), Continue(2, false), Continue(2, false), Continue(2, false)] + [Continue(1, false)]
  }

  /** The edit runs on the approval of the plan before it. */
  function UnapprovedEdit(planned: Body, edited: Body): Execution {
    Execution(Plan(2, true, edited), 2, Some(Plan(1, true, planned)), 1, 0, Approved)
  }

  lemma EditedPlans(planned: Body, edited: Body)
    ensures WithPlan([Plan(1, true, planned)], edited) == [Plan(1, false, planned), Plan(2, true, edited)]
  {
  }

  lemma EditStores(org: string, planned: Body, edited: Body)
    requires GoAccepts(edited)
    ensures var s := ApprovedState(org, planned);
            Run(s, [OpenEdit(1, org, edited), Continue(1, false)]) ==
            s.(item := s.item.(plans := [Plan(1, false, planned), Plan(2, true, edited)]), calls := map[1 := Resetting])
  {
    RunTwo(ApprovedState(org, planned), OpenEdit(1, org, edited), Continue(1, false));
    EditedPlans(planned, edited);
  }

  lemma StartRuns(s: System, org: string, planned: Body, edited: Body)
    requires s == ApprovedState(org, planned).(item := s.item, calls := map[1 := Resetting])
    requires s.item == ApprovedState(org, planned).item.(plans := [Plan(1, false, planned), Plan(2, true, edited)])
    ensures var started := Run(s, [OpenStart(2, org, true), Continue(2, false), Continue(2, false),
                                   Continue(2, false)]);
            && started.executions == [UnapprovedEdit(planned, edited)]
            && started.calls == map[1 := Resetting]
  {
    var open, next := OpenStart(2, org, true), Continue(2, false);
    var plan := Plan(2, true, edited);
    RunFour(s, open, next, next, next);
    ActivePlanIsNewest(s.item.plans);
    assert After(s, open) == s.(calls := map[1 := Resetting, 2 := Reading]);
    assert After(After(s, open), next) == s.(calls := map[1 := Resetting, 2 := Creating(plan, 2)]);
    assert After(After(After(s, open), next), next) == s.(calls := map[1 := Resetting, 2 := Launching(plan, 2)]);
  }

  predicate Faulty(a: Action) {
    || ((a.Continue? || a.Goroutine?) && a.fault)
    || (a.Single? && (a.request.Replan? || a.request.ApproveTask? || a.request.CancelTask?) && a.request.fault)
  }

  ghost predicate Faultless(actions: seq<Action>) {
    forall k :: 0 <= k < |actions| ==> !Faulty(actions[k])
  }

  lemma {:induction false} FaultlessStatements(actions: seq<Atomic.Action>)
    requires forall k :: 0 <= k < |actions| ==> Faultless(Statements(actions[k]))
    ensures Faultless(AllStatements(false, actions))
  {
    if actions != [] {
      FaultlessStatements(actions[..|actions| - 1]);
    }
  }

  lemma StartInsideEditRuns(org: string, planned: Body, edited: Body)
    requires GoAccepts(edited)
    ensures var s := Run(ApprovedState(org, planned), StartInsideEdit(org, edited));
            s.executions == [UnapprovedEdit(planned, edited)] && s.calls == map[]
  {
    var s := ApprovedState(org, planned);
    var edit, start, reset := [OpenEdit(1, org, edited), Continue(1, false)],
        [OpenStart(2, org, true), Continue(2, false), Continue(2, false), Continue(2, false)], Continue(1, false);
    EditStores(org, planned, edited);
    StartRuns(Run(s, edit), org, planned, edited);
    RunConcat(s, edit, start);
    RunConcat(s, edit + start, [reset]);
    RunOne(Run(s, edit + start), reset);
  }

  lemma NothingFails(org: string, planned: Body, edited: Body)
    ensures Faultless(ApprovedRun(org, planned) + StartInsideEdit(org, edited))
  {
    FaultlessStatements(Atomic.PlanningRun(planned) + [Atomic.User(org, Atomic.ApproveTask(false))]);
    assert Faultless(StartInsideEdit(org, edited));
  }

  /** No statement fails, and yet an edit nobody approved is executed. */
  lemma StartInsideEditRunsUnapproved(org: string, planned: Body, edited: Body)
    requires GoAccepts(planned) && GoAccepts(edited)
    ensures Faultless(ApprovedRun(org, planned) + StartInsideEdit(org, edited))
    ensures var s := Run(Initial(org), ApprovedRun(org, planned) + StartInsideEdit(org, edited));
            s.executions == [UnapprovedEdit(planned, edited)] && s.calls == map[]
  {
    NothingFails(org, planned, edited);
    ApprovedRunEnds(org, planned);
    StartInsideEditRuns(org, planned, edited);
    RunConcat(Initial(org), ApprovedRun(org, planned), StartInsideEdit(org, edited));
  }

  // ---- An edit inside an execution start ----

  /** An execution start reads its plan; before it launches the run, a whole edit withdraws the approval. */
  function EditInsideStart(org: string, edited: Body): seq<Action> {
    [OpenStart(2, org, true), Continue(2, false)] + [OpenEdit(1, org, edited), Continue(1, false), Continue(1, false)]
  }

  function WithdrawnState(org: string, planned: Body, edited: Body): System {
    var s := ApprovedState(org, planned);
    s.(item := s.item.(status := PlanReady, approval := PendingReview,
                       plans := [Plan(1, false, planned), Plan(2, true, edited)]),
       withdrawn := 1, calls := map[2 := Creating(Plan(1, true, planned), 1)])
  }

  lemma StartReads(org: string, planned: Body)
    ensures var s := ApprovedState(org, planned);
            Run(s, [OpenStart(2, org, true), Continue(2, false)]) ==
                s.(calls := map[2 := Creating(Plan(1, true, planned), 1)])
  {
    var s := ApprovedState(org, planned);
    RunTwo(s, OpenStart(2, org, true), Continue(2, false));
    ActivePlanIsNewest(s.item.plans);
    assert After(s, OpenStart(2, org, true)) == s.(calls := map[2 := Reading]);
  }

  lemma EditWithdraws(s: System, org: string, planned: Body, edited: Body)
    requires GoAccepts(edited)
    requires s == ApprovedState(org, planned).(calls := map[2 := Creating(Plan(1, true, planned), 1)])
    ensures Run(s, [OpenEdit(1, org, edited), Continue(1, false), Continue(1, false)]) ==
              WithdrawnState(org, planned, edited)
  {
    var open, next := OpenEdit(1, org, edited), Continue(1, false);
    var reading := Creating(Plan(1, true, planned), 1);
    RunThree(s, open, next, next);
    EditedPlans(planned, edited);
    assert After(s, open) == s.(calls := map[2 := reading, 1 := Storing(edited)]);
    assert After(After(s, open), next).calls == map[2 := reading, 1 := Resetting];
  }

  lemma WithdrawnReached(org: string, planned: Body, edited: Body)
    requires GoAccepts(planned) && GoAccepts(edited)
    ensures Run(Initial(org), ApprovedRun(org, planned) + EditInsideStart(org, edited)) ==
              WithdrawnState(org, planned, edited)
  {
    ApprovedRunEnds(org, planned);
    StartReads(org, planned);
    var s := ApprovedState(org, planned);
    EditWithdraws(Run(s, [OpenStart(2, org, true), Continue(2, false)]), org, planned, edited);
    RunConcat(s, [OpenStart(2, org, true), Continue(2, false)],
              [OpenEdit(1, org, edited), Continue(1, false), Continue(1, false)]);
    RunConcat(Initial(org), ApprovedRun(org, planned), EditInsideStart(org, edited));
  }

  /** No statement fails; if nothing else happens a plan is executed whose approval was withdrawn. */
  lemma EditInsideStartRunsWithdrawn(org: string, planned: Body, edited: Body)
    requires GoAccepts(planned) && GoAccepts(edited)
    ensures Run(Initial(org), ApprovedRun(org, planned) + EditInsideStart(org, edited) +
                [Continue(2, false), Continue(2, false)]).executions
            == [Execution(Plan(1, true, planned), 1, Some(Plan(1, true, planned)), 1, 1, PendingReview)]
  {
    var before := ApprovedRun(org, planned) + EditInsideStart(org, edited);
    WithdrawnReached(org, planned, edited);
    RunConcat(Initial(org), before, [Continue(2, false), Continue(2, false)]);
    RunTwo(WithdrawnState(org, planned, edited), Continue(2, false), Continue(2, false));
  }

  /** The edit was approved after all. */
  function ReapprovedState(org: string, planned: Body, edited: Body): System {
    var s := WithdrawnState(org, planned, edited);
    s.(item := s.item.(status := PlanApproved, approval := Approved),
       approved := Some(Plan(2, true, edited)), approvedAt := 2, withdrawn := 0)
  }

  lemma EditApproved(org: string, planned: Body, edited: Body)
    ensures After(WithdrawnState(org, planned, edited), Single(org, Atomic.ApproveTask(false))) ==
              ReapprovedState(org, planned, edited)
  {
    ActivePlanIsNewest([Plan(1, false, planned), Plan(2, true, edited)]);
  }

  lemma OlderLaunched(s: System, org: string, planned: Body, edited: Body)
    requires s == ReapprovedState(org, planned, edited)
    ensures var end := After(After(s, Continue(2, false)), Continue(2, false));
            && end.item.status == Executing && end.item.approval == Approved
            && end.executions == [Execution(Plan(1, true, planned), 1, Some(Plan(2, true, edited)), 2, 0, Approved)]
  {
    assert After(s, Continue(2, false)) == s.(calls := map[2 := Launching(Plan(1, true, planned), 1)]);
  }

  /** If the edit is approved first, the item is executing under its approval, and the plan executed is the
      older one. */
  lemma EditInsideStartRunsOlder(org: string, planned: Body, edited: Body)
    requires GoAccepts(planned) && GoAccepts(edited)
    ensures var end := Run(Initial(org), ApprovedRun(org, planned) + EditInsideStart(org, edited) +
                                         [Single(org, Atomic.ApproveTask(false)), Continue(2, false),
                                          Continue(2, false)]);
            && end.item.status == Executing && end.item.approval == Approved
            && end.executions == [Execution(Plan(1, true, planned), 1, Some(Plan(2, true, edited)), 2, 0, Approved)]
  {
    var before := ApprovedRun(org, planned) + EditInsideStart(org, edited);
    var approve, next := Single(org, Atomic.ApproveTask(false)), Continue(2, false);
    WithdrawnReached(org, planned, edited);
    RunConcat(Initial(org), before, [approve, next, next]);
    RunThree(WithdrawnState(org, planned, edited), approve, next, next);
    EditApproved(org, planned, edited);
    OlderLaunched(ReapprovedState(org, planned, edited), org, planned, edited);
  }

  // ---- Two planners ----

  /** An edit's reset takes effect while a goroutine is planning. */
  ghost predicate LandsOnPlanner(s: System, a: Action) {
    a.Continue? && !a.fault && a.call in s.calls && s.calls[a.call].Resetting? && s.planners != []
  }

  ghost predicate LandedAt(org: string, actions: seq<Action>, n: nat) {
    n < |actions| && LandsOnPlanner(Run(Initial(org), actions[..n]), actions[n])
  }

  function ReplanRequest(org: string): Action {
    Single(org, Atomic.Replan(true, false))
  }

  /** One request more makes two goroutines. */
  ghost predicate TwoPlannersAt(org: string, actions: seq<Action>, n: nat) {
    n <= |actions| && |Run(Initial(org), actions[..n] + [ReplanRequest(org)]).planners| >= 2
  }

  ghost predicate LonePlanner(s: System) {
    s.planners == [] || (|s.planners| == 1 && s.item.status in {Planning, Cancelled})
  }

  lemma StepKeepsLonePlanner(s: System, a: Action)
    requires LonePlanner(s) && !LandsOnPlanner(s, a)
    ensures LonePlanner(After(s, a))
  {
  }

  lemma {:induction false} RunKeepsLonePlanner(org: string, actions: seq<Action>)
    requires forall n: nat :: !LandedAt(org, actions, n)
    ensures LonePlanner(Run(Initial(org), actions))
  {
    if actions != [] {
      var m := |actions| - 1;
      assert !LandedAt(org, actions, m);
      forall n: nat ensures !LandedAt(org, actions[..m], n) {
        assert !LandedAt(org, actions, n);
        assert n < m ==> actions[..m][..n] == actions[..n];
      }
      RunKeepsLonePlanner(org, actions[..m]);
      StepKeepsLonePlanner(Run(Initial(org), actions[..m]), actions[m]);
    }
  }

  lemma StepKeepsOwner(s: System, a: Action)
    ensures After(s, a).item.org == s.item.org
  {
  }

  lemma {:induction false} OwnerStays(org: string, actions: seq<Action>)
    ensures Run(Initial(org), actions).item.org == org
  {
    if actions != [] {
      OwnerStays(org, actions[..|actions| - 1]);
      StepKeepsOwner(Run(Initial(org), actions[..|actions| - 1]), actions[|actions| - 1]);
    }
  }

  /** Within a run, two goroutines can be made to plan the same item exactly if an edit's reset landed on
      a running one. */
  lemma TwoPlannersIff(org: string, actions: seq<Action>)
    ensures (exists n: nat :: TwoPlannersAt(org, actions, n)) <==> (exists n: nat :: LandedAt(org, actions, n))
  {
    if n: nat :| LandedAt(org, actions, n) {
      LandingAllowsTwo(org, actions, n);
      assert TwoPlannersAt(org, actions, n + 1);
    } else {
      forall n: nat | n <= |actions| ensures !TwoPlannersAt(org, actions, n) {
        NoLandingNoTwo(org, actions, n);
      }
    }
  }

  lemma LandingAllowsTwo(org: string, actions: seq<Action>, n: nat)
    requires LandedAt(org, actions, n)
    ensures TwoPlannersAt(org, actions, n + 1)
  {
    var s := Run(Initial(org), actions[..n]);
    OwnerStays(org, actions[..n]);
    assert actions[..n + 1] == actions[..n] + [actions[n]];
    RunConcat(Initial(org), actions[..n], [actions[n]]);
    RunOne(s, actions[n]);
    RunConcat(Initial(org), actions[..n + 1], [ReplanRequest(org)]);
    RunOne(After(s, actions[n]), ReplanRequest(org));
  }

  lemma NoLandingNoTwo(org: string, actions: seq<Action>, n: nat)
    requires n <= |actions| && forall k: nat :: !LandedAt(org, actions, k)
    ensures !TwoPlannersAt(org, actions, n)
  {
    forall k: nat ensures !LandedAt(org, actions[..n], k) {
      assert !LandedAt(org, actions, k);
      assert k < n ==> actions[..n][..k] == actions[..k];
    }
    RunKeepsLonePlanner(org, actions[..n]);
    RunConcat(Initial(org), actions[..n], [ReplanRequest(org)]);
    RunOne(Run(Initial(org), actions[..n]), ReplanRequest(org));
    StepKeepsLonePlanner(Run(Initial(org), actions[..n]), ReplanRequest(org));
  }

  /** An edit opened on a ready plan stores its own while a replan request starts a goroutine. */
  lemma EditOverlaps(s: System, org: string, edited: Body)
    requires GoAccepts(edited) && s.calls == map[] && s.item.org == org && s.item.status == PlanReady
    ensures var t := Run(Run(s, [OpenEdit(1, org, edited), ReplanRequest(org)]), [Continue(1, false)]);
            LandsOnPlanner(t, Continue(1, false))
  {
    RunTwo(s, OpenEdit(1, org, edited), ReplanRequest(org));
    RunOne(Run(s, [OpenEdit(1, org, edited), ReplanRequest(org)]), Continue(1, false));
  }

  /** Planned, then an edit around a replan request, whose reset lands on the new goroutine. */
  lemma EditAroundReplan(org: string, planned: Body, edited: Body)
    requires GoAccepts(planned) && GoAccepts(edited)
    ensures var actions := AllStatements(false, Atomic.PlanningRun(planned)) +
                           [OpenEdit(1, org, edited), ReplanRequest(org)] + [Continue(1, false), Continue(1, false)];
            LandedAt(org, actions, |actions| - 1)
  {
    var ready := AllStatements(false, Atomic.PlanningRun(planned));
    var overlap, store := [OpenEdit(1, org, edited), ReplanRequest(org)], Continue(1, false);
    AtomicRunsAreInterleavings(org, false, Atomic.PlanningRun(planned));
    Atomic.PlannedRun(org, planned);
    EditOverlaps(Run(Initial(org), ready), org, edited);
    RunConcat(Initial(org), ready, overlap);
    RunConcat(Initial(org), ready + overlap, [store]);
    var actions := ready + overlap + [store, store];
    assert actions[..|actions| - 1] == ready + overlap + [store];
  }

  // ---- Planning that never ends ----

  /** In planning, but nobody is planning any more. */
  predicate Hanging(s: System) {
    s.item.status == Planning && s.planners == []
  }

  /** The only goroutine fails while it loads its item or records its outcome, on an item in planning. A
      fault while persisting the plan is no such step: the goroutine goes on to record the failure. */
  predicate GivesUp(s: System, a: Action) {
    && a.Goroutine? && a.fault && a.index < |s.planners| == 1 && s.item.status == Planning
    && (s.planners[0].Loading? || s.planners[0].MarkingReady? || s.planners[0].MarkingFailed?)
  }

  /** The owner cancels, or an edit opened earlier withdraws the approval. */
  predicate Frees(s: System, a: Action) {
    || a == Single(s.item.org, Atomic.CancelTask(false))
    || (a.Continue? && !a.fault && a.call in s.calls && s.calls[a.call].Resetting?)
  }

  lemma RequestLeavesHanging(s: System, a: Action)
    requires a.OpenEdit? || a.OpenStart? || a.Single? || a.Orchestrator?
    ensures Hanging(After(s, a)) <==> Hanging(s) && !Frees(s, a)
  {
  }

  lemma ContinuedLeavesHanging(s: System, c: nat, fault: bool)
    ensures Hanging(After(s, Continue(c, fault))) <==> Hanging(s) && !Frees(s, Continue(c, fault))
  {
  }

  lemma PlannerLeavesHanging(s: System, i: nat, fault: bool, reply: Atomic.AgentReply)
    ensures Hanging(After(s, Goroutine(i, fault, reply))) <==> GivesUp(s, Goroutine(i, fault, reply)) || Hanging(s)
  {
    if i < |s.planners| {
      var (_, next) := Atomic.PlannerStep(s.item, s.planners[i], fault, reply);
      assert |Planned(s, i, fault, reply).planners| == |s.planners| - 1 + if next.Some? then 1 else 0;
    }
  }

  lemma StepLeavesHanging(s: System, a: Action)
    ensures Hanging(After(s, a)) <==> GivesUp(s, a) || (Hanging(s) && !Frees(s, a))
  {
    match a
    case Continue(c, fault) => ContinuedLeavesHanging(s, c, fault);
    case Goroutine(i, fault, reply) => PlannerLeavesHanging(s, i, fault, reply);
    case _ => RequestLeavesHanging(s, a);
  }

  ghost predicate FreedAt(org: string, actions: seq<Action>, k: nat) {
    k < |actions| && Frees(Run(Initial(org), actions[..k]), actions[k])
  }

  /** At action `n` the goroutine gave up, and the item was not freed since. */
  ghost predicate GaveUpAt(org: string, actions: seq<Action>, n: nat) {
    && n < |actions| && GivesUp(Run(Initial(org), actions[..n]), actions[n])
    && forall k: nat :: n < k < |actions| ==> !FreedAt(org, actions, k)
  }

  lemma FreedBefore(org: string, actions: seq<Action>, k: nat)
    requires k + 1 < |actions|
    ensures FreedAt(org, actions, k) == FreedAt(org, actions[..|actions| - 1], k)
  {
    assert actions[..|actions| - 1][..k] == actions[..k];
  }

  lemma GaveUpBefore(org: string, actions: seq<Action>, n: nat)
    requires n + 1 < |actions|
    ensures GaveUpAt(org, actions, n) <==>
            GaveUpAt(org, actions[..|actions| - 1], n) && !FreedAt(org, actions, |actions| - 1)
  {
    var shorter := actions[..|actions| - 1];
    assert shorter[..n] == actions[..n];
    forall k: nat | n < k < |shorter| ensures FreedAt(org, actions, k) == FreedAt(org, shorter, k) {
      FreedBefore(org, actions, k);
    }
  }

  ghost predicate LeftBehind(org: string, actions: seq<Action>) {
    exists n: nat :: GaveUpAt(org, actions, n)
  }

  lemma LeftBehindExtends(org: string, actions: seq<Action>)
    requires actions != []
    ensures var m := |actions| - 1;
            LeftBehind(org, actions) <==>
            GaveUpAt(org, actions, m) || (LeftBehind(org, actions[..m]) && !FreedAt(org, actions, m))
  {
    var m := |actions| - 1;
    if n: nat :| GaveUpAt(org, actions, n) && n < m {
      GaveUpBefore(org, actions, n);
    }
    if n: nat :| GaveUpAt(org, actions[..m], n) {
      GaveUpBefore(org, actions, n);
    }
  }

  /** After any interleaving, planning hangs exactly when the last goroutine gave up at one of its three
      critical steps and neither the owner's cancellation nor an edit already under way freed the item. */
  lemma {:induction false} PlanningHangsIff(org: string, actions: seq<Action>)
    ensures Hanging(Run(Initial(org), actions)) <==> LeftBehind(org, actions)
  {
    if actions != [] {
      var m := |actions| - 1;
      PlanningHangsIff(org, actions[..m]);
      StepLeavesHanging(Run(Initial(org), actions[..m]), actions[m]);
      LeftBehindExtends(org, actions);
    }
  }

  /** One fault is enough: the goroutine of a new item cannot load it. */
  lemma LoadFaultHangsPlanning(org: string, reply: Atomic.AgentReply)
    ensures Hanging(Run(Initial(org), [Continue(0, false), Goroutine(0, true, reply)]))
  {
    RunTwo(Initial(org), Continue(0, false), Goroutine(0, true, reply));
  }
}
