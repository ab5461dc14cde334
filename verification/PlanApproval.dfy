/** The approval gate over all orders of user requests, steps of planning goroutines and later transitions
    of one work item. Here a user request is atomic, and a planning goroutine takes one step at a time;
    `PlanInterleaving` takes the requests apart. Every database statement may fail. */
module PlanApproval {
  import opened Json
  import opened PlanValidation
  import opened WorkItems

  // ---- Requests ----

  datatype Request =
    | Replan(indexed: bool, fault: bool)
    | ApproveTask(fault: bool)
    | CancelTask(fault: bool)
    | UpdatePlan(body: Body, storeFault: bool, resetFault: bool)
    | StartExecution(workspaceReady: bool, storeFault: bool, transitionFault: bool)

  /** The item after a request, and the HTTP status replied. */
  ghost function Handle(item: Item, org: string, r: Request): (Item, int) {
    match r
    case Replan(indexed, fault) =>
      if item.org != org then (item, 404)
      else if !indexed || fault || !Allowed(item, ResetForReplan(org)) then (item, 422)
      else (Apply(item, ResetForReplan(org)), 200)
    case ApproveTask(fault) =>
      if fault || !Allowed(item, Approve(org)) then (item, 422) else (Apply(item, Approve(org)), 200)
    case CancelTask(fault) =>
      if fault || !Allowed(item, Cancel(org)) then (item, 422) else (Apply(item, Cancel(org)), 200)
    case UpdatePlan(body, storeFault, resetFault) =>
      if body.Empty? then (item, 400)
      else if item.org != org then (item, 404)
      else if item.status !in {PlanReady, PlanApproved} then (item, 422)
      else if !GoAccepts(body) then (item, 400)
      else if storeFault then (item, 500)
      else
        var stored := Apply(item, CreatePlan(body));
        (if resetFault then stored else Apply(stored, ResetApprovalAfterEdit), 200)
    case StartExecution(workspaceReady, storeFault, transitionFault) =>
      if item.org != org then (item, 404)
      else if item.approval != Approved then (item, 403)
      else if item.status != PlanApproved || !workspaceReady || ActivePlan(item.plans).None? then (item, 422)
      else if storeFault then (item, 500)
      else (if transitionFault then item else Apply(item, TransitionToExecuting), 202)
  }

  /** A request on the whole table. */
  ghost predicate Handled(before: map<string, Item>, after: map<string, Item>, id: string, org: string, r: Request,
                          code: int) {
    if id in before then
      after == before[id := Handle(before[id], org, r).0] && code == Handle(before[id], org, r).1
    else
      after == before && code ==
                         if r.UpdatePlan? && r.body.Empty? then 400
                         else if r.ApproveTask? || r.CancelTask? then 422 else 404
  }

  /** A planning goroutine, by the next thing it does. */
  datatype Planner =
    | Loading
    | AwaitingAgent
    | Persisting(body: Body)
    | MarkingReady
    | MarkingFailed(message: string)

  datatype AgentReply = NoPlan(message: string) | PlanEvent(body: Body)

  /** One step of a planning goroutine; `None` when it has returned. */
  ghost function PlannerStep(item: Item, p: Planner, fault: bool, reply: AgentReply): (Item, Option<Planner>) {
    match p
    case Loading => (item, if fault then None else Some(AwaitingAgent))
    case AwaitingAgent =>
      (item, Some(if fault then MarkingFailed("failed to sign agent token")
                  else if reply.NoPlan? then MarkingFailed(reply.message)
                  else if GoAccepts(reply.body) then Persisting(reply.body)
                  else MarkingFailed("plan validation failed")))
    case Persisting(body) =>
      if fault then (item, Some(MarkingFailed("failed to persist plan")))
      else (Apply(item, CreatePlan(body)), Some(MarkingReady))
    case MarkingReady => (if fault then item else Apply(item, MarkPlanReady), None)
    case MarkingFailed(message) => (if fault then item else Apply(item, MarkPlanningFailed(message)), None)
  }

  // ---- Handlers ----

  class TaskHandlers {
    const workItemRepo: WorkItemRepository

    constructor (workItemRepo: WorkItemRepository)
      ensures this.workItemRepo == workItemRepo
    {
      this.workItemRepo := workItemRepo;
    }

    method UpdatePlan(id: string, org: string, body: Body, storeFault: bool, resetFault: bool) returns (code: int)
      modifies workItemRepo
      ensures Handled(old(workItemRepo.items), workItemRepo.items, id, org,
                      Request.UpdatePlan(body, storeFault, resetFault), code)
      ensures var items := old(workItemRepo.items);
              var editable := Found(items, id, org) && items[id].status in {PlanReady, PlanApproved};
              && (code == 404 <==> !body.Empty? && !Found(items, id, org))
              && (code == 422 <==> !body.Empty? && Found(items, id, org) && !editable)
              && (code == 400 <==> body.Empty? || (editable && !GoAccepts(body)))
              && (code == 500 <==> editable && GoAccepts(body) && storeFault)
              && (code == 200 <==> editable && GoAccepts(body) && !storeFault)
      ensures code != 200 ==> workItemRepo.items == old(workItemRepo.items)
      ensures code == 200 ==>
                var stored := old(workItemRepo.items)[id].(plans := WithPlan(old(workItemRepo.items)[id].plans, body));
                workItemRepo.items ==
                old(workItemRepo.items)[id := if resetFault then stored
                                              else stored.(status := PlanReady, approval := PendingReview)]
    {
      if body.Empty? {
        return 400;
      }
      var item := workItemRepo.GetByID(id, org);
      if item.None? {
        return 404;
      }
      if item.value.status != PlanReady && item.value.status != PlanApproved {
        return 422;
      }
      var error := ValidatePlanBody(body);
      if error.Some? {
        return 400;
      }
      if storeFault {
        return 500;
      }
      var _ := workItemRepo.CreatePlan(id, body);
      if !resetFault {
        workItemRepo.ResetApprovalAfterEdit(id);
      }
      code := 200;
    }

    method ApproveTask(id: string, org: string, fault: bool) returns (code: int)
      modifies workItemRepo
      ensures Handled(old(workItemRepo.items), workItemRepo.items, id, org, Request.ApproveTask(fault), code)
      ensures code in {200, 422}
      ensures var items := old(workItemRepo.items);
              code == 200 <==> !fault && Found(items, id, org) && items[id].status == PlanReady
      ensures workItemRepo.items ==
              if code != 200 then old(workItemRepo.items)
              else old(workItemRepo.items)[id := old(workItemRepo.items)[id].(status := PlanApproved,
                                                                             approval := Approved)]
    {
      if fault {
        return 422;
      }
      var item := workItemRepo.Approve(id, org);
      code := if item.Some? then 200 else 422;
    }

    method Replan(id: string, org: string, indexed: bool, fault: bool) returns (code: int)
      modifies workItemRepo
      ensures Handled(old(workItemRepo.items), workItemRepo.items, id, org, Request.Replan(indexed, fault), code)
      ensures code in {200, 404, 422}
      ensures var items := old(workItemRepo.items);
              && (code == 404 <==> !Found(items, id, org))
              && (code == 200 <==> Found(items, id, org) && indexed && !fault
                                   && items[id].status in {PlanReady, PlanningFailed})
      ensures workItemRepo.items ==
              if code != 200 then old(workItemRepo.items)
              else old(workItemRepo.items)[id := old(workItemRepo.items)[id].(status := Planning,
                                                                             approval := PendingReview, error := None)]
    {
      var item := workItemRepo.GetByID(id, org);
      if item.None? {
        return 404;
      }
      if !indexed || fault {
        return 422;
      }
      var ok := workItemRepo.ResetForReplan(id, org);
      code := if ok then 200 else 422;
    }

    method CancelTask(id: string, org: string, fault: bool) returns (code: int)
      modifies workItemRepo
      ensures Handled(old(workItemRepo.items), workItemRepo.items, id, org, Request.CancelTask(fault), code)
      ensures code in {200, 422}
      ensures var items := old(workItemRepo.items);
              code == 200 <==>
              !fault && Found(items, id, org) && items[id].status !in {WorkItems.Done, WorkItems.Failed, Cancelled}
      ensures workItemRepo.items ==
              if code != 200 then old(workItemRepo.items)
              else old(workItemRepo.items)[id := old(workItemRepo.items)[id].(status := Cancelled)]
    {
      if fault {
        return 422;
      }
      var ok := workItemRepo.Cancel(id, org);
      code := if ok then 200 else 422;
    }

    /** The planning goroutine of an existing item, up to and including its next effect. */
    method RunPlanningStep(id: string, p: Planner, fault: bool, reply: AgentReply) returns (next: Option<Planner>)
      requires id in workItemRepo.items
      modifies workItemRepo
      ensures var (item, rest) := PlannerStep(old(workItemRepo.items)[id], p, fault, reply);
              workItemRepo.items == old(workItemRepo.items)[id := item] && next == rest
      ensures p.Loading? ==> next == if fault then None else Some(AwaitingAgent)
      ensures p.AwaitingAgent? ==>
                && (next == Some(MarkingFailed("failed to sign agent token")) || !fault)
                && (!fault && reply.NoPlan? ==> next == Some(MarkingFailed(reply.message)))
                && (!fault && reply.PlanEvent? && GoAccepts(reply.body) ==> next == Some(Persisting(reply.body)))
                && (!fault && reply.PlanEvent? && !GoAccepts(reply.body) ==>
                      next == Some(MarkingFailed("plan validation failed")))
      ensures p.Loading? || p.AwaitingAgent? || fault ==> workItemRepo.items == old(workItemRepo.items)
      ensures p.Persisting? ==> next == Some(if fault then MarkingFailed("failed to persist plan") else MarkingReady)
      ensures p.MarkingReady? || p.MarkingFailed? ==> next == None
      ensures !fault && old(workItemRepo.items)[id].status == Planning ==>
                var before, after := old(workItemRepo.items)[id], workItemRepo.items[id];
                && (p.Persisting? ==> after == before.(plans := WithPlan(before.plans, p.body)))
                && (p.MarkingReady? ==> after == before.(status := PlanReady))
                && (p.MarkingFailed? ==> after == before.(status := PlanningFailed, error := Some(p.message)))
    {
      match p
      case Loading =>
        next := if fault then None else Some(AwaitingAgent);
      case AwaitingAgent =>
        if fault {
          return Some(MarkingFailed("failed to sign agent token"));
        }
        if reply.NoPlan? {
          return Some(MarkingFailed(reply.message));
        }
        var error := ValidatePlanBody(reply.body);
        next := Some(if error.None? then Persisting(reply.body) else MarkingFailed("plan validation failed"));
      case Persisting(body) =>
        if fault {
          return Some(MarkingFailed("failed to persist plan"));
        }
        var _ := workItemRepo.CreatePlan(id, body);
        next := Some(MarkingReady);
      case MarkingReady =>
        if !fault {
          var _ := workItemRepo.MarkPlanReady(id);
        }
        next := None;
      case MarkingFailed(message) =>
        if !fault {
          workItemRepo.MarkPlanningFailed(id, message);
        }
        next := None;
    }
  }

  class ExecutionHandlers {
    const workItemRepo: WorkItemRepository

    constructor (workItemRepo: WorkItemRepository)
      ensures this.workItemRepo == workItemRepo
    {
      this.workItemRepo := workItemRepo;
    }

    /** Replies 202 with the plan the execution runs on, if it starts one. */
    method StartExecution(id: string, org: string, workspaceReady: bool, storeFault: bool, transitionFault: bool)
      returns (code: int, plan: Option<Plan>)
      modifies workItemRepo
      ensures Handled(old(workItemRepo.items), workItemRepo.items, id, org,
                      Request.StartExecution(workspaceReady, storeFault, transitionFault), code)
      ensures plan == if code == 202 then ActivePlan(old(workItemRepo.items)[id].plans) else None
      ensures var items := old(workItemRepo.items);
              var approved := Found(items, id, org) && items[id].approval == Approved;
              var ready := approved && items[id].status == PlanApproved && workspaceReady
                           && ActivePlan(items[id].plans).Some?;
              && (code == 404 <==> !Found(items, id, org))
              && (code == 403 <==> Found(items, id, org) && !approved)
              && (code == 422 <==> approved && !ready)
              && (code == 500 <==> ready && storeFault)
              && (code == 202 <==> ready && !storeFault)
      ensures workItemRepo.items ==
              if code != 202 || transitionFault then old(workItemRepo.items)
              else old(workItemRepo.items)[id := old(workItemRepo.items)[id].(status := Executing)]
    {
      var item := workItemRepo.GetByID(id, org);
      if item.None? {
        return 404, None;
      }
      if item.value.approval != Approved {
        return 403, None;
      }
      if item.value.status != PlanApproved || !workspaceReady {
        return 422, None;
      }
      plan := workItemRepo.GetActivePlan(id);
      if plan.None? {
        return 422, None;
      }
      if storeFault {
        return 500, None;
      }
      if !transitionFault {
        workItemRepo.TransitionToExecuting(id);
      }
      code := 202;
    }
  }

  // ---- Interleavings ----

  /** A started execution: its plan, the plan active at the last approval, and how many edits since
      then failed to withdraw that approval. */
  datatype Execution = Execution(plan: Plan, approved: Option<Plan>, lostResets: nat)

  datatype System = System(item: Item, planners: seq<Planner>, approved: Option<Plan>, lostResets: nat,
                           executions: seq<Execution>)

  datatype Action =
    | User(org: string, request: Request)
    | Goroutine(index: nat, fault: bool, reply: AgentReply)
    | Orchestrator(update: Update)

  /** After creation; if planning cannot be started it stays a draft. */
  function Initial(org: string, fault: bool): System {
    if fault then System(NewItem(org), [], None, 0, [])
    else System(Apply(NewItem(org), StartPlanning), [Loading], None, 0, [])
  }

  ghost function After(s: System, a: Action): System {
    match a
    case User(org, r) =>
      var (item, code) := Handle(s.item, org, r);
      var next := s.(item := item);
      if r.Replan? && code == 200 then next.(planners := s.planners + [Loading])
      else if r.ApproveTask? && code == 200 then next.(approved := ActivePlan(s.item.plans), lostResets := 0)
      else if r.UpdatePlan? && code == 200 && r.resetFault then next.(lostResets := s.lostResets + 1)
      else if r.StartExecution? && code == 202 then
        next.(executions := s.executions + [Execution(ActivePlan(s.item.plans).value, s.approved, s.lostResets)])
      else next
    case Goroutine(i, fault, reply) =>
      if i >= |s.planners| then s else
        var (item, next) := PlannerStep(s.item, s.planners[i], fault, reply);
        s.(item := item, planners := s.planners[..i] + (if next.Some? then [next.value] else []) + s.planners[i + 1..])
    case Orchestrator(u) =>
      if u.TransitionToRepairing? || u.TransitionToDone? || u.TransitionToPublishing? || u.TransitionToFailed?
      then s.(item := Apply(s.item, u)) else s
  }

  ghost function Run(start: System, actions: seq<Action>): System {
    if actions == [] then start else After(Run(start, actions[..|actions| - 1]), actions[|actions| - 1])
  }

  // ---- What every interleaving keeps ----

  ghost predicate ValidPlans(plans: seq<Plan>) {
    forall i :: 0 <= i < |plans| ==> GoAccepts(plans[i].body)
  }

  ghost predicate PlannerFits(p: Planner, item: Item) {
    && item.status in {Planning, Cancelled}
    && (p.Persisting? ==> GoAccepts(p.body))
    && (p.MarkingReady? ==> item.plans != [])
  }

  ghost predicate OnApprovedPlan(plan: Plan, approved: Option<Plan>, lostResets: nat) {
    approved.Some? && plan.version == approved.value.version + lostResets
        && (lostResets == 0 ==> plan == approved.value)
  }

  ghost predicate Sound(e: Execution) {
    OnApprovedPlan(e.plan, e.approved, e.lostResets) && GoAccepts(e.plan.body)
  }

  ghost predicate SafeItem(item: Item, approved: Option<Plan>, lostResets: nat) {
    var plans := item.plans;
    && ApprovalMatches(item) && Versioned(plans) && ValidPlans(plans)
    && (item.status in {PlanReady, PlanApproved} ==> plans != [])
    && (item.status == PlanApproved ==> OnApprovedPlan(plans[|plans| - 1], approved, lostResets))
  }

  ghost predicate Attended(planners: seq<Planner>, item: Item) {
    planners == [] || (|planners| == 1 && PlannerFits(planners[0], item))
  }

  ghost predicate SoundExecutions(executions: seq<Execution>) {
    forall e :: e in executions ==> Sound(e)
  }

  ghost predicate Safe(s: System) {
    SafeItem(s.item, s.approved, s.lostResets) && Attended(s.planners, s.item) && SoundExecutions(s.executions)
  }

  lemma StoredPlanFits(plans: seq<Plan>, body: Body)
    requires Versioned(plans) && ValidPlans(plans) && GoAccepts(body)
    ensures Versioned(WithPlan(plans, body)) && ValidPlans(WithPlan(plans, body))
    ensures WithPlan(plans, body)[|plans|].version == |plans| + 1
  {
    VersionsCountUp(plans, body);
  }

  lemma NewestIsNumbered(item: Item, approved: Option<Plan>, lostResets: nat)
    requires SafeItem(item, approved, lostResets) && item.status in {PlanReady, PlanApproved}
    ensures item.plans != [] && item.plans[|item.plans| - 1].version == |item.plans|
    ensures ActivePlan(item.plans) == Some(item.plans[|item.plans| - 1])
  {
    ActivePlanIsNewest(item.plans);
  }

  lemma NewestAfterEdit(plans: seq<Plan>, approved: Option<Plan>, lostResets: nat, body: Body)
    requires Versioned(plans) && plans != [] && OnApprovedPlan(plans[|plans| - 1], approved, lostResets)
    ensures OnApprovedPlan(WithPlan(plans, body)[|plans|], approved, lostResets + 1)
  {
    VersionsCountUp(plans, body);
    assert WithPlan(plans, body)[|plans|].version == |plans| + 1;
  }

  /** Without the reset the edited item stays approved, with one more reset lost. */
  lemma EditKeepsItemSafe(item: Item, approved: Option<Plan>, lostResets: nat, body: Body)
    requires SafeItem(item, approved, lostResets) && item.status in {PlanReady, PlanApproved} && GoAccepts(body)
    ensures SafeItem(item.(plans := WithPlan(item.plans, body)), approved, lostResets + 1)
  {
    StoredPlanFits(item.plans, body);
    if item.status == PlanApproved {
      NewestAfterEdit(item.plans, approved, lostResets, body);
    }
    assert |WithPlan(item.plans, body)| == |item.plans| + 1;
  }

  lemma ResetKeepsItemSafe(item: Item, approved: Option<Plan>, lostResets: nat)
    requires SafeItem(item, approved, lostResets + 1) && item.plans != []
    ensures SafeItem(item.(status := PlanReady, approval := PendingReview), approved, lostResets)
  {
  }

  lemma AfterEdit(s: System, org: string, body: Body, storeFault: bool, resetFault: bool)
    ensures var r := UpdatePlan(body, storeFault, resetFault);
            var stored := s.item.(plans := WithPlan(s.item.plans, body));
            After(s, User(org, r)) ==
            if Handle(s.item, org, r).1 != 200 then s
            else if resetFault then s.(item := stored, lostResets := s.lostResets + 1)
            else s.(item := stored.(status := PlanReady, approval := PendingReview))
  {
  }

  lemma UpdatePlanKeepsSafe(s: System, org: string, body: Body, storeFault: bool, resetFault: bool)
    requires Safe(s)
    ensures Safe(After(s, User(org, UpdatePlan(body, storeFault, resetFault))))
  {
    AfterEdit(s, org, body, storeFault, resetFault);
    if Handle(s.item, org, UpdatePlan(body, storeFault, resetFault)).1 == 200 {
      EditKeepsItemSafe(s.item, s.approved, s.lostResets, body);
      ResetKeepsItemSafe(s.item.(plans := WithPlan(s.item.plans, body)), s.approved, s.lostResets);
      assert s.planners == [];
    }
  }

  lemma StartExecutionKeepsSafe(s: System, org: string, r: Request)
    requires Safe(s) && r.StartExecution?
    ensures Safe(After(s, User(org, r)))
  {
    if Handle(s.item, org, r).1 == 202 {
      NewestIsNumbered(s.item, s.approved, s.lostResets);
      assert GoAccepts(s.item.plans[|s.item.plans| - 1].body);
      assert Sound(Execution(ActivePlan(s.item.plans).value, s.approved, s.lostResets));
    }
  }

  lemma ApprovalKeepsSafe(s: System, org: string, r: Request)
    requires Safe(s) && r.ApproveTask?
    ensures Safe(After(s, User(org, r)))
  {
    if Handle(s.item, org, r).1 == 200 {
      NewestIsNumbered(s.item, s.approved, s.lostResets);
    }
  }

  lemma ReplanOrCancelKeepsSafe(s: System, org: string, r: Request)
    requires Safe(s) && (r.Replan? || r.CancelTask?)
    ensures Safe(After(s, User(org, r)))
  {
  }

  lemma RequestKeepsSafe(s: System, org: string, r: Request)
    requires Safe(s)
    ensures Safe(After(s, User(org, r)))
  {
    match r
    case UpdatePlan(body, storeFault, resetFault) => UpdatePlanKeepsSafe(s, org, body, storeFault, resetFault);
    case StartExecution(_, _, _) => StartExecutionKeepsSafe(s, org, r);
    case ApproveTask(_) => ApprovalKeepsSafe(s, org, r);
    case _ => ReplanOrCancelKeepsSafe(s, org, r);
  }

  lemma LonePlanner(s: System, fault: bool, reply: AgentReply)
    requires |s.planners| == 1
    ensures var (item, next) := PlannerStep(s.item, s.planners[0], fault, reply);
            After(s, Goroutine(0, fault, reply)) ==
            s.(item := item, planners := if next.Some? then [next.value] else [])
  {
  }

  lemma PlannerStepFits(item: Item, p: Planner, fault: bool, reply: AgentReply, approved: Option<Plan>, lostResets: nat)
    requires SafeItem(item, approved, lostResets) && PlannerFits(p, item)
    ensures var (after, next) := PlannerStep(item, p, fault, reply);
            SafeItem(after, approved, lostResets) && (next.Some? ==> PlannerFits(next.value, after))
  {
    if p.Persisting? {
      StoredPlanFits(item.plans, p.body);
    }
  }

  lemma PlannerKeepsSafe(s: System, i: nat, fault: bool, reply: AgentReply)
    requires Safe(s)
    ensures Safe(After(s, Goroutine(i, fault, reply)))
  {
    if i < |s.planners| {
      LonePlanner(s, fault, reply);
      PlannerStepFits(s.item, s.planners[0], fault, reply, s.approved, s.lostResets);
    }
  }

  lemma {:induction false} EveryRunIsSafe(org: string, fault: bool, actions: seq<Action>)
    ensures Safe(Run(Initial(org, fault), actions))
  {
    if actions != [] {
      var before, a := Run(Initial(org, fault), actions[..|actions| - 1]), actions[|actions| - 1];
      EveryRunIsSafe(org, fault, actions[..|actions| - 1]);
      match a
      case User(o, r) => RequestKeepsSafe(before, o, r);
      case Goroutine(i, f, reply) => PlannerKeepsSafe(before, i, f, reply);
      case Orchestrator(_) =>
    }
  }

  /** While requests do not overlap, at most one planning goroutine is ever under way, and only while the
      item is being planned or was cancelled meanwhile. */
  lemma {:induction false} AtMostOnePlanner(org: string, fault: bool, actions: seq<Action>)
    ensures var s := Run(Initial(org, fault), actions);
            |s.planners| <= 1 && (s.planners != [] ==> s.item.status in {Planning, Cancelled})
  {
    EveryRunIsSafe(org, fault, actions);
  }

  /** Every execution in every run of whole requests is on a plan the validator accepts, and on the very
      plan that was approved exactly when no edit since the approval lost its reset. */
  lemma ExecutesApprovedPlan(org: string, fault: bool, actions: seq<Action>, e: Execution)
    requires e in Run(Initial(org, fault), actions).executions
    ensures GoAccepts(e.plan.body)
    ensures e.approved == Some(e.plan) <==> e.lostResets == 0
    ensures e.approved.Some? && e.plan.version == e.approved.value.version + e.lostResets
  {
    EveryRunIsSafe(org, fault, actions);
  }

  /** An approved item always has a plan: the missing-plan reply to an execution request is dead. */
  lemma ApprovedItemHasPlan(org: string, fault: bool, actions: seq<Action>)
    ensures var item := Run(Initial(org, fault), actions).item;
            item.status in {PlanReady, PlanApproved} ==>
              item.plans != [] && ActivePlan(item.plans) == Some(item.plans[|item.plans| - 1])
  {
    EveryRunIsSafe(org, fault, actions);
    ActivePlanIsNewest(Run(Initial(org, fault), actions).item.plans);
  }

  // ---- Lost resets ----

  ghost predicate LosesReset(a: Action) {
    a.User? && a.request.UpdatePlan? && a.request.resetFault
  }

  lemma {:induction false} NoLostResets(org: string, fault: bool, actions: seq<Action>)
    requires forall k :: 0 <= k < |actions| ==> !LosesReset(actions[k])
    ensures var s := Run(Initial(org, fault), actions);
            s.lostResets == 0 && forall e :: e in s.executions ==> e.lostResets == 0
  {
    if actions != [] {
      NoLostResets(org, fault, actions[..|actions| - 1]);
    }
  }

  /** Without failed resets or overlapping requests, every execution runs the plan its user approved. */
  lemma ReliableResetsProtectApproval(org: string, fault: bool, actions: seq<Action>, e: Execution)
    requires forall k :: 0 <= k < |actions| ==> !LosesReset(actions[k])
    requires e in Run(Initial(org, fault), actions).executions
    ensures e.approved == Some(e.plan)
  {
    NoLostResets(org, fault, actions);
    ExecutesApprovedPlan(org, fault, actions, e);
  }

  /** A run of the planning goroutine in which all goes well. */
  function PlanningRun(planned: Body): seq<Action> {
    [Goroutine(0, false, NoPlan("")), Goroutine(0, false, PlanEvent(planned)), Goroutine(0, false, NoPlan("")),
     Goroutine(0, false, NoPlan(""))]
  }

  /** Plan, approve, edit with a failing reset, execute. */
  function LostResetRun(org: string, planned: Body, edited: Body): seq<Action> {
    PlanningRun(planned) + [User(org, ApproveTask(false))] + [User(org, UpdatePlan(edited, false, true))] +
    [User(org, StartExecution(true, false, false))]
  }

  lemma RunExtends(start: System, actions: seq<Action>, a: Action)
    ensures Run(start, actions + [a]) == After(Run(start, actions), a)
  {
    assert (actions + [a])[..|actions|] == actions;
  }

  lemma FirstPlan(s: System, planned: Body)
    requires GoAccepts(planned) && s.item.plans == [] && s.planners == [Persisting(planned)]
    ensures After(s, Goroutine(0, false, NoPlan(""))) ==
            s.(item := s.item.(plans := [Plan(1, true, planned)]), planners := [MarkingReady])
  {
    assert WithPlan([], planned) == [Plan(1, true, planned)];
    LonePlanner(s, false, NoPlan(""));
  }

  lemma PlannedRun(org: string, planned: Body)
    requires GoAccepts(planned)
    ensures Run(Initial(org, false), PlanningRun(planned)) ==
            System(NewItem(org).(status := PlanReady, plans := [Plan(1, true, planned)]), [], None, 0, [])
  {
    var s0, step, reply := Initial(org, false), Goroutine(0, false, NoPlan("")),
        Goroutine(0, false, PlanEvent(planned));
    LonePlanner(s0, false, NoPlan(""));
    var s1 := s0.(planners := [AwaitingAgent]);
    LonePlanner(s1, false, PlanEvent(planned));
    var s2 := s1.(planners := [Persisting(planned)]);
    FirstPlan(s2, planned);
    var s3 := After(s2, step);
    LonePlanner(s3, false, NoPlan(""));
    FourSteps(s0, step, reply);
  }

  lemma FourSteps(start: System, a: Action, b: Action)
    ensures Run(start, [a, b, a, a]) == After(After(After(After(start, a), b), a), a)
  {
    assert [a, b, a, a] == [] + [a] + [b] + [a] + [a];
    RunExtends(start, [], a);
    RunExtends(start, [a], b);
    RunExtends(start, [a, b], a);
    RunExtends(start, [a, b, a], a);
  }

  lemma EditedRun(s: System, org: string, planned: Body, edited: Body)
    requires GoAccepts(edited)
    requires s == System(NewItem(org).(status := PlanReady, plans := [Plan(1, true, planned)]), [], None, 0, [])
    ensures var approved := After(s, User(org, ApproveTask(false)));
            var edit := After(approved, User(org, UpdatePlan(edited, false, true)));
            After(edit, User(org, StartExecution(true, false, false))).executions ==
            [Execution(Plan(2, true, edited), Some(Plan(1, true, planned)), 1)]
  {
    var one, two := [Plan(1, true, planned)], [Plan(1, false, planned), Plan(2, true, edited)];
    assert WithPlan(one, edited) == two;
    assert ActivePlan(one) == Some(one[0]);
    ActivePlanIsNewest(two);
    var approved := After(s, User(org, ApproveTask(false)));
    assert approved == s.(item := s.item.(status := PlanApproved, approval := Approved), approved := Some(one[0]));
    AfterEdit(approved, org, edited, false, true);
    var edit := After(approved, User(org, UpdatePlan(edited, false, true)));
    assert edit == approved.(item := approved.item.(plans := two), lostResets := 1);
  }

  /** One failed reset is enough to execute an edit nobody approved. */
  lemma LostResetRunsUnapprovedPlan(org: string, planned: Body, edited: Body)
    requires GoAccepts(planned) && GoAccepts(edited)
    ensures var s := Run(Initial(org, false), LostResetRun(org, planned, edited));
            s.executions == [Execution(Plan(2, true, edited), Some(Plan(1, true, planned)), 1)]
  {
    var start, actions := Initial(org, false), PlanningRun(planned);
    var approve, edit := User(org, ApproveTask(false)), User(org, UpdatePlan(edited, false, true));
    PlannedRun(org, planned);
    EditedRun(Run(start, actions), org, planned, edited);
    RunExtends(start, actions, approve);
    RunExtends(start, actions + [approve], edit);
    RunExtends(start, actions + [approve] + [edit], User(org, StartExecution(true, false, false)));
  }
}
