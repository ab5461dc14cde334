/** The work-item and plan tables: guarded status updates and versioned plans. Each SQL statement, or
    transaction where there is one, is one atomic step. */
module WorkItems {
  import opened Json
  import opened PlanValidation

  datatype Status =
    | Draft | Planning | PlanReady | PlanningFailed | PlanApproved | Executing | Repairing
    | Done | Failed | Publishing | Cancelled

  datatype Approval = PendingReview | Approved

  datatype Plan = Plan(version: int, active: bool, body: Body)

  datatype Item = Item(org: string, status: Status, approval: Approval, error: Option<string>, plans: seq<Plan>)

  function NewItem(org: string): Item {
    Item(org, Draft, PendingReview, None, [])
  }

  datatype Update =
    | StartPlanning
    | MarkPlanReady
    | MarkPlanningFailed(message: string)
    | Approve(org: string)
    | ResetForReplan(org: string)
    | Cancel(org: string)
    | ResetApprovalAfterEdit
    | CreatePlan(body: Body)
    | TransitionToExecuting
    | TransitionToRepairing
    | TransitionToDone
    | TransitionToPublishing
    | TransitionToFailed(message: string)

  // ---- What each update does ----

  /** The `WHERE` clause; two updates have none beyond the id. */
  predicate Allowed(item: Item, u: Update) {
    match u
    case StartPlanning => item.status == Draft
    case MarkPlanReady => item.status == Planning
    case MarkPlanningFailed(_) => item.status == Planning
    case Approve(org) => item.org == org && item.status == PlanReady
    case ResetForReplan(org) => item.org == org && item.status in {PlanReady, PlanningFailed}
    case Cancel(org) => item.org == org && item.status !in {Done, Failed, Cancelled}
    case ResetApprovalAfterEdit => true
    case CreatePlan(_) => true
    case TransitionToExecuting => item.status == PlanApproved
    case TransitionToRepairing => item.status == Executing
    case TransitionToDone => item.status in {Executing, Repairing}
    case TransitionToPublishing => item.status == Done
    case TransitionToFailed(_) => item.status in {Executing, Repairing}
  }

  function Apply(item: Item, u: Update): Item {
    if !Allowed(item, u) then item else
      match u
      case StartPlanning => item.(status := Planning)
      case MarkPlanReady => item.(status := PlanReady)
      case MarkPlanningFailed(message) => item.(status := PlanningFailed, error := Some(message))
      case Approve(_) => item.(status := PlanApproved, approval := Approved)
      case ResetForReplan(_) => item.(status := Planning, approval := PendingReview, error := None)
      case Cancel(_) => item.(status := Cancelled)
      case ResetApprovalAfterEdit => item.(status := PlanReady, approval := PendingReview)
      case CreatePlan(body) => item.(plans := WithPlan(item.plans, body))
      case TransitionToExecuting => item.(status := Executing)
      case TransitionToRepairing => item.(status := Repairing)
      case TransitionToDone => item.(status := Done, error := None)
      case TransitionToPublishing => item.(status := Publishing)
      case TransitionToFailed(message) => item.(status := Failed, error := Some(message))
  }

  function Deactivated(plans: seq<Plan>): seq<Plan> {
    seq(|plans|, i requires 0 <= i < |plans| => plans[i].(active := false))
  }

  function MaxVersion(plans: seq<Plan>): int {
    if plans == [] then 0
    else if |plans| == 1 then plans[0].version
    else
      var rest := MaxVersion(plans[..|plans| - 1]);
      if plans[|plans| - 1].version > rest then plans[|plans| - 1].version else rest
  }

  function WithPlan(plans: seq<Plan>, body: Body): seq<Plan> {
    Deactivated(plans) + [Plan(MaxVersion(plans) + 1, true, body)]
  }

  function ActivePlan(plans: seq<Plan>): Option<Plan> {
    if plans == [] then None else if plans[0].active then Some(plans[0]) else ActivePlan(plans[1..])
  }

  // ---- Repository ----

  /** The item exists and belongs to the organisation. */
  predicate Found(items: map<string, Item>, id: string, org: string) {
    id in items && items[id].org == org
  }

  /** Statements on the whole table. */
  datatype Statement = Insert(id: string, org: string) | Change(id: string, update: Update)

  function Step(items: map<string, Item>, s: Statement): map<string, Item> {
    match s
    case Insert(id, org) => if id in items then items else items[id := NewItem(org)]
    case Change(id, u) => if id in items then items[id := Apply(items[id], u)] else items
  }

  class WorkItemRepository {
    var items: map<string, Item>

    constructor ()
      ensures items == map[]
    {
      items := map[];
    }

    /** Fails on a repeated primary key. */
    method Create(id: string, org: string) returns (ok: bool)
      modifies this
      ensures ok == (id !in old(items))
      ensures items == Step(old(items), Insert(id, org))
    {
      ok := id !in items;
      if ok {
        items := items[id := Item(org, Draft, PendingReview, None, [])];
      }
    }

    /** A guarded single-step status change that must match a row. */
    method Transition(id: string, newStatus: Status, allowedFrom: set<Status>) returns (ok: bool)
      modifies this
      ensures ok == (id in old(items) && old(items)[id].status in allowedFrom)
      ensures items == if ok then old(items)[id := old(items)[id].(status := newStatus)] else old(items)
    {
      ok := id in items && items[id].status in allowedFrom;
      if ok {
        items := items[id := items[id].(status := newStatus)];
      }
    }

    method StartPlanning(id: string) returns (ok: bool)
      modifies this
      ensures ok == (id in old(items) && old(items)[id].status == Draft)
      ensures id in old(items) && old(items)[id].status == Draft ==>
                items == old(items)[id := old(items)[id].(status := Planning)]
      ensures !(id in old(items) && old(items)[id].status == Draft) ==> items == old(items)
      ensures ok == (id in old(items) && Allowed(old(items)[id], Update.StartPlanning))
      ensures items == Step(old(items), Change(id, Update.StartPlanning))
    {
      ok := Transition(id, Planning, {Draft});
    }

    method MarkPlanReady(id: string) returns (ok: bool)
      modifies this
      ensures ok == (id in old(items) && old(items)[id].status == Planning)
      ensures id in old(items) && old(items)[id].status == Planning ==>
                items == old(items)[id := old(items)[id].(status := PlanReady)]
      ensures !(id in old(items) && old(items)[id].status == Planning) ==> items == old(items)
      ensures ok == (id in old(items) && Allowed(old(items)[id], Update.MarkPlanReady))
      ensures items == Step(old(items), Change(id, Update.MarkPlanReady))
    {
      ok := Transition(id, PlanReady, {Planning});
    }

    method MarkPlanningFailed(id: string, message: string)
      modifies this
      ensures id in old(items) && old(items)[id].status == Planning ==>
                items == old(items)[id := old(items)[id].(status := PlanningFailed, error := Some(message))]
      ensures !(id in old(items) && old(items)[id].status == Planning) ==> items == old(items)
      ensures items == Step(old(items), Change(id, Update.MarkPlanningFailed(message)))
    {
      if id in items && items[id].status == Planning {
        items := items[id := items[id].(status := PlanningFailed, error := Some(message))];
      }
    }

    method Approve(id: string, org: string) returns (approved: Option<Item>)
      modifies this
      ensures Found(old(items), id, org) && old(items)[id].status == PlanReady ==>
                items == old(items)[id := old(items)[id].(status := PlanApproved, approval := Approved)]
      ensures !(Found(old(items), id, org) && old(items)[id].status == PlanReady) ==> items == old(items)
      ensures approved.Some? <==> id in old(items) && Allowed(old(items)[id], Update.Approve(org))
      ensures items == Step(old(items), Change(id, Update.Approve(org)))
      ensures approved.Some? ==> approved.value == items[id]
    {
      approved := None;
      if id in items && items[id].org == org && items[id].status == PlanReady {
        items := items[id := items[id].(approval := Approved, status := PlanApproved)];
        approved := Some(items[id]);
      }
    }

    method ResetForReplan(id: string, org: string) returns (ok: bool)
      modifies this
      ensures ok == (Found(old(items), id, org) && old(items)[id].status in {PlanReady, PlanningFailed})
      ensures Found(old(items), id, org) && old(items)[id].status in {PlanReady, PlanningFailed} ==>
                items == old(items)[id := old(items)[id].(status := Planning, approval := PendingReview, error := None)]
      ensures !(Found(old(items), id, org) && old(items)[id].status in {PlanReady, PlanningFailed}) ==>
                items == old(items)
      ensures ok == (id in old(items) && Allowed(old(items)[id], Update.ResetForReplan(org)))
      ensures items == Step(old(items), Change(id, Update.ResetForReplan(org)))
    {
      ok := id in items && items[id].org == org && items[id].status in {PlanReady, PlanningFailed};
      if ok {
        items := items[id := items[id].(status := Planning, approval := PendingReview, error := None)];
      }
    }

    method Cancel(id: string, org: string) returns (ok: bool)
      modifies this
      ensures ok == (Found(old(items), id, org) && old(items)[id].status !in {Done, Failed, Cancelled})
      ensures Found(old(items), id, org) && old(items)[id].status !in {Done, Failed, Cancelled} ==>
                items == old(items)[id := old(items)[id].(status := Cancelled)]
      ensures !(Found(old(items), id, org) && old(items)[id].status !in {Done, Failed, Cancelled}) ==>
                items == old(items)
      ensures ok == (id in old(items) && Allowed(old(items)[id], Update.Cancel(org)))
      ensures items == Step(old(items), Change(id, Update.Cancel(org)))
    {
      ok := id in items && items[id].org == org && items[id].status !in {Done, Failed, Cancelled};
      if ok {
        items := items[id := items[id].(status := Cancelled)];
      }
    }

    method ResetApprovalAfterEdit(id: string)
      modifies this
      ensures id in old(items) ==>
                items == old(items)[id := old(items)[id].(status := PlanReady, approval := PendingReview)]
      ensures !(id in old(items)) ==> items == old(items)
      ensures items == Step(old(items), Change(id, Update.ResetApprovalAfterEdit))
    {
      if id in items {
        items := items[id := items[id].(approval := PendingReview, status := PlanReady)];
      }
    }

    method TransitionToExecuting(id: string)
      modifies this
      ensures id in old(items) && old(items)[id].status == PlanApproved ==>
                items == old(items)[id := old(items)[id].(status := Executing)]
      ensures !(id in old(items) && old(items)[id].status == PlanApproved) ==> items == old(items)
      ensures items == Step(old(items), Change(id, Update.TransitionToExecuting))
    {
      var _ := Transition(id, Executing, {PlanApproved});
    }

    method TransitionToRepairing(id: string)
      modifies this
      ensures id in old(items) && old(items)[id].status == Executing ==>
                items == old(items)[id := old(items)[id].(status := Repairing)]
      ensures !(id in old(items) && old(items)[id].status == Executing) ==> items == old(items)
      ensures items == Step(old(items), Change(id, Update.TransitionToRepairing))
    {
      var _ := Transition(id, Repairing, {Executing});
    }

    method TransitionToDone(id: string)
      modifies this
      ensures id in old(items) && old(items)[id].status in {Executing, Repairing} ==>
                items == old(items)[id := old(items)[id].(status := Done, error := None)]
      ensures !(id in old(items) && old(items)[id].status in {Executing, Repairing}) ==> items == old(items)
      ensures items == Step(old(items), Change(id, Update.TransitionToDone))
    {
      if id in items && items[id].status in {Executing, Repairing} {
        items := items[id := items[id].(status := Done, error := None)];
      }
    }

    method TransitionToPublishing(id: string)
      modifies this
      ensures id in old(items) && old(items)[id].status == Done ==>
                items == old(items)[id := old(items)[id].(status := Publishing)]
      ensures !(id in old(items) && old(items)[id].status == Done) ==> items == old(items)
      ensures items == Step(old(items), Change(id, Update.TransitionToPublishing))
    {
      var _ := Transition(id, Publishing, {Done});
    }

    method TransitionToFailed(id: string, message: string)
      modifies this
      ensures id in old(items) && old(items)[id].status in {Executing, Repairing} ==>
                items == old(items)[id := old(items)[id].(status := Failed, error := Some(message))]
      ensures !(id in old(items) && old(items)[id].status in {Executing, Repairing}) ==> items == old(items)
      ensures items == Step(old(items), Change(id, Update.TransitionToFailed(message)))
    {
      if id in items && items[id].status in {Executing, Repairing} {
        items := items[id := items[id].(status := Failed, error := Some(message))];
      }
    }

    /** Deactivate, number, insert; nothing happens without the foreign key. */
    method CreatePlan(id: string, body: Body) returns (plan: Option<Plan>)
      modifies this
      ensures plan.Some? <==> id in old(items)
      ensures items == Step(old(items), Change(id, Update.CreatePlan(body)))
      ensures plan.Some? ==> items[id].plans != [] && plan.value == items[id].plans[|items[id].plans| - 1]
    {
      if id !in items {
        return None;
      }
      var plans := items[id].plans;
      var rows: seq<Plan> := [];
      for i := 0 to |plans|
        invariant rows == Deactivated(plans[..i])
      {
        rows := rows + [if plans[i].active then plans[i].(active := false) else plans[i]];
      }
      assert plans[..|plans|] == plans;
      var maxVersion := NewestVersion(plans);
      var created := Plan(maxVersion + 1, true, body);
      items := items[id := items[id].(plans := rows + [created])];
      plan := Some(created);
    }

    method NewestVersion(plans: seq<Plan>) returns (newest: int)
      ensures newest == MaxVersion(plans)
    {
      if plans == [] {
        return 0;
      }
      newest := plans[0].version;
      for i := 1 to |plans|
        invariant newest == MaxVersion(plans[..i])
      {
        assert plans[..i + 1][..i] == plans[..i];
        if plans[i].version > newest {
          newest := plans[i].version;
        }
      }
      assert plans[..|plans|] == plans;
    }

    /** The item, if it exists in this organisation. */
    method GetByID(id: string, org: string) returns (item: Option<Item>)
      ensures item == if id in items && items[id].org == org then Some(items[id]) else None
    {
      item := if id in items && items[id].org == org then Some(items[id]) else None;
    }

    method GetActivePlan(id: string) returns (plan: Option<Plan>)
      ensures plan == if id in items then ActivePlan(items[id].plans) else None
    {
      plan := None;
      if id in items {
        var plans := items[id].plans;
        for i := 0 to |plans|
          invariant ActivePlan(plans) == ActivePlan(plans[i..])
        {
          if plans[i].active {
            return Some(plans[i]);
          }
        }
      }
    }
  }

  // ---- Runs of updates ----

  /** An item after a sequence of updates, issued by whomever. */
  function ItemAfter(org: string, updates: seq<Update>): Item {
    if updates == [] then NewItem(org)
    else Apply(ItemAfter(org, updates[..|updates| - 1]), updates[|updates| - 1])
  }

  function Database(statements: seq<Statement>): map<string, Item> {
    if statements == [] then map[]
    else Step(Database(statements[..|statements| - 1]), statements[|statements| - 1])
  }

  /** The updates that reached an item: those issued after it was inserted. */
  function Issued(statements: seq<Statement>, id: string): seq<Update> {
    if statements == [] then [] else
      var n := |statements| - 1;
      var s := statements[n];
      Issued(statements[..n], id) +
      if s.Change? && s.id == id && id in Database(statements[..n]) then [s.update] else []
  }

  lemma {:induction false} IssuedAfterInsert(statements: seq<Statement>, id: string)
    ensures id !in Database(statements) ==> Issued(statements, id) == []
  {
    if statements != [] {
      IssuedAfterInsert(statements[..|statements| - 1], id);
    }
  }

  /** Items do not interfere: each is the result of its own updates, in their order. */
  lemma {:induction false} ItemsAreIndependent(statements: seq<Statement>, id: string)
    requires id in Database(statements)
    ensures Database(statements)[id] == ItemAfter(Database(statements)[id].org, Issued(statements, id))
  {
    var n := |statements| - 1;
    IssuedAfterInsert(statements[..n], id);
    if id in Database(statements[..n]) {
      ItemsAreIndependent(statements[..n], id);
      OneUpdateMore(Database(statements[..n]), statements[n], id, Issued(statements[..n], id));
    }
  }

  lemma OneUpdateMore(items: map<string, Item>, s: Statement, id: string, updates: seq<Update>)
    requires id in items && items[id] == ItemAfter(items[id].org, updates)
    ensures id in Step(items, s) && Step(items, s)[id].org == items[id].org
    ensures Step(items, s)[id] ==
            ItemAfter(items[id].org, updates + if s.Change? && s.id == id then [s.update] else [])
  {
    if s.Change? && s.id == id {
      assert (updates + [s.update])[..|updates|] == updates;
    } else {
      assert updates + [] == updates;
    }
  }

  // ---- Status and approval ----

  predicate NeedsApproval(status: Status) {
    status in {PlanApproved, Executing, Repairing, Done, Failed, Publishing}
  }

  predicate PrecedesApproval(status: Status) {
    status in {Draft, Planning, PlanningFailed, PlanReady}
  }

  predicate ApprovalMatches(item: Item) {
    && (NeedsApproval(item.status) ==> item.approval == Approved)
    && (PrecedesApproval(item.status) ==> item.approval == PendingReview)
  }

  /** The decision in force: the last update that took effect among approvals and resets was an
      approval. */
  ghost predicate ApprovalInForce(org: string, updates: seq<Update>) {
    exists i :: 0 <= i < |updates| && Approves(org, updates, i)
                && forall k :: i < k < |updates| ==> !Resets(org, updates, k)
  }

  ghost predicate Approves(org: string, updates: seq<Update>, i: nat)
    requires i < |updates|
  {
    updates[i].Approve? && Allowed(ItemAfter(org, updates[..i]), updates[i])
  }

  ghost predicate Resets(org: string, updates: seq<Update>, i: nat)
    requires i < |updates|
  {
    (updates[i].ResetForReplan? || updates[i].ResetApprovalAfterEdit?)
        && Allowed(ItemAfter(org, updates[..i]), updates[i])
  }

  lemma PrefixDecisions(org: string, updates: seq<Update>, n: nat, i: nat)
    requires i < n <= |updates|
    ensures Approves(org, updates[..n], i) == Approves(org, updates, i)
    ensures Resets(org, updates[..n], i) == Resets(org, updates, i)
  {
    assert updates[..n][..i] == updates[..i];
  }

  lemma ForceExtends(org: string, updates: seq<Update>)
    requires updates != []
    ensures var n := |updates| - 1;
            ApprovalInForce(org, updates) <==>
            Approves(org, updates, n) || (ApprovalInForce(org, updates[..n]) && !Resets(org, updates, n))
  {
    var n := |updates| - 1;
    forall i | 0 <= i < n
      ensures Approves(org, updates[..n], i) == Approves(org, updates, i)
      ensures Resets(org, updates[..n], i) == Resets(org, updates, i)
    {
      PrefixDecisions(org, updates, n, i);
    }
    if ApprovalInForce(org, updates[..n]) && !Resets(org, updates, n) {
      var i :| 0 <= i < n && Approves(org, updates[..n], i) && forall k :: i < k < n ==> !Resets(org, updates[..n], k);
      assert Approves(org, updates, i);
    }
  }

  /** Over every run, an item counts as approved exactly when an approval is in force, and its status
      agrees. */
  lemma {:induction false} ApprovedIffInForce(org: string, updates: seq<Update>)
    ensures ItemAfter(org, updates).approval == Approved <==> ApprovalInForce(org, updates)
    ensures ApprovalMatches(ItemAfter(org, updates))
    ensures ItemAfter(org, updates).org == org
  {
    if updates != [] {
      ApprovedIffInForce(org, updates[..|updates| - 1]);
      ForceExtends(org, updates);
    }
  }

  /** No statement on the table takes an item past approval unless an approval is in force. */
  lemma NothingRunsUnapproved(statements: seq<Statement>, id: string)
    requires id in Database(statements) && NeedsApproval(Database(statements)[id].status)
    ensures ApprovalInForce(Database(statements)[id].org, Issued(statements, id))
  {
    ItemsAreIndependent(statements, id);
    ApprovedIffInForce(Database(statements)[id].org, Issued(statements, id));
  }

  /** A cancelled or failed item stays so in every continuation without the unguarded reset, and the
      reset alone revives it. */
  lemma {:induction false} TerminalUntilReset(org: string, updates: seq<Update>, n: nat)
    requires n <= |updates| && ItemAfter(org, updates[..n]).status in {Cancelled, Failed}
    ensures (forall k :: n <= k < |updates| ==> !updates[k].ResetApprovalAfterEdit?) ==>
              ItemAfter(org, updates).status == ItemAfter(org, updates[..n]).status
    ensures ItemAfter(org, updates[..n] + [ResetApprovalAfterEdit]).status == PlanReady
    decreases |updates|
  {
    assert (updates[..n] + [ResetApprovalAfterEdit])[..n] == updates[..n];
    if n < |updates| {
      var shorter := updates[..|updates| - 1];
      assert shorter[..n] == updates[..n];
      TerminalUntilReset(org, shorter, n);
    } else {
      assert updates[..n] == updates;
    }
  }

  // ---- Plan versions ----

  /** Versions count up from one and only the newest plan is active. */
  ghost predicate Versioned(plans: seq<Plan>) {
    forall i :: 0 <= i < |plans| ==> plans[i].version == i + 1 && (plans[i].active <==> i == |plans| - 1)
  }

  lemma {:induction false} MaxVersionIsGreatest(plans: seq<Plan>, i: nat)
    requires i < |plans|
    ensures plans[i].version <= MaxVersion(plans)
    ensures exists k :: 0 <= k < |plans| && plans[k].version == MaxVersion(plans)
  {
    var n := |plans| - 1;
    if n > 0 {
      MaxVersionIsGreatest(plans[..n], if i < n then i else 0);
      var k :| 0 <= k < n && plans[..n][k].version == MaxVersion(plans[..n]);
      assert plans[k].version == MaxVersion(plans[..n]);
      assert plans[if plans[n].version > MaxVersion(plans[..n]) then n else k].version == MaxVersion(plans);
    }
  }

  /** Whatever was in the table, creating a plan leaves exactly one active plan, above all others. */
  lemma NewPlanIsTheActiveOne(plans: seq<Plan>, body: Body, i: nat)
    requires i < |WithPlan(plans, body)|
    ensures var after := WithPlan(plans, body);
            var newest := after[|plans|];
            && newest.body == body && |after| == |plans| + 1
            && (after[i].active <==> i == |plans|)
            && (i < |plans| ==> after[i].version == plans[i].version < newest.version && after[i].body == plans[i].body)
  {
    if i < |plans| {
      MaxVersionIsGreatest(plans, i);
    }
  }

  /** What is read as the active plan is the newest one. */
  lemma {:induction false} ActivePlanIsNewest(plans: seq<Plan>)
    requires forall i :: 0 <= i < |plans| ==> (plans[i].active <==> i == |plans| - 1)
    ensures ActivePlan(plans) == if plans == [] then None else Some(plans[|plans| - 1])
  {
    if |plans| > 1 {
      ActivePlanIsNewest(plans[1..]);
    }
  }

  lemma VersionsCountUp(plans: seq<Plan>, body: Body)
    requires Versioned(plans)
    ensures Versioned(WithPlan(plans, body))
  {
    if plans != [] {
      MaxVersionIsGreatest(plans, |plans| - 1);
    }
    forall i | 0 <= i < |WithPlan(plans, body)| ensures WithPlan(plans, body)[i].version == i + 1 {
    }
  }

  lemma {:induction false} EveryRunKeepsVersions(org: string, updates: seq<Update>)
    ensures Versioned(ItemAfter(org, updates).plans)
  {
    if updates != [] {
      var before, u := ItemAfter(org, updates[..|updates| - 1]), updates[|updates| - 1];
      EveryRunKeepsVersions(org, updates[..|updates| - 1]);
      if u.CreatePlan? {
        VersionsCountUp(before.plans, u.body);
      }
    }
  }

  /** In every reachable table each item has versions 1..n, the last of them active. */
  lemma EveryTableIsVersioned(statements: seq<Statement>, id: string)
    requires id in Database(statements)
    ensures Versioned(Database(statements)[id].plans)
  {
    ItemsAreIndependent(statements, id);
    EveryRunKeepsVersions(Database(statements)[id].org, Issued(statements, id));
  }
}
