/** One repair attempt: the reasoning graph, and the broker that runs the tool calls at which the graph
    pauses. Model replies and tool outcomes are arbitrary. */
module RepairGraph {
  import opened Json

  datatype ToolCall = ToolCall(tool: string, args: map<string, string>)

  datatype Edit = Edit(path: string, content: Option<string>)

  // ---- Model replies ----

  datatype GatherReply = Garbled | DoneReading | ToolRequest(call: ToolCall) | Other

  datatype Group = Group(rootCauseClass: string, scope: string, confidence: real)

  datatype CauseReply = Unreadable | Groups(groups: seq<Group>)

  datatype StrategyReply = NoStrategy | Strategy(name: string, confidence: Option<real>)

  datatype FixReply = NoFix | Edits(edits: seq<Edit>)

  /** The floating-point arithmetic of the graph, however it rounds: the mean of confidences, the
      lowering after a failed write, the confidence threshold and the floor at which writing gives up. */
  datatype Arithmetic = Arithmetic(average: seq<real> -> real, lower: real -> real, threshold: real, floor: real)

  /** The replies of one attempt, and the arithmetic it runs on; the gathering node is asked once per
      iteration. */
  datatype Replies = Replies(gather: nat -> GatherReply, cause: CauseReply, strategy: StrategyReply, fix: FixReply,
                             math: Arithmetic)

  // ---- State and nodes ----

  datatype Node =
    | GatherContext | CallToolGather | ReceiveContextResult
    | RootCauseAnalysis | SelectStrategy | GenerateFix
    | ApplyFix | CallToolFix | ReceiveFixResult
    | CompleteRepair | EscalateRepair | End

  datatype RepairState = RepairState(iteration: nat, pending: Option<ToolCall>, last: Option<bool>, confidence: real,
                                     cannotRepair: bool, complete: bool, plan: seq<Edit>, applied: nat,
                                     modified: seq<string>)

  const Initial := RepairState(0, None, None, 0.5, false, false, [], 0, [])

  const MAX_GATHER := 8
  const RECURSION_LIMIT := 100
  const MAX_TOOL_ROUNDS := 40

  function DropPrefix(path: string, prefix: string): string {
    if prefix <= path then (if path == prefix then "." else path[|prefix|..]) else path
  }

  /** A mount prefix the model put in front is removed, once. */
  function Relative(path: string): string {
    if "/workspace/" <= path then DropPrefix(path, "/workspace/") else DropPrefix(path, "/workspace")
  }

  function RelativeArgs(args: map<string, string>): map<string, string> {
    map k | k in args :: if k == "path" || k == "dir" then Relative(args[k]) else args[k]
  }

  function AfterGather(st: RepairState, reply: GatherReply): RepairState {
    if reply.Garbled? || reply.DoneReading? || st.iteration >= MAX_GATHER - 1 then st.(iteration := MAX_GATHER)
    else if reply.ToolRequest? then
      st.(iteration := st.iteration + 1, pending := Some(ToolCall(reply.call.tool, RelativeArgs(reply.call.args))))
    else st.(iteration := MAX_GATHER)
  }

  predicate Repairable(g: Group, threshold: real) {
    g.rootCauseClass == "code_error" && g.scope != "too_large" && g.confidence >= threshold
  }

  function Kept(groups: seq<Group>, threshold: real): seq<Group> {
    if groups == [] then []
    else (if Repairable(groups[0], threshold) then [groups[0]] else []) + Kept(groups[1..], threshold)
  }

  function Confidences(groups: seq<Group>): seq<real> {
    seq(|groups|, i requires 0 <= i < |groups| => groups[i].confidence)
  }

  function AfterRootCause(st: RepairState, reply: CauseReply, math: Arithmetic): RepairState {
    if reply.Unreadable? || reply.groups == [] then st.(confidence := 0.5)
    else
      var kept := Kept(reply.groups, math.threshold);
      if kept == [] then st.(confidence := 0.0, cannotRepair := true)
      else st.(confidence := math.average(Confidences(kept)))
  }

  function AfterStrategy(st: RepairState, reply: StrategyReply, math: Arithmetic): RepairState {
    if st.confidence < math.threshold || reply.NoStrategy? then st.(cannotRepair := true)
    else
      st.(confidence := if reply.confidence.Some? then reply.confidence.value else st.confidence,
          cannotRepair := reply.name == "cannot_repair")
  }

  function Valid(edits: seq<Edit>): (valid: seq<Edit>)
    ensures forall e :: e in valid ==> e.path != "" && e.content.Some?
  {
    if edits == [] then []
    else (if edits[0].path != "" && edits[0].content.Some? then [edits[0]] else []) + Valid(edits[1..])
  }

  function AfterGenerate(st: RepairState, reply: FixReply): RepairState {
    if reply.NoFix? || Valid(reply.edits) == [] then st.(plan := [], cannotRepair := true)
    else st.(plan := Valid(reply.edits), applied := 0)
  }

  /** The call that writes an edit. */
  function WriteOf(e: Edit): ToolCall {
    ToolCall("write_file", map["path" := e.path, "content" := if e.content.Some? then e.content.value else ""])
  }

  function AfterApply(st: RepairState): RepairState {
    if st.applied >= |st.plan| then st.(pending := None) else st.(pending := Some(WriteOf(st.plan[st.applied])))
  }

  function WithPath(modified: seq<string>, path: string): seq<string> {
    if path != "" && path !in modified then modified + [path] else modified
  }

  /** A failed write lowers the confidence, and below the floor gives up. */
  function AfterFixResult(st: RepairState, math: Arithmetic): RepairState {
    var path := if st.applied < |st.plan| then st.plan[st.applied].path else "";
    var next := st.(applied := st.applied + 1, pending := None, last := None);
    if st.last == Some(true) then next.(modified := WithPath(st.modified, path))
    else
      var confidence := math.lower(st.confidence);
      next.(confidence := confidence, cannotRepair := st.cannotRepair || confidence < math.floor)
  }

  function Execute(node: Node, st: RepairState, replies: Replies): RepairState {
    match node
    case GatherContext => AfterGather(st, replies.gather(st.iteration))
    case ReceiveContextResult => st.(pending := None, last := None)
    case RootCauseAnalysis => AfterRootCause(st, replies.cause, replies.math)
    case SelectStrategy => AfterStrategy(st, replies.strategy, replies.math)
    case GenerateFix => AfterGenerate(st, replies.fix)
    case ApplyFix => AfterApply(st)
    case ReceiveFixResult => AfterFixResult(st, replies.math)
    case CompleteRepair => st.(complete := true)
    case EscalateRepair => st.(complete := true)
    case _ => st
  }

  // ---- Routes ----

  function RouteGatherLoop(st: RepairState): Node {
    if st.pending.Some? then CallToolGather
    else if st.iteration < MAX_GATHER then GatherContext
    else RootCauseAnalysis
  }

  function RouteAfterRootCause(st: RepairState, threshold: real): Node {
    if st.cannotRepair || st.confidence < threshold then EscalateRepair else SelectStrategy
  }

  function RouteAfterStrategy(st: RepairState): Node {
    if st.cannotRepair then EscalateRepair else GenerateFix
  }

  function RouteAfterGenerate(st: RepairState): Node {
    if st.cannotRepair || st.plan == [] then EscalateRepair else ApplyFix
  }

  function RouteApplyLoop(st: RepairState): Node {
    if st.cannotRepair then EscalateRepair
    else if st.pending.Some? then CallToolFix
    else if st.applied < |st.plan| then ApplyFix
    else CompleteRepair
  }

  function Route(node: Node, st: RepairState, threshold: real): Node {
    match node
    case GatherContext => RouteGatherLoop(st)
    case CallToolGather => ReceiveContextResult
    case ReceiveContextResult => RouteGatherLoop(st)
    case RootCauseAnalysis => RouteAfterRootCause(st, threshold)
    case SelectStrategy => RouteAfterStrategy(st)
    case GenerateFix => RouteAfterGenerate(st)
    case ApplyFix => RouteApplyLoop(st)
    case CallToolFix => ReceiveFixResult
    case ReceiveFixResult => RouteApplyLoop(st)
    case _ => End
  }

  /** The edges the graph declares: the apply loop has none to escalation. */
  function Declared(node: Node): set<Node> {
    match node
    case GatherContext => {CallToolGather, GatherContext, RootCauseAnalysis}
    case CallToolGather => {ReceiveContextResult}
    case ReceiveContextResult => {CallToolGather, GatherContext, RootCauseAnalysis}
    case RootCauseAnalysis => {EscalateRepair, SelectStrategy}
    case SelectStrategy => {EscalateRepair, GenerateFix}
    case GenerateFix => {EscalateRepair, ApplyFix}
    case ApplyFix => {CallToolFix, ApplyFix, CompleteRepair}
    case CallToolFix => {ReceiveFixResult}
    case ReceiveFixResult => {CallToolFix, ApplyFix, CompleteRepair}
    case _ => {End}
  }

  // ---- Broker ----

  datatype Stop =
    | Interrupted(node: Node, st: RepairState)
    | Ended(st: RepairState)
    | UndeclaredRoute(node: Node, target: Node)
    | TooDeep

  predicate Intercepted(node: Node) {
    node == CallToolGather || node == CallToolFix
  }

  /** One streaming run of the graph, from a node to the next pause, the end, or an exception. */
  function Stream(node: Node, st: RepairState, replies: Replies, limit: nat): Stop
    decreases limit, replies
  {
    if limit == 0 then TooDeep else
      var after := Execute(node, st, replies);
      var next := Route(node, after, replies.math.threshold);
      if next !in Declared(node) then UndeclaredRoute(node, next)
      else if next == End then Ended(after)
      else if Intercepted(next) then Interrupted(next, after)
      else Stream(next, after, replies, limit - 1)
  }

  datatype Outcome =
    | RepairComplete(confidence: real, modified: seq<string>)
    | CannotRepair
    | Exhausted
    | Crashed(node: Node, target: Node)

  /** Where the graph resumes, with what state, the calls made so far, and how it ended if it has. */
  datatype Broker = Broker(node: Node, st: RepairState, calls: seq<ToolCall>, outcome: Option<Outcome>)

  const Begun := Broker(GatherContext, Initial, [], None)

  function Final(st: RepairState): Outcome {
    if st.cannotRepair then CannotRepair
    else if st.complete then RepairComplete(st.confidence, st.modified)
    else Exhausted
  }

  /** One round: stream, and if the graph paused make the call it asks for; `results` says how the
      n-th call goes. */
  function Round(b: Broker, replies: Replies, results: nat -> bool): Broker {
    if b.outcome.Some? then b else
      match Stream(b.node, b.st, replies, RECURSION_LIMIT)
      case Ended(st) => b.(st := st, outcome := Some(Final(st)))
      case UndeclaredRoute(node, target) => b.(outcome := Some(Crashed(node, target)))
      case TooDeep => b.(outcome := Some(Exhausted))
      case Interrupted(node, st) =>
        if st.cannotRepair || st.complete || st.pending.None? then b.(st := st, outcome := Some(Final(st)))
        else
          Broker(Route(node, st, replies.math.threshold), st.(pending := None, last := Some(results(|b.calls|))),
                 b.calls + [st.pending.value], None)
  }

  function RoundOf(replies: Replies, results: nat -> bool): Broker -> Broker {
    b => Round(b, replies, results)
  }

  function Rounds(step: Broker -> Broker, n: nat): Broker
    decreases n, step
  {
    if n == 0 then Begun else step(Rounds(step, n - 1))
  }

  /** What is reported once the rounds are over. */
  function Reported(b: Broker): Broker {
    if b.outcome.Some? then b else b.(outcome := Some(Final(b.st)))
  }

  function Attempt(replies: Replies, results: nat -> bool): Broker {
    Reported(Rounds(RoundOf(replies, results), MAX_TOOL_ROUNDS + 1))
  }

  method RunWithToolBroker(replies: Replies, results: nat -> bool) returns (outcome: Outcome, calls: seq<ToolCall>)
    ensures Attempt(replies, results).outcome == Some(outcome) && Attempt(replies, results).calls == calls
  {
    var b := Begun;
    ghost var step := RoundOf(replies, results);
    var round := 0;
    while round < MAX_TOOL_ROUNDS + 1
      invariant round <= MAX_TOOL_ROUNDS + 1
      invariant Rounds(step, round) == b && b.outcome.None?
    {
      b := RunRound(b, replies, results);
      round := round + 1;
      if b.outcome.Some? {
        FinishedStays(step, round, MAX_TOOL_ROUNDS + 1);
        return b.outcome.value, b.calls;
      }
    }
    outcome, calls := Final(b.st), b.calls;
  }

  method RunRound(b: Broker, replies: Replies, results: nat -> bool) returns (next: Broker)
    requires b.outcome.None?
    ensures next == Round(b, replies, results)
  {
    var stop := RunStream(b.node, b.st, replies);
    if stop.UndeclaredRoute? {
      return b.(outcome := Some(Crashed(stop.node, stop.target)));
    } else if stop.TooDeep? {
      return b.(outcome := Some(Exhausted));
    } else if stop.Ended? || stop.st.cannotRepair || stop.st.complete || stop.st.pending.None? {
      return b.(st := stop.st, outcome := Some(Final(stop.st)));
    }
    var success := results(|b.calls|);
    next := Broker(Route(stop.node, stop.st, replies.math.threshold), stop.st.(pending := None, last := Some(success)),
                   b.calls + [stop.st.pending.value], None);
  }

  method RunStream(start: Node, from: RepairState, replies: Replies) returns (stop: Stop)
    ensures stop == Stream(start, from, replies, RECURSION_LIMIT)
  {
    var node, st := start, from;
    for i := 0 to RECURSION_LIMIT
      invariant Stream(start, from, replies, RECURSION_LIMIT) == Stream(node, st, replies, RECURSION_LIMIT - i)
    {
      st := Execute(node, st, replies);
      var next := Route(node, st, replies.math.threshold);
      if next !in Declared(node) {
        return UndeclaredRoute(node, next);
      } else if next == End {
        return Ended(st);
      } else if Intercepted(next) {
        return Interrupted(next, st);
      }
      node := next;
    }
    stop := TooDeep;
  }

  /** A broker that does nothing once there is an outcome. */
  ghost predicate Idles(step: Broker -> Broker) {
    forall b {:trigger IdlesAt(step, b)} :: IdlesAt(step, b)
  }

  ghost predicate IdlesAt(step: Broker -> Broker, b: Broker) {
    b.outcome.Some? ==> step(b) == b
  }

  lemma {:induction false} FinishedStays(step: Broker -> Broker, n: nat, m: nat)
    requires Idles(step) && n <= m && Rounds(step, n).outcome.Some?
    ensures Rounds(step, m) == Rounds(step, n)
    decreases m
  {
    if n < m {
      FinishedStays(step, n, m - 1);
      assert IdlesAt(step, Rounds(step, n));
    }
  }
}
