/** The single-step execution graph of the agent: its nodes, its routes, and the write cache kept by
    the tool node. */
module StepAgent {
  import opened Json
  import opened Workspaces

  // ---- Tool calls ----

  type Args = map<string, string>

  datatype Call = Call(tool: string, args: Args)

  function ArgOr(args: Args, key: string, default: string): string {
    if key in args then args[key] else default
  }

  function Arg(args: Args, key: string): string {
    ArgOr(args, key, "")
  }

  /** What comes back from the backend; `content` is set for a successful read. */
  datatype ToolResult = ToolResult(success: bool, error: string, content: Option<string>)

  const DONE := ToolResult(true, "", None)

  function Refusal(error: string): ToolResult {
    ToolResult(false, error, None)
  }

  predicate FileTool(tool: string) {
    tool in {"read_file", "write_file", "create_file", "delete_file"}
  }

  predicate QueryTool(tool: string) {
    tool in {"list_dir", "search_symbol", "exists", "stat"}
  }

  /** The backend executing a call on the workspace. The empty path names the workspace directory,
      which is not a file. */
  function Performed(files: Files, call: Call): (ToolResult, Files) {
    var path := Arg(call.args, "path");
    if FileTool(call.tool) && path == "" then (Refusal("not a file"), files)
    else if call.tool == "read_file" then
      (if path in files then DONE.(content := Some(files[path])) else Refusal("file not found"), files)
    else if call.tool == "write_file" || call.tool == "create_file" then
      (DONE, files[path := Arg(call.args, "content")])
    else if call.tool == "delete_file" then (DONE, files - {path})
    else if call.tool == "rename_file" then
      var source, target := Arg(call.args, "old_path"), Arg(call.args, "new_path");
      if source in files && source != "" && target != "" && source != target
      then (DONE, (files - {source})[target := files[source]])
      else (Refusal("rename failed"), files)
    else if QueryTool(call.tool) then (DONE, files)
    else (Refusal("unknown tool"), files)
  }

  /** How a call fares on its way. `Failed` stands for every failure that has nothing to do with file
      contents: transport, timeout, policy, missing directories. The agent gets the text of the error,
      which is empty for some exceptions, and the call may have taken effect all the same. */
  datatype Delivery = Answered | Failed(error: string, landed: bool)

  function Dispatch(files: Files, call: Call, d: Delivery): (ToolResult, Files) {
    match d
    case Answered => Performed(files, call)
    case Failed(error, landed) => (Refusal(error), if landed then Performed(files, call).1 else files)
  }

  method Execute(ws: Workspace, call: Call, d: Delivery) returns (result: ToolResult)
    modifies ws
    ensures (result, ws.files) == Dispatch(old(ws.files), call, d)
  {
    if d.Failed? && !d.landed {
      return Refusal(d.error);
    }
    result := PerformCall(ws, call);
    if d.Failed? {
      result := Refusal(d.error);
    }
  }

  method PerformCall(ws: Workspace, call: Call) returns (result: ToolResult)
    modifies ws
    ensures (result, ws.files) == Performed(old(ws.files), call)
    ensures var path, content, files := Arg(call.args, "path"), Arg(call.args, "content"), old(ws.files);
            match call.tool
            case "read_file" =>
              && ws.files == files
              && (path != "" && path in files ==> result == ToolResult(true, "", Some(files[path])))
              && (path == "" || path !in files ==> !result.success)
            case "write_file" => result.success == (path != "") && (path != "" ==> ws.files == files[path := content])
            case "create_file" => result.success == (path != "") && (path != "" ==> ws.files == files[path := content])
            case "delete_file" => result.success == (path != "") && (path != "" ==> ws.files == files - {path})
            case "rename_file" =>
              var source, target := Arg(call.args, "old_path"), Arg(call.args, "new_path");
              && result.success == (source != "" && target != "" && source != target && source in files)
              && (result.success ==> ws.files == (files - {source})[target := files[source]])
            case _ =>
              && ws.files == files
              && result.success == (call.tool in {"list_dir", "search_symbol", "exists", "stat"})
    ensures !result.success ==> ws.files == old(ws.files) && result.error != ""
  {
    var path := Arg(call.args, "path");
    if FileTool(call.tool) && path == "" {
      return Refusal("not a file");
    }
    result := DONE;
    if call.tool == "read_file" {
      var content := ws.ReadFile(path);
      result := if content.Some? then DONE.(content := content) else Refusal("file not found");
    } else if call.tool == "write_file" || call.tool == "create_file" {
      ws.WriteFile(path, Arg(call.args, "content"));
    } else if call.tool == "delete_file" {
      ws.DeleteFile(path);
    } else if call.tool == "rename_file" {
      var source, target := Arg(call.args, "old_path"), Arg(call.args, "new_path");
      var content := ws.ReadFile(source);
      if content.Some? && source != "" && target != "" && source != target {
        ws.DeleteFile(source);
        ws.WriteFile(target, content.value);
      } else {
        result := Refusal("rename failed");
      }
    } else if !QueryTool(call.tool) {
      result := Refusal("unknown tool");
    }
  }

  // ---- Graph ----

  datatype Node =
    | GatherContext | Reason | CallTool | ReceiveResult
    | PlanDeviation | RequiresHuman | ExecutionError | CheckDeviation | AlreadySatisfied | CompleteStep
    | End

  /** The declared edges. */
  function Declared(node: Node): set<Node> {
    match node
    case GatherContext => {Reason}
    case Reason => {CallTool, AlreadySatisfied, PlanDeviation, RequiresHuman, ExecutionError, CheckDeviation,
                    CompleteStep}
    case CallTool => {ReceiveResult}
    case ReceiveResult => {Reason, CompleteStep, AlreadySatisfied}
    case _ => {End}
  }

  const MAX_ITERATIONS := 12
  const MAX_JSON_RETRIES := 2
  const WINDOW := 4
  const RECURSION_LIMIT := 30

  /** A parsed model reply: the action named, and the call if it is a tool action. */
  datatype Action = Action(name: string, call: Call)

  /** The write cache: contents and content hashes of the files this step wrote. */
  datatype Memory = Memory(cache: map<string, string>, hashes: map<string, string>)

  datatype StepState = StepState(node: Node, iteration: nat, history: seq<Call>, pending: Option<Action>,
                                 latest: Option<ToolResult>, memory: Memory, noProgress: nat, converged: bool)

  const InitialStep := StepState(GatherContext, 0, [], None, None, Memory(map[], map[]), 0, false)

  // ---- Node: reason ----

  /** The last `WINDOW` requests are identical. */
  predicate Repeating(history: seq<Call>) {
    |history| >= WINDOW &&
    var tail := history[|history| - WINDOW..];
    forall k :: 0 <= k < WINDOW ==> tail[k] == tail[0]
  }

  const GiveUp := Action("execution_error", Call("", map[]))

  /** The first parsable reply within the retry budget; `None` is a reply that is not a JSON object. */
  function FirstParsed(replies: nat -> Option<Action>, attempt: nat): Action
    decreases MAX_JSON_RETRIES + 1 - attempt
  {
    if attempt > MAX_JSON_RETRIES then GiveUp
    else if replies(attempt).Some? then replies(attempt).value
    else FirstParsed(replies, attempt + 1)
  }

  predicate Aborts(st: StepState) {
    st.noProgress >= 2 || Repeating(st.history) || st.iteration >= MAX_ITERATIONS
  }

  function RouteAfterReason(action: string): Node {
    if action == "tool" then CallTool
    else if action == "already_satisfied" then AlreadySatisfied
    else if action == "plan_deviation" then PlanDeviation
    else if action == "requires_human" then RequiresHuman
    else if action == "execution_error" then ExecutionError
    else if action == "deviation" then PlanDeviation
    else CompleteStep
  }

  /** Which node an action leads to; anything unknown completes the step. */
  lemma RouteMeaning(action: string)
    ensures var node := RouteAfterReason(action);
            && (node == CallTool <==> action == "tool")
            && (node == AlreadySatisfied <==> action == "already_satisfied")
            && (node == PlanDeviation <==> action in {"plan_deviation", "deviation"})
            && (node == RequiresHuman <==> action == "requires_human")
            && (node == ExecutionError <==> action == "execution_error")
            && (node == CompleteStep <==>
                action !in {"tool", "already_satisfied", "plan_deviation", "deviation", "requires_human",
                            "execution_error"})
  {
  }

  /** The first of three replies that can be parsed decides; if none can, the step ends in an error. */
  lemma FirstParsedMeaning(replies: nat -> Option<Action>)
    ensures replies(0).Some? ==> FirstParsed(replies, 0) == replies(0).value
    ensures replies(0).None? && replies(1).Some? ==> FirstParsed(replies, 0) == replies(1).value
    ensures replies(0).None? && replies(1).None? && replies(2).Some? ==> FirstParsed(replies, 0) == replies(2).value
    ensures replies(0).None? && replies(1).None? && replies(2).None? ==>
              RouteAfterReason(FirstParsed(replies, 0).name) == ExecutionError
  {
    assert FirstParsed(replies, 0) == if replies(0).Some? then replies(0).value else FirstParsed(replies, 1);
    assert FirstParsed(replies, 1) == if replies(1).Some? then replies(1).value else FirstParsed(replies, 2);
    assert FirstParsed(replies, 2) == if replies(2).Some? then replies(2).value else FirstParsed(replies, 3);
  }

  function AfterReason(st: StepState, replies: nat -> Option<Action>): StepState {
    var action := if Aborts(st) then GiveUp else FirstParsed(replies, 0);
    st.(node := RouteAfterReason(action.name), iteration := st.iteration + 1, pending := Some(action))
  }

  method NodeReason(st: StepState, replies: nat -> Option<Action>) returns (next: StepState)
    ensures next == AfterReason(st, replies)
    ensures next.iteration == st.iteration + 1 && next.pending.Some?
    ensures next.history == st.history && next.latest == st.latest && next.memory == st.memory
    ensures st.noProgress >= 2 || st.iteration >= 12 || Repeating(st.history) ==> next.node == ExecutionError
    ensures st.noProgress < 2 && st.iteration < 12 && !Repeating(st.history) ==>
              next.pending == Some(FirstParsed(replies, 0))
                  && next.node == RouteAfterReason(FirstParsed(replies, 0).name)
  {
    var repoStalled := st.noProgress >= 2;
    var repeated := Repeating(st.history);
    var action := GiveUp;
    if !(repoStalled || repeated || st.iteration >= MAX_ITERATIONS) {
      var attempt := 0;
      while attempt <= MAX_JSON_RETRIES
        invariant attempt <= MAX_JSON_RETRIES + 1
        invariant FirstParsed(replies, attempt) == FirstParsed(replies, 0)
        invariant action == GiveUp
      {
        var parsed := replies(attempt);
        if parsed.Some? {
          action := parsed.value;
          break;
        }
        attempt := attempt + 1;
      }
    }
    next := st.(node := RouteAfterReason(action.name), iteration := st.iteration + 1, pending := Some(action));
  }

  // ---- Node: call_tool ----

  predicate Writes(tool: string) {
    tool == "write_file" || tool == "create_file"
  }

  predicate ServedFromCache(m: Memory, call: Call) {
    call.tool == "read_file" && Arg(call.args, "path") in m.cache
  }

  /** Writing what was last written is skipped. */
  predicate SkippedWrite(m: Memory, call: Call, hash: string -> string) {
    Writes(call.tool) && Arg(call.args, "path") in m.hashes
    && m.hashes[Arg(call.args, "path")] == hash(Arg(call.args, "content"))
  }

  predicate SentToBackend(m: Memory, call: Call, hash: string -> string) {
    !ServedFromCache(m, call) && !SkippedWrite(m, call, hash)
  }

  /** The cache after a call that went to the backend. A rename forgets `path` if that argument is
      given, and `old_path` only otherwise. */
  function Remembered(m: Memory, call: Call, success: bool, hash: string -> string): Memory {
    var path := Arg(call.args, "path");
    if !success then m
    else if Writes(call.tool) then
      var content := Arg(call.args, "content");
      Memory(m.cache[path := content], m.hashes[path := hash(content)])
    else if call.tool == "delete_file" || call.tool == "rename_file" then
      var gone := {ArgOr(call.args, "path", Arg(call.args, "old_path"))} +
                  if Arg(call.args, "new_path") != "" then {Arg(call.args, "new_path")} else {};
      Memory(m.cache - gone, m.hashes - gone)
    else m
  }

  function CachedResult(m: Memory, call: Call): ToolResult {
    if ServedFromCache(m, call) then DONE.(content := Some(m.cache[Arg(call.args, "path")])) else DONE
  }

  /** A changed hash resets the counter of fruitless writes. */
  function Progress(st: StepState, call: Call, success: bool, hash: string -> string): nat {
    if success && Writes(call.tool) then
      var path := Arg(call.args, "path");
      if path in st.memory.hashes && st.memory.hashes[path] == hash(Arg(call.args, "content"))
      then st.noProgress + 1 else 0
    else st.noProgress
  }

  function AfterCallTool(st: StepState, call: Call, hash: string -> string, result: ToolResult): StepState {
    var m := st.memory;
    var next := st.(node := ReceiveResult, history := st.history + [call], pending := None);
    if ServedFromCache(m, call) then next.(latest := Some(CachedResult(m, call)))
    else if SkippedWrite(m, call, hash) then
      next.(latest := Some(CachedResult(m, call)), noProgress := st.noProgress + 1, converged := true)
    else
      next.(latest := Some(result), memory := Remembered(m, call, result.success, hash),
            noProgress := Progress(st, call, result.success, hash))
  }

  /** Writing again what was last written counts as no progress and is taken for convergence; a successful
      write of something else starts the count anew. */
  lemma ToolNodeProgress(st: StepState, call: Call, hash: string -> string, result: ToolResult)
    ensures var path, content := Arg(call.args, "path"), Arg(call.args, "content");
            var write := call.tool in {"write_file", "create_file"};
            var again := write && path in st.memory.hashes && st.memory.hashes[path] == hash(content);
            var next := AfterCallTool(st, call, hash, result);
            && next.node == ReceiveResult && next.history == st.history + [call] && next.latest.Some?
            && next.noProgress == (if again then st.noProgress + 1 else if write && result.success then 0
                                   else st.noProgress)
            && next.converged == (st.converged || again)
  {
  }

  /** The call the tool node makes; without a pending action it is an empty one. */
  function PendingCall(st: StepState): Call {
    if st.pending.Some? then st.pending.value.call else Call("", map[])
  }

  method NodeCallTool(st: StepState, ws: Workspace, hash: string -> string, d: Delivery) returns (next: StepState)
    modifies ws
    ensures var call := PendingCall(st);
            var sent := SentToBackend(st.memory, call, hash);
            var (result, files) := Dispatch(old(ws.files), call, d);
            && next == AfterCallTool(st, call, hash, result)
            && ws.files == if sent then files else old(ws.files)
  {
    var call := PendingCall(st);
    var fileHashes, fileCache := st.memory.hashes, st.memory.cache;
    var path := Arg(call.args, "path");
    next := st.(node := ReceiveResult, history := st.history + [call], pending := None);
    if call.tool == "read_file" && path in fileCache {
      next := next.(latest := Some(DONE.(content := Some(fileCache[path]))));
      return;
    }
    if Writes(call.tool) {
      var newHash := hash(Arg(call.args, "content"));
      if path in fileHashes && fileHashes[path] == newHash {
        next := next.(latest := Some(DONE), noProgress := st.noProgress + 1, converged := true);
        return;
      }
    }
    var result := Execute(ws, call, d);
    next := next.(latest := Some(result));
    if result.success {
      var memory, noProgress := Remember(st.memory, st.noProgress, call, hash);
      next := next.(memory := memory, noProgress := noProgress);
    }
  }

  /** What a successful call does to the cache and to the count of fruitless writes. */
  method Remember(m: Memory, before: nat, call: Call, hash: string -> string) returns (memory: Memory, noProgress: nat)
    ensures memory == Remembered(m, call, true, hash)
    ensures noProgress == Progress(InitialStep.(memory := m, noProgress := before), call, true, hash)
  {
    var fileHashes, fileCache, path := m.hashes, m.cache, Arg(call.args, "path");
    noProgress := before;
    if Writes(call.tool) {
      var content := Arg(call.args, "content");
      var newHash := hash(content);
      noProgress := if path in fileHashes && fileHashes[path] == newHash then noProgress + 1 else 0;
      fileHashes := fileHashes[path := newHash];
      fileCache := fileCache[path := content];
    } else if call.tool == "delete_file" || call.tool == "rename_file" {
      var gone, newPath := ArgOr(call.args, "path", Arg(call.args, "old_path")), Arg(call.args, "new_path");
      fileCache := fileCache - {gone};
      fileHashes := fileHashes - {gone};
      if newPath != "" {
        fileCache := fileCache - {newPath};
        fileHashes := fileHashes - {newPath};
      }
    }
    memory := Memory(fileCache, fileHashes);
  }

  // ---- Node: receive_result, terminal nodes ----

  function RouteAfterResult(st: StepState): Node {
    if st.converged then AlreadySatisfied
    else if st.latest.Some? && !st.latest.value.success && st.latest.value.error != "" then CompleteStep
    else Reason
  }

  /** After a tool call the step is satisfied if its writes have converged, complete if the call failed with a
      message, and otherwise reasons on. */
  lemma RouteAfterResultMeaning(st: StepState)
    ensures RouteAfterResult(st) == AlreadySatisfied <==> st.converged
    ensures RouteAfterResult(st) == CompleteStep <==>
            !st.converged && st.latest.Some? && !st.latest.value.success && st.latest.value.error != ""
    ensures RouteAfterResult(st) in {AlreadySatisfied, CompleteStep, Reason}
  {
  }

  /** What a node is given from outside: model replies for `reason`, a tool result for `call_tool`. */
  datatype Input = Input(replies: nat -> Option<Action>, result: ToolResult)

  function Next(st: StepState, input: Input, hash: string -> string): StepState {
    match st.node
    case GatherContext => st.(node := Reason)
    case Reason => AfterReason(st, input.replies)
    case CallTool => AfterCallTool(st, PendingCall(st), hash, input.result)
    case ReceiveResult => st.(node := RouteAfterResult(st))
    case _ => st.(node := End, pending := None)
  }

  /** The state after `n` node executions. */
  function StateAt(inputs: nat -> Input, hash: string -> string, n: nat): StepState {
    if n == 0 then InitialStep else Next(StateAt(inputs, hash, n - 1), inputs(n - 1), hash)
  }

  // ---- Every run ends ----

  /** At node execution `n` the loop position and the iteration counter determine each other. */
  predicate OnSchedule(st: StepState, n: nat) {
    match st.node
    case GatherContext => n == 0 && st.iteration == 0
    case Reason => n == 3 * st.iteration + 1 && st.iteration <= MAX_ITERATIONS
    case CallTool => n + 1 == 3 * st.iteration && st.iteration <= MAX_ITERATIONS
    case ReceiveResult => n == 3 * st.iteration && st.iteration <= MAX_ITERATIONS
    case End => true
    case _ => n <= 3 * MAX_ITERATIONS + 2
  }

  ghost predicate AlikeAt(history: seq<Call>, k: nat)
    requires k + 5 <= |history|
  {
    history[k] == history[k + 1] == history[k + 2] == history[k + 3] == history[k + 4]
  }

  ghost predicate FiveAlike(history: seq<Call>) {
    exists k :: 0 <= k <= |history| - 5 && AlikeAt(history, k)
  }

  ghost predicate RunInvariant(st: StepState, n: nat) {
    && OnSchedule(st, n)
    && !FiveAlike(st.history)
    && (st.node == CallTool ==> !Repeating(st.history))
    && (st.noProgress > 0 ==> st.converged)
    && (st.node in {GatherContext, Reason, CallTool} ==> !st.converged)
  }

  lemma AppendKeepsFewAlike(history: seq<Call>, call: Call)
    requires !FiveAlike(history) && !Repeating(history)
    ensures !FiveAlike(history + [call])
  {
    var longer := history + [call];
    forall k | 0 <= k <= |longer| - 5 ensures !AlikeAt(longer, k) {
      if k < |longer| - 5 {
        assert !AlikeAt(history, k);
      } else {
        var tail := history[|history| - WINDOW..];
        assert forall i :: 0 <= i < WINDOW ==> tail[i] == longer[k + i];
        var i :| 0 <= i < WINDOW && tail[i] != tail[0];
        assert longer[k + i] != longer[k];
      }
    }
  }

  lemma StepKeepsInvariant(st: StepState, n: nat, input: Input, hash: string -> string)
    requires RunInvariant(st, n)
    ensures RunInvariant(Next(st, input, hash), n + 1)
    ensures st.node != End ==> Next(st, input, hash).node in Declared(st.node)
  {
    if st.node == CallTool {
      AppendKeepsFewAlike(st.history, PendingCall(st));
    }
  }

  lemma {:induction false} EveryRunKeepsInvariant(inputs: nat -> Input, hash: string -> string, n: nat)
    ensures RunInvariant(StateAt(inputs, hash, n), n)
  {
    if n > 0 {
      EveryRunKeepsInvariant(inputs, hash, n - 1);
      StepKeepsInvariant(StateAt(inputs, hash, n - 1), n - 1, inputs(n - 1), hash);
    }
  }

  /** Whatever the model replies and the tools answer, the graph has ended after 39 node executions. */
  lemma EveryRunEnds(inputs: nat -> Input, hash: string -> string)
    ensures StateAt(inputs, hash, 39).node == End
  {
    EveryRunKeepsInvariant(inputs, hash, 38);
    EveryRunKeepsInvariant(inputs, hash, 39);
  }

  /** No run records the same request five times in a row. */
  lemma NeverFiveAlike(inputs: nat -> Input, hash: string -> string, n: nat)
    ensures !FiveAlike(StateAt(inputs, hash, n).history)
  {
    EveryRunKeepsInvariant(inputs, hash, n);
  }

  /** Whenever the reasoning node is entered its counter of fruitless writes is zero: the stalled
      branch is dead, and within the recursion limit so is the iteration limit. The only way to be
      aborted there is by repeating oneself. */
  lemma ReasonAbortsOnlyOnRepetition(inputs: nat -> Input, hash: string -> string, n: nat)
    requires StateAt(inputs, hash, n).node == Reason
    ensures StateAt(inputs, hash, n).noProgress == 0
    ensures n < RECURSION_LIMIT ==>
              (Aborts(StateAt(inputs, hash, n)) <==> Repeating(StateAt(inputs, hash, n).history))
  {
    EveryRunKeepsInvariant(inputs, hash, n);
  }

  /** Every route taken is a declared edge. */
  lemma {:induction false} RoutesAreDeclared(inputs: nat -> Input, hash: string -> string, n: nat)
    requires StateAt(inputs, hash, n).node != End
    ensures StateAt(inputs, hash, n + 1).node in Declared(StateAt(inputs, hash, n).node)
  {
    EveryRunKeepsInvariant(inputs, hash, n);
    StepKeepsInvariant(StateAt(inputs, hash, n), n, inputs(n), hash);
  }

  // ---- The bound is attained ----

  function BusyCall(n: nat): Call {
    Call("list_dir", map["path" := seq(n, i => 'a')])
  }

  /** A model that lists another directory every time. */
  function BusyInputs(): nat -> Input {
    (n: nat) => Input(attempt => Some(Action("tool", BusyCall(n))), DONE)
  }

  ghost predicate BusyState(st: StepState, i: nat) {
    && st.node == Reason && st.iteration == i && st.noProgress == 0 && !st.converged
    && st.memory == InitialStep.memory
    && |st.history| == i && forall k :: 0 <= k < i ==> st.history[k] == BusyCall(3 * k + 1)
  }

  lemma BusyCallsDiffer(history: seq<Call>)
    requires forall k :: 0 <= k < |history| ==> history[k] == BusyCall(3 * k + 1)
    ensures !Repeating(history)
  {
    if |history| >= WINDOW {
      var tail := history[|history| - WINDOW..];
      assert |tail[0].args["path"]| != |tail[1].args["path"]|;
    }
  }

  lemma BusyReason(st: StepState, i: nat)
    requires BusyState(st, i) && i < MAX_ITERATIONS
    ensures AfterReason(st, BusyInputs()(3 * i + 1).replies) ==
            st.(node := CallTool, iteration := i + 1, pending := Some(Action("tool", BusyCall(3 * i + 1))))
  {
    BusyCallsDiffer(st.history);
    var replies := BusyInputs()(3 * i + 1).replies;
    assert replies(0) == Some(Action("tool", BusyCall(3 * i + 1)));
    assert FirstParsed(replies, 0) == replies(0).value;
  }

  lemma BusyTool(st: StepState, i: nat, hash: string -> string)
    requires BusyState(st.(node := Reason, iteration := i, pending := None), i)
    ensures AfterCallTool(st, BusyCall(3 * i + 1), hash, DONE) ==
            st.(node := ReceiveResult, history := st.history + [BusyCall(3 * i + 1)], pending := None,
                latest := Some(DONE))
  {
  }

  lemma {:induction false} BusyRun(hash: string -> string, i: nat)
    requires i <= MAX_ITERATIONS
    ensures BusyState(StateAt(BusyInputs(), hash, 3 * i + 1), i)
  {
    var inputs := BusyInputs();
    if i == 0 {
      assert StateAt(inputs, hash, 0) == InitialStep;
    } else {
      BusyRun(hash, i - 1);
      BusyLap(hash, i - 1);
    }
  }

  lemma OneMore(inputs: nat -> Input, hash: string -> string, n: nat)
    ensures StateAt(inputs, hash, n + 1) == Next(StateAt(inputs, hash, n), inputs(n), hash)
  {
  }

  lemma BusyLapFrom(st: StepState, calling: StepState, called: StepState, i: nat, hash: string -> string)
    requires BusyState(st, i) && i < MAX_ITERATIONS
    requires calling == Next(st, BusyInputs()(3 * i + 1), hash)
    requires called == Next(calling, BusyInputs()(3 * i + 2), hash)
    ensures BusyState(Next(called, BusyInputs()(3 * i + 3), hash), i + 1)
  {
    BusyReason(st, i);
    BusyTool(calling, i, hash);
  }

  lemma BusyLap(hash: string -> string, i: nat)
    requires i < MAX_ITERATIONS && BusyState(StateAt(BusyInputs(), hash, 3 * i + 1), i)
    ensures BusyState(StateAt(BusyInputs(), hash, 3 * i + 4), i + 1)
  {
    var inputs, n := BusyInputs(), 3 * i + 1;
    OneMore(inputs, hash, n);
    OneMore(inputs, hash, n + 1);
    OneMore(inputs, hash, n + 2);
    BusyLapFrom(StateAt(inputs, hash, n), StateAt(inputs, hash, n + 1), StateAt(inputs, hash, n + 2), i, hash);
  }

  lemma BusyEnd(hash: string -> string, n: nat)
    requires n == 3 * MAX_ITERATIONS + 1 && BusyState(StateAt(BusyInputs(), hash, n), MAX_ITERATIONS)
    ensures StateAt(BusyInputs(), hash, n + 1).node == ExecutionError
  {
    OneMore(BusyInputs(), hash, n);
  }

  lemma BusyRunGoesOn(hash: string -> string, i: nat)
    requires i <= MAX_ITERATIONS
    ensures StateAt(BusyInputs(), hash, 3 * i).node != End
  {
    BusyRun(hash, i);
    OneMore(BusyInputs(), hash, 3 * i);
  }

  /** The graph is run with a limit of 30 node executions: this run has not ended by then and is cut
      off. */
  lemma RecursionLimitCutsRuns(hash: string -> string, n: nat)
    requires n == RECURSION_LIMIT
    ensures StateAt(BusyInputs(), hash, n).node != End
  {
    BusyRunGoesOn(hash, n / 3);
    assert 3 * (n / 3) == n;
  }

  /** Without that limit 39 cannot be improved: this run executes its 39th node. */
  lemma SomeRunTakesAllNodes(hash: string -> string)
    ensures StateAt(BusyInputs(), hash, 38).node != End && StateAt(BusyInputs(), hash, 39).node == End
  {
    BusyRun(hash, MAX_ITERATIONS);
    BusyEnd(hash, 3 * MAX_ITERATIONS + 1);
    EveryRunEnds(BusyInputs(), hash);
  }
}
