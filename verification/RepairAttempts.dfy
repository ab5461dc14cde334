/** What every repair attempt comes to: its calls and its outcome in closed form. */
module RepairAttempts {
  import opened Json
  import opened RepairGraph

  // ---- Gathering ----

  /** Gathering goes on while the model asks for tools, seven times at most. */
  function GatherCount(replies: Replies, k: nat): (g: nat)
    requires k < MAX_GATHER
    ensures k <= g < MAX_GATHER
    ensures forall i :: k <= i < g ==> replies.gather(i).ToolRequest?
    ensures g < MAX_GATHER - 1 ==> !replies.gather(g).ToolRequest?
    decreases MAX_GATHER - k, replies
  {
    if k < MAX_GATHER - 1 && replies.gather(k).ToolRequest? then GatherCount(replies, k + 1) else k
  }

  function Gathers(replies: Replies): (g: nat)
    ensures g < MAX_GATHER
  {
    GatherCount(replies, 0)
  }

  function GatherCall(reply: GatherReply): ToolCall {
    if reply.ToolRequest? then ToolCall(reply.call.tool, RelativeArgs(reply.call.args)) else ToolCall("", map[])
  }

  /** Paths are relative to the mount; one that names the mount itself means the workspace directory. */
  lemma RelativeMeaning(path: string, rest: string)
    ensures !("/workspace" <= path) ==> Relative(path) == path
    ensures Relative("/workspace") == "." == Relative("/workspace/")
    ensures rest != "" ==> Relative("/workspace/" + rest) == rest
    ensures rest != "" && rest[0] != '/' ==> Relative("/workspace" + rest) == rest
  {
    assert "/workspace/" <= path ==> path[..10] == "/workspace";
    assert ("/workspace/" + rest)[11..] == rest && ("/workspace" + rest)[10..] == rest;
    if rest != "" && rest[0] != '/' {
      assert ("/workspace" + rest)[10] != "/workspace/"[10];
    }
  }

  /** The `k`-th gathering call is the one the `k`-th reply asks for, with its paths made relative. */
  lemma {:induction false} GatherCallIs(replies: Replies, k: nat, n: nat)
    requires k < n <= Gathers(replies)
    ensures k < |GatherCalls(replies, n)| && replies.gather(k).ToolRequest?
    ensures var asked, made := replies.gather(k).call, GatherCalls(replies, n)[k];
            && made.tool == asked.tool && made.args.Keys == asked.args.Keys
            && forall key :: key in asked.args ==>
                 made.args[key] == if key in {"path", "dir"} then Relative(asked.args[key]) else asked.args[key]
    decreases n
  {
    GatherCallsLength(replies, n);
    GatherCallsLength(replies, n - 1);
    if k < n - 1 {
      GatherCallIs(replies, k, n - 1);
    } else {
      assert replies.gather(k).ToolRequest?;
    }
  }

  /** The calls of the first `k` replies. */
  function GatherCalls(replies: Replies, k: nat): seq<ToolCall>
    decreases k, replies
  {
    if k == 0 then [] else GatherCalls(replies, k - 1) + [GatherCall(replies.gather(k - 1))]
  }

  lemma {:induction false} GatherCallsLength(replies: Replies, k: nat)
    ensures |GatherCalls(replies, k)| == k
  {
    if k > 0 {
      GatherCallsLength(replies, k - 1);
    }
  }

  /** The broker after `k` gathering calls. */
  function Gathering(replies: Replies, results: nat -> bool, k: nat): Broker
    requires k <= Gathers(replies)
  {
    if k == 0 then Begun
    else Broker(ReceiveContextResult, Initial.(iteration := k, last := Some(results(k - 1))), GatherCalls(replies, k),
                None)
  }

  /** Both ways into the gathering node lead to the same place. */
  lemma StreamToGather(b: Broker, replies: Replies, k: nat, limit: nat)
    requires b.node == if k == 0 then GatherContext else ReceiveContextResult
    requires b.st == if k == 0 then Initial else Initial.(iteration := k, last := b.st.last)
    requires k < MAX_GATHER && limit > 1
    ensures exists depth :: limit - 1 <= depth <= limit &&
              Stream(b.node, b.st, replies, limit) == Stream(GatherContext, Initial.(iteration := k), replies, depth)
  {
    if k == 0 {
      assert Initial == Initial.(iteration := 0);
      assert Stream(b.node, b.st, replies, limit) == Stream(GatherContext, Initial.(iteration := k), replies, limit);
    } else {
      assert Execute(ReceiveContextResult, b.st, replies) == Initial.(iteration := k);
      assert Stream(b.node, b.st, replies, limit) == Stream(GatherContext, Initial.(iteration := k), replies,
                                                            limit - 1);
    }
  }

  lemma GatherRound(replies: Replies, results: nat -> bool, k: nat)
    requires k < Gathers(replies)
    ensures Round(Gathering(replies, results, k), replies, results) == Gathering(replies, results, k + 1)
  {
    var b := Gathering(replies, results, k);
    StreamToGather(b, replies, k, RECURSION_LIMIT);
    GatherCallsLength(replies, k);
    var st := Initial.(iteration := k);
    var after := st.(iteration := k + 1, pending := Some(GatherCall(replies.gather(k))));
    assert Execute(GatherContext, st, replies) == after;
    assert Stream(b.node, b.st, replies, RECURSION_LIMIT) == Interrupted(CallToolGather, after);
  }

  ghost predicate IsRound(step: Broker -> Broker, replies: Replies, results: nat -> bool, b: Broker) {
    step(b) == Round(b, replies, results)
  }

  /** What the lemmas below need to know of the broker's step. */
  ghost predicate Steps(step: Broker -> Broker, replies: Replies, results: nat -> bool) {
    Idles(step) && forall b {:trigger IsRound(step, replies, results, b)} :: IsRound(step, replies, results, b)
  }

  lemma {:induction false} GatherPhase(step: Broker -> Broker, replies: Replies, results: nat -> bool, k: nat)
    requires Steps(step, replies, results) && k <= Gathers(replies)
    ensures Rounds(step, k) == Gathering(replies, results, k)
    decreases k
  {
    if k > 0 {
      GatherPhase(step, replies, results, k - 1);
      GatherRound(replies, results, k - 1);
      assert IsRound(step, replies, results, Gathering(replies, results, k - 1));
    }
  }

  // ---- Judging ----

  function Read(): RepairState {
    Initial.(iteration := MAX_GATHER)
  }

  function Analysed(replies: Replies): RepairState {
    AfterRootCause(Read(), replies.cause, replies.math)
  }

  function Strategised(replies: Replies): RepairState {
    AfterStrategy(Analysed(replies), replies.strategy, replies.math)
  }

  function Planned(replies: Replies): RepairState {
    AfterGenerate(Strategised(replies), replies.fix)
  }

  /** The analysis gives up: nothing repairable, or too little confidence. */
  predicate Hopeless(replies: Replies) {
    Analysed(replies).cannotRepair || Analysed(replies).confidence < replies.math.threshold
  }

  /** Something is kept, but its mean confidence falls below the threshold every part of it meets. */
  predicate Faint(replies: Replies) {
    !Analysed(replies).cannotRepair && Analysed(replies).confidence < replies.math.threshold
  }

  /** Escalating on a faint analysis sets `complete` and not `cannot_repair`: it reports success. */
  function EscalatedOutcome(replies: Replies): Outcome {
    if Faint(replies) then RepairComplete(Analysed(replies).confidence, []) else CannotRepair
  }

  /** The replies that end the attempt before any write. */
  predicate Escalates(replies: Replies) {
    || Hopeless(replies)
    || replies.strategy.NoStrategy? || replies.strategy.name == "cannot_repair"
    || replies.fix.NoFix? || Valid(replies.fix.edits) == []
  }

  lemma {:induction false} StreamJudges(replies: Replies, limit: nat)
    requires limit > 5
    ensures Escalates(replies) ==>
              exists st :: Stream(RootCauseAnalysis, Read(), replies, limit) == Ended(st)
                  && Final(st) == EscalatedOutcome(replies)
    ensures !Escalates(replies) ==>
              Stream(RootCauseAnalysis, Read(), replies, limit) ==
                  Stream(ApplyFix, Planned(replies), replies, limit - 3)
              && Planned(replies).plan == Valid(replies.fix.edits) && !Planned(replies).cannotRepair
  {
    var a, b, c := Analysed(replies), Strategised(replies), Planned(replies);
    assert Execute(RootCauseAnalysis, Read(), replies) == a;
    if Hopeless(replies) {
      StreamEscalates(a, replies, limit - 1);
    } else if b.cannotRepair {
      assert Stream(SelectStrategy, a, replies, limit - 1) == Stream(EscalateRepair, b, replies, limit - 2);
      StreamEscalates(b, replies, limit - 2);
    } else {
      assert Stream(SelectStrategy, a, replies, limit - 1) == Stream(GenerateFix, b, replies, limit - 2);
      assert Execute(GenerateFix, b, replies) == c;
      if c.cannotRepair {
        StreamEscalates(c, replies, limit - 3);
      }
    }
  }

  lemma StreamEscalates(st: RepairState, replies: Replies, limit: nat)
    requires limit > 0
    ensures Stream(EscalateRepair, st, replies, limit) == Ended(st.(complete := true))
  {
  }

  // ---- Writing ----

  /** A state with a plan and nothing of it written yet. */
  predicate Ready(st: RepairState) {
    st.plan != [] && st.applied == 0 && st.pending.None? && st.last.None? && !st.complete && !st.cannotRepair
  }

  /** What a series of writes changes. */
  datatype Progress = Progress(confidence: real, gaveUp: bool, modified: seq<string>)

  function Advanced(math: Arithmetic, p: Progress, path: string, success: bool): Progress {
    if success then p.(modified := WithPath(p.modified, path))
    else
      var confidence := math.lower(p.confidence);
      Progress(confidence, p.gaveUp || confidence < math.floor, p.modified)
  }

  /** After `i` writes, the first being call number `first`. */
  function Written(math: Arithmetic, start: RepairState, results: nat -> bool, first: nat, i: nat): Progress
    requires i <= |start.plan|
    decreases i, results
  {
    if i == 0 then Progress(start.confidence, start.cannotRepair, start.modified)
    else Advanced(math, Written(math, start, results, first, i - 1), start.plan[i - 1].path, results(first + i - 1))
  }

  function WithProgress(start: RepairState, p: Progress, i: nat): RepairState {
    start.(applied := i, confidence := p.confidence, cannotRepair := p.gaveUp, modified := p.modified)
  }

  lemma ResultAdvances(math: Arithmetic, start: RepairState, p: Progress, i: nat, success: bool)
    requires Ready(start) && i < |start.plan|
    ensures AfterFixResult(WithProgress(start, p, i).(last := Some(success)), math) ==
            WithProgress(start, Advanced(math, p, start.plan[i].path, success), i + 1)
  {
  }

  function WriteCalls(plan: seq<Edit>, i: nat): seq<ToolCall>
    requires i <= |plan|
    decreases i, plan
  {
    if i == 0 then [] else WriteCalls(plan, i - 1) + [WriteOf(plan[i - 1])]
  }

  lemma {:induction false} WriteCallsLength(plan: seq<Edit>, i: nat)
    requires i <= |plan|
    ensures |WriteCalls(plan, i)| == i
  {
    if i > 0 {
      WriteCallsLength(plan, i - 1);
    }
  }

  /** The broker after the last of some calls, a write. */
  function Paused(st: RepairState, results: nat -> bool, calls: seq<ToolCall>): Broker {
    Broker(ReceiveFixResult, st.(last := Some(results(if calls == [] then 0 else |calls| - 1))), calls, None)
  }

  /** The broker after `j` writing calls that followed `calls`. */
  function Writing(math: Arithmetic, start: RepairState, calls: seq<ToolCall>, results: nat -> bool, j: nat): Broker
    requires 0 < j <= |start.plan|
  {
    Paused(WithProgress(start, Written(math, start, results, |calls|, j - 1), j - 1), results,
           calls + WriteCalls(start.plan, j))
  }

  /** From an apply with edits left, the graph pauses at the next write. */
  lemma StreamToWrite(st: RepairState, replies: Replies, limit: nat)
    requires limit > 0 && st.applied < |st.plan| && !st.cannotRepair
    ensures Stream(ApplyFix, st, replies, limit) ==
            Interrupted(CallToolFix, st.(pending := Some(WriteOf(st.plan[st.applied]))))
  {
  }

  /** What a write result leads to. */
  lemma StreamFromResult(st: RepairState, replies: Replies, limit: nat)
    requires limit > 2
    ensures var after := AfterFixResult(st, replies.math);
            Stream(ReceiveFixResult, st, replies, limit) ==
            if after.cannotRepair then UndeclaredRoute(ReceiveFixResult, EscalateRepair)
            else if after.applied < |after.plan| then
              Interrupted(CallToolFix, after.(pending := Some(WriteOf(after.plan[after.applied]))))
            else Ended(after.(complete := true))
  {
    var after := AfterFixResult(st, replies.math);
    assert Execute(ReceiveFixResult, st, replies) == after;
    if !after.cannotRepair {
      if after.applied < |after.plan| {
        assert Stream(ReceiveFixResult, st, replies, limit) == Stream(ApplyFix, after, replies, limit - 1);
        StreamToWrite(after, replies, limit - 1);
      } else {
        assert Stream(ReceiveFixResult, st, replies, limit) == Stream(CompleteRepair, after, replies, limit - 1);
      }
    }
  }

  /** A round that starts with a write result. */
  lemma RoundFromResult(st: RepairState, calls: seq<ToolCall>, after: RepairState, replies: Replies,
                        results: nat -> bool)
    requires calls != [] && !st.complete
    requires after == AfterFixResult(st.(last := Some(results(|calls| - 1))), replies.math)
    ensures var b := Paused(st, results, calls);
            Round(b, replies, results) ==
            if after.cannotRepair then b.(outcome := Some(Crashed(ReceiveFixResult, EscalateRepair)))
            else if after.applied < |after.plan| then
              Paused(after, results, calls + [WriteOf(after.plan[after.applied])])
            else b.(st := after.(complete := true), outcome := Some(RepairComplete(after.confidence, after.modified)))
  {
    StreamFromResult(st.(last := Some(results(|calls| - 1))), replies, RECURSION_LIMIT);
  }

  lemma RoundToEnd(st: RepairState, calls: seq<ToolCall>, after: RepairState, replies: Replies, results: nat -> bool)
    requires calls != [] && !st.complete
    requires after == AfterFixResult(st.(last := Some(results(|calls| - 1))), replies.math)
    requires after.cannotRepair || after.applied >= |after.plan|
    ensures var next := Round(Paused(st, results, calls), replies, results);
            && next.calls == calls
            && next.outcome == Some(if after.cannotRepair then Crashed(ReceiveFixResult, EscalateRepair)
                                    else RepairComplete(after.confidence, after.modified))
  {
    RoundFromResult(st, calls, after, replies, results);
  }

  /** After the last gathering call the graph analyses, and then writes or escalates. */
  lemma StreamFromLastGather(replies: Replies, results: nat -> bool)
    ensures var b := Gathering(replies, results, Gathers(replies));
            exists limit :: RECURSION_LIMIT - 2 <= limit &&
              Stream(b.node, b.st, replies, RECURSION_LIMIT) == Stream(RootCauseAnalysis, Read(), replies, limit)
  {
    var g := Gathers(replies);
    var b := Gathering(replies, results, g);
    StreamToGather(b, replies, g, RECURSION_LIMIT);
    var depth :| RECURSION_LIMIT - 1 <= depth <= RECURSION_LIMIT &&
                 Stream(b.node, b.st, replies, RECURSION_LIMIT) ==
                     Stream(GatherContext, Initial.(iteration := g), replies, depth);
    assert Execute(GatherContext, Initial.(iteration := g), replies) == Read();
    assert Stream(b.node, b.st, replies, RECURSION_LIMIT) == Stream(RootCauseAnalysis, Read(), replies, depth - 1);
  }

  lemma StreamToFirstWrite(replies: Replies, results: nat -> bool)
    requires !Escalates(replies)
    ensures Ready(Planned(replies)) && Planned(replies).plan == Valid(replies.fix.edits)
    ensures var b, st := Gathering(replies, results, Gathers(replies)), Planned(replies);
            Stream(b.node, b.st, replies, RECURSION_LIMIT) ==
                Interrupted(CallToolFix, st.(pending := Some(WriteOf(st.plan[0]))))
  {
    var b := Gathering(replies, results, Gathers(replies));
    StreamFromLastGather(replies, results);
    var limit :| RECURSION_LIMIT - 2 <= limit &&
                 Stream(b.node, b.st, replies, RECURSION_LIMIT) == Stream(RootCauseAnalysis, Read(), replies, limit);
    StreamJudges(replies, limit);
    StreamToWrite(Planned(replies), replies, limit - 3);
  }

  lemma RoundFromPause(b: Broker, node: Node, st: RepairState, replies: Replies, results: nat -> bool)
    requires b.outcome.None? && Stream(b.node, b.st, replies, RECURSION_LIMIT) == Interrupted(node, st)
    requires !st.cannotRepair && !st.complete && st.pending.Some?
    ensures Round(b, replies, results) ==
            Broker(Route(node, st, replies.math.threshold), st.(pending := None, last := Some(results(|b.calls|))),
                   b.calls + [st.pending.value], None)
  {
  }

  lemma FirstWrite(replies: Replies, results: nat -> bool)
    requires !Escalates(replies)
    ensures Ready(Planned(replies)) && Planned(replies).plan == Valid(replies.fix.edits)
    ensures var g := Gathers(replies);
            Round(Gathering(replies, results, g), replies, results) ==
                Writing(replies.math, Planned(replies), GatherCalls(replies, g), results, 1)
  {
    var g, st := Gathers(replies), Planned(replies);
    StreamToFirstWrite(replies, results);
    GatherCallsLength(replies, g);
    RoundFromPause(Gathering(replies, results, g), CallToolFix, st.(pending := Some(WriteOf(st.plan[0]))), replies,
                   results);
    assert WriteCalls(st.plan, 1) == [] + [WriteOf(st.plan[0])] == [WriteOf(st.plan[0])];
    assert WithProgress(st, Written(replies.math, st, results, g, 0), 0) == st;
  }

  lemma NextWrite(start: RepairState, calls: seq<ToolCall>, replies: Replies, results: nat -> bool, j: nat, k: nat)
    requires Ready(start) && 0 < j < |start.plan| && k == j + 1
    requires !Written(replies.math, start, results, |calls|, j).gaveUp
    ensures Round(Writing(replies.math, start, calls, results, j), replies, results) ==
              Writing(replies.math, start, calls, results, k)
  {
    var before, after := Written(replies.math, start, results, |calls|, j - 1),
        Written(replies.math, start, results, |calls|, j);
    ResultAdvances(replies.math, start, before, j - 1, results(|calls| + j - 1));
    CallsExtend(start.plan, calls, j);
    RoundFromResult(WithProgress(start, before, j - 1), calls + WriteCalls(start.plan, j),
                    WithProgress(start, after, j), replies, results);
  }

  lemma CallsExtend(plan: seq<Edit>, calls: seq<ToolCall>, j: nat)
    requires j < |plan|
    ensures |calls + WriteCalls(plan, j)| == |calls| + j
    ensures (calls + WriteCalls(plan, j)) + [WriteOf(plan[j])] == calls + WriteCalls(plan, j + 1)
  {
    WriteCallsLength(plan, j);
  }

  lemma LastRound(start: RepairState, calls: seq<ToolCall>, replies: Replies, results: nat -> bool, d: nat)
    requires Ready(start) && 0 < d <= |start.plan|
    requires d == |start.plan| || Written(replies.math, start, results, |calls|, d).gaveUp
    ensures var b, next := Writing(replies.math, start, calls, results, d),
              Round(Writing(replies.math, start, calls, results, d), replies, results);
            next.calls == b.calls && next.outcome == Some(WritingOutcome(Written(replies.math, start, results, |calls|,
                                                                         d)))
  {
    var before, after := Written(replies.math, start, results, |calls|, d - 1),
        Written(replies.math, start, results, |calls|, d);
    ResultAdvances(replies.math, start, before, d - 1, results(|calls| + d - 1));
    WriteCallsLength(start.plan, d);
    var made := calls + WriteCalls(start.plan, d);
    assert |made| == |calls| + d;
    RoundToEnd(WithProgress(start, before, d - 1), made, WithProgress(start, after, d), replies, results);
  }

  lemma NextStep(step: Broker -> Broker, start: RepairState, calls: seq<ToolCall>, replies: Replies,
                 results: nat -> bool, j: nat, m: nat)
    requires Steps(step, replies, results) && Ready(start)
    requires 1 < j <= |start.plan| && !Written(replies.math, start, results, |calls|, j - 1).gaveUp
    requires m > 0 && Rounds(step, m - 1) == Writing(replies.math, start, calls, results, j - 1)
    ensures Rounds(step, m) == Writing(replies.math, start, calls, results, j)
  {
    NextWrite(start, calls, replies, results, j - 1, j);
    assert IsRound(step, replies, results, Writing(replies.math, start, calls, results, j - 1));
  }

  lemma LastStep(step: Broker -> Broker, start: RepairState, calls: seq<ToolCall>, replies: Replies,
                 results: nat -> bool, d: nat, m: nat)
    requires Steps(step, replies, results) && Ready(start) && 0 < d <= |start.plan|
    requires d == |start.plan| || Written(replies.math, start, results, |calls|, d).gaveUp
    requires m > 0 && Rounds(step, m - 1) == Writing(replies.math, start, calls, results, d)
    ensures var b := Rounds(step, m);
            b.calls == calls + WriteCalls(start.plan, d)
                && b.outcome == Some(WritingOutcome(Written(replies.math, start, results, |calls|, d)))
  {
    LastRound(start, calls, replies, results, d);
    assert IsRound(step, replies, results, Writing(replies.math, start, calls, results, d));
  }

  /** `j` rounds after the last gathering call, the first `j` edits are written. */
  lemma {:induction false} WritesInOrder(step: Broker -> Broker, start: RepairState, calls: seq<ToolCall>,
                                         replies: Replies,
                                         results: nat -> bool, j: nat, m: nat)
    requires WritingBegun(step, start, calls, replies, results)
    requires 0 < j <= |start.plan| && !Written(replies.math, start, results, |calls|, j - 1).gaveUp && m == |calls| + j
    ensures Rounds(step, m) == Writing(replies.math, start, calls, results, j)
    decreases j
  {
    if j > 1 {
      WritesInOrder(step, start, calls, replies, results, j - 1, m - 1);
      NextStep(step, start, calls, replies, results, j, m);
    }
  }

  /** Writing has begun after the last of `calls`. */
  ghost predicate WritingBegun(step: Broker -> Broker, start: RepairState, calls: seq<ToolCall>, replies: Replies,
                               results: nat -> bool) {
    Steps(step, replies, results) && Ready(start) && Rounds(step, |calls| + 1) ==
        Writing(replies.math, start, calls, results, 1)
  }

  // ---- The end ----

  /** How many writes are made if the rounds suffice: all, or those up to the one that gives up. */
  function Drained(math: Arithmetic, start: RepairState, results: nat -> bool, first: nat, i: nat): (d: nat)
    requires i <= |start.plan|
    ensures i <= d <= |start.plan|
    ensures forall k {:trigger Written(math, start, results, first, k)} :: i <= k < d ==>
              !Written(math, start, results, first, k).gaveUp
    ensures d < |start.plan| ==> Written(math, start, results, first, d).gaveUp
    decreases |start.plan| - i, results
  {
    if i == |start.plan| || Written(math, start, results, first, i).gaveUp then i
    else Drained(math, start, results, first, i + 1)
  }

  lemma EscalatedRound(replies: Replies, results: nat -> bool)
    requires Escalates(replies)
    ensures var b := Gathering(replies, results, Gathers(replies));
            var next := Round(b, replies, results);
            next.calls == b.calls && next.outcome == Some(EscalatedOutcome(replies))
  {
    var b := Gathering(replies, results, Gathers(replies));
    StreamFromLastGather(replies, results);
    var limit :| RECURSION_LIMIT - 2 <= limit &&
                 Stream(b.node, b.st, replies, RECURSION_LIMIT) == Stream(RootCauseAnalysis, Read(), replies, limit);
    StreamJudges(replies, limit);
  }

  lemma EscalationEnds(step: Broker -> Broker, replies: Replies, results: nat -> bool, end: nat)
    requires Steps(step, replies, results) && Escalates(replies) && Gathers(replies) < end
    ensures Rounds(step, end).outcome == Some(EscalatedOutcome(replies))
    ensures Rounds(step, end).calls == Gathering(replies, results, Gathers(replies)).calls
  {
    var g := Gathers(replies);
    GatherPhase(step, replies, results, g);
    EscalatedRound(replies, results);
    assert IsRound(step, replies, results, Gathering(replies, results, g));
    assert Rounds(step, g + 1) == step(Rounds(step, g));
    FinishedStays(step, g + 1, end);
  }

  /** An attempt the model gives up on makes the gathering calls and no others. */
  lemma EscalatedAttempt(replies: Replies, results: nat -> bool)
    requires Escalates(replies)
    ensures Attempt(replies, results).outcome == Some(EscalatedOutcome(replies))
    ensures Attempt(replies, results).calls == GatherCalls(replies, Gathers(replies))
  {
    RoundOfSteps(replies, results);
    EscalationEnds(RoundOf(replies, results), replies, results, MAX_TOOL_ROUNDS + 1);
  }

  lemma RoundOfSteps(replies: Replies, results: nat -> bool)
    ensures Steps(RoundOf(replies, results), replies, results)
  {
  }

  /** How writing ends: `d` writes out of `calls` many rounds. */
  function WritingOutcome(end: Progress): Outcome {
    if end.gaveUp then Crashed(ReceiveFixResult, EscalateRepair) else RepairComplete(end.confidence, end.modified)
  }

  lemma WritingEnds(step: Broker -> Broker, start: RepairState, calls: seq<ToolCall>, replies: Replies,
                    results: nat -> bool, d: nat, end: nat)
    requires WritingBegun(step, start, calls, replies, results) && |calls| + d < end
    requires 0 < d <= |start.plan| && !Written(replies.math, start, results, |calls|, d - 1).gaveUp
    requires d == |start.plan| || Written(replies.math, start, results, |calls|, d).gaveUp
    ensures var b := Rounds(step, end);
            b.calls == calls + WriteCalls(start.plan, d)
                && b.outcome == Some(WritingOutcome(Written(replies.math, start, results, |calls|, d)))
  {
    var m := |calls| + d;
    WritesInOrder(step, start, calls, replies, results, d, m);
    LastStep(step, start, calls, replies, results, d, m + 1);
    FinishedStays(step, m + 1, end);
  }

  lemma WritingRunsOut(step: Broker -> Broker, start: RepairState, calls: seq<ToolCall>, replies: Replies,
                       results: nat -> bool, j: nat, end: nat)
    requires WritingBegun(step, start, calls, replies, results) && end == |calls| + j
    requires 0 < j <= |start.plan| && !Written(replies.math, start, results, |calls|, j - 1).gaveUp
    ensures var b := Rounds(step, end);
            b.calls == calls + WriteCalls(start.plan, j) && b.outcome.None? && !b.st.cannotRepair && !b.st.complete
  {
    WritesInOrder(step, start, calls, replies, results, j, end);
  }

  lemma NotYetGivenUp(math: Arithmetic, start: RepairState, results: nat -> bool, first: nat, j: nat)
    requires Ready(start) && 0 < j <= Drained(math, start, results, first, 1)
    ensures !Written(math, start, results, first, j - 1).gaveUp
  {
    if j > 1 {
      assert !Written(math, start, results, first, j - 1).gaveUp;
    }
  }

  lemma WritingBegins(replies: Replies, results: nat -> bool)
    requires !Escalates(replies)
    ensures Planned(replies).plan == Valid(replies.fix.edits)
    ensures WritingBegun(RoundOf(replies, results), Planned(replies), GatherCalls(replies, Gathers(replies)), replies,
                         results)
  {
    var g, step := Gathers(replies), RoundOf(replies, results);
    RoundOfSteps(replies, results);
    GatherPhase(step, replies, results, g);
    FirstWrite(replies, results);
    assert IsRound(step, replies, results, Gathering(replies, results, g));
    GatherCallsLength(replies, g);
  }

  /** Every other attempt, in closed form. It makes the gathering calls, then writes the planned edits
      in order, each once, until all are written, a failed write gives up, or 41 calls were made. Giving
      up is a route the graph does not declare. */
  lemma WritingAttempt(replies: Replies, results: nat -> bool)
    requires !Escalates(replies)
    ensures Ready(Planned(replies)) && Planned(replies).plan == Valid(replies.fix.edits)
    ensures var g := Gathers(replies);
            var d := Drained(replies.math, Planned(replies), results, g, 1);
            var writes := if g + d <= MAX_TOOL_ROUNDS then d else MAX_TOOL_ROUNDS + 1 - g;
            var a := Attempt(replies, results);
            && a.calls == GatherCalls(replies, g) + WriteCalls(Planned(replies).plan, writes)
            && a.outcome == Some(if g + d <= MAX_TOOL_ROUNDS then
                                 WritingOutcome(Written(replies.math, Planned(replies), results, g, d)) else Exhausted)
  {
    var g, step := Gathers(replies), RoundOf(replies, results);
    var calls := GatherCalls(replies, g);
    GatherCallsLength(replies, g);
    WritingBegins(replies, results);
    var d := Drained(replies.math, Planned(replies), results, g, 1);
    NotYetGivenUp(replies.math, Planned(replies), results, g, d);
    if g + d <= MAX_TOOL_ROUNDS {
      WritingEnds(step, Planned(replies), calls, replies, results, d, MAX_TOOL_ROUNDS + 1);
    } else {
      var j := MAX_TOOL_ROUNDS + 1 - g;
      NotYetGivenUp(replies.math, Planned(replies), results, g, j);
      WritingRunsOut(step, Planned(replies), calls, replies, results, j, MAX_TOOL_ROUNDS + 1);
    }
  }

  // ---- What it means ----

  function Failures(results: nat -> bool, first: nat, i: nat): (f: nat)
    ensures f <= i
    decreases i, results
  {
    if i == 0 then 0 else Failures(results, first, i - 1) + if results(first + i - 1) then 0 else 1
  }

  /** Confidence after `f` failed writes. */
  function Lowerings(lower: real -> real, confidence: real, f: nat): real
    decreases f, lower
  {
    if f == 0 then confidence else lower(Lowerings(lower, confidence, f - 1))
  }

  /** Some of the first `f` lowerings went below the floor. */
  ghost predicate Sinks(math: Arithmetic, confidence: real, f: nat) {
    exists n :: 1 <= n <= f && Lowerings(math.lower, confidence, n) < math.floor
  }

  /** Only the number of failures matters: the confidence is lowered once for each, and writing gives up
      exactly when one of these lowerings goes below the floor. */
  lemma {:induction false} GivesUpIff(math: Arithmetic, start: RepairState, results: nat -> bool, first: nat, i: nat)
    requires !start.cannotRepair && i <= |start.plan|
    ensures var f, p := Failures(results, first, i), Written(math, start, results, first, i);
            p.confidence == Lowerings(math.lower, start.confidence, f)
                && (p.gaveUp <==> Sinks(math, start.confidence, f))
  {
    if i > 0 {
      GivesUpIff(math, start, results, first, i - 1);
      var f := Failures(results, first, i - 1);
      SinksStep(math, start.confidence, f);
    }
  }

  lemma SinksStep(math: Arithmetic, confidence: real, f: nat)
    ensures Sinks(math, confidence, f + 1) <==>
            Sinks(math, confidence, f) || Lowerings(math.lower, confidence, f + 1) < math.floor
  {
    if Sinks(math, confidence, f) {
      var n :| 1 <= n <= f && Lowerings(math.lower, confidence, n) < math.floor;
      assert 1 <= n <= f + 1;
    }
  }

  function Sum(xs: seq<real>): real {
    if xs == [] then 0.0 else xs[0] + Sum(xs[1..])
  }

  /** No rounding. */
  ghost predicate Exact(math: Arithmetic) {
    && (forall xs: seq<real> :: xs != [] ==> math.average(xs) == Sum(xs) / |xs| as real)
    && (forall c: real :: math.lower(c) == if c - 0.15 > 0.0 then c - 0.15 else 0.0)
    && math.threshold == 0.3 && math.floor == 0.15
  }

  /** In exact arithmetic `f` failures leave the confidence less 0.15 each, and no less than zero. */
  lemma {:induction false} ExactLowerings(math: Arithmetic, confidence: real, f: nat)
    requires Exact(math)
    ensures f > 0 ==> Lowerings(math.lower, confidence, f) ==
                      if confidence - 0.15 * (f as real) > 0.0 then confidence - 0.15 * (f as real) else 0.0
    ensures Sinks(math, confidence, f) <==> f > 0 && confidence - 0.15 * (f as real) < 0.15
  {
    if f > 0 {
      ExactLowerings(math, confidence, f - 1);
      assert 0.15 * (f as real) == 0.15 * ((f - 1) as real) + 0.15;
      assert Lowerings(math.lower, confidence, f) == math.lower(Lowerings(math.lower, confidence, f - 1));
      SinksStep(math, confidence, f - 1);
    }
  }

  // ---- Faint analyses ----

  /** Averaging never falls below a threshold that all parts meet. */
  ghost predicate AverageRespects(math: Arithmetic) {
    forall xs :: xs != [] && (forall i :: 0 <= i < |xs| ==> xs[i] >= math.threshold) ==>
        math.average(xs) >= math.threshold
  }

  ghost predicate NeverFaint(math: Arithmetic) {
    forall replies: Replies :: replies.math == math ==> !Faint(replies)
  }

  lemma {:induction false} KeptMeetThreshold(groups: seq<Group>, threshold: real)
    ensures forall i :: 0 <= i < |Kept(groups, threshold)| ==> Kept(groups, threshold)[i].confidence >= threshold
  {
    if groups != [] {
      KeptMeetThreshold(groups[1..], threshold);
    }
  }

  function GroupsOf(confidences: seq<real>): seq<Group> {
    if confidences == [] then [] else [Group("code_error", "single_file", confidences[0])] + GroupsOf(confidences[1..])
  }

  lemma {:induction false} GroupsKept(confidences: seq<real>, threshold: real)
    requires forall i :: 0 <= i < |confidences| ==> confidences[i] >= threshold
    ensures Kept(GroupsOf(confidences), threshold) == GroupsOf(confidences)
    ensures Confidences(GroupsOf(confidences)) == confidences
  {
    if confidences != [] {
      GroupsKept(confidences[1..], threshold);
      var groups := GroupsOf(confidences);
      assert groups[1..] == GroupsOf(confidences[1..]);
      assert forall i :: 0 <= i < |confidences| - 1 ==> Confidences(groups[1..])[i] == groups[i + 1].confidence;
    }
  }

  function FaintReplies(confidences: seq<real>, math: Arithmetic): Replies {
    Replies(_ => DoneReading, Groups(GroupsOf(confidences)), NoStrategy, NoFix, math)
  }

  /** The threshold test after a kept analysis is dead for all replies exactly when the arithmetic
      averages soundly and the default confidence meets the threshold. */
  lemma ThresholdIsDeadIff(math: Arithmetic)
    ensures NeverFaint(math) <==> AverageRespects(math) && 0.5 >= math.threshold
  {
    if AverageRespects(math) && 0.5 >= math.threshold {
      forall replies: Replies | replies.math == math ensures !Faint(replies) {
        if replies.cause.Groups? {
          KeptMeetThreshold(replies.cause.groups, math.threshold);
        }
      }
    }
    if NeverFaint(math) {
      var silent := Replies(_ => DoneReading, Unreadable, NoStrategy, NoFix, math);
      assert !Faint(silent);
      forall xs | xs != [] && (forall i :: 0 <= i < |xs| ==> xs[i] >= math.threshold)
        ensures math.average(xs) >= math.threshold
      {
        GroupsKept(xs, math.threshold);
        assert !Faint(FaintReplies(xs, math));
      }
    }
  }

  lemma {:induction false} SumAtLeast(xs: seq<real>, t: real)
    requires forall i :: 0 <= i < |xs| ==> xs[i] >= t
    ensures Sum(xs) >= t * (|xs| as real)
  {
    if xs != [] {
      SumAtLeast(xs[1..], t);
      assert t * (|xs| as real) == t * ((|xs| - 1) as real) + t;
    }
  }

  lemma AverageAtLeast(total: real, count: nat, t: real)
    requires count > 0 && total >= t * (count as real)
    ensures total / count as real >= t
  {
    var q := total / count as real;
    assert q * (count as real) == total;
    if q < t {
      assert (t - q) * (count as real) > 0.0;
    }
  }

  /** Exact means are sound, so without rounding the test is dead. */
  lemma ExactIsNeverFaint(math: Arithmetic)
    requires Exact(math)
    ensures NeverFaint(math)
  {
    forall xs | xs != [] && (forall i :: 0 <= i < |xs| ==> xs[i] >= math.threshold)
      ensures math.average(xs) >= math.threshold
    {
      SumAtLeast(xs, math.threshold);
      AverageAtLeast(Sum(xs), |xs|, math.threshold);
    }
    ThresholdIsDeadIff(math);
  }

  function TenGroups(): seq<real> {
    [0.3, 0.3, 0.3, 0.3, 0.3, 0.3, 0.3, 0.3, 0.3, 0.3]
  }

  /** Ten groups of confidence 0.3, whose mean rounds to less: nothing is called, nothing written, and the
      attempt reports a completed repair. */
  lemma FaintAnalysisCompletes(math: Arithmetic, results: nat -> bool)
    requires math.threshold == 0.3 && math.average(TenGroups()) < 0.3
    ensures var a := Attempt(FaintReplies(TenGroups(), math), results);
            a.outcome == Some(RepairComplete(math.average(TenGroups()), [])) && a.calls == []
  {
    var replies := FaintReplies(TenGroups(), math);
    GroupsKept(TenGroups(), 0.3);
    EscalatedAttempt(replies, results);
    assert !replies.gather(0).ToolRequest?;
  }

  // ---- What the replies decide ----

  /** A group that edits of the source can repair. */
  predicate InReach(g: Group, threshold: real) {
    g.rootCauseClass == "code_error" && !(g.scope == "too_large") && !(g.confidence < threshold)
  }

  lemma {:induction false} KeptAreInReach(groups: seq<Group>, threshold: real, g: Group)
    ensures g in Kept(groups, threshold) <==> g in groups && InReach(g, threshold)
  {
    if groups != [] {
      KeptAreInReach(groups[1..], threshold, g);
      assert groups == [groups[0]] + groups[1..];
    }
  }

  /** Keeping groups is one group at a time and in order. */
  lemma {:induction false} KeptConcat(a: seq<Group>, b: seq<Group>, threshold: real)
    ensures Kept(a + b, threshold) == Kept(a, threshold) + Kept(b, threshold)
  {
    if a == [] {
      assert a + b == b;
    } else {
      assert (a + b)[1..] == a[1..] + b;
      KeptConcat(a[1..], b, threshold);
    }
  }

  /** An analysis gives up exactly if it names groups and none of them is in reach; otherwise the attempt goes
      on with the mean confidence of those that are, or a half if it names none. */
  lemma AnalysisMeaning(replies: Replies)
    ensures Analysed(replies).cannotRepair <==>
            && replies.cause.Groups? && replies.cause.groups != []
            && forall g :: g in replies.cause.groups ==> !InReach(g, replies.math.threshold)
    ensures replies.cause.Unreadable? || replies.cause.groups == [] ==> Analysed(replies).confidence == 0.5
    ensures replies.cause.Groups? && replies.cause.groups != [] && !Analysed(replies).cannotRepair ==>
              Analysed(replies).confidence ==
              replies.math.average(Confidences(Kept(replies.cause.groups, replies.math.threshold)))
  {
    if replies.cause.Groups? {
      var groups, threshold := replies.cause.groups, replies.math.threshold;
      if Kept(groups, threshold) != [] {
        KeptAreInReach(groups, threshold, Kept(groups, threshold)[0]);
      }
      forall g | g in groups ensures g in Kept(groups, threshold) <==> InReach(g, threshold) {
        KeptAreInReach(groups, threshold, g);
      }
    }
  }

  /** Writing starts at the confidence of the strategy, if it has one. */
  lemma PlannedConfidence(replies: Replies)
    requires !Escalates(replies)
    ensures Planned(replies).confidence ==
            if replies.strategy.confidence.Some? then replies.strategy.confidence.value
                else Analysed(replies).confidence
    ensures Planned(replies).applied == 0 && Planned(replies).modified == []
  {
    WritingAttempt(replies, _ => true);
  }

  /** The plan keeps the edits with a path and a content, all of them and in order. */
  lemma {:induction false} ValidConcat(a: seq<Edit>, b: seq<Edit>)
    ensures Valid(a + b) == Valid(a) + Valid(b)
  {
    if a == [] {
      assert a + b == b;
    } else {
      assert (a + b)[1..] == a[1..] + b;
      ValidConcat(a[1..], b);
    }
  }

  lemma {:induction false} ValidMeaning(edits: seq<Edit>, e: Edit)
    ensures e in Valid(edits) <==> e in edits && e.path != "" && e.content.Some?
    ensures Valid([e]) == if e.path != "" && e.content.Some? then [e] else []
  {
    assert [e][1..] == [];
    if edits != [] {
      ValidMeaning(edits[1..], e);
      assert edits == [edits[0]] + edits[1..];
    }
  }

  // ---- Files and calls ----

  /** The files reported are the distinct paths of the successful writes. */
  lemma {:induction false} ModifiedMeaning(math: Arithmetic, start: RepairState, results: nat -> bool, first: nat,
                                           i: nat, path: string)
    requires start.modified == [] && i <= |start.plan| && path != ""
    ensures var modified := Written(math, start, results, first, i).modified;
            && (path in modified <==> exists k :: 0 <= k < i && results(first + k) && start.plan[k].path == path)
            && (forall a, b :: 0 <= a < b < |modified| ==> modified[a] != modified[b]) && "" !in modified
  {
    if i > 0 {
      ModifiedMeaning(math, start, results, first, i - 1, path);
      var before := Written(math, start, results, first, i - 1).modified;
      if results(first + i - 1) && start.plan[i - 1].path == path {
        assert start.plan[i - 1].path == path && i - 1 < i;
      }
    }
  }

  lemma {:induction false} WriteCallsAt(plan: seq<Edit>, i: nat, k: nat)
    requires k < i <= |plan|
    ensures k < |WriteCalls(plan, i)| == i && WriteCalls(plan, i)[k] == WriteOf(plan[k])
  {
    WriteCallsLength(plan, i);
    if k < i - 1 {
      WriteCallsAt(plan, i - 1, k);
      WriteCallsLength(plan, i - 1);
    }
  }

  /** No attempt makes more than 7 gathering calls or more than 41 calls in all. */
  lemma CallsAreBounded(replies: Replies, results: nat -> bool)
    ensures Gathers(replies) <= 7 && |Attempt(replies, results).calls| <= 41
  {
    var g := Gathers(replies);
    GatherCallsLength(replies, g);
    if Escalates(replies) {
      EscalatedAttempt(replies, results);
    } else {
      WritingAttempt(replies, results);
      var d := Drained(replies.math, Planned(replies), results, g, 1);
      WriteCallsLength(Planned(replies).plan, if g + d <= MAX_TOOL_ROUNDS then d else MAX_TOOL_ROUNDS + 1 - g);
    }
  }

  /** The failed writes leave the confidence at or above the floor. */
  ghost predicate Holds(math: Arithmetic, start: RepairState, results: nat -> bool, first: nat) {
    !Sinks(math, start.confidence, Failures(results, first, |start.plan|))
  }

  lemma {:induction false} GivingUpIsFinal(math: Arithmetic, start: RepairState, results: nat -> bool, first: nat,
                                           i: nat, j: nat)
    requires i <= j <= |start.plan| && Written(math, start, results, first, i).gaveUp
    ensures Written(math, start, results, first, j).gaveUp
  {
    if i < j {
      GivingUpIsFinal(math, start, results, first, i, j - 1);
    }
  }

  lemma DrainedIff(math: Arithmetic, start: RepairState, results: nat -> bool, first: nat)
    requires Ready(start)
    ensures var d := Drained(math, start, results, first, 1);
            && (Written(math, start, results, first, d).gaveUp <==> !Holds(math, start, results, first))
            && (Holds(math, start, results, first) ==> d == |start.plan|)
  {
    var d := Drained(math, start, results, first, 1);
    GivesUpIff(math, start, results, first, |start.plan|);
    if Written(math, start, results, first, d).gaveUp {
      GivingUpIsFinal(math, start, results, first, d, |start.plan|);
    }
  }

  /** Faint analyses aside, an attempt completes exactly when it was not escalated, the writes hold out, and
      gathering calls and edits together are at most 40. Then every planned edit was written, once and in
      order, after the gathering calls, and nothing else was called. */
  lemma CompletesIff(replies: Replies, results: nat -> bool)
    ensures var g, plan := Gathers(replies), Planned(replies).plan;
            var a := Attempt(replies, results);
            a.outcome.Some? &&
            (a.outcome.value.RepairComplete? <==>
             Faint(replies) || (!Escalates(replies) && Holds(replies.math, Planned(replies), results, g) &&
                                g + |plan| <= 40))
    ensures var g, plan := Gathers(replies), Planned(replies).plan;
            var a := Attempt(replies, results);
            a.outcome.Some? && a.outcome.value.RepairComplete? && !Faint(replies) ==>
              a.calls == GatherCalls(replies, g) + WriteCalls(plan, |plan|)
              && a.outcome.value.modified == Written(replies.math, Planned(replies), results, g, |plan|).modified
  {
    if Escalates(replies) {
      EscalatedAttempt(replies, results);
    } else {
      WritingAttempt(replies, results);
      DrainedIff(replies.math, Planned(replies), results, Gathers(replies));
    }
  }

  /** Up to 33 edits never run out of rounds. */
  lemma ShortPlansNeverExhaust(replies: Replies, results: nat -> bool)
    requires |Planned(replies).plan| <= 33
    ensures Attempt(replies, results).outcome != Some(Exhausted)
  {
    if Escalates(replies) {
      EscalatedAttempt(replies, results);
    } else {
      WritingAttempt(replies, results);
    }
  }

  /** The graph leaves its declared edges exactly when failed writes use up the confidence within the
      rounds, and then after a write result, towards escalation. */
  lemma CrashesOnlyOnFailedWrites(replies: Replies, results: nat -> bool, node: Node, target: Node)
    ensures var g, start := Gathers(replies), Planned(replies);
            Attempt(replies, results).outcome == Some(Crashed(node, target)) <==>
            !Escalates(replies) && node == ReceiveFixResult && target == EscalateRepair
            && !Holds(replies.math, start, results, g) && start.plan != []
                && g + Drained(replies.math, start, results, g, 1) <= MAX_TOOL_ROUNDS
  {
    if Escalates(replies) {
      EscalatedAttempt(replies, results);
    } else {
      WritingAttempt(replies, results);
      DrainedIff(replies.math, Planned(replies), results, Gathers(replies));
    }
  }

  // ---- Attempts that change files and report none ----

  /** A model that reads nothing and plans these edits. */
  function PlanReplies(edits: seq<Edit>, confidence: real, math: Arithmetic): Replies {
    Replies(_ => DoneReading, Unreadable, Strategy("targeted_fix", Some(confidence)), Edits(edits), math)
  }

  lemma {:induction false} ValidKeepsValid(edits: seq<Edit>)
    requires forall i :: 0 <= i < |edits| ==> edits[i].path != "" && edits[i].content.Some?
    ensures Valid(edits) == edits
  {
    if edits != [] {
      ValidKeepsValid(edits[1..]);
    }
  }

  lemma PlanRepliesWrite(edits: seq<Edit>, confidence: real, math: Arithmetic)
    requires edits != [] && math.threshold <= 0.5
    requires forall i :: 0 <= i < |edits| ==> edits[i].path != "" && edits[i].content.Some?
    ensures var replies := PlanReplies(edits, confidence, math);
            && !Escalates(replies) && Gathers(replies) == 0 && GatherCalls(replies, 0) == []
            && Planned(replies).plan == edits && Planned(replies).confidence == confidence
  {
    ValidKeepsValid(edits);
    var replies := PlanReplies(edits, confidence, math);
    assert !replies.gather(0).ToolRequest?;
  }

  function FirstOnly(): nat -> bool {
    k => k == 0
  }

  function Always(): nat -> bool {
    _ => true
  }

  /** One edit written, a second that fails at low confidence: the graph takes the undeclared route. */
  lemma FailedWriteCrashes(first: Edit, second: Edit, math: Arithmetic)
    requires first.path != "" && first.content.Some? && second.path != "" && second.content.Some?
    requires math.threshold <= 0.5 && math.lower(0.25) < math.floor
    ensures var a := Attempt(PlanReplies([first, second], 0.25, math), FirstOnly());
            a.outcome == Some(Crashed(ReceiveFixResult, EscalateRepair)) && a.calls == [WriteOf(first), WriteOf(second)]
  {
    var edits, results := [first, second], FirstOnly();
    var replies := PlanReplies(edits, 0.25, math);
    PlanRepliesWrite(edits, 0.25, math);
    WritingAttempt(replies, results);
    var start := Planned(replies);
    assert Written(math, start, results, 0, 0) == Progress(0.25, false, []);
    assert Written(math, start, results, 0, 1) == Progress(0.25, false, [first.path]);
    assert Written(math, start, results, 0, 2).gaveUp;
    assert Drained(math, start, results, 0, 2) == 2;
    assert Drained(math, start, results, 0, 1) == 2;
    assert WriteCalls(edits, 0) == [] && WriteCalls(edits, 1) == [] + [WriteOf(first)];
    assert WriteCalls(edits, 2) == [WriteOf(first), WriteOf(second)];
  }

  lemma {:induction false} SuccessKeepsGoing(math: Arithmetic, start: RepairState, results: nat -> bool, first: nat,
                                             i: nat)
    requires Ready(start) && i <= |start.plan| && forall k :: results(k)
    ensures !Written(math, start, results, first, i).gaveUp
  {
    if i > 0 {
      SuccessKeepsGoing(math, start, results, first, i - 1);
    }
  }

  /** With 41 edits everything is written without a failure, and the attempt reports an error. */
  lemma AllWrittenYetExhausted(edits: seq<Edit>, confidence: real, math: Arithmetic)
    requires |edits| == 41 && math.threshold <= 0.5
    requires forall i :: 0 <= i < |edits| ==> edits[i].path != "" && edits[i].content.Some?
    ensures var a := Attempt(PlanReplies(edits, confidence, math), Always());
            a.outcome == Some(Exhausted) && a.calls == WriteCalls(edits, |edits|)
  {
    var results := Always();
    var replies := PlanReplies(edits, confidence, math);
    PlanRepliesWrite(edits, confidence, math);
    WritingAttempt(replies, results);
    var d := Drained(math, Planned(replies), results, 0, 1);
    SuccessKeepsGoing(math, Planned(replies), results, 0, d);
    assert [] + WriteCalls(edits, |edits|) == WriteCalls(edits, |edits|);
  }
}
