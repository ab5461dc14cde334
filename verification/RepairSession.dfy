/** From the repair graph to the repair loop: what an attempt's calls do to the workspace, what Go learns
    of its outcome, and which outcomes a rollback undoes. */
module RepairSession {
  import opened Json
  import opened Workspaces
  import opened RepairRollback
  import StepAgent
  import Graph = RepairGraph
  import Attempts = RepairAttempts
  import Loop = RepairLoop

  // ---- The calls of an attempt ----

  function PathOf(call: Graph.ToolCall): string {
    StepAgent.Arg(call.args, "path")
  }

  /** The changes of a call that takes effect, as events. */
  function Effects(files: Files, call: Graph.ToolCall): seq<AttemptEvent> {
    if !StepAgent.Performed(files, StepAgent.Call(call.tool, call.args)).0.success then []
    else if StepAgent.Writes(call.tool) then [Changed(PathOf(call), Some(StepAgent.Arg(call.args, "content")))]
    else if call.tool == "delete_file" then [Changed(PathOf(call), None)]
    else if call.tool == "rename_file" then
      var source, target := StepAgent.Arg(call.args, "old_path"), StepAgent.Arg(call.args, "new_path");
      [Changed(source, None), Changed(target, Lookup(files, source))]
    else []
  }

  /** Announcing and making one call. */
  function CallEvents(files: Files, call: Graph.ToolCall, landed: bool): seq<AttemptEvent> {
    [Announced(call.tool, PathOf(call))] + if landed then Effects(files, call) else []
  }

  /** Which calls take effect: those answered with success, and those whose reply was lost afterwards. */
  function Landed(results: nat -> bool, lost: nat -> bool): nat -> bool {
    (k: nat) => results(k) || lost(k)
  }

  /** Events and workspace after the first `n` calls; `landed` says which of them take effect. */
  function Perform(files: Files, calls: seq<Graph.ToolCall>, landed: nat -> bool, n: nat): (seq<AttemptEvent>, Files)
    requires n <= |calls|
    decreases n, landed
  {
    if n == 0 then ([], files) else
      var (events, now) := Perform(files, calls, landed, n - 1);
      var more := CallEvents(now, calls[n - 1], landed(n - 1));
      (events + more, Replayed(now, more))
  }

  function Replayed(files: Files, events: seq<AttemptEvent>): Files {
    Replay(files, Capture(map[], map[]), events).0
  }

  lemma {:induction false} CaptureChangesNothing(files: Files, c: Capture, d: Capture, events: seq<AttemptEvent>)
    ensures Replay(files, c, events).0 == Replay(files, d, events).0
  {
    if events != [] {
      CaptureChangesNothing(files, c, d, events[..|events| - 1]);
    }
  }

  lemma {:induction false} ReplayConcat(files: Files, c: Capture, a: seq<AttemptEvent>, b: seq<AttemptEvent>)
    ensures Replay(files, c, a + b) == Replay(Replay(files, c, a).0, Replay(files, c, a).1, b)
  {
    if b == [] {
      assert a + b == a;
    } else {
      var m := |b| - 1;
      ReplayConcat(files, c, a, b[..m]);
      assert (a + b)[..|a + b| - 1] == a + b[..m];
    }
  }

  /** What a successful call does is what the backend does. */
  lemma EffectsAreDispatch(files: Files, call: Graph.ToolCall)
    ensures Replayed(files, Effects(files, call)) == StepAgent.Performed(files, StepAgent.Call(call.tool, call.args)).1
  {
    var events := Effects(files, call);
    if |events| == 1 {
      assert events[..0] == [];
      assert Replay(files, Capture(map[], map[]), events).0 == Applied(files, events[0].path, events[0].content);
    } else if |events| == 2 {
      var source, target := StepAgent.Arg(call.args, "old_path"), StepAgent.Arg(call.args, "new_path");
      var none := Capture(map[], map[]);
      assert events[..1] == [events[0]] && [events[0]][..0] == [];
      assert Replay(files, none, []) == (files, none);
      assert Replay(files, none, events[..1]) == (files - {source}, none);
      assert Replay(files, none, events) == ((files - {source})[target := files[source]], none);
    }
  }

  lemma PerformReplaysStep(files: Files, c: Capture, events: seq<AttemptEvent>, more: seq<AttemptEvent>)
    ensures Replay(files, c, events + more).0 == Replay(Replay(files, c, events).0, Capture(map[], map[]), more).0
  {
    ReplayConcat(files, c, events, more);
    var (now, captured) := Replay(files, c, events);
    CaptureChangesNothing(now, captured, Capture(map[], map[]), more);
  }

  lemma {:induction false} PerformReplays(files: Files, c: Capture, calls: seq<Graph.ToolCall>, landed: nat -> bool,
                                          n: nat)
    requires n <= |calls|
    ensures Replay(files, c, Perform(files, calls, landed, n).0).0 == Perform(files, calls, landed, n).1
    decreases n
  {
    if n > 0 {
      var (events, now) := Perform(files, calls, landed, n - 1);
      var more := CallEvents(now, calls[n - 1], landed(n - 1));
      PerformReplays(files, c, calls, landed, n - 1);
      PerformReplaysStep(files, c, events, more);
    }
  }

  // ---- Announced and reported changes ----

  /** A call that changes files only by an announced write. */
  predicate Plain(call: Graph.ToolCall) {
    call.tool !in {"create_file", "delete_file", "rename_file"}
  }

  predicate WritesPath(call: Graph.ToolCall, path: string) {
    call.tool == "write_file" && PathOf(call) == path
  }

  predicate WritesAFile(call: Graph.ToolCall) {
    call.tool == "write_file" && PathOf(call) != ""
  }

  ghost predicate ChangeAnnounced(events: seq<AttemptEvent>, i: nat)
    requires i < |events|
  {
    events[i].Changed? ==> AnnouncedIn(events[..i], events[i].path)
  }

  ghost predicate AllAnnounced(events: seq<AttemptEvent>) {
    forall i :: 0 <= i < |events| ==> ChangeAnnounced(events, i)
  }

  lemma PlainCallEvents(files: Files, call: Graph.ToolCall, landed: bool)
    requires Plain(call)
    ensures var more := CallEvents(files, call, landed);
            && more[0] == Announced(call.tool, PathOf(call)) && 1 <= |more| <= 2
            && (|more| == 2 ==> landed && more[1].Changed? && PathOf(call) != "" && WritesPath(call, more[1].path))
  {
  }

  lemma AnnouncedExtends(before: seq<AttemptEvent>, more: seq<AttemptEvent>)
    requires AllAnnounced(before) && 1 <= |more| <= 2 && more[0].Announced?
    requires |more| == 2 ==> more[1].Changed? && more[1].path != "" && more[0] == Announced("write_file", more[1].path)
    ensures AllAnnounced(before + more)
  {
    var all := before + more;
    forall i | 0 <= i < |all| ensures ChangeAnnounced(all, i) {
      if i < |before| {
        assert all[..i] == before[..i] && all[i] == before[i];
        assert ChangeAnnounced(before, i);
      } else if i == |before| + 1 {
        assert all[..i][|before|] == more[0];
      }
    }
  }

  lemma {:induction false} PerformAnnounces(files: Files, calls: seq<Graph.ToolCall>, landed: nat -> bool, n: nat)
    requires n <= |calls| && forall k :: 0 <= k < n ==> Plain(calls[k])
    ensures AllAnnounced(Perform(files, calls, landed, n).0)
    decreases n
  {
    if n > 0 {
      var (before, now) := Perform(files, calls, landed, n - 1);
      PerformAnnounces(files, calls, landed, n - 1);
      PlainCallEvents(now, calls[n - 1], landed(n - 1));
      AnnouncedExtends(before, CallEvents(now, calls[n - 1], landed(n - 1)));
    }
  }

  /** The content of the last write of `path` that took effect. */
  function LastWrite(calls: seq<Graph.ToolCall>, landed: nat -> bool, n: nat, path: string): Option<string>
    requires n <= |calls|
    decreases n, landed
  {
    if n == 0 then None
    else if landed(n - 1) && WritesPath(calls[n - 1], path) then Some(StepAgent.Arg(calls[n - 1].args, "content"))
    else LastWrite(calls, landed, n - 1, path)
  }

  lemma PlainCallChanges(files: Files, call: Graph.ToolCall, landed: bool, path: string)
    requires Plain(call) && path != ""
    ensures Lookup(Replayed(files, CallEvents(files, call, landed)), path) ==
            if landed && WritesPath(call, path) then Some(StepAgent.Arg(call.args, "content")) else Lookup(files, path)
  {
    var events, none := CallEvents(files, call, landed), Capture(map[], map[]);
    assert [events[0]][..0] == [] && events[..1] == [events[0]];
    assert Replay(files, none, []) == (files, none);
    assert Replay(files, none, [events[0]]).0 == files;
    if |events| == 2 {
      assert events[1] == Changed(PathOf(call), Some(StepAgent.Arg(call.args, "content")));
      assert Replayed(files, events) == Applied(files, events[1].path, events[1].content);
    } else {
      assert events == [events[0]];
    }
  }

  /** Each file ends up as its last write left it. */
  lemma {:induction false} PerformWrites(files: Files, calls: seq<Graph.ToolCall>, landed: nat -> bool, n: nat,
                                         path: string)
    requires n <= |calls| && path != "" && forall k :: 0 <= k < n ==> Plain(calls[k])
    ensures Lookup(Perform(files, calls, landed, n).1, path) ==
            var last := LastWrite(calls, landed, n, path); if last.Some? then last else Lookup(files, path)
    decreases n
  {
    if n > 0 {
      PerformWrites(files, calls, landed, n - 1, path);
      PlainCallChanges(Perform(files, calls, landed, n - 1).1, calls[n - 1], landed(n - 1), path);
    }
  }

  lemma {:induction false} PerformAnnouncesWrite(files: Files, calls: seq<Graph.ToolCall>, landed: nat -> bool, n: nat,
                                                 k: nat)
    requires k < n <= |calls| && calls[k].tool == "write_file" && PathOf(calls[k]) != ""
    ensures AnnouncedIn(Perform(files, calls, landed, n).0, PathOf(calls[k]))
    decreases n
  {
    var (before, now) := Perform(files, calls, landed, n - 1);
    var more := CallEvents(now, calls[n - 1], landed(n - 1));
    if k < n - 1 {
      PerformAnnouncesWrite(files, calls, landed, n - 1, k);
      assert Announced("write_file", PathOf(calls[k])) in before;
    } else {
      assert more[0] == Announced("write_file", PathOf(calls[k]));
      assert (before + more)[|before|] == more[0];
    }
  }

  // ---- What Go learns ----

  /** The agent's run as the loop sees it: only a completed repair reports its files. An attempt that ran
      out of rounds, or left the graph, ends in an error event, which is logged and otherwise ignored. */
  function AgentRunOf(outcome: Graph.Outcome, events: seq<AttemptEvent>): Loop.AgentRun {
    match outcome
    case RepairComplete(_, modified) => Loop.AgentDone(events, modified)
    case CannotRepair => Loop.AgentGaveUp(events)
    case Exhausted => Loop.AgentDone(events, [])
    case Crashed(_, _) => Loop.AgentDone(events, [])
  }

  /** The attempt of a repair graph on a workspace, as an input of the loop. */
  function InputOf(files: Files, replies: Graph.Replies, results: nat -> bool, lost: nat -> bool,
                   run: Loop.ValidationRun): Loop.Input {
    var b := Graph.Attempt(replies, results);
    var outcome := if b.outcome.Some? then b.outcome.value else Graph.Exhausted;
    Loop.Input(false, false, AgentRunOf(outcome, Perform(files, b.calls, Landed(results, lost), |b.calls|).0),
               Some(run))
  }

  /** The gathering calls do what the model is told to: they only read. */
  predicate GathersReadOnly(replies: Graph.Replies) {
    forall k :: 0 <= k < Attempts.Gathers(replies) ==> ReadOnly(Attempts.GatherCall(replies.gather(k)))
  }

  predicate ReadOnly(call: Graph.ToolCall) {
    Plain(call) && call.tool != "write_file"
  }

  lemma {:induction false} GatherCallsAt(replies: Graph.Replies, k: nat, i: nat)
    requires i < k
    ensures |Attempts.GatherCalls(replies, k)| == k
    ensures Attempts.GatherCalls(replies, k)[i] == Attempts.GatherCall(replies.gather(i))
    decreases k
  {
    Attempts.GatherCallsLength(replies, k);
    Attempts.GatherCallsLength(replies, k - 1);
    if i < k - 1 {
      GatherCallsAt(replies, k - 1, i);
    }
  }

  lemma PathOfWrite(e: Graph.Edit)
    ensures PathOf(Graph.WriteOf(e)) == e.path && Graph.WriteOf(e).tool == "write_file" && Plain(Graph.WriteOf(e))
  {
  }

  /** The shape of every attempt: reading calls first, then writes of planned edits. */
  ghost predicate ReadsThenWrites(calls: seq<Graph.ToolCall>, g: nat, plan: seq<Graph.Edit>) {
    && g <= |calls| <= g + |plan|
    && (forall k :: 0 <= k < g ==> ReadOnly(calls[k]))
    && (forall k :: g <= k < |calls| ==> calls[k] == Graph.WriteOf(plan[k - g]))
  }

  lemma CallsOfAttempt(replies: Graph.Replies, g: nat, plan: seq<Graph.Edit>, writes: nat)
    requires GathersReadOnly(replies) && g == Attempts.Gathers(replies) && writes <= |plan|
    ensures ReadsThenWrites(Attempts.GatherCalls(replies, g) + Attempts.WriteCalls(plan, writes), g, plan)
  {
    Attempts.GatherCallsLength(replies, g);
    Attempts.WriteCallsLength(plan, writes);
    var calls := Attempts.GatherCalls(replies, g) + Attempts.WriteCalls(plan, writes);
    forall k | 0 <= k < g ensures ReadOnly(calls[k]) {
      GatherCallsAt(replies, g, k);
    }
    forall k | g <= k < |calls| ensures calls[k] == Graph.WriteOf(plan[k - g]) {
      Attempts.WriteCallsAt(plan, writes, k - g);
    }
  }

  lemma ReadsThenWritesIsPlain(calls: seq<Graph.ToolCall>, g: nat, plan: seq<Graph.Edit>)
    requires ReadsThenWrites(calls, g, plan)
    ensures forall k :: 0 <= k < |calls| ==> Plain(calls[k])
  {
    forall k | 0 <= k < |calls| ensures Plain(calls[k]) {
      if k >= g {
        PathOfWrite(plan[k - g]);
      }
    }
  }

  // ---- What a rollback undoes ----

  /** The calls of a completed attempt report every change and announce every reported file. */
  lemma CompletedCallsAreReported(replies: Graph.Replies, results: nat -> bool)
    requires GathersReadOnly(replies)
    requires var b := Graph.Attempt(replies, results); b.outcome.Some? && b.outcome.value.RepairComplete?
    ensures var b := Graph.Attempt(replies, results);
            var modified := b.outcome.value.modified;
            && (forall k :: 0 <= k < |b.calls| ==> Plain(b.calls[k]))
            && (forall k :: 0 <= k < |b.calls| && WritesAFile(b.calls[k]) && results(k) ==>
                  PathOf(b.calls[k]) in modified)
            && (forall p :: p in modified ==> p != "" && exists k :: 0 <= k < |b.calls| && WritesPath(b.calls[k], p))
  {
    var b, g := Graph.Attempt(replies, results), Attempts.Gathers(replies);
    Attempts.CompletesIff(replies, results);
    if Attempts.Faint(replies) {
      Attempts.EscalatedAttempt(replies, results);
      CallsOfAttempt(replies, g, [], 0);
      assert Attempts.GatherCalls(replies, g) + Attempts.WriteCalls([], 0) == b.calls;
      ReadsThenWritesIsPlain(b.calls, g, []);
    } else {
      Attempts.WritingAttempt(replies, results);
      var plan := Attempts.Planned(replies).plan;
      CallsOfAttempt(replies, g, plan, |plan|);
      ReadsThenWritesIsPlain(b.calls, g, plan);
      Attempts.GatherCallsLength(replies, g);
      Attempts.WriteCallsLength(plan, |plan|);
      WritesAreReported(replies, results, b.calls, g, plan);
    }
  }

  lemma WriteIsReported(replies: Graph.Replies, results: nat -> bool, calls: seq<Graph.ToolCall>, g: nat,
                        plan: seq<Graph.Edit>, k: nat)
    requires plan == Attempts.Planned(replies).plan && ReadsThenWrites(calls, g, plan) && |calls| == g + |plan|
    requires k < |calls| && WritesAFile(calls[k]) && results(k)
    ensures PathOf(calls[k]) in Attempts.Written(replies.math, Attempts.Planned(replies), results, g, |plan|).modified
  {
    assert k >= g;
    PathOfWrite(plan[k - g]);
    Attempts.ModifiedMeaning(replies.math, Attempts.Planned(replies), results, g, |plan|, PathOf(calls[k]));
    assert results(g + (k - g)) && Attempts.Planned(replies).plan[k - g].path == PathOf(calls[k]);
  }

  lemma ReportedIsWritten(replies: Graph.Replies, results: nat -> bool, calls: seq<Graph.ToolCall>, g: nat,
                          plan: seq<Graph.Edit>, p: string)
    requires plan == Attempts.Planned(replies).plan && ReadsThenWrites(calls, g, plan) && |calls| == g + |plan|
    requires p in Attempts.Written(replies.math, Attempts.Planned(replies), results, g, |plan|).modified
    ensures p != "" && exists k :: 0 <= k < |calls| && WritesPath(calls[k], p)
  {
    Attempts.ModifiedMeaning(replies.math, Attempts.Planned(replies), results, g, |plan|, "a");
    Attempts.ModifiedMeaning(replies.math, Attempts.Planned(replies), results, g, |plan|, if p == "" then "a" else p);
    var j :| 0 <= j < |plan| && results(g + j) && Attempts.Planned(replies).plan[j].path == p;
    PathOfWrite(plan[j]);
    assert WritesPath(calls[g + j], p);
  }

  lemma WritesAreReported(replies: Graph.Replies, results: nat -> bool, calls: seq<Graph.ToolCall>, g: nat,
                          plan: seq<Graph.Edit>)
    requires plan == Attempts.Planned(replies).plan && ReadsThenWrites(calls, g, plan) && |calls| == g + |plan|
    ensures var modified := Attempts.Written(replies.math, Attempts.Planned(replies), results, g, |plan|).modified;
            && (forall k :: 0 <= k < |calls| && WritesAFile(calls[k]) && results(k) ==>
                  PathOf(calls[k]) in modified)
            && (forall p :: p in modified ==> p != "" && exists k :: 0 <= k < |calls| && WritesPath(calls[k], p))
  {
    var modified := Attempts.Written(replies.math, Attempts.Planned(replies), results, g, |plan|).modified;
    forall k | 0 <= k < |calls| && WritesAFile(calls[k]) && results(k)
      ensures PathOf(calls[k]) in modified
    {
      WriteIsReported(replies, results, calls, g, plan, k);
    }
    forall p | p in modified ensures p != "" && exists k :: 0 <= k < |calls| && WritesPath(calls[k], p) {
      ReportedIsWritten(replies, results, calls, g, plan, p);
    }
  }

  lemma CompletedAttemptIsOrderly(files: Files, replies: Graph.Replies, results: nat -> bool, landed: nat -> bool)
    requires GathersReadOnly(replies)
    requires var b := Graph.Attempt(replies, results); b.outcome.Some? && b.outcome.value.RepairComplete?
    ensures var b := Graph.Attempt(replies, results);
            var events := Perform(files, b.calls, landed, |b.calls|).0;
            forall p :: p in b.outcome.value.modified ==> CapturedFirst(events, p)
  {
    var b := Graph.Attempt(replies, results);
    var n, modified := |b.calls|, b.outcome.value.modified;
    CompletedCallsAreReported(replies, results);
    PerformAnnounces(files, b.calls, landed, n);
    var events := Perform(files, b.calls, landed, n).0;
    forall p | p in modified ensures CapturedFirst(events, p) {
      var k :| 0 <= k < n && WritesPath(b.calls[k], p);
      PerformAnnouncesWrite(files, b.calls, landed, n, k);
      forall i | 0 <= i < |events| && events[i].Changed? && events[i].path == p ensures AnnouncedIn(events[..i], p) {
        assert ChangeAnnounced(events, i);
      }
    }
  }

  /** Every unreported file whose write took effect was last written as it had been. */
  ghost predicate UnreportedAsBefore(files: Files, calls: seq<Graph.ToolCall>, landed: nat -> bool,
                                     modified: seq<string>) {
    forall p :: p !in modified && p != "" && LastWrite(calls, landed, |calls|, p).Some? ==>
      LastWrite(calls, landed, |calls|, p) == Lookup(files, p)
  }

  /** No write of an unreported file took effect. */
  ghost predicate NoneUnreported(calls: seq<Graph.ToolCall>, landed: nat -> bool, modified: seq<string>) {
    forall k :: 0 <= k < |calls| && WritesAFile(calls[k]) && landed(k) ==> PathOf(calls[k]) in modified
  }

  lemma {:induction false} LastWriteLanded(calls: seq<Graph.ToolCall>, landed: nat -> bool, n: nat, path: string)
    requires n <= |calls| && LastWrite(calls, landed, n, path).Some?
    ensures exists k :: 0 <= k < n && landed(k) && WritesPath(calls[k], path)
    decreases n
  {
    if landed(n - 1) && WritesPath(calls[n - 1], path) {
      assert WritesPath(calls[n - 1], path);
    } else {
      LastWriteLanded(calls, landed, n - 1, path);
    }
  }

  lemma NoneUnreportedIsHarmless(files: Files, calls: seq<Graph.ToolCall>, landed: nat -> bool, modified: seq<string>)
    requires NoneUnreported(calls, landed, modified)
    ensures UnreportedAsBefore(files, calls, landed, modified)
  {
    forall p | p != "" && LastWrite(calls, landed, |calls|, p).Some? ensures p in modified {
      LastWriteLanded(calls, landed, |calls|, p);
    }
  }

  /** The empty path is never a file. */
  lemma {:induction false} NothingAtEmptyPath(files: Files, calls: seq<Graph.ToolCall>, landed: nat -> bool, n: nat)
    requires n <= |calls| && forall k :: 0 <= k < n ==> Plain(calls[k])
    ensures Lookup(Perform(files, calls, landed, n).1, "") == Lookup(files, "")
    decreases n
  {
    if n > 0 {
      NothingAtEmptyPath(files, calls, landed, n - 1);
      var now, call := Perform(files, calls, landed, n - 1).1, calls[n - 1];
      var events, none := CallEvents(now, call, landed(n - 1)), Capture(map[], map[]);
      assert [events[0]][..0] == [] && events[..1] == [events[0]];
      assert Replay(now, none, []) == (now, none);
      assert Replay(now, none, [events[0]]).0 == now;
      PlainCallEvents(now, call, landed(n - 1));
      if |events| == 2 {
        assert Replayed(now, events) == Applied(now, events[1].path, events[1].content);
      } else {
        assert events == [events[0]];
      }
    }
  }

  lemma OthersUnchangedIff(files: Files, calls: seq<Graph.ToolCall>, landed: nat -> bool, modified: seq<string>)
    requires forall k :: 0 <= k < |calls| ==> Plain(calls[k])
    ensures OthersUnchanged(files, Perform(files, calls, landed, |calls|).1, modified) <==>
            UnreportedAsBefore(files, calls, landed, modified)
  {
    NothingAtEmptyPath(files, calls, landed, |calls|);
    forall p | p != ""
      ensures Lookup(Perform(files, calls, landed, |calls|).1, p) ==
              var last := LastWrite(calls, landed, |calls|, p); if last.Some? then last else Lookup(files, p)
    {
      PerformWrites(files, calls, landed, |calls|, p);
    }
  }

  lemma CompletedIsRolledBackIff(s: Loop.Session, trigger: Loop.ValidationRun, replies: Graph.Replies,
                                 results: nat -> bool,
                                 lost: nat -> bool, run: Loop.ValidationRun)
    requires s.end.None? && Loop.Verdict(trigger, run) == Loop.Regressed && GathersReadOnly(replies)
    requires var b := Graph.Attempt(replies, results); b.outcome.Some? && b.outcome.value.RepairComplete?
    ensures var b := Graph.Attempt(replies, results);
            Loop.AfterAttempt(s, trigger, InputOf(s.files, replies, results, lost, run)).files == s.files <==>
            UnreportedAsBefore(s.files, b.calls, Landed(results, lost), b.outcome.value.modified)
  {
    var b, landed := Graph.Attempt(replies, results), Landed(results, lost);
    var before := Snapshot(s.files, Loop.PathsToFix(trigger.diagnostics));
    SnapshotFits(s.files, Loop.PathsToFix(trigger.diagnostics));
    PerformReplays(s.files, before, b.calls, landed, |b.calls|);
    CompletedCallsAreReported(replies, results);
    CompletedAttemptIsOrderly(s.files, replies, results, landed);
    RollbackRestoresStart(s.files, before, Perform(s.files, b.calls, landed, |b.calls|).0, b.outcome.value.modified);
    OthersUnchangedIff(s.files, b.calls, landed, b.outcome.value.modified);
  }

  /** Which attempts a regression undoes, by the outcome of the repair graph. `results` says which calls
      report success, `lost` which take effect though they report failure. A completed repair whose
      gathering only read is rolled back to where it started exactly if every file it does not report was
      last written as it had been, so in particular if no such write took effect. An attempt that ran out
      of rounds or left the graph reports no files, so its rollback does nothing: it is undone only if it
      changed nothing. */
  lemma RollbackByOutcome(s: Loop.Session, trigger: Loop.ValidationRun, replies: Graph.Replies, results: nat -> bool,
                          lost: nat -> bool, run: Loop.ValidationRun)
    requires s.end.None? && Loop.Verdict(trigger, run) == Loop.Regressed
    ensures var b, landed := Graph.Attempt(replies, results), Landed(results, lost);
            var next := Loop.AfterAttempt(s, trigger, InputOf(s.files, replies, results, lost, run));
            && b.outcome.Some?
            && (b.outcome.value.RepairComplete? && GathersReadOnly(replies) ==>
                  var modified := b.outcome.value.modified;
                  && (next.files == s.files <==> UnreportedAsBefore(s.files, b.calls, landed, modified))
                  && (NoneUnreported(b.calls, landed, modified) ==> next.files == s.files))
            && (!b.outcome.value.RepairComplete? ==> next.files == Perform(s.files, b.calls, landed, |b.calls|).1)
            && (next.end == Some(Loop.Settled(Loop.Regressed)) <==> !b.outcome.value.CannotRepair?)
  {
    var b, landed := Graph.Attempt(replies, results), Landed(results, lost);
    Attempts.CompletesIff(replies, results);
    if b.outcome.value.RepairComplete? && GathersReadOnly(replies) {
      CompletedIsRolledBackIff(s, trigger, replies, results, lost, run);
      if NoneUnreported(b.calls, landed, b.outcome.value.modified) {
        NoneUnreportedIsHarmless(s.files, b.calls, landed, b.outcome.value.modified);
      }
    }
    var before := Snapshot(s.files, Loop.PathsToFix(trigger.diagnostics));
    var (end, c) := Replay(s.files, before, Perform(s.files, b.calls, landed, |b.calls|).0);
    PerformReplays(s.files, before, b.calls, landed, |b.calls|);
    assert Checkpoint(c, []) == [];
  }

  // ---- A regression that stays ----

  function StartFiles(): Files {
    map["a" := "old"]
  }

  function BreakingEdits(): seq<Graph.Edit> {
    [Graph.Edit("a", Some("broken")), Graph.Edit("b", Some("new"))]
  }

  lemma FirstBreaks(calls: seq<Graph.ToolCall>, landed: nat -> bool, n: nat)
    requires n <= 2 && calls == [Graph.WriteOf(BreakingEdits()[0]), Graph.WriteOf(BreakingEdits()[1])][..n]
    requires n > 0 && landed(0) && !landed(1)
    ensures Perform(StartFiles(), calls, landed, n).1 == map["a" := "broken"]
  {
    var none, start, broken := Capture(map[], map[]), StartFiles(), map["a" := "broken"];
    assert Perform(start, calls, landed, 0) == ([], start);
    var first := CallEvents(start, calls[0], true);
    assert first == [Announced("write_file", "a"), Changed("a", Some("broken"))];
    assert first[..1] == [first[0]] && [first[0]][..0] == [];
    assert Replay(start, none, []) == (start, none) && Replay(start, none, [first[0]]).0 == start;
    assert Replayed(start, first) == broken;
    assert Perform(start, calls, landed, 1).1 == broken;
    if n == 2 {
      var second := CallEvents(broken, calls[1], false);
      assert second == [Announced("write_file", "b")] && second[..0] == [];
      assert Replay(broken, none, []) == (broken, none);
    }
  }

  function Same(input: Loop.Input): nat -> Loop.Input {
    _ => input
  }

  /** A whole session: the first edit breaks the build, the second fails, the graph leaves its edges, and
      the regression is settled with the broken file still in place. */
  lemma CrashedAttemptSurvivesRollback(trigger: Loop.ValidationRun, run: Loop.ValidationRun, math: Graph.Arithmetic)
    requires Loop.Permitted(trigger) && Loop.Verdict(trigger, run) == Loop.Regressed
    requires math.threshold <= 0.5 && math.lower(0.25) < math.floor
    ensures var input := InputOf(StartFiles(), Attempts.PlanReplies(BreakingEdits(), 0.25, math), Attempts.FirstOnly(),
                                 Never(), run);
            var s := Loop.Repaired(StartFiles(), trigger, Same(input));
            s.end == Some(Loop.Settled(Loop.Regressed)) && s.files == map["a" := "broken"] != StartFiles()
  {
    var replies, results := Attempts.PlanReplies(BreakingEdits(), 0.25, math), Attempts.FirstOnly();
    Attempts.FailedWriteCrashes(BreakingEdits()[0], BreakingEdits()[1], math);
    assert [BreakingEdits()[0], BreakingEdits()[1]] == BreakingEdits();
    var calls := Graph.Attempt(replies, results).calls;
    assert calls == calls[..2];
    FirstBreaks(calls, Landed(results, Never()), 2);
    RollbackByOutcome(Loop.Session(StartFiles(), [], None), trigger, replies, results, Never(), run);
    FirstAttemptEnds(StartFiles(), trigger, InputOf(StartFiles(), replies, results, Never(), run));
    assert StartFiles()["a"] != "broken";
  }

  function Never(): nat -> bool {
    _ => false
  }

  /** Another: the only edit takes effect, but its reply is lost. The graph completes the repair without
      reporting the file, and rolls nothing back. */
  lemma LostWriteSurvivesRollback(trigger: Loop.ValidationRun, run: Loop.ValidationRun, math: Graph.Arithmetic)
    requires Loop.Permitted(trigger) && Loop.Verdict(trigger, run) == Loop.Regressed
    requires math.threshold <= 0.5 && math.lower(0.5) >= math.floor
    ensures var replies := Attempts.PlanReplies(BreakingEdits()[..1], 0.5, math);
            var s := Loop.Repaired(StartFiles(), trigger,
                                   Same(InputOf(StartFiles(), replies, Never(), Attempts.FirstOnly(), run)));
            && Graph.Attempt(replies, Never()).outcome == Some(Graph.RepairComplete(math.lower(0.5), []))
            && s.end == Some(Loop.Settled(Loop.Regressed)) && s.files == map["a" := "broken"] != StartFiles()
  {
    var replies := Attempts.PlanReplies(BreakingEdits()[..1], 0.5, math);
    LostWriteCompletes(math);
    var b, landed := Graph.Attempt(replies, Never()), Landed(Never(), Attempts.FirstOnly());
    FirstBreaks(b.calls, landed, 1);
    Attempts.PlanRepliesWrite(BreakingEdits()[..1], 0.5, math);
    var start := Loop.Session(StartFiles(), [], None);
    RollbackByOutcome(start, trigger, replies, Never(), Attempts.FirstOnly(), run);
    NothingReported(start, trigger, replies, Never(), Attempts.FirstOnly(), run);
    FirstAttemptEnds(StartFiles(), trigger, InputOf(StartFiles(), replies, Never(), Attempts.FirstOnly(), run));
    assert StartFiles()["a"] != "broken";
  }

  /** If no file is reported, the attempt is left as it is. */
  lemma NothingReported(s: Loop.Session, trigger: Loop.ValidationRun, replies: Graph.Replies, results: nat -> bool,
                        lost: nat -> bool, run: Loop.ValidationRun)
    requires s.end.None? && Loop.Verdict(trigger, run) == Loop.Regressed
    requires var b := Graph.Attempt(replies, results);
             b.outcome.Some? && b.outcome.value.RepairComplete? && b.outcome.value.modified == []
    ensures var b := Graph.Attempt(replies, results);
            Loop.AfterAttempt(s, trigger, InputOf(s.files, replies, results, lost, run)).files ==
            Perform(s.files, b.calls, Landed(results, lost), |b.calls|).1
  {
    var b, landed := Graph.Attempt(replies, results), Landed(results, lost);
    var before := Snapshot(s.files, Loop.PathsToFix(trigger.diagnostics));
    var (end, c) := Replay(s.files, before, Perform(s.files, b.calls, landed, |b.calls|).0);
    PerformReplays(s.files, before, b.calls, landed, |b.calls|);
    assert Checkpoint(c, []) == [];
  }

  lemma LostWriteCompletes(math: Graph.Arithmetic)
    requires math.threshold <= 0.5 && math.lower(0.5) >= math.floor
    ensures var b := Graph.Attempt(Attempts.PlanReplies(BreakingEdits()[..1], 0.5, math), Never());
            && b.outcome == Some(Graph.RepairComplete(math.lower(0.5), []))
            && b.calls == [Graph.WriteOf(BreakingEdits()[0]), Graph.WriteOf(BreakingEdits()[1])][..1]
  {
    var edits := BreakingEdits()[..1];
    var replies := Attempts.PlanReplies(edits, 0.5, math);
    Attempts.PlanRepliesWrite(edits, 0.5, math);
    Attempts.WritingAttempt(replies, Never());
    var start := Attempts.Planned(replies);
    assert Attempts.Written(math, start, Never(), 0, 0) == Attempts.Progress(0.5, false, []);
    assert Attempts.Written(math, start, Never(), 0, 1) == Attempts.Progress(math.lower(0.5), false, []);
    assert Attempts.Drained(math, start, Never(), 0, 1) == 1;
    assert Attempts.WriteCalls(edits, 0) == [] && Attempts.WriteCalls(edits, 1) == [] + [Graph.WriteOf(edits[0])];
  }

  lemma FirstAttemptEnds(files: Files, trigger: Loop.ValidationRun, input: Loop.Input)
    requires Loop.Permitted(trigger)
    requires Loop.AfterAttempt(Loop.Session(files, [], None), trigger, input).end.Some?
    ensures Loop.Repaired(files, trigger, Same(input)) ==
              Loop.AfterAttempt(Loop.Session(files, [], None), trigger, input)
  {
    var inputs := Same(input);
    assert Loop.After(files, trigger, inputs, 1) == Loop.AfterAttempt(Loop.Session(files, [], None), trigger, input);
    Loop.EndedStays(files, trigger, inputs, 1, Loop.MAX_ATTEMPTS);
  }
}
