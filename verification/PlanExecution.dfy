/** The run loop that executes a scheduled plan step by step and skips steps whose prerequisites
    deviated or failed. */
module PlanExecution {
  import opened Json
  import opened PlanValidation
  import opened StepSchedule

  // ---- Stored rows ----

  datatype StepStatus = StepPending | StepRunning | StepCompleted | StepFailed | StepDeviated | StepSkipped

  datatype StepRow = StepRow(stableId: string, status: StepStatus)

  datatype ExecStatus = Pending | Running | Completed | CompletedWithDeviations | Failed | Cancelled

  /** Files touched so far, each list without repetitions. */
  datatype Artifacts = Artifacts(modified: seq<string>, created: seq<string>, deleted: seq<string>)

  datatype Checkpoint = Checkpoint(stableId: string, artifacts: Artifacts)

  /** The execution's own rows. A step row appears here with the status it ends up with. */
  class ExecutionRecord {
    var status: ExecStatus
    var rows: seq<StepRow>
    var checkpoints: seq<Checkpoint>

    constructor ()
      ensures status == Pending && rows == [] && checkpoints == []
    {
      status, rows, checkpoints := Pending, [], [];
    }

    method MarkRunning()
      modifies this`status
      ensures status == if old(status) == Pending then Running else old(status)
    {
      if status == Pending {
        status := Running;
      }
    }

    /** Unguarded. */
    method MarkFailed()
      modifies this`status
      ensures status == Failed
    {
      status := Failed;
    }

    method AddRow(stableId: string, step: StepStatus)
      modifies this`rows
      ensures rows == old(rows) + [StepRow(stableId, step)]
    {
      rows := rows + [StepRow(stableId, step)];
    }
  }

  // ---- What the world answers ----

  /** The agent's event stream for one step, reduced to what the loop keeps of it. */
  datatype Stream = Stream(broken: bool, deviation: string, touched: Artifacts)

  /** Everything the loop does not decide itself while it handles one step: whether it reads that the
      execution was cancelled, the agent's stream, and which of its own writes succeed. `rowStarted`
      and `rowStored` are the updates of the step's row, `statusStored` that of the execution. */
  datatype StepInput = StepInput(cancelled: bool, rowCreated: bool, rowStarted: bool, rowStored: bool,
                                 tokenSigned: bool,
                                 statusStored: bool, saved: bool, stream: Stream)

  /** Where the row of a started step ends up. */
  function Stored(input: StepInput, intended: StepStatus): StepStatus {
    if input.rowStored then intended else if input.rowStarted then StepRunning else StepPending
  }

  predicate HasPrefix(s: string, prefix: string) {
    prefix <= s
  }

  /** The status a finished stream leads to; only the last deviation event counts. */
  function Judge(deviation: string): StepStatus {
    if deviation == "" then StepCompleted
    else if HasPrefix(deviation, "execution_error:") then StepFailed
    else if HasPrefix(deviation, "requires_human:") then StepDeviated
    else if HasPrefix(deviation, "already_satisfied:") then StepCompleted
    else StepDeviated
  }

  // ---- Helpers of the loop ----

  function StableIdOf(step: ScheduledStep): string {
    TextAt(step.fields, "stable_id")
  }

  /** The first dependency that deviated or failed; the empty string stands for none. */
  function BlockingDep(deps: seq<string>, blocked: set<string>): string {
    if deps == [] then ""
    else if deps[0] in blocked then deps[0]
    else BlockingDep(deps[1..], blocked)
  }

  method FindBlockingDep(deps: seq<string>, blocked: set<string>) returns (blocker: string)
    ensures blocker == BlockingDep(deps, blocked)
  {
    for i := 0 to |deps|
      invariant BlockingDep(deps, blocked) == BlockingDep(deps[i..], blocked)
    {
      assert deps[i..][1..] == deps[i + 1..];
      if deps[i] in blocked {
        return deps[i];
      }
    }
    return "";
  }

  lemma {:induction false} BlockingDepIsBlocked(deps: seq<string>, blocked: set<string>)
    ensures BlockingDep(deps, blocked) != "" ==>
              BlockingDep(deps, blocked) in deps && BlockingDep(deps, blocked) in blocked
    ensures "" !in deps ==> (BlockingDep(deps, blocked) == "" <==> forall d :: d in deps ==> d !in blocked)
  {
    if deps != [] {
      BlockingDepIsBlocked(deps[1..], blocked);
      assert deps == [deps[0]] + deps[1..];
    }
  }

  function AppendedUnique(xs: seq<string>, items: seq<string>): seq<string>
    decreases |items|
  {
    if items == [] then xs
    else AppendedUnique(if items[0] in xs then xs else xs + [items[0]], items[1..])
  }

  method AppendUnique(xs: seq<string>, items: seq<string>) returns (r: seq<string>)
    ensures r == AppendedUnique(xs, items)
  {
    r := xs;
    var seen := set x | x in xs;
    for i := 0 to |items|
      invariant seen == set x | x in r
      invariant AppendedUnique(r, items[i..]) == AppendedUnique(xs, items)
    {
      assert items[i..][1..] == items[i + 1..];
      if items[i] !in seen {
        r := r + [items[i]];
        seen := seen + {items[i]};
      }
    }
  }

  /** Appending keeps what is there, adds exactly the new items and never repeats one. */
  lemma {:induction false} AppendedUniqueMeaning(xs: seq<string>, items: seq<string>)
    ensures xs <= AppendedUnique(xs, items)
    ensures forall x :: x in AppendedUnique(xs, items) <==> x in xs || x in items
    ensures Permutations.Distinct(xs) ==> Permutations.Distinct(AppendedUnique(xs, items))
    decreases |items|
  {
    if items != [] {
      var next := if items[0] in xs then xs else xs + [items[0]];
      AppendedUniqueMeaning(next, items[1..]);
      assert items == [items[0]] + items[1..];
    }
  }

  function Accumulate(a: Artifacts, b: Artifacts): Artifacts {
    Artifacts(AppendedUnique(a.modified, b.modified), AppendedUnique(a.created, b.created),
              AppendedUnique(a.deleted, b.deleted))
  }

  // ---- The loop as a fold ----

  datatype Phase = Going | Stopped(status: ExecStatus)

  datatype RunState = RunState(phase: Phase, blocked: set<string>, called: seq<string>, rows: seq<StepRow>,
                               artifacts: Artifacts, checkpoints: seq<Checkpoint>)

  const Fresh := RunState(Going, {}, [], [], Artifacts([], [], []), [])

  /** A skipped step is never marked as running. */
  function SkipStatus(input: StepInput): StepStatus {
    if input.rowStored then StepSkipped else StepPending
  }

  function Advance(st: RunState, step: ScheduledStep, input: StepInput): RunState {
    var sid := StableIdOf(step);
    if st.phase != Going then st
    else if input.cancelled then st.(phase := Stopped(Cancelled))
    else if BlockingDep(step.depStableIds, st.blocked) != "" then
      st.(blocked := st.blocked + {sid},
          rows := if input.rowCreated then st.rows + [StepRow(sid, SkipStatus(input))] else st.rows)
    else if !input.rowCreated then st.(phase := Stopped(Failed))
    else if !input.tokenSigned then
      st.(phase := Stopped(Failed), rows := st.rows + [StepRow(sid, Stored(input, StepFailed))])
    else if input.stream.broken then
      st.(phase := Stopped(Failed), called := st.called + [sid],
          rows := st.rows + [StepRow(sid, Stored(input, StepFailed))])
    else
      var status := Judge(input.stream.deviation);
      var artifacts := Accumulate(st.artifacts, input.stream.touched);
      RunState(Going, if status == StepCompleted then st.blocked else st.blocked + {sid},
               st.called + [sid], st.rows + [StepRow(sid, Stored(input, status))], artifacts,
               st.checkpoints + if input.saved then [Checkpoint(sid, artifacts)] else [])
  }

  function StateAfter(steps: seq<ScheduledStep>, inputs: nat -> StepInput, k: nat): RunState
    requires k <= |steps|
  {
    if k == 0 then Fresh else Advance(StateAfter(steps, inputs, k - 1), steps[k - 1], inputs(k - 1))
  }

  /** The stored status of the execution: a stop is recorded only if that update succeeds, and a
      cancel was recorded by whoever cancelled. */
  function StatusAfter(start: ExecStatus, steps: seq<ScheduledStep>, inputs: nat -> StepInput, k: nat): ExecStatus
    requires k <= |steps|
  {
    if k == 0 then start else
      var before := StatusAfter(start, steps, inputs, k - 1);
      var was, now := StateAfter(steps, inputs, k - 1).phase, StateAfter(steps, inputs, k).phase;
      if was.Stopped? || now.Going? then before
      else if now.status == Cancelled || inputs(k - 1).statusStored then now.status
      else before
  }

  // ---- The loop ----

  datatype Report = Report(blocked: set<string>, called: seq<string>, artifacts: Artifacts,
                           completedSteps: int, deviatedSteps: int, skippedSteps: int)

  function CountIn(steps: seq<ScheduledStep>, blocked: set<string>): nat {
    if steps == [] then 0
    else (if StableIdOf(steps[|steps| - 1]) in blocked then 1 else 0) + CountIn(steps[..|steps| - 1], blocked)
  }

  function CountSkipped(rows: seq<StepRow>): nat {
    if rows == [] then 0
    else (if rows[|rows| - 1].status == StepSkipped then 1 else 0) + CountSkipped(rows[..|rows| - 1])
  }

  /** Counts steps by the blocked set, then moves the skipped ones from deviated to skipped. */
  method Tally(steps: seq<ScheduledStep>, blocked: set<string>, rows: seq<StepRow>)
    returns (completed: int, deviated: int, skipped: int)
    ensures completed == |steps| - CountIn(steps, blocked)
    ensures deviated == CountIn(steps, blocked) - CountSkipped(rows) && skipped == CountSkipped(rows)
  {
    completed, deviated, skipped := 0, 0, 0;
    for i := 0 to |steps|
      invariant completed == i - CountIn(steps[..i], blocked) && deviated == CountIn(steps[..i], blocked)
    {
      assert steps[..i + 1][..i] == steps[..i];
      if StableIdOf(steps[i]) in blocked {
        deviated := deviated + 1;
      } else {
        completed := completed + 1;
      }
    }
    assert steps[..|steps|] == steps;
    for i := 0 to |rows|
      invariant deviated == CountIn(steps, blocked) - CountSkipped(rows[..i]) && skipped == CountSkipped(rows[..i])
    {
      assert rows[..i + 1][..i] == rows[..i];
      if rows[i].status == StepSkipped {
        skipped := skipped + 1;
        deviated := deviated - 1;
      }
    }
    assert rows[..|rows|] == rows;
  }

  /** What `Run` leaves behind when the loop over `steps` is entered with the status `start`. `listed`
      and `finished` tell whether the final listing of the step rows and the final status update
      succeed. */
  ghost predicate RanLoop(record: ExecutionRecord, report: Report, steps: seq<ScheduledStep>,
                          inputs: nat -> StepInput, start: ExecStatus, listed: bool, finished: bool)
    reads record
  {
    var end := StateAfter(steps, inputs, |steps|);
    && record.rows == end.rows && record.checkpoints == end.checkpoints
    && report.blocked == end.blocked && report.called == end.called && report.artifacts == end.artifacts
    && match end.phase
       case Stopped(_) => record.status == StatusAfter(start, steps, inputs, |steps|)
       case Going =>
         var skipped := if listed then CountSkipped(end.rows) else 0;
         && record.status == (if !finished then start else if end.blocked != {} then CompletedWithDeviations
                              else Completed)
         && report.completedSteps == |steps| - CountIn(steps, end.blocked)
         && report.deviatedSteps == CountIn(steps, end.blocked) - skipped
         && report.skippedSteps == skipped
  }

  const NoReport := Report({}, [], Artifacts([], [], []), 0, 0, 0)

  /** The outcomes of the statements outside the loop: loading the execution, the start, an early failure,
      the final listing and the final status. */
  datatype RunFaults = RunFaults(loaded: bool, started: bool, failed: bool, listed: bool, finished: bool)

  /** Without its row nothing happens. A pending execution starts to run; one that is no longer pending, for
      instance because it was cancelled meanwhile, keeps its status. Then either the run fails before its
      first step, or the loop runs over the scheduled steps. */
  method Run(record: ExecutionRecord, body: Body, contextValid: bool, inputs: nat -> StepInput, ok: RunFaults)
    returns (report: Report, resolution: Option<Resolution>)
    requires record.rows == [] && record.checkpoints == []
    modifies record
    ensures resolution.None? <==> !ok.loaded
    ensures resolution.None? ==> record.status == old(record.status) && record.rows == [] && report == NoReport
    ensures resolution.Some? ==>
              && (resolution.value.Unresolved? <==> !HasSteps(body) || !Schedulable(StableSteps(StepsOf(body))))
              && (resolution.value.Scheduled? ==> exists order ::
                  ScheduledAs(StepsOf(body), resolution.value.steps, order))
    ensures resolution.Some? && (resolution.value.Unresolved? || !contextValid) ==>
              && record.status == (if ok.failed then Failed
                                   else if ok.started && old(record.status) == Pending then Running
                                   else old(record.status))
              && record.rows == [] && report == NoReport
    ensures resolution.Some? && resolution.value.Scheduled? && contextValid ==>
              var start := if ok.started && old(record.status) == Pending then Running else old(record.status);
              RanLoop(record, report, resolution.value.steps, inputs, start, ok.listed, ok.finished)
  {
    report := NoReport;
    if !ok.loaded {
      return NoReport, None;
    }
    if ok.started {
      record.MarkRunning();
    }
    var resolved := ResolveOrderedSteps(body);
    resolution := Some(resolved);
    assert resolved.Unresolved? ==>
             resolved.error.BadJson? || resolved.error.NoStepsArray? || resolved.error.CycleDetected?;
    if resolved.Unresolved? || !contextValid {
      if ok.failed {
        record.MarkFailed();
      }
      return;
    }
    report := RunLoop(record, resolved.steps, inputs, ok.listed, ok.finished);
  }

  ghost predicate Mirrors(record: ExecutionRecord, st: RunState, blocked: set<string>, called: seq<string>,
                          artifacts: Artifacts)
    reads record
  {
    && record.rows == st.rows && record.checkpoints == st.checkpoints
    && blocked == st.blocked && called == st.called && artifacts == st.artifacts
  }

  lemma {:induction false} StoppedStays(steps: seq<ScheduledStep>, inputs: nat -> StepInput, k: nat)
    requires k <= |steps| && StateAfter(steps, inputs, k).phase != Going
    ensures StateAfter(steps, inputs, |steps|) == StateAfter(steps, inputs, k)
    ensures forall start :: StatusAfter(start, steps, inputs, |steps|) == StatusAfter(start, steps, inputs, k)
    decreases |steps| - k
  {
    if k < |steps| {
      assert StateAfter(steps, inputs, k + 1) == StateAfter(steps, inputs, k);
      StoppedStays(steps, inputs, k + 1);
    }
  }

  /** The status an ended or continued step leaves the execution in. */
  function StatusNow(before: ExecStatus, phase: Phase, stored: bool): ExecStatus {
    match phase
    case Going => before
    case Stopped(status) => if status == Cancelled || stored then status else before
  }

  method RunStep(record: ExecutionRecord, step: ScheduledStep, input: StepInput, blocked: set<string>,
                 called: seq<string>,
                 artifacts: Artifacts, ghost st: RunState)
    returns (stop: bool, nowBlocked: set<string>, nowCalled: seq<string>, nowArtifacts: Artifacts)
    requires Mirrors(record, st, blocked, called, artifacts) && st.phase == Going
    modifies record
    ensures var next := Advance(st, step, input);
            && Mirrors(record, next, nowBlocked, nowCalled, nowArtifacts) && (stop <==> next.phase != Going)
            && record.status == StatusNow(old(record.status), next.phase, input.statusStored)
  {
    var sid := StableIdOf(step);
    stop, nowBlocked, nowCalled, nowArtifacts := false, blocked, called, artifacts;
    if input.cancelled {
      record.status := Cancelled;
      stop := true;
      return;
    }
    var blocker := FindBlockingDep(step.depStableIds, blocked);
    if blocker != "" {
      if input.rowCreated {
        record.AddRow(sid, SkipStatus(input));
      }
      nowBlocked := blocked + {sid};
      return;
    }
    if !input.rowCreated {
      stop := true;
    } else if !input.tokenSigned {
      record.AddRow(sid, Stored(input, StepFailed));
      stop := true;
    } else {
      nowCalled := called + [sid];
      if input.stream.broken {
        record.AddRow(sid, Stored(input, StepFailed));
        stop := true;
      } else {
        nowBlocked, nowArtifacts := FinishStep(record, sid, input, blocked, artifacts);
      }
    }
    if stop && input.statusStored {
      record.MarkFailed();
    }
  }

  /** The row, the artifacts and the checkpoint of a step whose stream ended. */
  method FinishStep(record: ExecutionRecord, sid: string, input: StepInput, blocked: set<string>, artifacts: Artifacts)
    returns (nowBlocked: set<string>, nowArtifacts: Artifacts)
    modifies record`rows, record`checkpoints
    ensures var status := Judge(input.stream.deviation);
            && nowBlocked == (if status == StepCompleted then blocked else blocked + {sid})
            && nowArtifacts == Accumulate(artifacts, input.stream.touched)
            && record.rows == old(record.rows) + [StepRow(sid, Stored(input, status))]
            && record.checkpoints ==
               old(record.checkpoints) + if input.saved then [Checkpoint(sid, nowArtifacts)] else []
  {
    var status := Judge(input.stream.deviation);
    record.AddRow(sid, Stored(input, status));
    nowBlocked := if status != StepCompleted then blocked + {sid} else blocked;
    var touched := input.stream.touched;
    var modified := AppendUnique(artifacts.modified, touched.modified);
    var created := AppendUnique(artifacts.created, touched.created);
    var deleted := AppendUnique(artifacts.deleted, touched.deleted);
    nowArtifacts := Artifacts(modified, created, deleted);
    if input.saved {
      record.checkpoints := record.checkpoints + [Checkpoint(sid, nowArtifacts)];
    }
  }

  method RunLoop(record: ExecutionRecord, steps: seq<ScheduledStep>, inputs: nat -> StepInput, listed: bool,
                 finished: bool)
    returns (report: Report)
    requires record.rows == [] && record.checkpoints == []
    modifies record
    ensures RanLoop(record, report, steps, inputs, old(record.status), listed, finished)
  {
    ghost var start := record.status;
    var blocked: set<string>, called: seq<string> := {}, [];
    var artifacts := Artifacts([], [], []);
    for i := 0 to |steps|
      invariant StateAfter(steps, inputs, i).phase == Going && record.status == start
      invariant StatusAfter(start, steps, inputs, i) == start
      invariant Mirrors(record, StateAfter(steps, inputs, i), blocked, called, artifacts)
    {
      var stop;
      stop, blocked, called, artifacts :=
        RunStep(record, steps[i], inputs(i), blocked, called, artifacts, StateAfter(steps, inputs, i));
      assert StateAfter(steps, inputs, i + 1) == Advance(StateAfter(steps, inputs, i), steps[i], inputs(i));
      if stop {
        StoppedStays(steps, inputs, i + 1);
        return Report(blocked, called, artifacts, 0, 0, 0);
      }
    }
    var completed, deviated, skipped := Tally(steps, blocked, if listed then record.rows else []);
    if finished {
      record.status := if blocked != {} then CompletedWithDeviations else Completed;
    }
    return Report(blocked, called, artifacts, completed, deviated, skipped);
  }
}
