/** What a run records, told from what the agent's streams said: the rows, the files touched, the checkpoints
    and the final status. */
module ExecutionOutcomes {
  import opened StepSchedule
  import opened PlanExecution
  import opened ExecutionProperties
  import Properties = ExecutionProperties

  // ---- One step ----

  /** Step `k` is handed to the agent, and its stream ends without a break. */
  ghost predicate Finishes(steps: seq<ScheduledStep>, inputs: nat -> StepInput, k: nat)
    requires k < |steps|
  {
    Properties.Going(steps, inputs, k) && CallsAgent(steps, inputs, k) && !inputs(k).stream.broken
  }

  /** The first of the step's dependencies that is blocked has a name. */
  ghost predicate SeesBlocked(deps: seq<string>, blocked: set<string>) {
    exists i :: 0 <= i < |deps| && deps[i] in blocked && deps[i] != "" && forall j :: 0 <= j < i ==> deps[j] !in blocked
  }

  lemma {:induction false} BlockingDepIff(deps: seq<string>, blocked: set<string>)
    ensures BlockingDep(deps, blocked) != "" <==> SeesBlocked(deps, blocked)
  {
    if deps != [] {
      BlockingDepIff(deps[1..], blocked);
      if deps[0] in blocked {
        assert SeesBlocked(deps, blocked) <==> deps[0] != "";
      } else {
        SeesLater(deps, blocked);
      }
    }
  }

  lemma SeesLater(deps: seq<string>, blocked: set<string>)
    requires deps != [] && deps[0] !in blocked
    ensures SeesBlocked(deps, blocked) <==> SeesBlocked(deps[1..], blocked)
  {
    if i :| 0 <= i < |deps| && deps[i] in blocked && deps[i] != "" && forall j :: 0 <= j < i ==> deps[j] !in blocked {
      assert deps[1..][i - 1] == deps[i];
    }
    if i :| 0 <= i < |deps| - 1 && deps[1..][i] in blocked && deps[1..][i] != ""
            && forall j :: 0 <= j < i ==> deps[1..][j] !in blocked {
      forall j | 0 <= j < i + 1 ensures deps[j] !in blocked {
        assert j > 0 ==> deps[1..][j - 1] == deps[j];
      }
      assert deps[i + 1] == deps[1..][i];
    }
  }

  /** Step `k` has the agent's stream to its end unless it is skipped, or the run stops at it. */
  lemma FinishesIff(steps: seq<ScheduledStep>, inputs: nat -> StepInput, k: nat)
    requires k < |steps| && Properties.Going(steps, inputs, k)
    ensures var input := inputs(k);
            var skipped := SeesBlocked(steps[k].depStableIds, StateAfter(steps, inputs, k).blocked);
            && (CallsAgent(steps, inputs, k) <==>
                !input.cancelled && !skipped && input.rowCreated && input.tokenSigned)
            && (Properties.Going(steps, inputs, k + 1) <==> !input.cancelled && (skipped || Finishes(steps, inputs, k)))
            && (!Properties.Going(steps, inputs, k + 1) ==>
                  StateAfter(steps, inputs, k + 1).phase == Stopped(if input.cancelled then Cancelled else Failed))
  {
    BlockingDepIff(steps[k].depStableIds, StateAfter(steps, inputs, k).blocked);
  }

  /** What a step that finishes leaves: it blocks its dependents exactly if its stream told neither of
      success nor that nothing was left to do, and its row says which. */
  lemma FinishedStepOutcome(steps: seq<ScheduledStep>, inputs: nat -> StepInput, k: nat)
    requires k < |steps| && Finishes(steps, inputs, k)
    ensures var sid, text := StableIdOf(steps[k]), inputs(k).stream.deviation;
            var before, after := StateAfter(steps, inputs, k), StateAfter(steps, inputs, k + 1);
            && after.blocked == before.blocked + (if text == "" || "already_satisfied:" <= text then {} else {sid})
            && |after.rows| == |before.rows| + 1 && after.rows[..|before.rows|] == before.rows
            && after.rows[|before.rows|].stableId == sid
            && (inputs(k).rowStored ==>
                  var status := after.rows[|before.rows|].status;
                  && (status == StepFailed <==> "execution_error:" <= text)
                  && (status == StepCompleted <==> text == "" || "already_satisfied:" <= text)
                  && status in {StepFailed, StepCompleted, StepDeviated})
  {
    var st, input := StateAfter(steps, inputs, k), inputs(k);
    JudgeIff(input.stream.deviation);
    FinishedRow(st, steps[k], input);
    assert StateAfter(steps, inputs, k + 1) == Advance(st, steps[k], input);
  }

  lemma FinishedRow(st: RunState, step: ScheduledStep, input: StepInput)
    requires st.phase.Going? && Advance(st, step, input).called == st.called + [StableIdOf(step)]
    requires !input.stream.broken
    ensures var next, status := Advance(st, step, input), Judge(input.stream.deviation);
            && next.rows == st.rows + [StepRow(StableIdOf(step), Stored(input, status))]
            && next.blocked == (if status == StepCompleted then st.blocked else st.blocked + {StableIdOf(step)})
  {
  }

  /** A step that is skipped blocks its own dependents, is not handed to the agent and touches nothing. */
  lemma SkippedStepOutcome(steps: seq<ScheduledStep>, inputs: nat -> StepInput, k: nat)
    requires k < |steps| && Properties.Going(steps, inputs, k) && !inputs(k).cancelled
    requires SeesBlocked(steps[k].depStableIds, StateAfter(steps, inputs, k).blocked)
    ensures var before, after := StateAfter(steps, inputs, k), StateAfter(steps, inputs, k + 1);
            && after.blocked == before.blocked + {StableIdOf(steps[k])} && after.called == before.called
            && after.artifacts == before.artifacts && after.checkpoints == before.checkpoints
            && after.rows == before.rows + (if !inputs(k).rowCreated then []
                                            else [StepRow(StableIdOf(steps[k]),
                                                          if inputs(k).rowStored then StepSkipped else StepPending)])
  {
    BlockingDepIff(steps[k].depStableIds, StateAfter(steps, inputs, k).blocked);
  }

  /** A step at which the run fails: without its row nothing is recorded; else the row is failed, if that
      can be stored. */
  lemma FailingStepOutcome(steps: seq<ScheduledStep>, inputs: nat -> StepInput, k: nat)
    requires k < |steps| && Properties.Going(steps, inputs, k) && !inputs(k).cancelled
    requires !Properties.Going(steps, inputs, k + 1)
    ensures var before, after := StateAfter(steps, inputs, k), StateAfter(steps, inputs, k + 1);
            && after.blocked == before.blocked && after.artifacts == before.artifacts
            && after.checkpoints == before.checkpoints
            && after.rows == before.rows + (if !inputs(k).rowCreated then []
                                            else [StepRow(StableIdOf(steps[k]),
                                                          if inputs(k).rowStored then StepFailed
                                                          else if inputs(k).rowStarted then StepRunning
                                                          else StepPending)])
  {
  }

  // ---- Files touched, checkpoints ----

  datatype Kind = Modified | Created | Deleted

  function ListOf(a: Artifacts, kind: Kind): seq<string> {
    match kind
    case Modified => a.modified
    case Created => a.created
    case Deleted => a.deleted
  }

  ghost predicate TouchedBy(steps: seq<ScheduledStep>, inputs: nat -> StepInput, m: nat, kind: Kind, path: string)
    requires m < |steps|
  {
    Finishes(steps, inputs, m) && path in ListOf(inputs(m).stream.touched, kind)
  }

  ghost predicate NoneTwice(paths: seq<string>) {
    forall i, j :: 0 <= i < j < |paths| ==> paths[i] != paths[j]
  }

  lemma OnlyFinishingTouches(steps: seq<ScheduledStep>, inputs: nat -> StepInput, k: nat)
    requires k < |steps| && !Finishes(steps, inputs, k)
    ensures StateAfter(steps, inputs, k + 1).artifacts == StateAfter(steps, inputs, k).artifacts
    ensures StateAfter(steps, inputs, k + 1).checkpoints == StateAfter(steps, inputs, k).checkpoints
  {
  }

  lemma FinishingTouches(steps: seq<ScheduledStep>, inputs: nat -> StepInput, k: nat, kind: Kind, path: string)
    requires k < |steps| && Finishes(steps, inputs, k)
    requires NoneTwice(ListOf(StateAfter(steps, inputs, k).artifacts, kind))
    ensures var before, after := StateAfter(steps, inputs, k).artifacts, StateAfter(steps, inputs, k + 1).artifacts;
            && NoneTwice(ListOf(after, kind))
            && (path in ListOf(after, kind) <==>
                path in ListOf(before, kind) || path in ListOf(inputs(k).stream.touched, kind))
  {
    AppendedUniqueMeaning(ListOf(StateAfter(steps, inputs, k).artifacts, kind), ListOf(inputs(k).stream.touched, kind));
  }

  lemma LastTouches(steps: seq<ScheduledStep>, inputs: nat -> StepInput, k: nat, kind: Kind, path: string)
    requires k < |steps| && NoneTwice(ListOf(StateAfter(steps, inputs, k).artifacts, kind))
    ensures var before, after := StateAfter(steps, inputs, k).artifacts, StateAfter(steps, inputs, k + 1).artifacts;
            && NoneTwice(ListOf(after, kind))
            && (path in ListOf(after, kind) <==>
                path in ListOf(before, kind) || TouchedBy(steps, inputs, k, kind, path))
  {
    if Finishes(steps, inputs, k) {
      FinishingTouches(steps, inputs, k, kind, path);
    } else {
      OnlyFinishingTouches(steps, inputs, k);
    }
  }

  ghost predicate TouchedBefore(steps: seq<ScheduledStep>, inputs: nat -> StepInput, k: nat, kind: Kind, path: string)
    requires k <= |steps|
  {
    exists m :: 0 <= m < k && TouchedBy(steps, inputs, m, kind, path)
  }

  lemma TouchedUpTo(steps: seq<ScheduledStep>, inputs: nat -> StepInput, k: nat, kind: Kind, path: string)
    requires k < |steps|
    ensures TouchedBefore(steps, inputs, k + 1, kind, path) <==>
            TouchedBefore(steps, inputs, k, kind, path) || TouchedBy(steps, inputs, k, kind, path)
  {
  }

  /** The list holds the path if one of the first `k` steps touched it so, and no path twice. */
  ghost predicate Listed(steps: seq<ScheduledStep>, inputs: nat -> StepInput, k: nat, kind: Kind, path: string)
    requires k <= |steps|
  {
    var list := ListOf(StateAfter(steps, inputs, k).artifacts, kind);
    NoneTwice(list) && (path in list <==> TouchedBefore(steps, inputs, k, kind, path))
  }

  lemma ListedFurther(steps: seq<ScheduledStep>, inputs: nat -> StepInput, k: nat, kind: Kind, path: string)
    requires k < |steps| && Listed(steps, inputs, k, kind, path)
    ensures Listed(steps, inputs, k + 1, kind, path)
  {
    LastTouches(steps, inputs, k, kind, path);
    TouchedUpTo(steps, inputs, k, kind, path);
  }

  lemma NothingListed(steps: seq<ScheduledStep>, inputs: nat -> StepInput, kind: Kind, path: string)
    ensures Listed(steps, inputs, 0, kind, path)
  {
  }

  /** After every step the run knows each touched file once, under what was done to it, and no other. */
  lemma {:induction false} ArtifactsAreTouched(steps: seq<ScheduledStep>, inputs: nat -> StepInput, k: nat, kind: Kind,
                                               path: string)
    requires k <= |steps|
    ensures Listed(steps, inputs, k, kind, path)
    decreases k, steps
  {
    if k == 0 {
      NothingListed(steps, inputs, kind, path);
    } else {
      ArtifactsAreTouched(steps, inputs, k - 1, kind, path);
      ListedFurther(steps, inputs, k - 1, kind, path);
    }
  }

  /** A finished step leaves a checkpoint, if it can be saved, with all that was touched so far. */
  lemma FinishedStepCheckpoint(steps: seq<ScheduledStep>, inputs: nat -> StepInput, k: nat)
    requires k < |steps| && Finishes(steps, inputs, k)
    ensures var before, after := StateAfter(steps, inputs, k), StateAfter(steps, inputs, k + 1);
            after.checkpoints == before.checkpoints +
                                 (if inputs(k).saved then [Checkpoint(StableIdOf(steps[k]), after.artifacts)] else [])
  {
  }

  // ---- The final status ----

  /** Each step was handed to the agent and told of success. */
  ghost predicate AllSucceed(steps: seq<ScheduledStep>, inputs: nat -> StepInput, k: nat)
    requires k <= |steps|
  {
    forall m :: 0 <= m < k ==> StepSucceeds(steps, inputs, m)
  }

  ghost predicate StepSucceeds(steps: seq<ScheduledStep>, inputs: nat -> StepInput, m: nat)
    requires m < |steps|
  {
    CallsAgent(steps, inputs, m) && Succeeds(inputs(m).stream.deviation)
  }

  lemma AllSucceedUpTo(steps: seq<ScheduledStep>, inputs: nat -> StepInput, k: nat)
    requires k < |steps|
    ensures AllSucceed(steps, inputs, k + 1) <==> AllSucceed(steps, inputs, k) && StepSucceeds(steps, inputs, k)
  {
  }

  lemma {:induction false} UnblockedIff(steps: seq<ScheduledStep>, inputs: nat -> StepInput, k: nat)
    requires k <= |steps| && Properties.Going(steps, inputs, k)
    ensures StateAfter(steps, inputs, k).blocked == {} <==> AllSucceed(steps, inputs, k)
  {
    if k > 0 {
      BlockedGrows(steps, inputs, k - 1, k);
      UnblockedIff(steps, inputs, k - 1);
      UnblockedStep(steps, inputs, k - 1);
      AllSucceedUpTo(steps, inputs, k - 1);
    }
  }

  lemma UnblockedStep(steps: seq<ScheduledStep>, inputs: nat -> StepInput, k: nat)
    requires k < |steps| && Properties.Going(steps, inputs, k) && Properties.Going(steps, inputs, k + 1)
    ensures StateAfter(steps, inputs, k + 1).blocked == {} <==>
            StateAfter(steps, inputs, k).blocked == {} && StepSucceeds(steps, inputs, k)
  {
    FinishesIff(steps, inputs, k);
    if Finishes(steps, inputs, k) {
      FinishedStepOutcome(steps, inputs, k);
    } else {
      SkippedStepOutcome(steps, inputs, k);
    }
  }

  /** A run that reaches its end and can record it is completed exactly if every step was handed to the agent
      and succeeded, and completed with deviations otherwise. */
  lemma FinalStatusMeaning(record: ExecutionRecord, report: Report, steps: seq<ScheduledStep>, inputs: nat -> StepInput,
                           start: ExecStatus, listed: bool, finished: bool)
    requires RanLoop(record, report, steps, inputs, start, listed, finished) && Properties.Going(steps, inputs, |steps|)
    ensures finished ==> record.status in {Completed, CompletedWithDeviations}
    ensures finished ==> (record.status == Completed <==> AllSucceed(steps, inputs, |steps|))
    ensures !finished ==> record.status == start
  {
    UnblockedIff(steps, inputs, |steps|);
  }

  /** A run that stops at step `k` is cancelled if that was read, and failed if that can be stored; the steps
      after it leave no trace. */
  lemma StoppedStatusMeaning(record: ExecutionRecord, report: Report, steps: seq<ScheduledStep>,
                             inputs: nat -> StepInput, start: ExecStatus, listed: bool, finished: bool, k: nat)
    requires RanLoop(record, report, steps, inputs, start, listed, finished)
    requires k < |steps| && Properties.Going(steps, inputs, k) && !Properties.Going(steps, inputs, k + 1)
    ensures record.status ==
            if inputs(k).cancelled then Cancelled else if inputs(k).statusStored then Failed else start
    ensures record.rows == StateAfter(steps, inputs, k + 1).rows
    ensures report.called == StateAfter(steps, inputs, k + 1).called
  {
    GoingKeepsStatus(start, steps, inputs, k);
    FinishesIff(steps, inputs, k);
    StoppedStays(steps, inputs, k + 1);
  }

  lemma {:induction false} GoingKeepsStatus(start: ExecStatus, steps: seq<ScheduledStep>, inputs: nat -> StepInput,
                                            k: nat)
    requires k <= |steps| && Properties.Going(steps, inputs, k)
    ensures StatusAfter(start, steps, inputs, k) == start
  {
    if k > 0 {
      GoingKeepsStatus(start, steps, inputs, k - 1);
    }
  }
}
