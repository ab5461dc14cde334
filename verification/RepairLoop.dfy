/** The bounded repair loop: how validation runs are compared, and what a session leaves behind. */
module RepairLoop {
  import opened Json
  import opened Workspaces
  import opened RepairRollback

  datatype Diagnostic = Diagnostic(stage: string, severity: string, filePath: Option<string>,
                                   repairCategory: Option<string>)

  datatype ValidationRun = ValidationRun(overall: Option<string>, diagnostics: seq<Diagnostic>)

  datatype Outcome = Passed | Improved | NoChange | Regressed | Unclassified

  // ---- Comparison ----

  function Errors(diagnostics: seq<Diagnostic>): nat {
    |Flawed(diagnostics)|
  }

  /** The diagnostics of error severity, in order. */
  function Flawed(diagnostics: seq<Diagnostic>): seq<Diagnostic> {
    if diagnostics == [] then [] else
      var last := diagnostics[|diagnostics| - 1];
      Flawed(diagnostics[..|diagnostics| - 1]) + if last.severity == "error" then [last] else []
  }

  ghost function ErrorPositions(diagnostics: seq<Diagnostic>): set<nat> {
    set i: nat | i < |diagnostics| && diagnostics[i].severity == "error"
  }

  lemma {:induction false} ErrorsAreCounted(diagnostics: seq<Diagnostic>)
    ensures Errors(diagnostics) == |ErrorPositions(diagnostics)|
  {
    if diagnostics != [] {
      var n := |diagnostics| - 1;
      ErrorsAreCounted(diagnostics[..n]);
      var before := ErrorPositions(diagnostics[..n]);
      if diagnostics[n].severity == "error" {
        assert ErrorPositions(diagnostics) == before + {n};
      } else {
        assert ErrorPositions(diagnostics) == before;
      }
    }
  }

  ghost predicate FailsIn(diagnostics: seq<Diagnostic>, stage: string) {
    exists d :: d in diagnostics && d.severity == "error" && d.stage == stage
  }

  /** No stage fails after that did not fail before. */
  ghost predicate NothingNewFails(before: ValidationRun, after: ValidationRun) {
    forall stage :: FailsIn(after.diagnostics, stage) ==> FailsIn(before.diagnostics, stage)
  }

  const PASSED := Some("passed")

  /** Runs whose verdict is decided by their diagnostics. */
  predicate Judged(run: ValidationRun) {
    run.overall.Some? && run.overall.value !in {"passed", "failed_environment", "failed_requires_human"}
  }

  ghost predicate Improves(before: ValidationRun, after: ValidationRun) {
    Judged(after) && NothingNewFails(before, after) && Errors(after.diagnostics) < Errors(before.diagnostics)
  }

  ghost predicate Worsens(before: ValidationRun, after: ValidationRun) {
    Judged(after) && (!NothingNewFails(before, after) || Errors(after.diagnostics) > Errors(before.diagnostics))
  }

  ghost function Verdict(before: ValidationRun, after: ValidationRun): Outcome {
    if after.overall == PASSED then Passed
    else if after.overall.None? then Unclassified
    else if Improves(before, after) then Improved
    else if Worsens(before, after) then Regressed
    else NoChange
  }

  method CountErrorDiagnostics(diagnostics: seq<Diagnostic>) returns (n: nat)
    ensures n == Errors(diagnostics) == |ErrorPositions(diagnostics)|
  {
    ErrorsAreCounted(diagnostics);
    n := 0;
    for i := 0 to |diagnostics|
      invariant n == Errors(diagnostics[..i])
    {
      assert diagnostics[..i + 1][..i] == diagnostics[..i];
      if diagnostics[i].severity == "error" {
        n := n + 1;
      }
    }
    assert diagnostics[..|diagnostics|] == diagnostics;
  }

  method FailingStages(diagnostics: seq<Diagnostic>) returns (stages: set<string>)
    ensures forall stage :: stage in stages <==> FailsIn(diagnostics, stage)
  {
    stages := {};
    for i := 0 to |diagnostics|
      invariant forall stage :: stage in stages <==> FailsIn(diagnostics[..i], stage)
    {
      var d := diagnostics[i];
      assert diagnostics[..i + 1] == diagnostics[..i] + [d];
      forall stage ensures FailsIn(diagnostics[..i + 1], stage) <==>
                           FailsIn(diagnostics[..i], stage) || (d.severity == "error" && d.stage == stage)
      {
        OneMoreDiagnostic(diagnostics[..i], d, stage);
      }
      if d.severity == "error" {
        stages := stages + {d.stage};
      }
    }
    assert diagnostics[..|diagnostics|] == diagnostics;
  }

  lemma OneMoreDiagnostic(diagnostics: seq<Diagnostic>, d: Diagnostic, stage: string)
    ensures FailsIn(diagnostics + [d], stage) <==>
            FailsIn(diagnostics, stage) || (d.severity == "error" && d.stage == stage)
  {
    if FailsIn(diagnostics, stage) {
      var e :| e in diagnostics && e.severity == "error" && e.stage == stage;
      assert e in diagnostics + [d];
    }
    if d.severity == "error" && d.stage == stage {
      assert d in diagnostics + [d];
    }
  }

  method CompareValidationOutcomes(before: ValidationRun, after: ValidationRun) returns (outcome: Outcome)
    ensures outcome == Verdict(before, after)
    ensures outcome == Passed <==> after.overall == Some("passed")
    ensures outcome == Unclassified <==> after.overall == None
    ensures after.overall in {Some("failed_environment"), Some("failed_requires_human")} ==> outcome == NoChange
    ensures outcome == Improved ==> Errors(after.diagnostics) < Errors(before.diagnostics)
    ensures outcome in {Improved, NoChange} && Judged(after) ==> NothingNewFails(before, after)
    ensures outcome == Regressed ==>
              Errors(after.diagnostics) > Errors(before.diagnostics) || !NothingNewFails(before, after)
    ensures outcome == NoChange && Judged(after) ==> Errors(after.diagnostics) == Errors(before.diagnostics)
  {
    if after.overall == PASSED {
      return Passed;
    }
    if after.overall.None? {
      return Unclassified;
    }
    if after.overall.value == "failed_environment" || after.overall.value == "failed_requires_human" {
      return NoChange;
    }
    var beforeErrors := CountErrorDiagnostics(before.diagnostics);
    var afterErrors := CountErrorDiagnostics(after.diagnostics);
    var beforeFailing := FailingStages(before.diagnostics);
    var afterFailing := FailingStages(after.diagnostics);
    if !(afterFailing <= beforeFailing) {
      var stage :| stage in afterFailing && stage !in beforeFailing;
      assert FailsIn(after.diagnostics, stage) && !FailsIn(before.diagnostics, stage);
      return Regressed;
    }
    assert NothingNewFails(before, after);
    outcome := if afterErrors < beforeErrors then Improved else if afterErrors > beforeErrors then Regressed
        else NoChange;
  }

  // ---- The order of runs ----

  lemma NothingNewFailsComposes(a: ValidationRun, b: ValidationRun, c: ValidationRun)
    requires NothingNewFails(a, b) && NothingNewFails(b, c)
    ensures NothingNewFails(a, c)
  {
  }

  /** "Improved" is a strict partial order, and no run is both better and worse than another. */
  lemma ImprovedIsStrictOrder(a: ValidationRun, b: ValidationRun, c: ValidationRun)
    ensures Verdict(a, a) != Improved
    ensures Verdict(a, b) == Improved ==> Verdict(b, a) != Improved
    ensures Verdict(a, b) == Improved && Verdict(b, c) == Improved ==> Verdict(a, c) == Improved
  {
    if Verdict(a, b) == Improved && Verdict(b, c) == Improved {
      NothingNewFailsComposes(a, b, c);
    }
  }

  /** Undoing an improvement is a regression. */
  lemma UndoneImprovementRegresses(a: ValidationRun, b: ValidationRun)
    requires Judged(a) && Verdict(a, b) == Improved
    ensures Verdict(b, a) == Regressed
  {
    assert Worsens(b, a) && !Improves(b, a);
  }

  /** Among these runs every regression can be read backwards as an improvement. */
  ghost predicate RegressionsReverse(runs: set<ValidationRun>) {
    forall a, b :: a in runs && b in runs && Verdict(a, b) == Regressed ==> Verdict(b, a) == Improved
  }

  /** Among these runs, one with no more errors than another fails in no further stage. */
  ghost predicate StagesFollowErrors(runs: set<ValidationRun>) {
    forall a, b :: a in runs && b in runs && Errors(a.diagnostics) <= Errors(b.diagnostics) ==> NothingNewFails(b, a)
  }

  /** Of any two of these runs one improves on the other, or they have as many errors in the same stages. */
  ghost predicate LinearlyImproved(runs: set<ValidationRun>) {
    forall a, b :: a in runs && b in runs ==>
      || Verdict(a, b) == Improved || Verdict(b, a) == Improved
      || (Errors(a.diagnostics) == Errors(b.diagnostics) && NothingNewFails(a, b) && NothingNewFails(b, a))
  }

  /** "Regressed" is the converse of "improved" on a set of runs exactly when failing stages follow the
      error count there, and exactly when "improved" orders the runs linearly. */
  lemma RegressedIsConverseIff(runs: set<ValidationRun>)
    requires forall run :: run in runs ==> Judged(run)
    ensures RegressionsReverse(runs) <==> StagesFollowErrors(runs)
    ensures LinearlyImproved(runs) <==> StagesFollowErrors(runs)
  {
    LinearIff(runs);
    if RegressionsReverse(runs) {
      forall a, b | a in runs && b in runs && Errors(a.diagnostics) <= Errors(b.diagnostics)
          ensures NothingNewFails(b, a) {
        assert Verdict(b, a) == Regressed ==> Verdict(a, b) == Improved;
      }
    }
    if StagesFollowErrors(runs) {
      forall a, b | a in runs && b in runs && Verdict(a, b) == Regressed ensures Verdict(b, a) == Improved {
        assert Errors(b.diagnostics) <= Errors(a.diagnostics) ==> NothingNewFails(a, b);
        assert Errors(a.diagnostics) <= Errors(b.diagnostics) ==> NothingNewFails(b, a);
      }
    }
  }

  lemma LinearIff(runs: set<ValidationRun>)
    requires forall run :: run in runs ==> Judged(run)
    ensures LinearlyImproved(runs) <==> StagesFollowErrors(runs)
  {
    if StagesFollowErrors(runs) {
      forall a, b | a in runs && b in runs && Errors(a.diagnostics) <= Errors(b.diagnostics)
        ensures Errors(a.diagnostics) < Errors(b.diagnostics) ==> Verdict(b, a) == Improved
      {
        assert NothingNewFails(b, a);
      }
    }
    if LinearlyImproved(runs) {
      forall a, b | a in runs && b in runs && Errors(a.diagnostics) <= Errors(b.diagnostics)
          ensures NothingNewFails(b, a) {
        assert Verdict(a, b) == Improved ==> Errors(b.diagnostics) < Errors(a.diagnostics);
      }
    }
  }

  function Broken(stage: string): Diagnostic {
    Diagnostic(stage, "error", None, None)
  }

  /** Two build errors against one test error: each is a regression from the other. */
  lemma EachRegressesFromTheOther()
    ensures var a, b := ValidationRun(Some("failed_repairable"), [Broken("build"), Broken("build")]),
                        ValidationRun(Some("failed_repairable"), [Broken("test")]);
            Verdict(a, b) == Regressed && Verdict(b, a) == Regressed
  {
    var a, b := ValidationRun(Some("failed_repairable"), [Broken("build"), Broken("build")]),
                ValidationRun(Some("failed_repairable"), [Broken("test")]);
    assert Broken("test") in b.diagnostics && Broken("build") in a.diagnostics;
    assert FailsIn(b.diagnostics, "test") && !FailsIn(a.diagnostics, "test");
    assert FailsIn(a.diagnostics, "build") && !FailsIn(b.diagnostics, "build");
  }

  // ---- The loop ----

  const MAX_ATTEMPTS := 3

  datatype AgentRun =
    | AgentFailed(events: seq<AttemptEvent>)
    | AgentGaveUp(events: seq<AttemptEvent>)
    | AgentDone(events: seq<AttemptEvent>, modified: seq<string>)

  /** What an attempt meets: a cancel request, a spent time budget, the agent's run, and validation. */
  datatype Input = Input(cancelled: bool, overtime: bool, agent: AgentRun, validation: Option<ValidationRun>)

  datatype End =
    | Denied | Cancelled | TimeExhausted | AttemptsExhausted
    | AgentError | CannotRepair | ValidationError | Settled(outcome: Outcome)

  /** A validated attempt: the workspace before it and as validated, what was captured, the files it
      reports, and the verdict. */
  datatype Attempt = Attempt(start: Files, validated: Files, capture: Capture, modified: seq<string>,
                             run: ValidationRun, outcome: Outcome)

  datatype Session = Session(files: Files, attempts: seq<Attempt>, end: Option<End>)

  predicate Repairable(d: Diagnostic) {
    d.repairCategory == Some("auto_fixable")
  }

  predicate Permitted(trigger: ValidationRun) {
    trigger.overall == Some("failed_repairable") && exists d :: d in trigger.diagnostics && Repairable(d)
  }

  /** Paths of the repairable diagnostics. */
  function PathsToFix(diagnostics: seq<Diagnostic>): seq<Option<string>> {
    if diagnostics == [] then [] else
      var last := diagnostics[|diagnostics| - 1];
      PathsToFix(diagnostics[..|diagnostics| - 1]) + if Repairable(last) then [last.filePath] else []
  }

  method RepairablePaths(diagnostics: seq<Diagnostic>) returns (paths: seq<Option<string>>, any: bool)
    ensures paths == PathsToFix(diagnostics) && (any <==> exists d :: d in diagnostics && Repairable(d))
  {
    paths, any := [], false;
    for i := 0 to |diagnostics|
      invariant paths == PathsToFix(diagnostics[..i])
      invariant any <==> exists k :: 0 <= k < i && Repairable(diagnostics[k])
    {
      assert diagnostics[..i + 1][..i] == diagnostics[..i];
      if Repairable(diagnostics[i]) {
        paths, any := paths + [diagnostics[i].filePath], true;
      }
    }
    assert diagnostics[..|diagnostics|] == diagnostics;
    assert any ==> exists d :: d in diagnostics && Repairable(d) by {
      if any {
        var k :| 0 <= k < |diagnostics| && Repairable(diagnostics[k]);
        assert diagnostics[k] in diagnostics;
      }
    }
  }

  /** They are the paths of the diagnostics that are marked as fixable, and of no others. */
  lemma {:induction false} PathsToFixMeaning(diagnostics: seq<Diagnostic>, path: Option<string>)
    ensures path in PathsToFix(diagnostics) <==>
            exists d :: d in diagnostics && d.repairCategory == Some("auto_fixable") && d.filePath == path
  {
    if diagnostics != [] {
      var n := |diagnostics| - 1;
      PathsToFixMeaning(diagnostics[..n], path);
      assert diagnostics == diagnostics[..n] + [diagnostics[n]];
    }
  }

  ghost function AfterAttempt(s: Session, trigger: ValidationRun, input: Input): Session {
    if s.end.Some? then s
    else if input.cancelled then s.(end := Some(Cancelled))
    else if input.overtime then s.(end := Some(TimeExhausted))
    else
      var (files, capture) := Replay(s.files, Snapshot(s.files, PathsToFix(trigger.diagnostics)), input.agent.events);
      if input.agent.AgentFailed? then s.(files := files, end := Some(AgentError))
      else if input.agent.AgentGaveUp? then s.(files := files, end := Some(CannotRepair))
      else if input.validation.None? then s.(files := files, end := Some(ValidationError))
      else
        var run := input.validation.value;
        var outcome := Verdict(trigger, run);
        Session(if outcome == Regressed then RolledBack(files, Checkpoint(capture, input.agent.modified)) else files,
                s.attempts + [Attempt(s.files, files, capture, input.agent.modified, run, outcome)],
                if outcome == Improved then None else Some(Settled(outcome)))
  }

  ghost function After(files: Files, trigger: ValidationRun, inputs: nat -> Input, n: nat): Session
    decreases n, inputs
  {
    if n == 0 then Session(files, [], None)
    else AfterAttempt(After(files, trigger, inputs, n - 1), trigger, inputs(n - 1))
  }

  /** A whole session on a triggering validation run. */
  ghost function Repaired(files: Files, trigger: ValidationRun, inputs: nat -> Input): Session {
    if !Permitted(trigger) then Session(files, [], Some(Denied)) else
      var s := After(files, trigger, inputs, MAX_ATTEMPTS);
      if s.end.Some? then s else s.(end := Some(AttemptsExhausted))
  }

  method Run(ws: Workspace, trigger: ValidationRun, inputs: nat -> Input) returns (end: End, attempts: nat)
    modifies ws
    ensures var s := Repaired(old(ws.files), trigger, inputs);
            ws.files == s.files && s.end == Some(end) && attempts == |s.attempts|
  {
    attempts := 0;
    var paths, any := RepairablePaths(trigger.diagnostics);
    if trigger.overall != Some("failed_repairable") || !any {
      return Denied, 0;
    }
    ghost var start := ws.files;
    ghost var s := Session(start, [], None);
    var attemptNum := 0;
    while attemptNum < MAX_ATTEMPTS
      invariant attemptNum <= MAX_ATTEMPTS
      invariant s == After(start, trigger, inputs, attemptNum) && s.end.None?
      invariant ws.files == s.files && attempts == |s.attempts|
    {
      ghost var before := s;
      var stop, validated := ExecuteAttempt(ws, trigger, paths, inputs(attemptNum));
      s := AfterAttempt(before, trigger, inputs(attemptNum));
      AttemptResult(before, trigger, inputs(attemptNum));
      attemptNum := attemptNum + 1;
      attempts := attempts + if validated then 1 else 0;
      if stop.Some? {
        EndedStays(start, trigger, inputs, attemptNum, MAX_ATTEMPTS);
        return stop.value, attempts;
      }
    }
    end := AttemptsExhausted;
  }

  /** One round of the loop; the attempt is validated unless something stops it before. */
  method ExecuteAttempt(ws: Workspace, trigger: ValidationRun, paths: seq<Option<string>>, input: Input)
    returns (stop: Option<End>, validated: bool)
    requires paths == PathsToFix(trigger.diagnostics)
    modifies ws
    ensures var s := AfterAttempt(Session(old(ws.files), [], None), trigger, input);
            ws.files == s.files && stop == s.end && validated == (s.attempts != [])
  {
    if input.cancelled {
      return Some(Cancelled), false;
    }
    if input.overtime {
      return Some(TimeExhausted), false;
    }
    var before := SnapshotBeforeContent(ws, paths);
    var capture := RunAgentStream(ws, before, input.agent.events);
    if input.agent.AgentFailed? {
      return Some(AgentError), false;
    }
    if input.agent.AgentGaveUp? {
      return Some(CannotRepair), false;
    }
    var entries := CollectCheckpoint(capture, input.agent.modified);
    if input.validation.None? {
      return Some(ValidationError), false;
    }
    var outcome := CompareValidationOutcomes(trigger, input.validation.value);
    validated := true;
    if outcome == Regressed {
      RollbackFromCheckpoint(ws, entries);
    }
    stop := if outcome == Improved then None else Some(Settled(outcome));
  }

  /** A round does the same whatever attempts came before. */
  lemma AttemptResult(s: Session, trigger: ValidationRun, input: Input)
    requires s.end.None?
    ensures var next, alone := AfterAttempt(s, trigger, input),
              AfterAttempt(Session(s.files, [], None), trigger, input);
            next.files == alone.files && next.end == alone.end && next.attempts == s.attempts + alone.attempts
            && |alone.attempts| <= 1
  {
  }

  lemma {:induction false} EndedStays(files: Files, trigger: ValidationRun, inputs: nat -> Input, n: nat, m: nat)
    requires n <= m && After(files, trigger, inputs, n).end.Some?
    ensures After(files, trigger, inputs, m) == After(files, trigger, inputs, n)
    decreases m
  {
    if n < m {
      EndedStays(files, trigger, inputs, n, m - 1);
    }
  }

  // ---- What a session leaves behind ----

  /** Where the attempts so far leave the workspace if nothing is rolled back. */
  function Reached(start: Files, attempts: seq<Attempt>): Files {
    if attempts == [] then start else attempts[|attempts| - 1].validated
  }

  /** Attempts follow each other on the same workspace, and each that is followed by another improved
      on the triggering run. */
  ghost predicate Chained(start: Files, trigger: ValidationRun, attempts: seq<Attempt>) {
    attempts == [] ||
    var shorter, last := attempts[..|attempts| - 1], attempts[|attempts| - 1];
    && Chained(start, trigger, shorter) && AllImproved(trigger, shorter)
    && last.start == Reached(start, shorter) && last.outcome == Verdict(trigger, last.run)
  }

  ghost predicate AllImproved(trigger: ValidationRun, attempts: seq<Attempt>) {
    forall k :: 0 <= k < |attempts| ==> Improves(trigger, attempts[k].run)
  }

  lemma {:induction false} EverySessionIsChained(files: Files, trigger: ValidationRun, inputs: nat -> Input, n: nat)
    ensures var s := After(files, trigger, inputs, n);
            && Chained(files, trigger, s.attempts) && |s.attempts| <= n
            && (s.end.None? ==> s.files == Reached(files, s.attempts) && AllImproved(trigger, s.attempts))
            && s.end != Some(AttemptsExhausted) && s.end != Some(Denied)
    decreases n
  {
    if n > 0 {
      var before := After(files, trigger, inputs, n - 1);
      EverySessionIsChained(files, trigger, inputs, n - 1);
      AttemptKeepsChain(before, files, trigger, inputs(n - 1));
    }
  }

  lemma AttemptKeepsChain(s: Session, start: Files, trigger: ValidationRun, input: Input)
    requires Chained(start, trigger, s.attempts) && s.end != Some(AttemptsExhausted) && s.end != Some(Denied)
    requires s.end.None? ==> s.files == Reached(start, s.attempts) && AllImproved(trigger, s.attempts)
    ensures var next := AfterAttempt(s, trigger, input);
            && Chained(start, trigger, next.attempts) && |next.attempts| <= |s.attempts| + 1
            && (next.end.None? ==> next.files == Reached(start, next.attempts) && AllImproved(trigger, next.attempts))
            && next.end != Some(AttemptsExhausted) && next.end != Some(Denied)
  {
    var added := AttemptShape(s, trigger, input);
    if added != [] {
      ChainExtends(start, trigger, s.attempts, added[0]);
    } else {
      assert s.attempts + added == s.attempts;
    }
  }

  lemma AttemptShape(s: Session, trigger: ValidationRun, input: Input) returns (added: seq<Attempt>)
    ensures var next := AfterAttempt(s, trigger, input);
            && next.attempts == s.attempts + added && |added| <= 1
            && (added == [] ==> next.end.Some? && (s.end.Some? ==> next.end == s.end))
            && (added != [] ==>
                  && s.end.None? && added[0].start == s.files && added[0].outcome == Verdict(trigger, added[0].run)
                  && (next.end.None? ==> added[0].outcome == Improved && next.files == added[0].validated)
                  && (next.end.Some? ==> next.end.value.Settled?))
            && (s.end.None? && next.end.Some? ==> !next.end.value.AttemptsExhausted? && !next.end.value.Denied?)
  {
    var next := AfterAttempt(s, trigger, input);
    added := next.attempts[|s.attempts|..];
  }

  lemma ChainExtends(start: Files, trigger: ValidationRun, attempts: seq<Attempt>, a: Attempt)
    requires Chained(start, trigger, attempts) && AllImproved(trigger, attempts)
    requires a.start == Reached(start, attempts) && a.outcome == Verdict(trigger, a.run)
    ensures Chained(start, trigger, attempts + [a])
    ensures a.outcome == Improved ==> AllImproved(trigger, attempts + [a])
  {
    assert (attempts + [a])[..|attempts|] == attempts;
  }

  lemma {:induction false} ChainAt(start: Files, trigger: ValidationRun, attempts: seq<Attempt>, k: nat)
    requires Chained(start, trigger, attempts) && k < |attempts|
    ensures attempts[k].start == if k == 0 then start else attempts[k - 1].validated
    ensures k > 0 ==> Improves(trigger, attempts[k - 1].run)
  {
    if k < |attempts| - 1 {
      ChainAt(start, trigger, attempts[..|attempts| - 1], k);
    }
  }

  /** At most three attempts run. Every attempt but the first starts from a workspace whose validation
      has strictly fewer errors than the triggering run and no newly failing stage. */
  lemma LaterAttemptsBuildOnImprovement(files: Files, trigger: ValidationRun, inputs: nat -> Input, k: nat)
    requires k < |Repaired(files, trigger, inputs).attempts|
    ensures var s := Repaired(files, trigger, inputs);
            && |s.attempts| <= MAX_ATTEMPTS
            && (k == 0 ==> s.attempts[0].start == files)
            && (k > 0 ==>
                  s.attempts[k].start == s.attempts[k - 1].validated && Improves(trigger, s.attempts[k - 1].run))
  {
    EverySessionIsChained(files, trigger, inputs, MAX_ATTEMPTS);
    ChainAt(files, trigger, Repaired(files, trigger, inputs).attempts, k);
  }

  /** The attempt changed no file that it does not report, and what it reports was captured in time. */
  ghost predicate Undoable(a: Attempt) {
    OthersUnchanged(a.start, a.validated, a.modified) && CapturedAsWas(a.start, a.capture, a.modified)
  }

  /** Rolled back to the start of the last attempt exactly if that one can be undone. */
  ghost predicate RolledBackIff(files: Files, attempts: seq<Attempt>) {
    attempts != [] && (files == attempts[|attempts| - 1].start <==> Undoable(attempts[|attempts| - 1]))
  }

  lemma RegressionIsUndoneIff(s: Session, trigger: ValidationRun, input: Input)
    requires s.end.None? && AfterAttempt(s, trigger, input).end == Some(Settled(Regressed))
    ensures RolledBackIff(AfterAttempt(s, trigger, input).files, AfterAttempt(s, trigger, input).attempts)
  {
    var (end, c) := Replay(s.files, Snapshot(s.files, PathsToFix(trigger.diagnostics)), input.agent.events);
    RollbackRestoresIff(s.files, end, c, input.agent.modified);
  }

  lemma {:induction false} RegressedSession(files: Files, trigger: ValidationRun, inputs: nat -> Input, n: nat)
    requires After(files, trigger, inputs, n).end == Some(Settled(Regressed))
    ensures RolledBackIff(After(files, trigger, inputs, n).files, After(files, trigger, inputs, n).attempts)
    decreases n
  {
    var before := After(files, trigger, inputs, n - 1);
    if before.end.Some? {
      RegressedSession(files, trigger, inputs, n - 1);
    } else {
      RegressionIsUndoneIff(before, trigger, inputs(n - 1));
    }
  }

  /** Every session that ends in a regression is back at the start of its last attempt exactly when that
      attempt changed no file beyond those it reports and captured these in time; and that start is the
      initial workspace, or one that was validated with an improvement. */
  lemma RegressionLeavesNoWorseWorkspace(files: Files, trigger: ValidationRun, inputs: nat -> Input)
    requires Repaired(files, trigger, inputs).end == Some(Settled(Regressed))
    ensures RolledBackIff(Repaired(files, trigger, inputs).files, Repaired(files, trigger, inputs).attempts)
    ensures var attempts := Repaired(files, trigger, inputs).attempts;
            attempts[|attempts| - 1].start == files ||
            exists j :: 0 <= j < |attempts| && attempts[j].validated == attempts[|attempts| - 1].start
                        && Improves(trigger, attempts[j].run)
  {
    EverySessionIsChained(files, trigger, inputs, MAX_ATTEMPTS);
    RegressedSession(files, trigger, inputs, MAX_ATTEMPTS);
    var attempts := Repaired(files, trigger, inputs).attempts;
    ChainAt(files, trigger, attempts, |attempts| - 1);
  }

  /** Running out of attempts means three improvements in a row, none of which passed. */
  lemma ExhaustionMeansSteadyImprovement(files: Files, trigger: ValidationRun, inputs: nat -> Input)
    requires Repaired(files, trigger, inputs).end == Some(AttemptsExhausted)
    ensures var s := Repaired(files, trigger, inputs);
            |s.attempts| == MAX_ATTEMPTS && forall k :: 0 <= k < MAX_ATTEMPTS ==> Improves(trigger, s.attempts[k].run)
  {
    EverySessionIsChained(files, trigger, inputs, MAX_ATTEMPTS);
    UnendedCountsAttempts(files, trigger, inputs, MAX_ATTEMPTS);
  }

  lemma {:induction false} UnendedCountsAttempts(files: Files, trigger: ValidationRun, inputs: nat -> Input, n: nat)
    requires After(files, trigger, inputs, n).end.None?
    ensures |After(files, trigger, inputs, n).attempts| == n
    decreases n
  {
    if n > 0 {
      UnendedCountsAttempts(files, trigger, inputs, n - 1);
    }
  }

  // ---- How a session ends ----

  /** The agent gets to work: the round is neither cancelled nor out of time. */
  predicate Starts(input: Input) {
    !input.cancelled && !input.overtime
  }

  /** What the agent's changes make of the workspace. */
  function Worked(files: Files, trigger: ValidationRun, input: Input): Files {
    Replay(files, Snapshot(files, PathsToFix(trigger.diagnostics)), input.agent.events).0
  }

  /** Round `k` was validated and recorded as it went. */
  ghost predicate RoundRecorded(start: Files, trigger: ValidationRun, input: Input, attempts: seq<Attempt>, k: nat)
    requires k < |attempts|
  {
    var a := attempts[k];
    && Starts(input) && input.agent.AgentDone? && input.validation == Some(a.run)
    && a.start == Reached(start, attempts[..k]) && a.validated == Worked(a.start, trigger, input)
    && a.modified == input.agent.modified && a.outcome == Verdict(trigger, a.run)
  }

  ghost predicate RoundsRecorded(start: Files, trigger: ValidationRun, inputs: nat -> Input, attempts: seq<Attempt>) {
    forall k :: 0 <= k < |attempts| ==> RoundRecorded(start, trigger, inputs(k), attempts, k)
  }

  /** The last round explains the end: `n` rounds were validated, and the next one, if any, met `input`. */
  ghost predicate EndExplained(start: Files, trigger: ValidationRun, input: Input, attempts: seq<Attempt>, files: Files,
                               end: End) {
    var reached := Reached(start, attempts);
    match end
    case Cancelled => input.cancelled && files == reached
    case TimeExhausted => !input.cancelled && input.overtime && files == reached
    case AgentError => Starts(input) && input.agent.AgentFailed? && files == Worked(reached, trigger, input)
    case CannotRepair => Starts(input) && input.agent.AgentGaveUp? && files == Worked(reached, trigger, input)
    case ValidationError =>
      && Starts(input) && input.agent.AgentDone? && input.validation.None?
      && files == Worked(reached, trigger, input)
    case Settled(outcome) =>
      && attempts != [] && attempts[|attempts| - 1].outcome == outcome != Improved
      && (outcome != Regressed ==> files == reached)
    case AttemptsExhausted => |attempts| == MAX_ATTEMPTS && files == reached
    case Denied => attempts == [] && files == start
  }

  ghost predicate Explained(start: Files, trigger: ValidationRun, inputs: nat -> Input, s: Session) {
    && RoundsRecorded(start, trigger, inputs, s.attempts)
    && if s.end.None? then s.files == Reached(start, s.attempts)
       else EndExplained(start, trigger, inputs(|s.attempts|), s.attempts, s.files, s.end.value)
  }

  lemma RecordedExtends(start: Files, trigger: ValidationRun, inputs: nat -> Input, attempts: seq<Attempt>, a: Attempt)
    requires RoundsRecorded(start, trigger, inputs, attempts)
    requires RoundRecorded(start, trigger, inputs(|attempts|), attempts + [a], |attempts|)
    ensures RoundsRecorded(start, trigger, inputs, attempts + [a])
  {
    forall k | 0 <= k < |attempts| ensures RoundRecorded(start, trigger, inputs(k), attempts + [a], k) {
      assert (attempts + [a])[..k] == attempts[..k];
      assert RoundRecorded(start, trigger, inputs(k), attempts, k);
    }
  }

  lemma AttemptExplained(start: Files, trigger: ValidationRun, inputs: nat -> Input, s: Session)
    requires s.end.None? && Explained(start, trigger, inputs, s)
    ensures Explained(start, trigger, inputs, AfterAttempt(s, trigger, inputs(|s.attempts|)))
  {
    var input := inputs(|s.attempts|);
    var next := AfterAttempt(s, trigger, input);
    if next.attempts != s.attempts {
      var a := next.attempts[|s.attempts|];
      assert next.attempts == s.attempts + [a] && next.attempts[..|s.attempts|] == s.attempts;
      RecordedExtends(start, trigger, inputs, s.attempts, a);
    }
  }

  lemma RoundExplained(start: Files, trigger: ValidationRun, inputs: nat -> Input, s: Session, n: nat)
    requires Explained(start, trigger, inputs, s) && (s.end.None? ==> |s.attempts| == n)
    ensures Explained(start, trigger, inputs, AfterAttempt(s, trigger, inputs(n)))
  {
    if s.end.None? {
      AttemptExplained(start, trigger, inputs, s);
    }
  }

  lemma {:induction false} RoundsExplained(files: Files, trigger: ValidationRun, inputs: nat -> Input, n: nat)
    ensures Explained(files, trigger, inputs, After(files, trigger, inputs, n))
    decreases n
  {
    if n > 0 {
      RoundsExplained(files, trigger, inputs, n - 1);
      if After(files, trigger, inputs, n - 1).end.None? {
        UnendedCountsAttempts(files, trigger, inputs, n - 1);
      }
      RoundExplained(files, trigger, inputs, After(files, trigger, inputs, n - 1), n - 1);
    }
  }

  /** Every session, by how it ends: which round stopped it, why, and the workspace it leaves. Only a
      regression is rolled back; a session that passed, or made no difference, keeps the workspace that was
      validated, and one that was stopped from outside what the last attempt reached. */
  lemma SessionIsExplained(files: Files, trigger: ValidationRun, inputs: nat -> Input)
    ensures var s := Repaired(files, trigger, inputs);
            && s.end.Some? && |s.attempts| <= 3
            && (s.end != Some(Denied) <==>
                && trigger.overall == Some("failed_repairable")
                && exists d :: d in trigger.diagnostics && d.repairCategory == Some("auto_fixable"))
            && RoundsRecorded(files, trigger, inputs, s.attempts)
            && EndExplained(files, trigger, inputs(|s.attempts|), s.attempts, s.files, s.end.value)
  {
    RoundsExplained(files, trigger, inputs, MAX_ATTEMPTS);
    EverySessionIsChained(files, trigger, inputs, MAX_ATTEMPTS);
    if After(files, trigger, inputs, MAX_ATTEMPTS).end.None? {
      UnendedCountsAttempts(files, trigger, inputs, MAX_ATTEMPTS);
    }
  }

  /** A session that does not end in a regression or in the middle of an attempt leaves what its last attempt
      reached; if it passed, that is the workspace that passed. */
  lemma OnlyRegressionIsUndone(files: Files, trigger: ValidationRun, inputs: nat -> Input)
    ensures var s := Repaired(files, trigger, inputs);
            && (s.end in {Some(Settled(Passed)), Some(Settled(NoChange)), Some(Settled(Unclassified))} ==>
                  s.attempts != [] && s.files == s.attempts[|s.attempts| - 1].validated)
            && (s.end in {Some(Cancelled), Some(TimeExhausted), Some(AttemptsExhausted)} ==>
                  s.files == Reached(files, s.attempts))
            && (s.end == Some(Settled(Passed)) ==>
                  s.attempts[|s.attempts| - 1].run.overall == Some("passed"))
  {
    SessionIsExplained(files, trigger, inputs);
    var s := Repaired(files, trigger, inputs);
    if s.end == Some(Settled(Passed)) {
      assert RoundRecorded(files, trigger, inputs(|s.attempts| - 1), s.attempts, |s.attempts| - 1);
    }
  }

  // ---- A session that passes ----

  function FixableIn(path: string): ValidationRun {
    ValidationRun(Some("failed_repairable"), [Diagnostic("build", "error", Some(path), Some("auto_fixable"))])
  }

  /** The agent announces and makes one change, reports it, and validation passes. */
  function Fixing(path: string, content: string): nat -> Input {
    _ => Input(false, false,
               AgentDone([Announced("write_file", path), RepairRollback.Changed(path, Some(content))], [path]),
               Some(ValidationRun(Some("passed"), [])))
  }

  lemma FixedFiles(files: Files, c: Capture, path: string, content: string)
    ensures Replay(files, c, [Announced("write_file", path), RepairRollback.Changed(path, Some(content))]).0 ==
            files[path := content]
  {
    var events := [Announced("write_file", path), RepairRollback.Changed(path, Some(content))];
    assert events[..1] == [events[0]] && [events[0]][..0] == [];
    assert Replay(files, c, []) == (files, c);
    assert Replay(files, c, [events[0]]).0 == files;
  }

  /** The fix stays. */
  lemma PassingSessionKeepsFix(path: string, broken: string, content: string)
    ensures var s := Repaired(map[path := broken], FixableIn(path), Fixing(path, content));
            s.end == Some(Settled(Passed)) && s.files == map[path := content]
  {
    var files, trigger, inputs := map[path := broken], FixableIn(path), Fixing(path, content);
    assert trigger.diagnostics[0] in trigger.diagnostics && Permitted(trigger);
    var start := Session(files, [], None);
    FixedFiles(files, Snapshot(files, PathsToFix(trigger.diagnostics)), path, content);
    var one := AfterAttempt(start, trigger, inputs(0));
    assert one.end == Some(Settled(Passed)) && one.files == map[path := content];
    assert After(files, trigger, inputs, 0) == start;
    assert After(files, trigger, inputs, 1) == one;
    EndedStays(files, trigger, inputs, 1, MAX_ATTEMPTS);
  }
}
