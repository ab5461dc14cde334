/** The agent's write cache against an agent that sends every call to the backend. */
module WriteCache {
  import opened Workspaces
  import opened StepAgent

  /** A call and how it fares if it is sent. */
  datatype Attempt = Attempt(call: Call, delivery: Delivery)

  /** One call through the tool node. */
  function CachedStep(m: Memory, files: Files, a: Attempt, hash: string -> string): (ToolResult, Memory, Files) {
    if SentToBackend(m, a.call, hash) then
      var (result, after) := Dispatch(files, a.call, a.delivery);
      (result, Remembered(m, a.call, result.success, hash), after)
    else (CachedResult(m, a.call), m, files)
  }

  datatype Run = Run(results: seq<ToolResult>, memory: Memory, files: Files)

  function CachedRun(files: Files, attempts: seq<Attempt>, hash: string -> string): Run {
    if attempts == [] then Run([], InitialStep.memory, files) else
      var r := CachedRun(files, attempts[..|attempts| - 1], hash);
      var (result, memory, after) := CachedStep(r.memory, r.files, attempts[|attempts| - 1], hash);
      Run(r.results + [result], memory, after)
  }

  function DirectRun(files: Files, attempts: seq<Attempt>): (seq<ToolResult>, Files) {
    if attempts == [] then ([], files) else
      var (results, before) := DirectRun(files, attempts[..|attempts| - 1]);
      var a := attempts[|attempts| - 1];
      var (result, after) := Dispatch(before, a.call, a.delivery);
      (results + [result], after)
  }

  /** The tool node takes exactly this step. */
  lemma ToolNodeTakesCachedStep(st: StepState, files: Files, d: Delivery, hash: string -> string)
    ensures var call := PendingCall(st);
            var (result, after) := Dispatch(files, call, d);
            var next := AfterCallTool(st, call, hash, result);
            CachedStep(st.memory, files, Attempt(call, d), hash) ==
            (next.latest.value, next.memory, if SentToBackend(st.memory, call, hash) then after else files)
  {
  }

  ghost predicate Injective(hash: string -> string) {
    forall a, b :: hash(a) == hash(b) ==> a == b
  }

  /** The cache tells the truth about the workspace. */
  ghost predicate Coherent(m: Memory, files: Files, hash: string -> string) {
    && m.cache.Keys == m.hashes.Keys && "" !in m.cache
    && forall p :: p in m.cache ==> p in files && files[p] == m.cache[p] && m.hashes[p] == hash(m.cache[p])
  }

  /** The cache forgets what the backend renames away. */
  predicate NamesItsSource(call: Call) {
    call.tool == "rename_file" ==> ArgOr(call.args, "path", Arg(call.args, "old_path")) == Arg(call.args, "old_path")
  }

  /** A read that succeeds directly returns the same from the cached agent; without faults the reads
      agree altogether. */
  predicate SameRead(a: Attempt, cached: ToolResult, direct: ToolResult) {
    a.call.tool == "read_file" && (direct.success || a.delivery.Answered?) ==>
      cached.success == direct.success && cached.content == direct.content
  }

  ghost predicate Refines(files: Files, attempts: seq<Attempt>, hash: string -> string) {
    var cached := CachedRun(files, attempts, hash);
    var (results, after) := DirectRun(files, attempts);
    && cached.files == after
    && |cached.results| == |results| == |attempts|
    && forall i :: 0 <= i < |attempts| ==> SameRead(attempts[i], cached.results[i], results[i])
  }

  /** The call took effect, but its sender learned only of a failure. */
  predicate Lost(a: Attempt) {
    a.delivery.Failed? && a.delivery.landed
  }

  /** A failure with a message ends the step: only the last call of a run can meet one. */
  ghost predicate StepRun(attempts: seq<Attempt>) {
    forall i :: 0 <= i < |attempts| - 1 && attempts[i].delivery.Failed? ==> attempts[i].delivery.error == ""
  }

  /** No call takes effect and is reported as failed with an empty error. */
  ghost predicate NoneSilent(attempts: seq<Attempt>) {
    forall i :: 0 <= i < |attempts| && Lost(attempts[i]) ==> attempts[i].delivery.error != ""
  }

  ghost predicate Together(m: Memory, files: Files, a: Attempt, hash: string -> string) {
    var (result, memory, after) := CachedStep(m, files, a, hash);
    var (direct, target) := Dispatch(files, a.call, a.delivery);
    (Lost(a) || Coherent(memory, after, hash)) && after == target && SameRead(a, result, direct)
  }

  /** Skipping a write of what is there already changes nothing, however the write would have fared. */
  lemma SkippingIsHarmless(m: Memory, files: Files, a: Attempt, hash: string -> string)
    requires Coherent(m, files, hash) && Injective(hash) && SkippedWrite(m, a.call, hash)
    ensures Together(m, files, a, hash)
  {
    var path, content := Arg(a.call.args, "path"), Arg(a.call.args, "content");
    assert files[path] == content;
    assert files[path := content] == files;
  }

  lemma RememberingKeepsCoherence(m: Memory, files: Files, path: string, content: string, hash: string -> string)
    requires Coherent(m, files, hash) && path != ""
    ensures Coherent(Memory(m.cache[path := content], m.hashes[path := hash(content)]), files[path := content], hash)
  {
  }

  lemma WriteKeepsCoherence(m: Memory, files: Files, a: Attempt, hash: string -> string)
    requires Coherent(m, files, hash) && Injective(hash) && Writes(a.call.tool)
    ensures Together(m, files, a, hash)
  {
    var path, content := Arg(a.call.args, "path"), Arg(a.call.args, "content");
    if SkippedWrite(m, a.call, hash) {
      SkippingIsHarmless(m, files, a, hash);
    } else if a.delivery.Answered? && path != "" {
      RememberingKeepsCoherence(m, files, path, content, hash);
    }
  }

  /** Forgetting paths while only those paths change. */
  lemma ForgettingKeepsCoherence(m: Memory, files: Files, after: Files, gone: set<string>, hash: string -> string)
    requires Coherent(m, files, hash)
    requires forall p :: p in files && p !in gone ==> p in after && after[p] == files[p]
    ensures Coherent(Memory(m.cache - gone, m.hashes - gone), after, hash)
  {
  }

  lemma RemovalKeepsCoherence(m: Memory, files: Files, a: Attempt, hash: string -> string)
    requires Coherent(m, files, hash) && NamesItsSource(a.call)
    requires a.call.tool == "delete_file" || a.call.tool == "rename_file"
    ensures Together(m, files, a, hash)
  {
    var args := a.call.args;
    var (direct, target) := Dispatch(files, a.call, a.delivery);
    var path := ArgOr(args, "path", Arg(args, "old_path"));
    var gone := {path} + if Arg(args, "new_path") != "" then {Arg(args, "new_path")} else {};
    if direct.success {
      assert Remembered(m, a.call, true, hash) == Memory(m.cache - gone, m.hashes - gone);
      forall p | p in files && p !in gone ensures p in target && target[p] == files[p] {
      }
      ForgettingKeepsCoherence(m, files, target, gone, hash);
    }
  }

  lemma StepKeepsCoherence(m: Memory, files: Files, a: Attempt, hash: string -> string)
    requires Coherent(m, files, hash) && Injective(hash) && NamesItsSource(a.call)
    ensures Together(m, files, a, hash)
  {
    if Writes(a.call.tool) {
      WriteKeepsCoherence(m, files, a, hash);
    } else if a.call.tool == "delete_file" || a.call.tool == "rename_file" {
      RemovalKeepsCoherence(m, files, a, hash);
    }
  }

  lemma RefinesFurther(files: Files, attempts: seq<Attempt>, hash: string -> string)
    requires attempts != [] && Refines(files, attempts[..|attempts| - 1], hash)
    requires var r := CachedRun(files, attempts[..|attempts| - 1], hash);
             Together(r.memory, r.files, attempts[|attempts| - 1], hash)
    ensures Refines(files, attempts, hash)
  {
    var m := |attempts| - 1;
    assert forall i :: 0 <= i < m ==> attempts[..m][i] == attempts[i];
  }

  ghost predicate InStep(attempts: seq<Attempt>) {
    && (forall i :: 0 <= i < |attempts| ==> NamesItsSource(attempts[i].call))
    && StepRun(attempts) && NoneSilent(attempts)
  }

  lemma InStepBefore(attempts: seq<Attempt>)
    requires attempts != [] && InStep(attempts)
    ensures var m := |attempts| - 1; InStep(attempts[..m]) && (m > 0 ==> !Lost(attempts[..m][m - 1]))
  {
  }

  lemma {:induction false} RunsStayTogether(files: Files, attempts: seq<Attempt>, hash: string -> string)
    requires Injective(hash) && InStep(attempts)
    ensures Refines(files, attempts, hash)
    ensures var r := CachedRun(files, attempts, hash);
            Coherent(r.memory, r.files, hash) || (attempts != [] && Lost(attempts[|attempts| - 1]))
  {
    if attempts != [] {
      var m := |attempts| - 1;
      InStepBefore(attempts);
      RunsStayTogether(files, attempts[..m], hash);
      var before := CachedRun(files, attempts[..m], hash);
      StepKeepsCoherence(before.memory, before.files, attempts[m], hash);
      RefinesFurther(files, attempts, hash);
    }
  }

  // ---- The renames that break it ----

  /** Write, rename away, write the same again. */
  function WriteRenameWrite(call: Call): seq<Attempt> {
    var source := Arg(call.args, "old_path");
    var write := Attempt(Call("write_file", map["path" := source, "content" := "text"]), Answered);
    [write, Attempt(call, Answered), write]
  }

  /** A rename between two files. */
  predicate Renames(call: Call) {
    call.tool == "rename_file" && Arg(call.args, "old_path") != "" && Arg(call.args, "new_path") != ""
    && Arg(call.args, "old_path") != Arg(call.args, "new_path")
  }

  lemma AfterFirstWrite(call: Call, hash: string -> string)
    requires Renames(call)
    ensures var source, attempts := Arg(call.args, "old_path"), WriteRenameWrite(call);
            var one := CachedRun(map[], attempts[..1], hash);
            && one.files == map[source := "text"] == DirectRun(map[], attempts[..1]).1
            && one.memory == Memory(map[source := "text"], map[source := hash("text")])
  {
    var source, attempts := Arg(call.args, "old_path"), WriteRenameWrite(call);
    var write := attempts[0];
    assert attempts[..1] == [write] && [write][..0] == [];
    assert CachedRun(map[], [], hash) == Run([], InitialStep.memory, map[]);
    assert DirectRun(map[], []) == ([], map[]);
    assert Dispatch(map[], write.call, Answered) == (DONE, map[source := "text"]);
    assert CachedStep(InitialStep.memory, map[], write, hash).2 == map[source := "text"];
  }

  /** A rename that also carries a different `path` leaves the renamed file in the cache, and the next
      identical write is skipped although the file is gone. */
  lemma MisnamedRenameDiverges(call: Call, hash: string -> string)
    requires Renames(call) && !NamesItsSource(call)
    ensures !Refines(map[], WriteRenameWrite(call), hash)
  {
    var attempts := WriteRenameWrite(call);
    var source, target := Arg(call.args, "old_path"), Arg(call.args, "new_path");
    AfterFirstWrite(call, hash);
    assert attempts[..2][..1] == attempts[..1];
    var two := CachedRun(map[], attempts[..2], hash);
    assert source !in two.files && source in two.memory.hashes;
    assert CachedRun(map[], attempts, hash).files == two.files;
    assert source in DirectRun(map[], attempts).1;
  }

  // ---- The lost reply that breaks it ----

  function WriteOf(content: string, d: Delivery): Attempt {
    Attempt(Call("write_file", map["path" := "f", "content" := content]), d)
  }

  /** Write, write something else without learning that it took effect, write the first again. */
  function WriteLostWrite(): seq<Attempt> {
    [WriteOf("text", Answered), WriteOf("other", Failed("", true)), WriteOf("text", Answered)]
  }

  lemma AfterLostWrite(hash: string -> string)
    requires hash("text") != hash("other")
    ensures var two := CachedRun(map[], WriteLostWrite()[..2], hash);
            two.files == map["f" := "other"] && two.memory == Memory(map["f" := "text"], map["f" := hash("text")])
  {
    var attempts, none := WriteLostWrite(), InitialStep.memory;
    assert attempts[..2][..1] == attempts[..1] && attempts[..1][..0] == [];
    assert CachedRun(map[], [], hash) == Run([], none, map[]);
    var one := CachedRun(map[], attempts[..1], hash);
    assert attempts[..1][0] == WriteOf("text", Answered);
    assert one.memory == Memory(map["f" := "text"], map["f" := hash("text")]) && one.files == map["f" := "text"];
    assert attempts[..2][1] == WriteOf("other", Failed("", true));
  }

  /** The third write is skipped as already done, and the file keeps what the second left. */
  lemma LostWriteDiverges(hash: string -> string)
    requires hash("text") != hash("other")
    ensures StepRun(WriteLostWrite()) && !Refines(map[], WriteLostWrite(), hash)
  {
    var attempts := WriteLostWrite();
    AfterLostWrite(hash);
    assert attempts[..|attempts| - 1] == attempts[..2];
    assert CachedRun(map[], attempts, hash).files == map["f" := "other"];
    assert DirectRun(map[], attempts).1["f"] == "text";
  }

  // ---- When the cache is faithful ----

  ghost predicate OnlyRename(attempts: seq<Attempt>, call: Call) {
    forall i :: 0 <= i < |attempts| && attempts[i].call.tool == "rename_file" ==> attempts[i].call == call
  }

  /** The runs of a step that use this rename; with `silent`, a call may take effect and be reported as
      failed with an empty error. */
  ghost predicate Admitted(attempts: seq<Attempt>, call: Call, silent: bool) {
    OnlyRename(attempts, call) && StepRun(attempts) && (silent || NoneSilent(attempts))
  }

  /** For a rename between two files, the cached agent behaves like the direct one in all runs of a step
      that use this rename exactly when a `path` argument, if given, repeats `old_path`, and no call
      takes effect and is reported as failed with an empty error. */
  lemma CacheFaithfulIff(call: Call, silent: bool, hash: string -> string)
    requires Injective(hash) && Renames(call)
    ensures NamesItsSource(call) && !silent <==>
            forall files, attempts :: Admitted(attempts, call, silent) ==> Refines(files, attempts, hash)
  {
    if NamesItsSource(call) && !silent {
      forall files, attempts | Admitted(attempts, call, silent) ensures Refines(files, attempts, hash) {
        RunsStayTogether(files, attempts, hash);
      }
    } else if !NamesItsSource(call) {
      MisnamedRenameDiverges(call, hash);
      assert Admitted(WriteRenameWrite(call), call, silent);
    } else {
      LostWriteDiverges(hash);
      assert Admitted(WriteLostWrite(), call, silent);
    }
  }
}
