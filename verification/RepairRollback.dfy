/** Before-content capture, checkpoint and rollback of one repair attempt. */
module RepairRollback {
  import opened Json
  import opened Workspaces

  /** What happens during an attempt, in order: the tool calls the orchestrator sees announced, and
      the changes the tools make to the workspace. */
  datatype AttemptEvent =
    | Announced(tool: string, path: string)
    | Changed(path: string, content: Option<string>)

  /** Content and existence of the captured files before the attempt touched them. */
  datatype Capture = Capture(content: map<string, string>, existed: map<string, bool>)

  function Existed(c: Capture, path: string): bool {
    path in c.existed && c.existed[path]
  }

  function Original(c: Capture, path: string): string {
    if path in c.content then c.content[path] else ""
  }

  datatype CheckpointEntry = CheckpointEntry(filePath: string, fileExisted: bool, originalContent: string)

  // ---- Capture ----

  /** The snapshot taken up front for the files the diagnostics mention. */
  ghost predicate SnapshotOf(files: Files, c: Capture) {
    && c.content.Keys == c.existed.Keys
    && forall p :: p in c.content ==> p in files && c.content[p] == files[p] && c.existed[p]
  }

  /** The paths to snapshot: those named and present. */
  function Wanted(files: Files, paths: seq<Option<string>>): set<string> {
    set p | p in paths && p.Some? && p.value != "" && p.value in files :: p.value
  }

  function Snapshot(files: Files, paths: seq<Option<string>>): Capture {
    Capture(map p | p in Wanted(files, paths) :: files[p], map p | p in Wanted(files, paths) :: true)
  }

  lemma SnapshotFits(files: Files, paths: seq<Option<string>>)
    ensures SnapshotOf(files, Snapshot(files, paths))
  {
  }

  lemma SnapshotExtends(files: Files, paths: seq<Option<string>>, path: Option<string>)
    ensures var c, next := Snapshot(files, paths), Snapshot(files, paths + [path]);
            next == if path.Some? && path.value != "" && path.value in files
                    then Capture(c.content[path.value := files[path.value]], c.existed[path.value := true]) else c
  {
    var added := if path.Some? && path.value != "" && path.value in files then {path.value} else {};
    assert Wanted(files, paths + [path]) == Wanted(files, paths) + added;
  }

  /** Reading a path twice changes nothing. */
  lemma SnapshotSees(files: Files, paths: seq<Option<string>>, p: string)
    requires p != "" && Some(p) in paths && p in files
    ensures var c := Snapshot(files, paths); Capture(c.content[p := files[p]], c.existed[p := true]) == c
  {
    assert p in Wanted(files, paths);
  }

  method SnapshotBeforeContent(ws: Workspace, diagnosticPaths: seq<Option<string>>) returns (c: Capture)
    ensures c == Snapshot(ws.files, diagnosticPaths)
    ensures forall p :: p in c.content <==> p != "" && Some(p) in diagnosticPaths && p in ws.files
    ensures forall p :: p in c.content ==> c.content[p] == ws.files[p] && p in c.existed && c.existed[p]
    ensures c.existed.Keys == c.content.Keys
  {
    c := Capture(map[], map[]);
    var seen: set<string> := {};
    for i := 0 to |diagnosticPaths|
      invariant c == Snapshot(ws.files, diagnosticPaths[..i])
      invariant forall p :: p in seen <==> p != "" && Some(p) in diagnosticPaths[..i]
    {
      var path := diagnosticPaths[i];
      assert diagnosticPaths[..i + 1] == diagnosticPaths[..i] + [path];
      SnapshotExtends(ws.files, diagnosticPaths[..i], path);
      if path.Some? && path.value in seen && path.value in ws.files {
        SnapshotSees(ws.files, diagnosticPaths[..i], path.value);
      }
      if path.Some? && path.value != "" && path.value !in seen {
        seen := seen + {path.value};
        var data := ws.ReadFile(path.value);
        if data.Some? {
          c := Capture(c.content[path.value := data.value], c.existed[path.value := true]);
        }
      }
    }
    assert diagnosticPaths[..|diagnosticPaths|] == diagnosticPaths;
  }

  function Applied(files: Files, path: string, content: Option<string>): Files {
    if content.Some? then files[path := content.value] else files - {path}
  }

  /** A write_file call captures its target unless that was captured before. */
  function Captured(files: Files, c: Capture, tool: string, path: string): Capture {
    if tool == "write_file" && path != "" && path !in c.content then
      Capture(c.content[path := if path in files then files[path] else ""], c.existed[path := path in files])
    else c
  }

  function Replay(files: Files, c: Capture, events: seq<AttemptEvent>): (Files, Capture) {
    if events == [] then (files, c) else
      var (f, d) := Replay(files, c, events[..|events| - 1]);
      match events[|events| - 1]
      case Announced(tool, path) => (f, Captured(f, d, tool, path))
      case Changed(path, content) => (Applied(f, path, content), d)
  }

  method RunAgentStream(ws: Workspace, before: Capture, events: seq<AttemptEvent>) returns (c: Capture)
    modifies ws
    ensures (ws.files, c) == Replay(old(ws.files), before, events)
  {
    c := before;
    for i := 0 to |events|
      invariant (ws.files, c) == Replay(old(ws.files), before, events[..i])
    {
      assert events[..i + 1][..i] == events[..i];
      match events[i] {
        case Announced(tool, path) =>
          if tool == "write_file" && path != "" && path !in c.content {
            var data := ws.ReadFile(path);
            if data.Some? {
              c := Capture(c.content[path := data.value], c.existed[path := true]);
            } else {
              c := Capture(c.content[path := ""], c.existed[path := false]);
            }
          }
        case Changed(path, content) =>
          if content.Some? {
            ws.WriteFile(path, content.value);
          } else {
            ws.DeleteFile(path);
          }
      }
    }
    assert events[..|events|] == events;
  }

  // ---- Checkpoint and rollback ----

  function EntryFor(c: Capture, path: string): CheckpointEntry {
    CheckpointEntry(path, Existed(c, path), Original(c, path))
  }

  function Checkpoint(c: Capture, modified: seq<string>): seq<CheckpointEntry> {
    seq(|modified|, i requires 0 <= i < |modified| => EntryFor(c, modified[i]))
  }

  method CollectCheckpoint(c: Capture, modified: seq<string>) returns (entries: seq<CheckpointEntry>)
    ensures entries == Checkpoint(c, modified)
  {
    entries := [];
    for i := 0 to |modified|
      invariant entries == Checkpoint(c, modified[..i])
    {
      entries := entries + [EntryFor(c, modified[i])];
    }
    assert modified[..|modified|] == modified;
  }

  function RolledBack(files: Files, entries: seq<CheckpointEntry>): Files {
    if entries == [] then files else
      var e := entries[|entries| - 1];
      var f := RolledBack(files, entries[..|entries| - 1]);
      if e.fileExisted then f[e.filePath := e.originalContent] else f - {e.filePath}
  }

  method RollbackFromCheckpoint(ws: Workspace, entries: seq<CheckpointEntry>)
    modifies ws
    ensures ws.files == RolledBack(old(ws.files), entries)
  {
    for i := 0 to |entries|
      invariant ws.files == RolledBack(old(ws.files), entries[..i])
    {
      assert entries[..i + 1][..i] == entries[..i];
      if !entries[i].fileExisted {
        ws.DeleteFile(entries[i].filePath);
      } else {
        ws.WriteFile(entries[i].filePath, entries[i].originalContent);
      }
    }
    assert entries[..|entries|] == entries;
  }

  // ---- Round trip ----

  ghost predicate AnnouncedIn(events: seq<AttemptEvent>, path: string) {
    path != "" && Announced("write_file", path) in events
  }

  /** The file is announced as written before anything changes it. */
  ghost predicate CapturedFirst(events: seq<AttemptEvent>, path: string) {
    && AnnouncedIn(events, path)
    && forall i :: 0 <= i < |events| && events[i].Changed? && events[i].path == path ==> AnnouncedIn(events[..i], path)
  }

  /** The capture remembers the file from the start of the attempt; while uncaptured, it is as it was. */
  ghost predicate Remembers(start: Files, files: Files, c: Capture, p: string) {
    if p in c.content then (Existed(c, p) <==> p in start) && (p in start ==> c.content[p] == start[p])
    else Lookup(files, p) == Lookup(start, p) && p !in c.existed
  }

  lemma {:induction false} ReplayRemembers(start: Files, before: Capture, events: seq<AttemptEvent>, p: string)
    requires SnapshotOf(start, before)
    requires forall i :: 0 <= i < |events| && events[i].Changed? && events[i].path == p ==> AnnouncedIn(events[..i], p)
    ensures var (f, c) := Replay(start, before, events);
            Remembers(start, f, c, p) && (AnnouncedIn(events, p) ==> p in c.content)
  {
    if events != [] {
      var m := |events| - 1;
      var shorter, last := events[..m], events[m];
      assert forall i :: 0 <= i < m ==> events[..i] == shorter[..i];
      ReplayRemembers(start, before, shorter, p);
      assert events == shorter + [last];
      var (f, c) := Replay(start, before, shorter);
      assert last.Changed? && last.path == p ==> AnnouncedIn(shorter, p);
    }
  }

  /** A file ends up as its last change leaves it, and stays as it was without one. */
  lemma {:induction false} LastChangeStays(files: Files, c: Capture, events: seq<AttemptEvent>, p: string, i: nat)
    requires i <= |events| && forall j :: i <= j < |events| ==> !(events[j].Changed? && events[j].path == p)
    requires i > 0 ==> events[i - 1].Changed? && events[i - 1].path == p
    ensures Lookup(Replay(files, c, events).0, p) == if i == 0 then Lookup(files, p) else events[i - 1].content
    decreases |events|
  {
    if i < |events| {
      LastChangeStays(files, c, events[..|events| - 1], p, i);
    }
  }

  function Restored(c: Capture, path: string): Option<string> {
    if Existed(c, path) then Some(Original(c, path)) else None
  }

  lemma {:induction false} RollbackPerFile(files: Files, c: Capture, modified: seq<string>, p: string)
    ensures Lookup(RolledBack(files, Checkpoint(c, modified)), p) ==
            if p in modified then Restored(c, p) else Lookup(files, p)
  {
    if modified != [] {
      var m := |modified| - 1;
      RollbackPerFile(files, c, modified[..m], p);
      assert Checkpoint(c, modified)[..m] == Checkpoint(c, modified[..m]);
      assert modified == modified[..m] + [modified[m]];
    }
  }

  lemma SameLookups(a: Files, b: Files)
    requires forall p :: Lookup(a, p) == Lookup(b, p)
    ensures a == b
  {
    forall p ensures p in a <==> p in b {
      assert Lookup(a, p) == Lookup(b, p);
    }
    forall p | p in a ensures a[p] == b[p] {
      assert Lookup(a, p) == Lookup(b, p);
    }
  }

  /** No file outside `modified` ends up different. */
  ghost predicate OthersUnchanged(start: Files, end: Files, modified: seq<string>) {
    forall p :: p !in modified ==> Lookup(end, p) == Lookup(start, p)
  }

  /** What was captured of the reported files is how they were at the start. */
  ghost predicate CapturedAsWas(start: Files, c: Capture, modified: seq<string>) {
    forall p :: p in modified ==> Restored(c, p) == Lookup(start, p)
  }

  /** Rolling back the checkpoint over the reported files brings back the workspace `start` exactly when no
      unreported file differs from it and the reported ones were captured as they were then. Created
      files disappear, files that existed get their content back, even an empty one. */
  lemma RollbackRestoresIff(start: Files, end: Files, c: Capture, modified: seq<string>)
    ensures RolledBack(end, Checkpoint(c, modified)) == start <==>
            OthersUnchanged(start, end, modified) && CapturedAsWas(start, c, modified)
  {
    var back := RolledBack(end, Checkpoint(c, modified));
    forall p ensures Lookup(back, p) == if p in modified then Restored(c, p) else Lookup(end, p) {
      RollbackPerFile(end, c, modified, p);
    }
    if OthersUnchanged(start, end, modified) && CapturedAsWas(start, c, modified) {
      SameLookups(back, start);
    }
    if back == start {
      forall p | p in modified ensures Restored(c, p) == Lookup(start, p) {
        assert Lookup(back, p) == Restored(c, p);
      }
      forall p | p !in modified ensures Lookup(end, p) == Lookup(start, p) {
        assert Lookup(back, p) == Lookup(end, p);
      }
    }
  }

  /** Files announced before they are changed are captured as they were at the start, whatever the
      attempt does. */
  lemma AnnouncedAreCaptured(start: Files, before: Capture, events: seq<AttemptEvent>, modified: seq<string>)
    requires SnapshotOf(start, before)
    requires forall p :: p in modified ==> CapturedFirst(events, p)
    ensures CapturedAsWas(start, Replay(start, before, events).1, modified)
  {
    forall p | p in modified ensures Restored(Replay(start, before, events).1, p) == Lookup(start, p) {
      ReplayRemembers(start, before, events, p);
    }
  }

  /** So if the reported files are announced first, an attempt is undone exactly when no unreported file
      changed. Nothing is asked of the unreported files: the attempt may do anything to them. */
  lemma RollbackRestoresStart(start: Files, before: Capture, events: seq<AttemptEvent>, modified: seq<string>)
    requires SnapshotOf(start, before)
    requires forall p :: p in modified ==> CapturedFirst(events, p)
    ensures var (end, c) := Replay(start, before, events);
            RolledBack(end, Checkpoint(c, modified)) == start <==> OthersUnchanged(start, end, modified)
  {
    var (end, c) := Replay(start, before, events);
    AnnouncedAreCaptured(start, before, events, modified);
    RollbackRestoresIff(start, end, c, modified);
  }

  /** Every changed file is reported. */
  ghost predicate ReportsAllChanges(events: seq<AttemptEvent>, modified: seq<string>) {
    forall i :: 0 <= i < |events| && events[i].Changed? ==> events[i].path in modified
  }

  lemma {:induction false} OnlyChangedFilesDiffer(start: Files, before: Capture, events: seq<AttemptEvent>,
                                                  modified: seq<string>, p: string)
    requires ReportsAllChanges(events, modified) && p !in modified
    ensures Lookup(Replay(start, before, events).0, p) == Lookup(start, p)
  {
    if events != [] {
      OnlyChangedFilesDiffer(start, before, events[..|events| - 1], modified, p);
    }
  }

  lemma ReportedChangesAreUndone(start: Files, before: Capture, events: seq<AttemptEvent>, modified: seq<string>)
    requires ReportsAllChanges(events, modified)
    ensures OthersUnchanged(start, Replay(start, before, events).0, modified)
  {
    forall p | p !in modified ensures Lookup(Replay(start, before, events).0, p) == Lookup(start, p) {
      OnlyChangedFilesDiffer(start, before, events, modified, p);
    }
  }

  /** The attempt end to end: snapshot, agent run, checkpoint, rollback. */
  method AttemptAndRollBack(ws: Workspace, diagnosticPaths: seq<Option<string>>, events: seq<AttemptEvent>,
                            modified: seq<string>)
    requires forall p :: p in modified ==> CapturedFirst(events, p)
    modifies ws
    ensures var end := Replay(old(ws.files), Snapshot(old(ws.files), diagnosticPaths), events).0;
            ws.files == old(ws.files) <==> OthersUnchanged(old(ws.files), end, modified)
    ensures ReportsAllChanges(events, modified) ==> ws.files == old(ws.files)
  {
    ghost var start := ws.files;
    var before := SnapshotBeforeContent(ws, diagnosticPaths);
    var c := RunAgentStream(ws, before, events);
    var entries := CollectCheckpoint(c, modified);
    RollbackFromCheckpoint(ws, entries);
    SnapshotFits(start, diagnosticPaths);
    RollbackRestoresStart(start, before, events, modified);
    if ReportsAllChanges(events, modified) {
      ReportedChangesAreUndone(start, before, events, modified);
    }
  }
}
