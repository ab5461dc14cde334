/** The executor's step order: repeated passes over the plan, each placing every step whose
    dependencies are already placed. */
module StepSchedule {
  import opened Json
  import opened PlanGraph
  import opened PlanValidation
  import opened Permutations

  predicate HasText(step: Fields, key: string) {
    key in step && step[key].String?
  }

  /** Step id to stable id, for the steps that carry both as strings; a later step wins. */
  function StableIdMap(steps: seq<Fields>): map<string, string> {
    if steps == [] then map[] else
      var last := steps[|steps| - 1];
      var m := StableIdMap(steps[..|steps| - 1]);
      if HasText(last, "id") && HasText(last, "stable_id")
      then m[last["id"].text := last["stable_id"].text] else m
  }

  /** Dependencies on ids that are not in the plan are dropped. */
  function Resolved(ids: map<string, string>, deps: seq<string>): seq<string> {
    if deps == [] then []
    else if deps[0] in ids then [ids[deps[0]]] + Resolved(ids, deps[1..])
    else Resolved(ids, deps[1..])
  }

  lemma {:induction false} ResolvedMembers(ids: map<string, string>, deps: seq<string>, s: string)
    ensures s in Resolved(ids, deps) <==> exists d :: d in deps && d in ids && ids[d] == s
  {
    if deps != [] {
      ResolvedMembers(ids, deps[1..], s);
      assert deps == [deps[0]] + deps[1..];
    }
  }

  /** Each step by stable id with the stable ids it waits for. */
  function StableStep(steps: seq<Fields>, step: Fields): StepRef {
    StepRef(TextAt(step, "stable_id"), Resolved(StableIdMap(steps), StringsAt(step, "depends_on")))
  }

  function StableSteps(steps: seq<Fields>): seq<StepRef> {
    seq(|steps|, i requires 0 <= i < |steps| => StableStep(steps, steps[i]))
  }

  lemma {:induction false} StableIdMapEntry(steps: seq<Fields>, id: string) returns (i: nat)
    requires id in StableIdMap(steps)
    ensures i < |steps| && HasText(steps[i], "id") && HasText(steps[i], "stable_id")
    ensures steps[i]["id"].text == id && steps[i]["stable_id"].text == StableIdMap(steps)[id]
  {
    var n := |steps| - 1;
    var last := steps[n];
    if HasText(last, "id") && HasText(last, "stable_id") && last["id"].text == id {
      i := n;
    } else {
      i := StableIdMapEntry(steps[..n], id);
    }
  }

  lemma StableReferencesKnown(steps: seq<Fields>)
    ensures KnownReferences(StableSteps(steps))
  {
    var refs := StableSteps(steps);
    forall i, s | 0 <= i < |refs| && s in refs[i].dependsOn ensures s in IdsOf(refs) {
      ResolvedMembers(StableIdMap(steps), StringsAt(steps[i], "depends_on"), s);
      var d :| d in StringsAt(steps[i], "depends_on") && d in StableIdMap(steps) && StableIdMap(steps)[d] == s;
      var k := StableIdMapEntry(steps, d);
      assert refs[k].id == s;
    }
  }

  // ---- What the order is ----

  ghost predicate DependsOn(refs: seq<StepRef>, i: nat, j: nat)
    requires i < |refs| && j < |refs|
  {
    refs[j].id in refs[i].dependsOn
  }

  /** A dependency that is not above its step in the plan costs one more pass. */
  function Delay(i: nat, j: nat): nat {
    if j >= i then 1 else 0
  }

  /** `pass[i]` is the first pass in which step `i` has all dependencies placed. */
  ghost predicate EarliestPasses(refs: seq<StepRef>, pass: seq<nat>) {
    && |pass| == |refs|
    && (forall i, j :: 0 <= i < |refs| && 0 <= j < |refs| && DependsOn(refs, i, j) ==> pass[j] + Delay(i, j) <= pass[i])
    && (forall i :: 0 <= i < |refs| && pass[i] > 0 ==> Held(refs, pass, i))
  }

  ghost predicate Held(refs: seq<StepRef>, pass: seq<nat>, i: nat)
    requires |pass| == |refs| && i < |refs|
  {
    exists j :: 0 <= j < |refs| && DependsOn(refs, i, j) && pass[j] + Delay(i, j) == pass[i]
  }

  predicate Sooner(pass: seq<nat>, i: nat, j: nat)
    requires i < |pass| && j < |pass|
  {
    pass[i] < pass[j] || (pass[i] == pass[j] && i < j)
  }

  ghost predicate SortedByPass(order: seq<nat>, pass: seq<nat>) {
    && (forall k :: 0 <= k < |order| ==> order[k] < |pass|)
    && (forall k, m :: 0 <= k < m < |order| ==> Sooner(pass, order[k], order[m]))
  }

  /** The schedule: all steps, by pass and within a pass in plan order. */
  ghost predicate IsSchedule(refs: seq<StepRef>, order: seq<nat>) {
    && Permutation(order, |refs|)
    && exists pass :: EarliestPasses(refs, pass) && SortedByPass(order, pass)
  }

  ghost predicate Schedulable(refs: seq<StepRef>) {
    DistinctIds(refs) && !HasCycle(GraphOf(refs))
  }

  /** Every dependency is scheduled before the step that waits for it. */
  ghost predicate DependenciesEarlier(refs: seq<StepRef>, order: seq<nat>) {
    && (forall k :: 0 <= k < |order| ==> order[k] < |refs|)
    && forall k, j :: 0 <= k < |order| && 0 <= j < |refs| && DependsOn(refs, order[k], j) ==> j in order[..k]
  }

  lemma ScheduleRespectsDependencies(refs: seq<StepRef>, order: seq<nat>)
    requires IsSchedule(refs, order)
    ensures DependenciesEarlier(refs, order)
  {
    var pass :| EarliestPasses(refs, pass) && SortedByPass(order, pass);
    forall k, j | 0 <= k < |order| && 0 <= j < |refs| && DependsOn(refs, order[k], j) ensures j in order[..k] {
      PermutationCovers(order, |refs|, j);
      var m :| 0 <= m < |order| && order[m] == j;
      assert pass[j] + Delay(order[k], j) <= pass[order[k]];
      assert Sooner(pass, order[k], order[m]) || k >= m;
      assert m < k;
      assert order[..k][m] == j;
    }
  }

  // ---- The sort ----

  /** Ghost record of the steps placed so far: for each placed stable id, the step that carries it
      and the pass that placed it. */
  datatype Placement = Placement(order: seq<nat>, step: map<string, nat>, pass: map<string, nat>)

  ghost function Key(p: Placement, s: string): (nat, nat)
    requires s in p.pass && s in p.step
  {
    (p.pass[s], p.step[s])
  }

  ghost function KeyAt(refs: seq<StepRef>, p: Placement, k: nat): (nat, nat)
    requires Consistent(refs, p) && k < |p.order|
  {
    Key(p, refs[p.order[k]].id)
  }

  ghost predicate Precedes(a: (nat, nat), b: (nat, nat)) {
    a.0 < b.0 || (a.0 == b.0 && a.1 < b.1)
  }

  ghost predicate Consistent(refs: seq<StepRef>, p: Placement) {
    && p.step.Keys == p.pass.Keys
    && (forall k :: 0 <= k < |p.order| ==>
          p.order[k] < |refs| && refs[p.order[k]].id in p.step && p.step[refs[p.order[k]].id] == p.order[k])
    && (forall s :: s in p.step ==> p.step[s] < |refs| && refs[p.step[s]].id == s && p.step[s] in p.order)
  }

  /** The waiting time of step `i` for the placed stable id `d`. */
  ghost function Wait(p: Placement, i: nat, d: string): nat
    requires d in p.step && d in p.pass
  {
    p.pass[d] + Delay(i, p.step[d])
  }

  ghost predicate InTime(refs: seq<StepRef>, p: Placement, s: string)
    requires Consistent(refs, p) && s in p.step
  {
    var deps := refs[p.step[s]].dependsOn;
    && (forall d :: d in deps ==> d in p.step && Wait(p, p.step[s], d) <= p.pass[s])
    && (p.pass[s] > 0 ==> exists d :: d in deps && d in p.step && Wait(p, p.step[s], d) == p.pass[s])
  }

  ghost predicate Sound(refs: seq<StepRef>, p: Placement) {
    && Consistent(refs, p)
    && (forall s :: s in p.step ==> InTime(refs, p, s))
    && Ascending(refs, p)
  }

  ghost predicate Ascending(refs: seq<StepRef>, p: Placement)
    requires Consistent(refs, p)
  {
    forall k, m :: 0 <= k < m < |p.order| ==> Precedes(KeyAt(refs, p, k), KeyAt(refs, p, m))
  }

  /** Step `i` cannot be placed before the scan of pass `round` reaches it. */
  ghost predicate NotBefore(refs: seq<StepRef>, p: Placement, i: nat, round: nat)
    requires i < |refs| && p.step.Keys == p.pass.Keys
  {
    round == 0 || exists d :: d in refs[i].dependsOn && (d in p.step ==> Wait(p, i, d) == round)
  }

  ghost predicate Waiting(refs: seq<StepRef>, p: Placement, from: nat, to: nat, round: nat)
    requires to <= |refs| && p.step.Keys == p.pass.Keys
  {
    forall i :: from <= i < to && refs[i].id !in p.step ==> NotBefore(refs, p, i, round)
  }

  ghost function Place(refs: seq<StepRef>, p: Placement, i: nat, round: nat): Placement
    requires i < |refs|
  {
    Placement(p.order + [i], p.step[refs[i].id := i], p.pass[refs[i].id := round])
  }

  /** All placed keys lie before the scan position. */
  ghost predicate Scanned(refs: seq<StepRef>, p: Placement, i: nat, round: nat) {
    p.step.Keys == p.pass.Keys && forall s :: s in p.step ==> Precedes(Key(p, s), (round, i))
  }

  ghost predicate CanPlace(refs: seq<StepRef>, p: Placement, i: nat, round: nat) {
    && Sound(refs, p) && Scanned(refs, p, i, round)
    && i < |refs| && refs[i].id !in p.step && NotBefore(refs, p, i, round)
    && forall d :: d in refs[i].dependsOn ==> d in p.step
  }

  lemma PlacingKeepsConsistent(refs: seq<StepRef>, p: Placement, i: nat, round: nat)
    requires Consistent(refs, p) && i < |refs| && refs[i].id !in p.step
    ensures Consistent(refs, Place(refs, p, i, round))
  {
    var q := Place(refs, p, i, round);
    assert q.order[|p.order|] == i;
    assert forall k :: 0 <= k < |p.order| ==> q.order[k] == p.order[k];
    forall s | s in q.step ensures q.step[s] < |refs| && refs[q.step[s]].id == s && q.step[s] in q.order {
      if s != refs[i].id {
        assert s in p.step && p.step[s] in p.order;
      }
    }
  }

  lemma PlacingKeepsInTime(refs: seq<StepRef>, p: Placement, i: nat, round: nat, s: string)
    requires CanPlace(refs, p, i, round)
    requires Consistent(refs, Place(refs, p, i, round)) && s in Place(refs, p, i, round).step
    ensures InTime(refs, Place(refs, p, i, round), s)
  {
    var q := Place(refs, p, i, round);
    if s != refs[i].id {
      assert InTime(refs, p, s);
      assert forall d :: d in p.step ==> Wait(q, q.step[s], d) == Wait(p, p.step[s], d);
    } else {
      assert forall d :: d in p.step ==> Wait(q, i, d) == Wait(p, i, d);
      assert forall d :: d in p.step ==> Precedes(Key(p, d), (round, i));
    }
  }

  lemma PlacingKeepsAscending(refs: seq<StepRef>, p: Placement, i: nat, round: nat)
    requires Consistent(refs, p) && Ascending(refs, p) && Scanned(refs, p, i, round)
    requires i < |refs| && refs[i].id !in p.step && Consistent(refs, Place(refs, p, i, round))
    ensures Ascending(refs, Place(refs, p, i, round))
  {
    var q := Place(refs, p, i, round);
    forall k, m | 0 <= k < m < |q.order| ensures Precedes(KeyAt(refs, q, k), KeyAt(refs, q, m)) {
      assert q.order[k] == p.order[k] && KeyAt(refs, q, k) == KeyAt(refs, p, k);
      if m < |p.order| {
        assert KeyAt(refs, q, m) == KeyAt(refs, p, m);
      } else {
        assert KeyAt(refs, q, m) == (round, i);
      }
    }
  }

  lemma PlacingKeepsSound(refs: seq<StepRef>, p: Placement, i: nat, round: nat)
    requires CanPlace(refs, p, i, round)
    ensures Sound(refs, Place(refs, p, i, round))
    ensures Scanned(refs, Place(refs, p, i, round), i + 1, round)
  {
    PlacingKeepsConsistent(refs, p, i, round);
    forall s | s in Place(refs, p, i, round).step ensures InTime(refs, Place(refs, p, i, round), s) {
      PlacingKeepsInTime(refs, p, i, round, s);
    }
    PlacingKeepsAscending(refs, p, i, round);
  }

  lemma PlacingKeepsWaiting(refs: seq<StepRef>, p: Placement, i: nat, round: nat, m: nat)
    requires Consistent(refs, p) && i < |refs| && m < |refs| && m != i
    requires refs[i].id !in p.step && refs[m].id != refs[i].id
    requires NotBefore(refs, p, m, if m < i then round + 1 else round)
    ensures NotBefore(refs, Place(refs, p, i, round), m, if m < i then round + 1 else round)
  {
    var target := if m < i then round + 1 else round;
    var q := Place(refs, p, i, round);
    if target > 0 {
      var d :| d in refs[m].dependsOn && (d in p.step ==> Wait(p, m, d) == target);
      assert d in q.step ==> Wait(q, m, d) == target;
    }
  }

  lemma PlacingKeepsAllWaiting(refs: seq<StepRef>, p: Placement, i: nat, round: nat)
    requires Consistent(refs, p) && i < |refs| && refs[i].id !in p.step
    requires Waiting(refs, p, 0, i, round + 1) && Waiting(refs, p, i, |refs|, round)
    ensures Waiting(refs, Place(refs, p, i, round), 0, i + 1, round + 1)
    ensures Waiting(refs, Place(refs, p, i, round), i + 1, |refs|, round)
  {
    var q := Place(refs, p, i, round);
    forall m | 0 <= m < |refs| && refs[m].id !in q.step
      ensures NotBefore(refs, q, m, if m < i then round + 1 else round)
    {
      PlacingKeepsWaiting(refs, p, i, round, m);
    }
  }

  /** The scheduled step carries its resolved dependencies along for the run loop. */
  datatype ScheduledStep = ScheduledStep(fields: Fields, depStableIds: seq<string>)

  function Annotated(steps: seq<Fields>, order: seq<nat>): seq<ScheduledStep>
    requires forall k :: 0 <= k < |order| ==> order[k] < |steps|
  {
    seq(|order|, k requires 0 <= k < |order| =>
      ScheduledStep(steps[order[k]], StableStep(steps, steps[order[k]]).dependsOn))
  }

  method BuildStableIdMap(steps: seq<Fields>) returns (ids: map<string, string>)
    ensures ids == StableIdMap(steps)
  {
    ids := map[];
    for i := 0 to |steps|
      invariant ids == StableIdMap(steps[..i])
    {
      assert steps[..i + 1][..i] == steps[..i];
      if HasText(steps[i], "id") && HasText(steps[i], "stable_id") {
        ids := ids[steps[i]["id"].text := steps[i]["stable_id"].text];
      }
    }
    assert steps[..|steps|] == steps;
  }

  method AllPlaced(ids: map<string, string>, deps: seq<string>, done: set<string>) returns (ready: bool)
    ensures ready <==> forall s :: s in Resolved(ids, deps) ==> s in done
  {
    for i := 0 to |deps|
      invariant forall s :: s in Resolved(ids, deps) <==> s in Resolved(ids, deps[i..]) || s in Resolved(ids, deps[..i])
      invariant forall s :: s in Resolved(ids, deps[..i]) ==> s in done
    {
      ResolvedSplit(ids, deps, i);
      if deps[i] in ids && ids[deps[i]] !in done {
        assert ids[deps[i]] in Resolved(ids, deps[i..]);
        return false;
      }
    }
    return true;
  }

  lemma {:induction false} ResolvedAppend(ids: map<string, string>, a: seq<string>, b: seq<string>)
    ensures Resolved(ids, a + b) == Resolved(ids, a) + Resolved(ids, b)
  {
    if a == [] {
      assert a + b == b;
    } else {
      assert (a + b)[1..] == a[1..] + b;
      ResolvedAppend(ids, a[1..], b);
    }
  }

  lemma ResolvedSplit(ids: map<string, string>, deps: seq<string>, i: nat)
    requires i < |deps|
    ensures Resolved(ids, deps[..i + 1]) == Resolved(ids, deps[..i]) + Resolved(ids, [deps[i]])
    ensures Resolved(ids, deps[i..]) == Resolved(ids, [deps[i]]) + Resolved(ids, deps[i + 1..])
  {
    assert deps[..i + 1] == deps[..i] + [deps[i]];
    ResolvedAppend(ids, deps[..i], [deps[i]]);
    assert deps[i..] == [deps[i]] + deps[i + 1..];
    ResolvedAppend(ids, [deps[i]], deps[i + 1..]);
  }

  method ResolveAll(ids: map<string, string>, deps: seq<string>) returns (stableIds: seq<string>)
    ensures stableIds == Resolved(ids, deps)
  {
    stableIds := [];
    for i := 0 to |deps|
      invariant stableIds == Resolved(ids, deps[..i])
    {
      ResolvedSplit(ids, deps, i);
      if deps[i] in ids {
        stableIds := stableIds + [ids[deps[i]]];
      }
    }
    assert deps[..|deps|] == deps;
  }

  ghost predicate Lacks(refs: seq<StepRef>, done: set<string>, i: nat)
    requires i < |refs|
  {
    exists d :: d in refs[i].dependsOn && d !in done
  }

  /** The scan of pass `round` has reached step `i`. */
  ghost predicate Scan(refs: seq<StepRef>, p: Placement, i: nat, round: nat) {
    && Sound(refs, p) && Scanned(refs, p, i, round) && i <= |refs|
    && Waiting(refs, p, 0, i, round + 1) && Waiting(refs, p, i, |refs|, round)
  }

  ghost predicate AllLack(refs: seq<StepRef>, p: Placement, i: nat)
    requires i <= |refs|
  {
    forall m :: 0 <= m < i && refs[m].id !in p.step ==> Lacks(refs, p.step.Keys, m)
  }

  lemma ScanPasses(refs: seq<StepRef>, p: Placement, i: nat, round: nat)
    requires Scan(refs, p, i, round) && i < |refs|
    requires refs[i].id in p.step || Lacks(refs, p.step.Keys, i)
    ensures Scan(refs, p, i + 1, round)
    ensures AllLack(refs, p, i) ==> AllLack(refs, p, i + 1)
  {
    WaitingPasses(refs, p, i, round);
  }

  lemma WaitingPasses(refs: seq<StepRef>, p: Placement, i: nat, round: nat)
    requires Sound(refs, p) && i < |refs| && Scanned(refs, p, i, round)
    requires Waiting(refs, p, 0, i, round + 1) && Waiting(refs, p, i, |refs|, round)
    requires refs[i].id in p.step || Lacks(refs, p.step.Keys, i)
    ensures Waiting(refs, p, 0, i + 1, round + 1) && Waiting(refs, p, i + 1, |refs|, round)
  {
    assert NotBefore(refs, p, i, round + 1) || refs[i].id in p.step;
  }

  lemma ScanPlaces(refs: seq<StepRef>, p: Placement, i: nat, round: nat)
    requires Scan(refs, p, i, round) && i < |refs|
    requires refs[i].id !in p.step && forall d :: d in refs[i].dependsOn ==> d in p.step
    ensures Scan(refs, Place(refs, p, i, round), i + 1, round)
  {
    PlacingKeepsSound(refs, p, i, round);
    PlacingKeepsAllWaiting(refs, p, i, round);
  }

  lemma ScanEnds(refs: seq<StepRef>, p: Placement, round: nat)
    requires Scan(refs, p, |refs|, round)
    ensures Scan(refs, p, 0, round + 1)
  {
    forall s | s in p.step ensures Precedes(Key(p, s), (round + 1, 0)) {
      assert Precedes(Key(p, s), (round, |refs|));
    }
  }

  ghost predicate Represents(steps: seq<Fields>, p: Placement, ordered: seq<ScheduledStep>, done: set<string>) {
    && (forall k :: 0 <= k < |p.order| ==> p.order[k] < |steps|)
    && done == p.step.Keys
    && ordered == Annotated(steps, p.order)
  }

  lemma RepresentsPlaced(steps: seq<Fields>, p: Placement, ordered: seq<ScheduledStep>, done: set<string>,
                         i: nat, round: nat)
    requires Represents(steps, p, ordered, done) && i < |steps|
    ensures var step := ScheduledStep(steps[i], StableStep(steps, steps[i]).dependsOn);
            Represents(steps, Place(StableSteps(steps), p, i, round), ordered + [step],
                       done + {TextAt(steps[i], "stable_id")})
  {
    var q := Place(StableSteps(steps), p, i, round);
    assert forall k :: 0 <= k < |p.order| ==> q.order[k] == p.order[k];
    assert q.order[|p.order|] == i;
  }

  /** One scan over the plan. */
  method RunPass(steps: seq<Fields>, ids: map<string, string>, before: seq<ScheduledStep>, placed: set<string>,
                 ghost p: Placement, ghost round: nat)
    returns (ordered: seq<ScheduledStep>, done: set<string>, progress: bool, ghost q: Placement)
    requires ids == StableIdMap(steps) && Represents(steps, p, before, placed)
    requires Scan(StableSteps(steps), p, 0, round)
    ensures Represents(steps, q, ordered, done)
    ensures Scan(StableSteps(steps), q, 0, round + 1)
    ensures |ordered| >= |before| && (progress <==> |ordered| > |before|)
    ensures !progress ==> AllLack(StableSteps(steps), q, |steps|)
  {
    ordered, done, progress, q := before, placed, false, p;
    ghost var refs := StableSteps(steps);
    for i := 0 to |steps|
      invariant Represents(steps, q, ordered, done)
      invariant Scan(refs, q, i, round)
      invariant |ordered| >= |before| && (progress <==> |ordered| > |before|)
      invariant !progress ==> AllLack(refs, q, i)
    {
      var sid := TextAt(steps[i], "stable_id");
      assert refs[i] == StableStep(steps, steps[i]);
      if sid in done {
        ScanPasses(refs, q, i, round);
        continue;
      }
      var deps := StringsAt(steps[i], "depends_on");
      var ready := AllPlaced(ids, deps, done);
      if ready {
        var depStableIds := ResolveAll(ids, deps);
        ScanPlaces(refs, q, i, round);
        RepresentsPlaced(steps, q, ordered, done, i, round);
        ordered := ordered + [ScheduledStep(steps[i], depStableIds)];
        done := done + {sid};
        progress := true;
        q := Place(refs, q, i, round);
      } else {
        assert Lacks(refs, q.step.Keys, i);
        ScanPasses(refs, q, i, round);
      }
    }
    ScanEnds(refs, q, round);
  }

  lemma PlacedIsDistinct(refs: seq<StepRef>, p: Placement)
    requires Sound(refs, p)
    ensures Distinct(p.order)
  {
    forall k, m | 0 <= k < m < |p.order| ensures p.order[k] != p.order[m] {
      assert Precedes(KeyAt(refs, p, k), KeyAt(refs, p, m));
    }
  }

  /** When a pass over an incomplete schedule places nothing, two steps share a stable id or the
      remaining steps wait for each other in a circle. */
  lemma StuckIsUnschedulable(refs: seq<StepRef>, p: Placement)
    requires Sound(refs, p) && AllLack(refs, p, |refs|) && KnownReferences(refs) && |p.order| < |refs|
    ensures !Schedulable(refs)
  {
    if DistinctIds(refs) {
      var i := UnplacedStep(refs, p);
      var g, stuck := GraphOf(refs), IdsOf(refs) - p.step.Keys;
      forall x | x in stuck ensures StaysIn(g, stuck, x) {
        var m :| 0 <= m < |refs| && refs[m].id == x;
        assert Lacks(refs, p.step.Keys, m);
        var d :| d in refs[m].dependsOn && d !in p.step.Keys;
        GraphAt(refs, m);
        assert Edge(g, x, d);
      }
      StuckSetHasCycle(g, stuck, [refs[i].id]);
    }
  }

  lemma UnplacedStep(refs: seq<StepRef>, p: Placement) returns (i: nat)
    requires Sound(refs, p) && DistinctIds(refs) && |p.order| < |refs|
    ensures i < |refs| && refs[i].id !in p.step
  {
    i := MissingIndex(p.order, |refs|);
    assert forall s :: s in p.step ==> p.step[s] in p.order && refs[p.step[s]].id == s;
  }

  ghost function Passes(refs: seq<StepRef>, p: Placement): seq<nat>
    requires forall i :: 0 <= i < |refs| ==> refs[i].id in p.pass
  {
    seq(|refs|, i requires 0 <= i < |refs| => p.pass[refs[i].id])
  }

  lemma CompleteCovers(refs: seq<StepRef>, p: Placement)
    requires Sound(refs, p) && |p.order| >= |refs|
    ensures Permutation(p.order, |refs|) && DistinctIds(refs)
    ensures forall i :: 0 <= i < |refs| ==> refs[i].id in p.step && p.step[refs[i].id] == i
  {
    PlacedIsDistinct(refs, p);
    DistinctIndices(p.order, |refs|);
    forall i: nat | i < |refs| ensures refs[i].id in p.step && p.step[refs[i].id] == i {
      assert i in p.order;
    }
  }

  lemma CompleteIsSchedule(refs: seq<StepRef>, p: Placement)
    requires Sound(refs, p) && |p.order| >= |refs|
    ensures IsSchedule(refs, p.order) && DistinctIds(refs)
  {
    CompleteCovers(refs, p);
    var pass := Passes(refs, p);
    forall i, j | 0 <= i < |refs| && 0 <= j < |refs| && DependsOn(refs, i, j)
      ensures pass[j] + Delay(i, j) <= pass[i]
    {
      assert InTime(refs, p, refs[i].id);
      assert Wait(p, i, refs[j].id) <= pass[i];
    }
    forall i | 0 <= i < |refs| && pass[i] > 0 ensures Held(refs, pass, i) {
      assert InTime(refs, p, refs[i].id);
      var d :| d in refs[i].dependsOn && d in p.step && Wait(p, i, d) == p.pass[refs[i].id];
      assert DependsOn(refs, i, p.step[d]) && pass[p.step[d]] + Delay(i, p.step[d]) == pass[i];
    }
    forall k, m | 0 <= k < m < |p.order| ensures Sooner(pass, p.order[k], p.order[m]) {
      assert Precedes(KeyAt(refs, p, k), KeyAt(refs, p, m));
    }
    assert EarliestPasses(refs, pass) && SortedByPass(p.order, pass);
  }

  ghost function IdOrder(refs: seq<StepRef>, order: seq<nat>): seq<string>
    requires forall k :: 0 <= k < |order| ==> order[k] < |refs|
  {
    seq(|order|, k requires 0 <= k < |order| => refs[order[k]].id)
  }

  lemma ScheduledIsAcyclic(refs: seq<StepRef>, order: seq<nat>)
    requires IsSchedule(refs, order) && DistinctIds(refs) && KnownReferences(refs)
    ensures !HasCycle(GraphOf(refs))
  {
    ScheduleRespectsDependencies(refs, order);
    var ids, g := IdOrder(refs, order), GraphOf(refs);
    forall k, d | 0 <= k < |ids| && Edge(g, ids[k], d) ensures d in ids[..k] {
      GraphAt(refs, order[k]);
      assert d in refs[order[k]].dependsOn && d in IdsOf(refs);
      var j :| 0 <= j < |refs| && refs[j].id == d;
      assert DependsOn(refs, order[k], j);
      var m :| 0 <= m < k && order[..k][m] == j;
      assert ids[..k][m] == d;
    }
    forall a | a in g ensures a in ids {
      var j :| 0 <= j < |refs| && refs[j].id == a;
      PermutationCovers(order, |refs|, j);
      var m :| 0 <= m < |order| && order[m] == j;
      assert ids[m] == a;
    }
    OrderExcludesCycles(g, ids);
  }

  ghost predicate ScheduledAs(steps: seq<Fields>, scheduled: seq<ScheduledStep>, order: seq<nat>) {
    IsSchedule(StableSteps(steps), order) && scheduled == Annotated(steps, order)
  }

  /** The repeated-pass sort succeeds exactly when stable ids are distinct and the resolved
      dependencies are acyclic, whatever the plan looks like otherwise. */
  method SortSteps(steps: seq<Fields>) returns (result: Option<seq<ScheduledStep>>)
    ensures result.Some? <==> Schedulable(StableSteps(steps))
    ensures result.Some? ==> exists order :: ScheduledAs(steps, result.value, order)
  {
    var ids := BuildStableIdMap(steps);
    StableReferencesKnown(steps);
    var ordered: seq<ScheduledStep> := [];
    var done: set<string> := {};
    ghost var p, round := Placement([], map[], map[]), 0;
    ghost var refs := StableSteps(steps);
    while |ordered| < |steps|
      invariant Represents(steps, p, ordered, done) && Scan(refs, p, 0, round)
      decreases |steps| - |ordered|
    {
      var progress;
      ordered, done, progress, p := RunPass(steps, ids, ordered, done, p, round);
      round := round + 1;
      if !progress {
        StuckIsUnschedulable(refs, p);
        return None;
      }
    }
    CompleteIsSchedule(refs, p);
    ScheduledIsAcyclic(refs, p.order);
    assert ScheduledAs(steps, ordered, p.order);
    return Some(ordered);
  }

  // ---- From the stored plan body ----

  datatype ResolveError = BadJson | NoStepsArray | CycleDetected

  datatype Resolution = Scheduled(steps: seq<ScheduledStep>) | Unresolved(error: ResolveError)

  /** Array items that are not objects are skipped. */
  function Objects(items: seq<Value>): seq<Fields> {
    if items == [] then []
    else if items[0].Object? then [items[0].fields] + Objects(items[1..])
    else Objects(items[1..])
  }

  /** Objects are collected one item at a time and in order. */
  lemma {:induction false} ObjectsConcat(a: seq<Value>, b: seq<Value>)
    ensures Objects(a + b) == Objects(a) + Objects(b)
  {
    if a == [] {
      assert a + b == b;
    } else {
      assert (a + b)[1..] == a[1..] + b;
      ObjectsConcat(a[1..], b);
    }
  }

  lemma OneObject(item: Value)
    ensures Objects([item]) == if item.Object? then [item.fields] else []
  {
    assert [item][1..] == [];
  }

  predicate HasSteps(body: Body) {
    DecodesToMap(body) && "steps" in PlanOf(body) && PlanOf(body)["steps"].Array?
  }

  function StepsOf(body: Body): seq<Fields>
    requires HasSteps(body)
  {
    Objects(PlanOf(body)["steps"].items)
  }

  method CollectObjects(items: seq<Value>) returns (objects: seq<Fields>)
    ensures objects == Objects(items)
  {
    objects := [];
    for i := 0 to |items|
      invariant objects + Objects(items[i..]) == Objects(items)
    {
      assert items[i..][1..] == items[i + 1..];
      if items[i].Object? {
        objects := objects + [items[i].fields];
      }
    }
  }

  method ResolveOrderedSteps(body: Body) returns (result: Resolution)
    ensures result == Unresolved(BadJson) <==> !DecodesToMap(body)
    ensures result == Unresolved(NoStepsArray) <==> DecodesToMap(body) && !HasSteps(body)
    ensures result == Unresolved(CycleDetected) <==> HasSteps(body) && !Schedulable(StableSteps(StepsOf(body)))
    ensures result.Scheduled? ==> exists order :: ScheduledAs(StepsOf(body), result.steps, order)
  {
    if !DecodesToMap(body) {
      return Unresolved(BadJson);
    }
    if !HasSteps(body) {
      return Unresolved(NoStepsArray);
    }
    var steps := CollectObjects(PlanOf(body)["steps"].items);
    var sorted := SortSteps(steps);
    return if sorted.Some? then Scheduled(sorted.value) else Unresolved(CycleDetected);
  }
}
