/** Dependency graphs of plan steps: walks, cycles, reachability and topological orders.
    A graph maps a step to the steps it depends on. */
module PlanGraph {

  type Graph = map<string, seq<string>>

  predicate Edge(g: Graph, a: string, b: string) {
    a in g && b in g[a]
  }

  /** Every dependency is itself a step of the plan. */
  ghost predicate Closed(g: Graph) {
    forall a, b :: Edge(g, a, b) ==> b in g
  }

  ghost predicate Walk(g: Graph, w: seq<string>) {
    |w| > 0 && forall i :: 0 <= i < |w| - 1 ==> Edge(g, w[i], w[i + 1])
  }

  ghost predicate Cycle(g: Graph, w: seq<string>) {
    |w| >= 2 && Walk(g, w) && w[0] == w[|w| - 1]
  }

  ghost predicate HasCycle(g: Graph) {
    exists w :: Cycle(g, w)
  }

  /** `w` leads from `a` along dependencies to `b`; a step reaches itself. */
  ghost predicate Leads(g: Graph, a: string, b: string, w: seq<string>) {
    Walk(g, w) && w[0] == a && w[|w| - 1] == b
  }

  ghost predicate Reaches(g: Graph, a: string, b: string) {
    exists w :: Leads(g, a, b, w)
  }

  /** Every entry's dependencies occur before it. */
  ghost predicate DepsFirst(g: Graph, order: seq<string>) {
    forall k, d :: 0 <= k < |order| && Edge(g, order[k], d) ==> d in order[..k]
  }

  ghost function FirstIndex(order: seq<string>, x: string): (k: nat)
    requires x in order
    ensures k < |order| && order[k] == x
    ensures forall m :: 0 <= m < k ==> order[m] != x
  {
    if order[0] == x then 0 else 1 + FirstIndex(order[1..], x)
  }

  lemma {:induction false} WalkDescends(g: Graph, order: seq<string>, w: seq<string>, i: nat)
    requires DepsFirst(g, order) && Walk(g, w) && w[0] in order && i < |w|
    ensures w[i] in order && FirstIndex(order, w[i]) + i <= FirstIndex(order, w[0])
  {
    if i > 0 {
      WalkDescends(g, order, w, i - 1);
      var k := FirstIndex(order, w[i - 1]);
      assert Edge(g, w[i - 1], w[i - 1 + 1]);
      assert w[i] in order[..k];
      var j :| 0 <= j < k && order[..k][j] == w[i];
      assert order[j] == w[i];
    }
  }

  /** An order of all steps with dependencies first rules out every cycle. */
  lemma OrderExcludesCycles(g: Graph, order: seq<string>)
    requires DepsFirst(g, order) && forall a :: a in g ==> a in order
    ensures !HasCycle(g)
  {
    if w :| Cycle(g, w) {
      assert Edge(g, w[0], w[0 + 1]);
      WalkDescends(g, order, w, |w| - 1);
    }
  }

  lemma WalkExtends(g: Graph, w: seq<string>, y: string)
    requires Walk(g, w) && Edge(g, w[|w| - 1], y)
    ensures Walk(g, w + [y])
  {
  }

  /** A walk that steps back onto itself contains a cycle. */
  lemma BackEdgeCloses(g: Graph, w: seq<string>, y: string)
    requires Walk(g, w) && Edge(g, w[|w| - 1], y) && y in w
    ensures HasCycle(g)
  {
    WalkExtends(g, w, y);
    var longer := w + [y];
    var k :| 0 <= k < |w| && w[k] == y;
    var loop := longer[k..];
    forall i | 0 <= i < |loop| - 1 ensures Edge(g, loop[i], loop[i + 1]) {
      assert Edge(g, longer[k + i], longer[k + i + 1]);
    }
    assert Cycle(g, loop);
  }

  ghost predicate StaysIn(g: Graph, stuck: set<string>, x: string) {
    exists y :: y in stuck && Edge(g, x, y)
  }

  /** Following the dependencies inside a set that never runs out must close a cycle. */
  lemma {:induction false} StuckSetHasCycle(g: Graph, stuck: set<string>, trail: seq<string>)
    requires Walk(g, trail) && (forall x :: x in trail ==> x in stuck)
    requires forall x {:trigger StaysIn(g, stuck, x)} :: x in stuck ==> StaysIn(g, stuck, x)
    ensures HasCycle(g)
    decreases stuck - set x | x in trail
  {
    var last := trail[|trail| - 1];
    assert last in trail && StaysIn(g, stuck, last);
    var y :| y in stuck && Edge(g, last, y);
    if y in trail {
      BackEdgeCloses(g, trail, y);
    } else {
      WalkExtends(g, trail, y);
      assert y in trail + [y] && y in stuck - (set x | x in trail);
      assert (set x | x in trail) <= set x | x in trail + [y];
      StuckSetHasCycle(g, stuck, trail + [y]);
    }
  }

  lemma ReachesSelf(g: Graph, a: string)
    ensures Reaches(g, a, a)
  {
    assert Leads(g, a, a, [a]);
  }

  lemma ReachesFurther(g: Graph, a: string, b: string, c: string)
    requires Edge(g, a, b) && Reaches(g, b, c)
    ensures Reaches(g, a, c)
  {
    var w :| Leads(g, b, c, w);
    assert Leads(g, a, c, [a] + w);
  }
}
