/** The three-colour depth-first search that both plan validators run over `depends_on`. */
module CycleSearch {
  import opened PlanGraph

  datatype Colour = White | Grey | Black

  /** The state shared by the recursive calls of one search. `finished` is a proof device: the
      black steps in the order in which they turned black, which is a topological order. */
  class ColourSearch {
    const deps: Graph
    var colours: map<string, Colour>
    ghost var finished: seq<string>

    /** The Go validator starts from an empty map: a missing entry reads as white. */
    constructor Lazy(deps: Graph)
      requires Closed(deps)
      ensures this.deps == deps && Valid([]) && finished == []
    {
      this.deps := deps;
      colours := map[];
      finished := [];
    }

    /** The Python validator colours every step white beforehand. */
    constructor Prefilled(deps: Graph)
      requires Closed(deps)
      ensures this.deps == deps && Valid([]) && finished == []
    {
      this.deps := deps;
      colours := map id | id in deps :: White;
      finished := [];
    }

    function ColourOf(id: string): Colour
      reads this
    {
      if id in colours then colours[id] else White
    }

    ghost function WhiteSteps(): set<string>
      reads this
    {
      set id | id in deps && ColourOf(id) == White
    }

    /** `path` is the chain of calls in progress, outermost first. */
    ghost predicate Valid(path: seq<string>)
      reads this
    {
      && Closed(deps)
      && (path == [] || Walk(deps, path))
      && (forall id :: ColourOf(id) == Grey <==> id in path)
      && (forall id :: ColourOf(id) == Black <==> id in finished)
      && DepsFirst(deps, finished)
    }

    method Dfs(id: string, ghost path: seq<string>) returns (found: bool)
      requires Valid(path) && id in deps
      requires path == [] || Edge(deps, path[|path| - 1], id)
      modifies this`colours, this`finished
      ensures found ==> HasCycle(deps)
      ensures !found ==> Valid(path) && id in finished && old(finished) <= finished
      decreases WhiteSteps()
    {
      if ColourOf(id) == Black {
        return false;
      }
      if ColourOf(id) == Grey {
        BackEdgeCloses(deps, path, id);
        return true;
      }
      colours := colours[id := Grey];
      ghost var trail := path + [id];
      assert Walk(deps, trail);
      ghost var before := old(WhiteSteps());
      assert id in before && id !in WhiteSteps();
      var neighbours := deps[id];
      for i := 0 to |neighbours|
        invariant Valid(trail) && old(finished) <= finished
        invariant forall j :: 0 <= j < i ==> neighbours[j] in finished
        invariant WhiteSteps() < before
      {
        assert Edge(deps, id, neighbours[i]);
        var cyclic := Dfs(neighbours[i], trail);
        if cyclic {
          return true;
        }
      }
      FinishKeepsDepsFirst(deps, finished, id);
      colours := colours[id := Black];
      finished := finished + [id];
      return false;
    }
  }

  lemma FinishKeepsDepsFirst(g: Graph, order: seq<string>, id: string)
    requires DepsFirst(g, order)
    requires forall d :: Edge(g, id, d) ==> d in order
    ensures DepsFirst(g, order + [id])
  {
    var longer := order + [id];
    forall k, d | 0 <= k < |longer| && Edge(g, longer[k], d) ensures d in longer[..k] {
      if k < |order| {
        assert longer[..k] == order[..k];
      } else {
        assert longer[..k] == order;
      }
    }
  }

  /** The driver loop: visits the given steps in any order and stops at the first cycle.
      Its verdict does not depend on that order. */
  method SearchFrom(search: ColourSearch, ids: set<string>) returns (cyclic: bool)
    requires search.Valid([]) && search.finished == [] && ids == search.deps.Keys
    modifies search
    ensures cyclic <==> HasCycle(search.deps)
  {
    var remaining := ids;
    while remaining != {}
      invariant search.Valid([]) && remaining <= ids
      invariant forall id :: id in ids - remaining ==> id in search.finished
    {
      var id :| id in remaining;
      var found := search.Dfs(id, []);
      if found {
        return true;
      }
      remaining := remaining - {id};
    }
    OrderExcludesCycles(search.deps, search.finished);
    return false;
  }
}
