/** The planner's pass and the phase search decide the same question. */
module GraphVerdicts {
  import opened Graphs
  import opened PlanDependencies
  import opened PhaseDependencies

  /** The plan's edges written with the identifiers of its tasks. */
  function Named<Id>(deps: Dependencies, ids: seq<Id>): map<Id, seq<Id>>
    requires |ids| == |deps| && Distinct(ids) && InRange(deps)
  {
    map id | id in ids :: NamesOf(deps[IndexOf(ids, id)], ids)
  }

  function NamesOf<Id>(indices: seq<nat>, ids: seq<Id>): (names: seq<Id>)
    requires forall k :: 0 <= k < |indices| ==> indices[k] < |ids|
    ensures |names| == |indices| && forall k :: 0 <= k < |indices| ==> names[k] == ids[indices[k]]
  {
    seq(|indices|, k requires 0 <= k < |indices| => ids[indices[k]])
  }

  function Naming<Id>(ids: seq<Id>): map<nat, Id> {
    map t | t in Indices(|ids|) :: ids[t]
  }

  lemma PlanEdgeIsNamed<Id(!new)>(deps: Dependencies, ids: seq<Id>, x: nat, y: nat)
    requires |ids| == |deps| && Distinct(ids) && InRange(deps) && Edge(GraphOf(deps), x, y)
    ensures x < |ids| && y < |ids| && Edge(Named(deps, ids), ids[x], ids[y])
  {
    var k :| 0 <= k < |deps[x]| && deps[x][k] == y;
    assert ids[x] in ids && IndexOf(ids, ids[x]) == x;
    assert NamesOf(deps[x], ids)[k] == ids[y];
  }

  lemma NamedEdgeIsPlanned<Id(!new)>(deps: Dependencies, ids: seq<Id>, u: Id, v: Id) returns (x: nat, y: nat)
    requires |ids| == |deps| && Distinct(ids) && InRange(deps) && Edge(Named(deps, ids), u, v)
    ensures x < |ids| && y < |ids| && ids[x] == u && ids[y] == v && Edge(GraphOf(deps), x, y)
  {
    x := IndexOf(ids, u);
    var names := NamesOf(deps[x], ids);
    var k :| 0 <= k < |names| && names[k] == v;
    y := deps[x][k];
  }

  lemma NamedRenames<Id(!new)>(deps: Dependencies, ids: seq<Id>)
    requires |ids| == |deps| && Distinct(ids) && InRange(deps)
    ensures Renames(GraphOf(deps), Named(deps, ids), Naming(ids))
  {
    hide Edge;
    var g, named, h := GraphOf(deps), Named(deps, ids), Naming(ids);
    forall x: nat, y: nat | Edge(g, x, y) ensures x in h && y in h && Edge(named, h[x], h[y]) {
      PlanEdgeIsNamed(deps, ids, x, y);
    }
    forall u, v | Edge(named, u, v) ensures exists x, y :: x in h && y in h && h[x] == u && h[y] == v && Edge(g, x, y) {
      var x, y := NamedEdgeIsPlanned(deps, ids, u, v);
      assert x in h && y in h && h[x] == u && h[y] == v;
    }
  }

  /** Run on the same plan, the topological pass and the depth-first search never disagree. */
  method KahnAndSearchAgree<Id(!new,==)>(deps: Dependencies, ids: seq<Id>) returns (kahnRejects: bool, searchRejects: bool)
    requires ValidReferences(deps) && |ids| == |deps| && Distinct(ids)
    ensures kahnRejects == searchRejects
    ensures kahnRejects <==> HasCycle(GraphOf(deps))
  {
    var issues, order := CheckPlan(deps);
    kahnRejects := issues != [];
    var search := new CycleSearch(Named(deps, ids));
    searchRejects := search.Some(ids);
    NamedRenames(deps, ids);
    RenamingKeepsCycles(GraphOf(deps), Named(deps, ids), Naming(ids));
    if HasCycle(Named(deps, ids)) {
      var c :| Cycle(Named(deps, ids), c);
      assert Edge(Named(deps, ids), c[0], c[0 + 1]);
      assert WalkBetween(Named(deps, ids), c[0], c[0], [c[0]]);
      assert c[0] in ids && CycleReachableFrom(Named(deps, ids), c[0]);
    }
  }
}
