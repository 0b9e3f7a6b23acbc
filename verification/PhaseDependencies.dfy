/**
 Replacing the dependencies of one project phase: the input guards, then a
 recursive depth-first search with an active and a visited set.
 */
module PhaseDependencies {
  import opened Graphs

  datatype PhaseEdge<Id> = PhaseEdge(phaseId: Id, dependsOnPhaseId: Id)
  datatype Verdict = Accepted | DuplicateDependency | SelfDependency | ForeignDependency | CyclicDependency

  // -- the depth-first search ---------------------------------------------------

  /** No edge leaves the set, and no cycle lies inside it. */
  ghost predicate Settled<Id(!new)>(g: map<Id, seq<Id>>, visited: set<Id>) {
    && (forall x, y :: x in visited && Edge(g, x, y) ==> y in visited)
    && (forall c :: Cycle(g, c) ==> c[0] !in visited)
  }

  /** A node whose targets are all settled can be settled too. */
  lemma SettleNode<Id(!new)>(g: map<Id, seq<Id>>, visited: set<Id>, id: Id)
    requires Settled(g, visited) && id !in visited
    requires forall y :: Edge(g, id, y) ==> y in visited
    ensures Settled(g, visited + {id})
  {
    forall c | Cycle(g, c) ensures c[0] !in visited + {id} {
      if c[0] == id {
        assert Edge(g, c[0], c[0 + 1]);
        WalkSlice(g, c, 1, |c|);
        WalkStaysIn(g, visited, c[1..|c|], |c| - 2);
        assert false;
      }
    }
  }

  ghost predicate CycleReachableFrom<Id(!new)>(g: map<Id, seq<Id>>, root: Id) {
    exists c :: Cycle(g, c) && Reaches(g, root, c[0])
  }

  /** A settled node reaches no cycle. */
  lemma SettledReachesNoCycle<Id(!new)>(g: map<Id, seq<Id>>, visited: set<Id>, root: Id)
    requires Settled(g, visited) && root in visited
    ensures !CycleReachableFrom(g, root)
  {
    forall c | Cycle(g, c) && Reaches(g, root, c[0]) ensures false {
      var p :| WalkBetween(g, root, c[0], p);
      WalkStaysIn(g, visited, p, |p| - 1);
    }
  }

  /** The recursion stack: a repetition-free walk through the active nodes, ending at a node with an edge to id. */
  ghost predicate Stack<Id(!new)>(g: map<Id, seq<Id>>, stack: seq<Id>, active: set<Id>, id: Id) {
    && Distinct(stack) && Elements(stack) == active
    && (stack != [] ==> Walk(g, stack) && Edge(g, stack[|stack| - 1], id))
  }

  ghost function Root<Id>(stack: seq<Id>, id: Id): Id {
    if stack == [] then id else stack[0]
  }

  lemma PushActive<Id(!new)>(g: map<Id, seq<Id>>, stack: seq<Id>, active: set<Id>, id: Id, target: Id)
    requires Stack(g, stack, active, id) && id !in active && Edge(g, id, target)
    ensures Stack(g, stack + [id], active + {id}, target)
  {
    if stack != [] {
      WalkConcat(g, stack, [id]);
    }
  }

  /** Meeting an active node closes a cycle below the root of the search. */
  lemma ActiveClosesCycle<Id(!new)>(g: map<Id, seq<Id>>, stack: seq<Id>, active: set<Id>, id: Id)
    requires Stack(g, stack, active, id) && id in active
    ensures CycleReachableFrom(g, Root(stack, id))
  {
    assert id in Elements(stack);
    var i :| 0 <= i < |stack| && stack[i] == id;
    WalkSlice(g, stack, i, |stack|);
    WalkConcat(g, stack[i..|stack|], [id]);
    var c := stack[i..|stack|] + [id];
    assert Cycle(g, c);
    WalkSlice(g, stack, 0, i + 1);
    assert WalkBetween(g, stack[0], c[0], stack[0..i + 1]);
  }

  class CycleSearch<Id(!new,==)> {
    const graph: map<Id, seq<Id>>
    var active: set<Id>
    var visited: set<Id>

    constructor (graph: map<Id, seq<Id>>)
      ensures this.graph == graph && active == {} && visited == {}
    {
      this.graph := graph;
      active, visited := {}, {};
    }

    /**
     True exactly when a cycle is reachable from id, for a fresh search. During a
     search: a false result settles id and leaves the active set as it was.
     */
    method Visit(id: Id, ghost stack: seq<Id>) returns (found: bool)
      requires Stack(graph, stack, active, id)
      requires Settled(graph, visited) && active !! visited
      modifies this
      ensures found ==> CycleReachableFrom(graph, Root(stack, id))
      ensures !found ==> active == old(active) && active !! visited
      ensures !found ==> Settled(graph, visited) && old(visited) + {id} <= visited
      decreases Nodes(graph) - active - visited
    {
      if id in active {
        ActiveClosesCycle(graph, stack, active, id);
        return true;
      }
      if id in visited {
        return false;
      }
      active := active + {id};
      var targets := Targets(graph, id);
      var k := 0;
      while k < |targets|
        invariant 0 <= k <= |targets|
        invariant active == old(active) + {id} && active !! visited
        invariant Settled(graph, visited) && old(visited) <= visited
        invariant forall y :: y in targets[..k] ==> y in visited
      {
        var target := targets[k];
        PushActive(graph, stack, old(active), id, target);
        assert id in old(Nodes(graph) - active - visited) - (Nodes(graph) - active - visited);
        var cyclic := Visit(target, stack + [id]);
        if cyclic {
          return true;
        }
        assert targets[..k + 1] == targets[..k] + [target];
        k := k + 1;
      }
      assert targets[..k] == targets;
      SettleNode(graph, visited, id);
      active := active - {id};
      visited := visited + {id};
      return false;
    }

    /** phaseIds.some(cycle): stops at the first listed node from which a cycle is reachable. */
    method Some(phaseIds: seq<Id>) returns (found: bool)
      requires active == {} && visited == {}
      modifies this
      ensures found <==> exists id :: id in phaseIds && CycleReachableFrom(graph, id)
    {
      var i := 0;
      while i < |phaseIds|
        invariant 0 <= i <= |phaseIds|
        invariant active == {} && Settled(graph, visited)
        invariant forall id :: id in phaseIds[..i] ==> id in visited
      {
        var id := phaseIds[i];
        var cyclic := Visit(id, []);
        if cyclic {
          assert id in phaseIds && CycleReachableFrom(graph, id);
          return true;
        }
        i := i + 1;
      }
      assert phaseIds[..i] == phaseIds;
      forall id | id in phaseIds ensures !CycleReachableFrom(graph, id) {
        SettledReachesNoCycle(graph, visited, id);
      }
      return false;
    }
  }

  // -- the replacement check -------------------------------------------------------

  /** The stored edges as adjacency lists, in row order. */
  function AdjacencyOf<Id>(edges: seq<PhaseEdge<Id>>): map<Id, seq<Id>> {
    if edges == [] then map[]
    else
      var last := edges[|edges| - 1];
      var g := AdjacencyOf(edges[..|edges| - 1]);
      g[last.phaseId := Targets(g, last.phaseId) + [last.dependsOnPhaseId]]
  }

  lemma {:induction false} AdjacencyEdges<Id(!new)>(edges: seq<PhaseEdge<Id>>, x: Id, y: Id)
    ensures Edge(AdjacencyOf(edges), x, y) <==> PhaseEdge(x, y) in edges
  {
    if edges != [] {
      AdjacencyEdges(edges[..|edges| - 1], x, y);
      assert edges == edges[..|edges| - 1] + [edges[|edges| - 1]];
    }
  }

  function ReplacementGraph<Id>(edges: seq<PhaseEdge<Id>>, phaseId: Id, dependencyIds: seq<Id>): map<Id, seq<Id>> {
    AdjacencyOf(edges)[phaseId := dependencyIds]
  }

  ghost predicate GuardsPass<Id(!new)>(phaseIds: seq<Id>, phaseId: Id, dependencyIds: seq<Id>) {
    && Distinct(dependencyIds) && phaseId !in dependencyIds
    && phaseId in phaseIds && forall d :: d in dependencyIds ==> d in phaseIds
  }

  ghost predicate ClosesCycle<Id(!new)>(phaseIds: seq<Id>, edges: seq<PhaseEdge<Id>>, phaseId: Id, dependencyIds: seq<Id>) {
    exists id :: id in phaseIds && CycleReachableFrom(ReplacementGraph(edges, phaseId, dependencyIds), id)
  }

  method ValidatePhaseDependencies<Id(!new,==)>(phaseIds: seq<Id>, edges: seq<PhaseEdge<Id>>, phaseId: Id, dependencyIds: seq<Id>)
    returns (verdict: Verdict)
    ensures verdict == DuplicateDependency <==> !Distinct(dependencyIds)
    ensures verdict == SelfDependency <==> Distinct(dependencyIds) && phaseId in dependencyIds
    ensures verdict == ForeignDependency <==>
      && Distinct(dependencyIds) && phaseId !in dependencyIds
      && (phaseId !in phaseIds || exists d :: d in dependencyIds && d !in phaseIds)
    ensures verdict == CyclicDependency <==>
      GuardsPass(phaseIds, phaseId, dependencyIds) && ClosesCycle(phaseIds, edges, phaseId, dependencyIds)
  {
    DistinctIffSize(dependencyIds);
    if |Elements(dependencyIds)| != |dependencyIds| {
      return DuplicateDependency;
    }
    if phaseId in dependencyIds {
      return SelfDependency;
    }
    var known := Elements(phaseIds);
    if phaseId !in known || exists d :: d in dependencyIds && d !in known {
      return ForeignDependency;
    }
    var graph: map<Id, seq<Id>> := map[];
    var i := 0;
    while i < |edges|
      invariant 0 <= i <= |edges|
      invariant graph == AdjacencyOf(edges[..i]) - {phaseId}
    {
      assert edges[..i + 1][..i] == edges[..i];
      var edge := edges[i];
      if edge.phaseId != phaseId {
        graph := graph[edge.phaseId := Targets(graph, edge.phaseId) + [edge.dependsOnPhaseId]];
      }
      i := i + 1;
    }
    assert edges[..i] == edges;
    graph := graph[phaseId := dependencyIds];
    assert graph == ReplacementGraph(edges, phaseId, dependencyIds);
    var search := new CycleSearch(graph);
    var cyclic := search.Some(phaseIds);
    return if cyclic then CyclicDependency else Accepted;
  }

  // -- what acceptance means for the stored graph ------------------------------------

  ghost predicate KnownEdges<Id(!new)>(phaseIds: seq<Id>, edges: seq<PhaseEdge<Id>>) {
    forall e :: e in edges ==> e.phaseId in phaseIds && e.dependsOnPhaseId in phaseIds
  }

  /** The stored graph is acyclic and mentions only phases of the project. */
  ghost predicate DagOverPhases<Id(!new)>(phaseIds: seq<Id>, edges: seq<PhaseEdge<Id>>) {
    KnownEdges(phaseIds, edges) && !HasCycle(AdjacencyOf(edges))
  }

  ghost predicate Accepts<Id(!new)>(phaseIds: seq<Id>, edges: seq<PhaseEdge<Id>>, phaseId: Id, dependencyIds: seq<Id>) {
    GuardsPass(phaseIds, phaseId, dependencyIds) && !ClosesCycle(phaseIds, edges, phaseId, dependencyIds)
  }

  function Without<Id(!new,==)>(edges: seq<PhaseEdge<Id>>, phaseId: Id): (r: seq<PhaseEdge<Id>>)
    ensures forall e :: e in r <==> e in edges && e.phaseId != phaseId
  {
    if edges == [] then []
    else
      var rest := Without(edges[1..], phaseId);
      if edges[0].phaseId == phaseId then rest else [edges[0]] + rest
  }

  /** The rows after the old edges of the phase are deleted and the new ones inserted. */
  function Replaced<Id(!new,==)>(edges: seq<PhaseEdge<Id>>, phaseId: Id, dependencyIds: seq<Id>): (r: seq<PhaseEdge<Id>>)
    ensures forall x, y :: PhaseEdge(x, y) in r <==> if x == phaseId then y in dependencyIds else PhaseEdge(x, y) in edges
  {
    var rows := seq(|dependencyIds|, i requires 0 <= i < |dependencyIds| => PhaseEdge(phaseId, dependencyIds[i]));
    assert forall y :: y in dependencyIds <==> PhaseEdge(phaseId, y) in rows by {
      forall y | y in dependencyIds ensures PhaseEdge(phaseId, y) in rows {
        var i :| 0 <= i < |dependencyIds| && dependencyIds[i] == y;
        assert rows[i] == PhaseEdge(phaseId, y);
      }
    }
    Without(edges, phaseId) + rows
  }

  lemma SameEdgesSameCycles<Id(!new)>(g: map<Id, seq<Id>>, h: map<Id, seq<Id>>)
    requires forall x, y :: Edge(g, x, y) <==> Edge(h, x, y)
    ensures forall c :: Cycle(g, c) <==> Cycle(h, c)
  {
    forall c ensures Cycle(g, c) <==> Cycle(h, c) {}
  }

  lemma ReplacedGraph<Id(!new)>(edges: seq<PhaseEdge<Id>>, phaseId: Id, dependencyIds: seq<Id>)
    ensures forall x, y :: Edge(AdjacencyOf(Replaced(edges, phaseId, dependencyIds)), x, y) <==>
                           Edge(ReplacementGraph(edges, phaseId, dependencyIds), x, y)
    ensures HasCycle(AdjacencyOf(Replaced(edges, phaseId, dependencyIds))) <==> HasCycle(ReplacementGraph(edges, phaseId, dependencyIds))
  {
    var g, h := AdjacencyOf(Replaced(edges, phaseId, dependencyIds)), ReplacementGraph(edges, phaseId, dependencyIds);
    forall x, y ensures Edge(g, x, y) <==> Edge(h, x, y) {
      AdjacencyEdges(Replaced(edges, phaseId, dependencyIds), x, y);
      AdjacencyEdges(edges, x, y);
    }
    SameEdgesSameCycles(g, h);
  }

  /**
   Over known phases, searching from the listed phases misses nothing: the verdict is
   Cyclic exactly when the stored graph after the replacement would have any cycle.
   */
  lemma ListedPhasesSeeEveryCycle<Id(!new)>(phaseIds: seq<Id>, edges: seq<PhaseEdge<Id>>, phaseId: Id, dependencyIds: seq<Id>)
    requires KnownEdges(phaseIds, edges) && phaseId in phaseIds
    ensures ClosesCycle(phaseIds, edges, phaseId, dependencyIds) <==> HasCycle(AdjacencyOf(Replaced(edges, phaseId, dependencyIds)))
  {
    var g := ReplacementGraph(edges, phaseId, dependencyIds);
    ReplacedGraph(edges, phaseId, dependencyIds);
    if HasCycle(g) {
      var c :| Cycle(g, c);
      assert Edge(g, c[0], c[0 + 1]);
      AdjacencyEdges(edges, c[0], c[1]);
      assert c[0] in phaseIds;
      assert WalkBetween(g, c[0], c[0], [c[0]]);
      assert CycleReachableFrom(g, c[0]);
    }
  }

  /** One request against the stored rows: applied when accepted, otherwise nothing is written. */
  ghost function AfterRequest<Id(!new)>(phaseIds: seq<Id>, edges: seq<PhaseEdge<Id>>, request: (Id, seq<Id>)): seq<PhaseEdge<Id>> {
    if Accepts(phaseIds, edges, request.0, request.1) then Replaced(edges, request.0, request.1) else edges
  }

  ghost function AfterRequests<Id(!new)>(phaseIds: seq<Id>, edges: seq<PhaseEdge<Id>>, requests: seq<(Id, seq<Id>)>): seq<PhaseEdge<Id>>
    decreases |requests|
  {
    if requests == [] then edges
    else AfterRequests(phaseIds, AfterRequest(phaseIds, edges, requests[0]), requests[1..])
  }

  /** Any sequence of requests, accepted or not, keeps the stored graph a DAG over the project's phases. */
  lemma {:induction false} RequestsKeepDag<Id(!new)>(phaseIds: seq<Id>, edges: seq<PhaseEdge<Id>>, requests: seq<(Id, seq<Id>)>)
    requires DagOverPhases(phaseIds, edges)
    ensures DagOverPhases(phaseIds, AfterRequests(phaseIds, edges, requests))
    decreases |requests|
  {
    if requests != [] {
      var (phaseId, dependencyIds) := requests[0];
      if Accepts(phaseIds, edges, phaseId, dependencyIds) {
        ListedPhasesSeeEveryCycle(phaseIds, edges, phaseId, dependencyIds);
      }
      RequestsKeepDag(phaseIds, AfterRequest(phaseIds, edges, requests[0]), requests[1..]);
    }
  }

  // -- when a replacement closes a cycle -----------------------------------------------

  /** The first visit of x on a walk. */
  lemma {:induction false} FirstVisit<T(!new)>(p: seq<T>, x: T) returns (k: nat)
    requires x in p
    ensures k < |p| && p[k] == x && x !in p[..k]
  {
    if p[0] == x {
      k := 0;
    } else {
      var j := FirstVisit(p[1..], x);
      k := j + 1;
      assert p[..k] == [p[0]] + p[1..][..j];
    }
  }

  /**
   On a graph without cycles, the replacement closes one exactly when a new dependency
   already reaches the phase.
   */
  lemma ClosesCycleIffDependencyReachesPhase<Id(!new)>(edges: seq<PhaseEdge<Id>>, phaseId: Id, dependencyIds: seq<Id>)
    requires !HasCycle(AdjacencyOf(edges))
    ensures HasCycle(ReplacementGraph(edges, phaseId, dependencyIds)) <==>
            exists d :: d in dependencyIds && Reaches(AdjacencyOf(edges), d, phaseId)
  {
    var g, h := AdjacencyOf(edges), ReplacementGraph(edges, phaseId, dependencyIds);
    if HasCycle(h) {
      var c :| Cycle(h, c);
      if phaseId !in c {
        forall i | 0 <= i < |c| - 1 ensures Edge(g, c[i], c[i + 1]) {
          assert Edge(h, c[i], c[i + 1]);
        }
        assert Cycle(g, c);
        assert false;
      }
      var w := RotateTo(h, c, phaseId);
      assert Edge(h, w[0], w[0 + 1]);
      var tail := w[1..|w|];
      assert tail[|tail| - 1] == phaseId;
      WalkSlice(h, w, 1, |w|);
      var k := FirstVisit(tail, phaseId);
      WalkSlice(h, tail, 0, k + 1);
      CarryWalk(h, g, tail[0..k + 1], phaseId);
      assert WalkBetween(g, tail[0], phaseId, tail[0..k + 1]);
    }
    if d :| d in dependencyIds && Reaches(g, d, phaseId) {
      var p :| WalkBetween(g, d, phaseId, p);
      var k := FirstVisit(p, phaseId);
      WalkSlice(g, p, 0, k + 1);
      CarryWalk(g, h, p[0..k + 1], phaseId);
      WalkConcat(h, [phaseId], p[0..k + 1]);
      assert Cycle(h, [phaseId] + p[0..k + 1]);
    }
  }

  /**
   On a graph without cycles a request is applied exactly when it names known phases, each once, none
   of them the phase itself or one that already reaches it; then its rows are the new dependencies,
   and all others stay.
   */
  lemma RequestIsAppliedExactlyWhen<Id(!new)>(phaseIds: seq<Id>, edges: seq<PhaseEdge<Id>>, phaseId: Id, dependencyIds: seq<Id>)
    requires DagOverPhases(phaseIds, edges)
    ensures var after := AfterRequest(phaseIds, edges, (phaseId, dependencyIds));
      if Distinct(dependencyIds) && phaseId in phaseIds
         && forall d :: d in dependencyIds ==> d in phaseIds && d != phaseId && !Reaches(AdjacencyOf(edges), d, phaseId)
      then forall x, y :: PhaseEdge(x, y) in after <==> if x == phaseId then y in dependencyIds else PhaseEdge(x, y) in edges
      else after == edges
  {
    hide AdjacencyOf, Reaches, Replaced, Distinct;
    ClosesCycleIffDependencyReachesPhase(edges, phaseId, dependencyIds);
    if phaseId in phaseIds {
      ListedPhasesSeeEveryCycle(phaseIds, edges, phaseId, dependencyIds);
      ReplacedGraph(edges, phaseId, dependencyIds);
    }
  }

  /** A walk whose only visit of x is its end needs no edge out of x. */
  lemma CarryWalk<T(!new)>(g: map<T, seq<T>>, h: map<T, seq<T>>, p: seq<T>, x: T)
    requires Walk(g, p) && x !in p[..|p| - 1]
    requires forall u, v :: u != x ==> (Edge(g, u, v) <==> Edge(h, u, v))
    ensures Walk(h, p)
  {
    forall i | 0 <= i < |p| - 1 ensures Edge(h, p[i], p[i + 1]) {
      assert Edge(g, p[i], p[i + 1]);
      assert p[i] == p[..|p| - 1][i];
    }
  }

  /** A cycle can be started at any of its nodes. */
  lemma RotateTo<T(!new)>(g: map<T, seq<T>>, c: seq<T>, x: T) returns (d: seq<T>)
    requires Cycle(g, c) && x in c
    ensures Cycle(g, d) && d[0] == x
  {
    var k := FirstVisit(c, x);
    if k == 0 {
      d := c;
    } else {
      assert c[0] == c[..k][0];
      WalkSlice(g, c, k, |c|);
      WalkSlice(g, c, 1, k + 1);
      assert Edge(g, c[0], c[0 + 1]);
      WalkConcat(g, c[k..|c|], c[1..k + 1]);
      d := c[k..|c|] + c[1..k + 1];
    }
  }
}
