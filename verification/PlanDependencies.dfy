/**
 The dependency part of the planner output check: reference errors first, then
 Kahn's topological pass over the task indices.
 */
module PlanDependencies {
  import opened Graphs

  datatype ReferenceError = UnknownTask | SelfReference | Duplicate
  datatype Issue =
    | BadReference(task: nat, edge: nat, error: ReferenceError)
    | CyclicPlan

  /** deps[t] lists the tasks that must finish before task t. */
  type Dependencies = seq<seq<nat>>

  function GraphOf(deps: Dependencies): map<nat, seq<nat>> {
    map t | t in Indices(|deps|) :: deps[t]
  }

  ghost predicate InRange(deps: Dependencies) {
    forall t, e :: 0 <= t < |deps| && 0 <= e < |deps[t]| ==> deps[t][e] < |deps|
  }

  ghost predicate NoSelfReference(deps: Dependencies) {
    forall t, e :: 0 <= t < |deps| && 0 <= e < |deps[t]| ==> deps[t][e] != t
  }

  ghost predicate NoDuplicates(deps: Dependencies) {
    forall t :: 0 <= t < |deps| ==> Distinct(deps[t])
  }

  ghost predicate ValidReferences(deps: Dependencies) {
    InRange(deps) && NoSelfReference(deps) && NoDuplicates(deps)
  }

  /** The one message the edge at position e of task t earns, if any; the tests run in this order. */
  ghost predicate Earns(deps: Dependencies, t: nat, e: nat, error: ReferenceError)
    requires t < |deps| && e < |deps[t]|
  {
    var d := deps[t][e];
    match error
    case UnknownTask => d >= |deps|
    case SelfReference => d < |deps| && d == t
    case Duplicate => d < |deps| && d != t && d in deps[t][..e]
  }

  /** Each issue is earned, and every edge of the first n tasks that earns one has it. */
  ghost predicate IssuesAreExact(deps: Dependencies, issues: seq<Issue>, n: nat, m: nat)
    requires n <= |deps| && (n < |deps| ==> m <= |deps[n]|)
  {
    && (forall i :: i in issues ==>
          i.BadReference? && i.task < |deps| && i.edge < |deps[i.task]| &&
          (i.task < n || (i.task == n && i.edge < m)) && Earns(deps, i.task, i.edge, i.error))
    && (forall t: nat, e: nat, error :: t < |deps| && e < |deps[t]| && (t < n || (t == n && e < m)) && Earns(deps, t, e, error) ==>
          BadReference(t, e, error) in issues)
  }

  /** The nested pass over all edges. */
  method CheckReferences(deps: Dependencies) returns (issues: seq<Issue>)
    ensures IssuesAreExact(deps, issues, |deps|, 0)
    ensures Distinct(issues)
  {
    issues := [];
    var t := 0;
    while t < |deps|
      invariant 0 <= t <= |deps|
      invariant IssuesAreExact(deps, issues, t, 0) && Distinct(issues)
    {
      var seen: set<nat> := {};
      var e := 0;
      while e < |deps[t]|
        invariant 0 <= e <= |deps[t]|
        invariant seen == Elements(deps[t][..e])
        invariant IssuesAreExact(deps, issues, t, e) && Distinct(issues)
      {
        var d := deps[t][e];
        if d >= |deps| {
          issues := issues + [BadReference(t, e, UnknownTask)];
        } else if d == t {
          issues := issues + [BadReference(t, e, SelfReference)];
        } else if d in seen {
          issues := issues + [BadReference(t, e, Duplicate)];
        }
        seen := seen + {d};
        assert deps[t][..e + 1] == deps[t][..e] + [d];
        e := e + 1;
      }
      t := t + 1;
    }
  }

  /** No issue means exactly that every reference is in range, foreign and unique. */
  lemma NoIssuesMeansValid(deps: Dependencies, issues: seq<Issue>)
    requires IssuesAreExact(deps, issues, |deps|, 0)
    ensures issues == [] <==> ValidReferences(deps)
  {
    if issues == [] {
      forall t, e | 0 <= t < |deps| && 0 <= e < |deps[t]|
        ensures deps[t][e] < |deps| && deps[t][e] != t && deps[t][e] !in deps[t][..e]
      {
        assert !Earns(deps, t, e, UnknownTask);
        assert !Earns(deps, t, e, SelfReference);
        assert !Earns(deps, t, e, Duplicate);
      }
      forall t, i, j | 0 <= t < |deps| && 0 <= i < j < |deps[t]| ensures deps[t][i] != deps[t][j] {
        assert deps[t][..j][i] == deps[t][i];
      }
    } else {
      var i := issues[0];
      assert i in issues && Earns(deps, i.task, i.edge, i.error);
    }
  }

  // -- Kahn's pass ------------------------------------------------------------

  /** The dependencies of t that are not yet processed. */
  function Unmet(deps: Dependencies, t: nat, done: set<nat>): set<nat>
    requires t < |deps|
  {
    Elements(deps[t]) - done
  }

  lemma UnmetAfter(deps: Dependencies, t: nat, done: set<nat>, v: nat)
    requires t < |deps| && v !in done
    ensures |Unmet(deps, t, done + {v})| == |Unmet(deps, t, done)| - if v in deps[t] then 1 else 0
  {
    if v in deps[t] {
      assert Unmet(deps, t, done) == Unmet(deps, t, done + {v}) + {v};
    } else {
      assert Unmet(deps, t, done) == Unmet(deps, t, done + {v});
    }
  }

  /** dependents is the edge relation of deps turned around, each edge once. */
  ghost predicate Transposed(deps: Dependencies, dependents: seq<seq<nat>>) {
    && |dependents| == |deps|
    && (forall d: nat {:trigger ServesExactly(deps, dependents[d], d)} :: d < |deps| ==> ServesExactly(deps, dependents[d], d))
  }

  ghost predicate ServesExactly(deps: Dependencies, served: seq<nat>, d: nat) {
    ServesSoFar(deps, served, d, |deps|, 0)
  }

  /** served holds, once each, the tasks that depend on d by one of the edges before edge e of task t. */
  ghost predicate ServesSoFar(deps: Dependencies, served: seq<nat>, d: nat, t: nat, e: nat) {
    Distinct(served) && forall u: nat :: u in served <==> u < |deps| && ((u < t && d in deps[u]) || (u == t && d in deps[t][..Min(e, |deps[t]|)]))
  }

  function Min(a: nat, b: nat): nat { if a <= b then a else b }

  method Transpose(deps: Dependencies) returns (dependents: array<seq<nat>>)
    requires ValidReferences(deps)
    ensures fresh(dependents) && Transposed(deps, dependents[..])
  {
    dependents := new seq<nat>[|deps|](_ => []);
    var t := 0;
    while t < |deps|
      invariant 0 <= t <= |deps|
      invariant forall d: nat {:trigger dependents[d]} :: d < |deps| ==> ServesSoFar(deps, dependents[d], d, t, 0)
    {
      var e := 0;
      while e < |deps[t]|
        invariant 0 <= e <= |deps[t]|
        invariant forall d: nat {:trigger dependents[d]} :: d < |deps| ==> ServesSoFar(deps, dependents[d], d, t, e)
      {
        var v := deps[t][e];
        assert v !in deps[t][..e];
        assert deps[t][..e + 1] == deps[t][..e] + [v];
        assert ServesSoFar(deps, dependents[v], v, t, e);
        assert ServesSoFar(deps, dependents[v] + [t], v, t, e + 1);
        dependents[v] := dependents[v] + [t];
        e := e + 1;
      }
      assert deps[t][..|deps[t]|] == deps[t];
      t := t + 1;
    }
  }

  /** The k-th task listed comes after all the tasks it depends on. */
  ghost predicate DependenciesBefore(deps: Dependencies, order: seq<nat>, k: nat)
    requires k < |order|
  {
    order[k] < |deps| && forall d :: d in deps[order[k]] ==> d in order[..k]
  }

  ghost predicate DependenciesFirst(deps: Dependencies, order: seq<nat>) {
    forall k: nat {:trigger DependenciesBefore(deps, order, k)} :: k < |order| ==> DependenciesBefore(deps, order, k)
  }

  /** A task left out of the order waits for another task left out of it. */
  ghost predicate LeftoversWait(deps: Dependencies, order: seq<nat>) {
    forall t: nat :: t < |deps| && t !in order ==> Unmet(deps, t, Elements(order)) != {}
  }

  /**
   remaining[t] counts the unmet dependencies of t, and t is ready exactly when it has none.
   The dependents in `served` have already been told that v is processed.
   */
  ghost predicate Counts(deps: Dependencies, remaining: seq<int>, ready: seq<nat>, done: set<nat>, v: nat, served: seq<nat>) {
    && |remaining| == |deps|
    && (forall t: nat {:trigger CountOf(deps, remaining, ready, done, v, served, t)} :: t < |deps| ==>
          CountOf(deps, remaining, ready, done, v, served, t))
    && (forall t :: t in ready ==> t < |deps|)
  }

  ghost predicate CountOf(deps: Dependencies, remaining: seq<int>, ready: seq<nat>, done: set<nat>, v: nat, served: seq<nat>, t: nat)
    requires |remaining| == |deps| && t < |deps|
  {
    && remaining[t] == |Unmet(deps, t, if t in served then done + {v} else done)|
    && (t in ready <==> remaining[t] == 0)
  }

  /** Serving one more dependent of v keeps the counts right. */
  lemma ServeDependent(deps: Dependencies, remaining: seq<int>, ready: seq<nat>, done: set<nat>, v: nat, served: seq<nat>, u: nat)
    requires Counts(deps, remaining, ready, done, v, served)
    requires u < |deps| && u !in served && v in deps[u] && v !in done
    ensures u !in ready
    ensures var left := remaining[u] - 1;
            && left >= 0
            && (left == 0 <==> Elements(deps[u]) <= done + {v})
            && Counts(deps, remaining[u := left], if left == 0 then ready + [u] else ready, done, v, served + [u])
  {
    assert CountOf(deps, remaining, ready, done, v, served, u);
    UnmetAfter(deps, u, done, v);
    EmptyHasNoElements(Unmet(deps, u, done + {v}));
    assert v in Unmet(deps, u, done);
    var left := remaining[u] - 1;
    var remaining', ready' := remaining[u := left], if left == 0 then ready + [u] else ready;
    forall t: nat {:trigger CountOf(deps, remaining', ready', done, v, served + [u], t)} | t < |deps|
      ensures CountOf(deps, remaining', ready', done, v, served + [u], t)
    {
      assert CountOf(deps, remaining, ready, done, v, served, t);
    }
  }

  /** Once every dependent of v is served, v counts as processed for all tasks. */
  lemma AllServed(deps: Dependencies, remaining: seq<int>, ready: seq<nat>, done: set<nat>, v: nat, served: seq<nat>)
    requires Counts(deps, remaining, ready, done, v, served) && v !in done
    requires ServesExactly(deps, served, v)
    ensures Counts(deps, remaining, ready, done + {v}, 0, [])
  {
    forall t: nat {:trigger CountOf(deps, remaining, ready, done + {v}, 0, [], t)} | t < |deps|
      ensures CountOf(deps, remaining, ready, done + {v}, 0, [], t)
    {
      assert CountOf(deps, remaining, ready, done, v, served, t);
      UnmetAfter(deps, t, done, v);
    }
  }

  /** Before any dependent of v is served, it does not matter whose turn it is. */
  lemma NoneServed(deps: Dependencies, remaining: seq<int>, ready: seq<nat>, done: set<nat>, v: nat)
    requires Counts(deps, remaining, ready, done, 0, [])
    ensures Counts(deps, remaining, ready, done, v, [])
  {
    forall t: nat {:trigger CountOf(deps, remaining, ready, done, v, [], t)} | t < |deps|
      ensures CountOf(deps, remaining, ready, done, v, [], t)
    {
      assert CountOf(deps, remaining, ready, done, 0, [], t);
    }
  }

  lemma EmptyHasNoElements(s: set<nat>)
    ensures |s| == 0 <==> s == {}
  {}

  lemma ReadyFits(deps: Dependencies, ready: seq<nat>)
    requires Distinct(ready) && forall t :: t in ready ==> t < |deps|
    ensures |ready| <= |deps|
  {
    if |ready| > |deps| {
      Pigeonhole(ready, Indices(|deps|));
    }
  }

  lemma AppendKeepsOrder(deps: Dependencies, ready: seq<nat>, u: nat)
    requires DependenciesFirst(deps, ready) && u < |deps| && Elements(deps[u]) <= Elements(ready)
    ensures DependenciesFirst(deps, ready + [u])
  {
    var longer := ready + [u];
    forall k: nat {:trigger DependenciesBefore(deps, longer, k)} | k < |longer| ensures DependenciesBefore(deps, longer, k) {
      if k < |ready| {
        assert DependenciesBefore(deps, ready, k);
        assert longer[..k] == ready[..k];
      } else {
        assert longer[..k] == ready;
        forall d | d in deps[u] ensures d in ready {
          assert d in Elements(deps[u]);
        }
      }
    }
  }

  /** The first two passes: how many dependencies each task has, and which tasks have none. */
  method InitialQueue(deps: Dependencies) returns (remaining: array<int>, ready: seq<nat>)
    requires ValidReferences(deps)
    ensures fresh(remaining) && Distinct(ready)
    ensures Counts(deps, remaining[..], ready, {}, 0, [])
    ensures DependenciesFirst(deps, ready)
  {
    remaining := new int[|deps|];
    var t := 0;
    while t < |deps|
      invariant 0 <= t <= |deps|
      invariant forall u :: 0 <= u < t ==> remaining[u] == |deps[u]|
    {
      remaining[t] := |deps[t]|;
      t := t + 1;
    }
    ready := [];
    t := 0;
    while t < |deps|
      invariant 0 <= t <= |deps|
      invariant Distinct(ready)
      invariant forall u: nat :: u in ready <==> u < t && remaining[u] == 0
    {
      if remaining[t] == 0 {
        ready := ready + [t];
      }
      t := t + 1;
    }
    forall u: nat {:trigger CountOf(deps, remaining[..], ready, {}, 0, [], u)} | u < |deps|
      ensures CountOf(deps, remaining[..], ready, {}, 0, [], u)
    {
      DistinctIffSize(deps[u]);
      assert Unmet(deps, u, {}) == Elements(deps[u]);
    }
    forall k: nat {:trigger DependenciesBefore(deps, ready, k)} | k < |ready| ensures DependenciesBefore(deps, ready, k) {
      assert ready[k] in ready;
      assert deps[ready[k]] == [];
    }
  }

  /** The loop invariant of the inner loop. */
  ghost predicate Serving(deps: Dependencies, remaining: seq<int>, ready: seq<nat>, done: set<nat>, v: nat, served: seq<nat>) {
    && v !in done && done + {v} <= Elements(ready)
    && Distinct(ready) && DependenciesFirst(deps, ready)
    && Counts(deps, remaining, ready, done, v, served)
  }

  lemma ServingOn(deps: Dependencies, remaining: seq<int>, ready: seq<nat>, done: set<nat>, v: nat, served: seq<nat>, u: nat)
    requires Serving(deps, remaining, ready, done, v, served)
    requires u < |deps| && u !in served && v in deps[u]
    ensures |remaining| == |deps|
    ensures var left := remaining[u] - 1;
            Serving(deps, remaining[u := left], if left == 0 then ready + [u] else ready, done, v, served + [u])
  {
    ServeDependent(deps, remaining, ready, done, v, served, u);
    if remaining[u] == 1 {
      AppendKeepsOrder(deps, ready, u);
    }
  }

  lemma NextServed(deps: Dependencies, served: seq<nat>, v: nat, j: nat)
    requires ServesExactly(deps, served, v) && j < |served|
    ensures served[j] < |deps| && served[j] !in served[..j] && v in deps[served[j]]
    ensures served[..j + 1] == served[..j] + [served[j]]
  {
    assert served[j] in served;
  }

  lemma CountsSize(deps: Dependencies, remaining: seq<int>, ready: seq<nat>, done: set<nat>, v: nat, served: seq<nat>)
    requires Counts(deps, remaining, ready, done, v, served)
    ensures |remaining| == |deps|
  {}

  /** The inner loop: every dependent of ready[index] has one unmet dependency fewer. */
  method ServeDependents(deps: Dependencies, remaining: array<int>, served: seq<nat>, queue: seq<nat>, ghost done: set<nat>, ghost v: nat)
    returns (ready: seq<nat>)
    requires Serving(deps, remaining[..], queue, done, v, [])
    requires ServesExactly(deps, served, v)
    modifies remaining
    ensures queue <= ready && Distinct(ready) && DependenciesFirst(deps, ready)
    ensures Counts(deps, remaining[..], ready, done + {v}, 0, [])
  {
    hide Counts, DependenciesFirst, Distinct, ServesExactly;
    CountsSize(deps, remaining[..], queue, done, v, []);
    ready := queue;
    var j := 0;
    while j < |served|
      invariant 0 <= j <= |served|
      invariant queue <= ready
      invariant remaining.Length == |deps|
      invariant Serving(deps, remaining[..], ready, done, v, served[..j])
    {
      var u := served[j];
      NextServed(deps, served, v, j);
      ServingOn(deps, remaining[..], ready, done, v, served[..j], u);
      ghost var before, queued := remaining[..], ready;
      var count := remaining[u] - 1;
      remaining[u] := count;
      if count == 0 {
        ready := ready + [u];
      }
      j := j + 1;
      assert remaining[..] == before[u := count];
      assert ready == if count == 0 then queued + [u] else queued;
    }
    assert served[..|served|] == served;
    AllServed(deps, remaining[..], ready, done, v, served);
  }

  /** The traversal queue of the plan check: it fills up in topological order. */
  method TopologicalPass(deps: Dependencies) returns (ready: seq<nat>)
    requires ValidReferences(deps)
    ensures Distinct(ready)
    ensures DependenciesFirst(deps, ready)
    ensures LeftoversWait(deps, ready)
  {
    var remaining: array<int>;
    remaining, ready := InitialQueue(deps);
    var dependents := Transpose(deps);
    ReadyFits(deps, ready);
    var index := 0;
    assert Elements(ready[..0]) == {};
    while index < |ready|
      invariant 0 <= index <= |ready| <= |deps|
      invariant Distinct(ready) && DependenciesFirst(deps, ready)
      invariant Counts(deps, remaining[..], ready, Elements(ready[..index]), 0, [])
      invariant Transposed(deps, dependents[..])
      decreases |deps| - index
    {
      ghost var queue := ready;
      var v := ready[index];
      assert v in ready;
      ghost var done := Elements(ready[..index]);
      NoneServed(deps, remaining[..], ready, done, v);
      assert ServesExactly(deps, dependents[..][v], v);
      ready := ServeDependents(deps, remaining, dependents[v], ready, done, v);
      assert ready[..index + 1] == queue[..index] + [v];
      assert Elements(ready[..index + 1]) == done + {v};
      ReadyFits(deps, ready);
      index := index + 1;
    }
    assert ready[..index] == ready;
    forall u: nat | u < |deps| && u !in ready ensures Unmet(deps, u, Elements(ready)) != {} {
      assert CountOf(deps, remaining[..], ready, Elements(ready), 0, [], u);
      EmptyHasNoElements(Unmet(deps, u, Elements(ready)));
    }
  }

  // -- what the length comparison decides ---------------------------------------

  lemma GraphEdges(deps: Dependencies)
    ensures forall x: nat, y: nat :: Edge(GraphOf(deps), x, y) <==> x < |deps| && y in deps[x]
  {}

  /** An order that holds every task and puts dependencies first rules out cycles. */
  lemma CompleteOrderIsAcyclic(deps: Dependencies, order: seq<nat>)
    requires Distinct(order) && DependenciesFirst(deps, order)
    requires forall t: nat :: t < |deps| ==> t in order
    ensures !HasCycle(GraphOf(deps))
  {
    GraphEdges(deps);
    var rank: map<nat, int> := map x | x in order :: IndexOf(order, x);
    forall x, y | Edge(GraphOf(deps), x, y) ensures x in rank && y in rank && rank[y] < rank[x] {
      var k := IndexOf(order, x);
      assert DependenciesBefore(deps, order, k);
      assert y in order[..k];
      var j :| 0 <= j < k && order[..k][j] == y;
      assert order[j] == y && order[IndexOf(order, y)] == y;
    }
    RankedIsAcyclic(GraphOf(deps), rank);
  }

  /** Tasks left out of the order contain a real cycle among themselves. */
  lemma LeftoversHoldCycle(deps: Dependencies, order: seq<nat>) returns (c: seq<nat>)
    requires InRange(deps) && LeftoversWait(deps, order)
    requires exists t: nat :: t < |deps| && t !in order
    ensures Cycle(GraphOf(deps), c)
    ensures forall x :: x in c ==> x < |deps| && x !in order
  {
    GraphEdges(deps);
    var pool := Indices(|deps|) - Elements(order);
    forall x {:trigger HasTargetIn(GraphOf(deps), pool, x)} | x in pool ensures HasTargetIn(GraphOf(deps), pool, x) {
      var y :| y in Unmet(deps, x, Elements(order));
      assert y in deps[x] && y !in order;
      assert Edge(GraphOf(deps), x, y);
    }
    var t: nat :| t < |deps| && t !in order;
    assert t in pool;
    c := SinklessSetHasCycle(GraphOf(deps), pool);
  }

  /** A full-length queue holds every task. */
  lemma FullLengthMeansAll(deps: Dependencies, order: seq<nat>)
    requires Distinct(order) && forall t :: t in order ==> t < |deps|
    ensures |order| == |deps| <==> forall t: nat :: t < |deps| ==> t in order
  {
    DistinctIffSize(order);
    assert Elements(order) <= Indices(|deps|);
    SubsetSize(Elements(order), Indices(|deps|));
    if |order| == |deps| {
      forall t: nat | t < |deps| ensures t in order {
        assert t in Elements(order);
      }
    }
    if forall t: nat :: t < |deps| ==> t in order {
      assert Elements(order) == Indices(|deps|);
    }
  }

  /**
   The whole check. With bad references the traversal is skipped; otherwise a plan passes exactly
   when its dependency graph has no cycle. The queue of a passing plan is a topological
   order of all its tasks; the tasks missing from the queue of a failing one hold a cycle.
   */
  method CheckPlan(deps: Dependencies) returns (issues: seq<Issue>, ghost order: seq<nat>)
    ensures CyclicPlan !in issues ==> IssuesAreExact(deps, issues, |deps|, 0)
    ensures issues == [] <==> ValidReferences(deps) && !HasCycle(GraphOf(deps))
    ensures CyclicPlan in issues <==> ValidReferences(deps) && HasCycle(GraphOf(deps))
    ensures CyclicPlan in issues ==> issues == [CyclicPlan]
    ensures issues == [] ==>
      Distinct(order) && DependenciesFirst(deps, order) && (forall t: nat :: t < |deps| <==> t in order)
    ensures CyclicPlan in issues ==>
      exists c :: Cycle(GraphOf(deps), c) && forall x :: x in c ==> x !in order
  {
    issues := CheckReferences(deps);
    order := [];
    NoIssuesMeansValid(deps, issues);
    assert CyclicPlan !in issues;
    if issues != [] {
      return;
    }
    var ready := TopologicalPass(deps);
    order := ready;
    forall t | t in ready ensures t < |deps| {
      var k :| 0 <= k < |ready| && ready[k] == t;
      assert DependenciesBefore(deps, ready, k);
    }
    FullLengthMeansAll(deps, ready);
    if |ready| != |deps| {
      issues := [CyclicPlan];
      ghost var c := LeftoversHoldCycle(deps, ready);
      assert HasCycle(GraphOf(deps));
    } else {
      CompleteOrderIsAcyclic(deps, ready);
    }
  }
}
