/** Turning a checked plan into child tasks and dependency rows, in one transaction, retried on key races. */
module PlanMaterializer {
  import opened Graphs
  import opened PlanDependencies
  import opened GraphVerdicts
  import opened Wrappers

  /** A child's key is its project's key with the number appended. */
  datatype Child = Child(project: nat, number: nat, parent: Option<nat>, title: string)

  datatype Row = Row(task: nat, dependsOn: nat)

  /** The sequence counter of the project, its tasks and all dependency rows. */
  datatype Table = Table(sequence: nat, tasks: map<nat, Child>, rows: seq<Row>)

  datatype Plan = Plan(titles: seq<string>, deps: Dependencies)

  datatype Failure = UniqueViolation | InvalidPlan | ScopeChanged | OtherError

  /** Rows refer to stored tasks, and keys are unique. */
  ghost predicate Consistent(t: Table) {
    && (forall r :: r in t.rows ==> r.task in t.tasks && r.dependsOn in t.tasks)
    && (forall a, b :: a in t.tasks && b in t.tasks && t.tasks[a].project == t.tasks[b].project && t.tasks[a].number == t.tasks[b].number ==> a == b)
    && Distinct(t.rows)
  }

  ghost predicate KeyTaken(t: Table, project: nat, number: nat) {
    exists a :: a in t.tasks && t.tasks[a].project == project && t.tasks[a].number == number
  }

  /** None of the next n keys of the project is taken. */
  ghost predicate KeysFree(t: Table, project: nat, n: nat) {
    forall m: nat {:trigger KeyTaken(t, project, m)} :: t.sequence < m <= t.sequence + n ==> !KeyTaken(t, project, m)
  }

  /** The identifiers the database will hand out: new, and each once. */
  ghost predicate FreshIds(t: Table, ids: seq<nat>, n: nat) {
    |ids| == n && Distinct(ids) && forall i :: 0 <= i < n ==> ids[i] !in t.tasks
  }

  // -- what one attempt should leave -----------------------------------------------------

  /** The rows of one planned task, one for each of its dependencies, in order. */
  function RowsOf(task: nat, on: seq<nat>, ids: seq<nat>): (rows: seq<Row>)
    requires forall e :: 0 <= e < |on| ==> on[e] < |ids|
    ensures |rows| == |on| && forall e :: 0 <= e < |on| ==> rows[e] == Row(task, ids[on[e]])
  {
    seq(|on|, e requires 0 <= e < |on| => Row(task, ids[on[e]]))
  }

  /** The rows of the first n planned tasks. */
  function RowsUpTo(deps: Dependencies, ids: seq<nat>, n: nat): seq<Row>
    requires InRange(deps) && |ids| == |deps| && n <= |deps|
  {
    if n == 0 then [] else RowsUpTo(deps, ids, n - 1) + RowsOf(ids[n - 1], deps[n - 1], ids)
  }

  /** The children of the first n planned tasks, numbered from the sequence on. */
  function ChildrenUpTo(t: Table, project: nat, parent: nat, plan: Plan, ids: seq<nat>, n: nat): map<nat, Child>
    requires n <= |ids| && n <= |plan.titles|
  {
    if n == 0 then t.tasks
    else ChildrenUpTo(t, project, parent, plan, ids, n - 1)[ids[n - 1] := Child(project, t.sequence + n, Some(parent), plan.titles[n - 1])]
  }

  predicate WellFormed(plan: Plan) {
    |plan.titles| == |plan.deps|
  }

  ghost function Materialized(t: Table, project: nat, parent: nat, plan: Plan, ids: seq<nat>): Table
    requires WellFormed(plan) && |ids| == |plan.deps| && InRange(plan.deps)
  {
    Table(t.sequence + |ids|, ChildrenUpTo(t, project, parent, plan, ids, |ids|), t.rows + RowsUpTo(plan.deps, ids, |ids|))
  }

  // -- children ---------------------------------------------------------------------------

  lemma {:induction false} ChildrenAreExact(t: Table, project: nat, parent: nat, plan: Plan, ids: seq<nat>, n: nat)
    requires WellFormed(plan) && n <= |ids| == |plan.titles| && FreshIds(t, ids, |ids|)
    ensures var tasks := ChildrenUpTo(t, project, parent, plan, ids, n);
      && (forall a :: a in tasks <==> a in t.tasks || a in ids[..n])
      && (forall a :: a in t.tasks ==> tasks[a] == t.tasks[a])
      && (forall i :: 0 <= i < n ==> ids[i] in tasks && tasks[ids[i]] == Child(project, t.sequence + 1 + i, Some(parent), plan.titles[i]))
  {
    if n > 0 {
      ChildrenAreExact(t, project, parent, plan, ids, n - 1);
      assert ids[..n] == ids[..n - 1] + [ids[n - 1]];
    }
  }

  // -- rows ---------------------------------------------------------------------------------

  /** The row of edge e of task t. */
  function RowAt(deps: Dependencies, ids: seq<nat>, t: nat, e: nat): Row
    requires InRange(deps) && |ids| == |deps| && t < |deps| && e < |deps[t]|
  {
    Row(ids[t], ids[deps[t][e]])
  }

  lemma {:induction false} EveryEdgeHasARow(deps: Dependencies, ids: seq<nat>, n: nat, t: nat, e: nat)
    requires InRange(deps) && |ids| == |deps| && t < n <= |deps| && e < |deps[t]|
    ensures RowAt(deps, ids, t, e) in RowsUpTo(deps, ids, n)
  {
    if t == n - 1 {
      assert RowsOf(ids[t], deps[t], ids)[e] == RowAt(deps, ids, t, e);
    } else {
      EveryEdgeHasARow(deps, ids, n - 1, t, e);
    }
  }

  lemma {:induction false} EveryRowHasAnEdge(deps: Dependencies, ids: seq<nat>, n: nat, r: Row) returns (t: nat, e: nat)
    requires InRange(deps) && |ids| == |deps| && n <= |deps| && r in RowsUpTo(deps, ids, n)
    ensures t < n && e < |deps[t]| && r == RowAt(deps, ids, t, e)
  {
    if r in RowsUpTo(deps, ids, n - 1) {
      t, e := EveryRowHasAnEdge(deps, ids, n - 1, r);
    } else {
      t := n - 1;
      e :| e < |deps[t]| && RowsOf(ids[t], deps[t], ids)[e] == r;
    }
  }

  lemma {:induction false} RowsAreDistinct(deps: Dependencies, ids: seq<nat>, n: nat)
    requires ValidReferences(deps) && |ids| == |deps| && n <= |deps| && Distinct(ids)
    ensures Distinct(RowsUpTo(deps, ids, n))
  {
    if n > 0 {
      RowsAreDistinct(deps, ids, n - 1);
      var before, last := RowsUpTo(deps, ids, n - 1), RowsOf(ids[n - 1], deps[n - 1], ids);
      var rows := before + last;
      forall i, j | 0 <= i < j < |rows| ensures rows[i] != rows[j] {
        if i >= |before| {
          assert Distinct(deps[n - 1]);
          assert deps[n - 1][i - |before|] != deps[n - 1][j - |before|];
        } else if j >= |before| {
          var t, e := EveryRowHasAnEdge(deps, ids, n - 1, rows[i]);
        }
      }
    }
  }

  /** The plan's rows are exactly the edges of the plan with its indices replaced by identifiers. */
  lemma RowsAreNamedEdges(deps: Dependencies, ids: seq<nat>, a: nat, b: nat)
    requires ValidReferences(deps) && |ids| == |deps| && Distinct(ids)
    ensures Row(a, b) in RowsUpTo(deps, ids, |deps|) <==> Edge(Named(deps, ids), a, b)
  {
    var named := Named(deps, ids);
    if Row(a, b) in RowsUpTo(deps, ids, |deps|) {
      var t, e := EveryRowHasAnEdge(deps, ids, |deps|, Row(a, b));
      assert IndexOf(ids, ids[t]) == t;
      assert NamesOf(deps[t], ids)[e] == b;
    }
    if Edge(named, a, b) {
      var t := IndexOf(ids, a);
      var names := NamesOf(deps[t], ids);
      var e :| 0 <= e < |names| && names[e] == b;
      EveryEdgeHasARow(deps, ids, |deps|, t, e);
    }
  }

  // -- the stored graph -------------------------------------------------------------------------

  function DependsOn(rows: seq<Row>, a: nat): (on: seq<nat>)
    ensures forall b :: b in on <==> Row(a, b) in rows
  {
    if rows == [] then [] else (if rows[0].task == a then [rows[0].dependsOn] else []) + DependsOn(rows[1..], a)
  }

  function StoredGraph(t: Table): map<nat, seq<nat>> {
    map a | a in t.tasks :: DependsOn(t.rows, a)
  }

  lemma StoredEdges(t: Table, a: nat, b: nat)
    requires Consistent(t)
    ensures Edge(StoredGraph(t), a, b) <==> Row(a, b) in t.rows
  {}

  /**
   Materialising an acyclic plan keeps the table consistent and, if the stored graph had no
   cycle, leaves it without one: new tasks depend only on new tasks.
   */
  lemma StoredGraphStaysAcyclic(t: Table, project: nat, parent: nat, plan: Plan, ids: seq<nat>)
    requires Consistent(t) && WellFormed(plan) && ValidReferences(plan.deps) && FreshIds(t, ids, |plan.deps|)
    requires KeysFree(t, project, |ids|)
    requires !HasCycle(GraphOf(plan.deps)) && !HasCycle(StoredGraph(t))
    ensures Consistent(Materialized(t, project, parent, plan, ids))
    ensures !HasCycle(StoredGraph(Materialized(t, project, parent, plan, ids)))
  {
    MaterializedIsConsistent(t, project, parent, plan, ids);
    var after := Materialized(t, project, parent, plan, ids);
    var g, earlierGraph, named := StoredGraph(after), StoredGraph(t), Named(plan.deps, ids);
    NamedRenames(plan.deps, ids);
    RenamingKeepsCycles(GraphOf(plan.deps), named, Naming(ids));
    forall a, b | Edge(g, a, b)
      ensures a !in t.tasks ==> b !in t.tasks && Edge(named, a, b)
      ensures a in t.tasks ==> b in t.tasks && Edge(earlierGraph, a, b)
    {
      EdgesNeverCross(t, project, parent, plan, ids, a, b);
    }
    forall c | Cycle(g, c) ensures false {
      if c[0] in t.tasks {
        CycleStaysOld(t, g, earlierGraph, c);
      } else {
        CycleStaysNew(t, g, named, c);
      }
    }
  }

  /** A cycle that starts among the old tasks is a cycle of the old graph. */
  lemma CycleStaysOld(t: Table, g: map<nat, seq<nat>>, earlierGraph: map<nat, seq<nat>>, c: seq<nat>)
    requires Cycle(g, c) && c[0] in t.tasks
    requires forall a, b :: Edge(g, a, b) && a in t.tasks ==> b in t.tasks && Edge(earlierGraph, a, b)
    ensures Cycle(earlierGraph, c)
  {
    forall i: nat | i < |c| - 1 ensures Edge(earlierGraph, c[i], c[i + 1]) {
      WalkStaysIn(g, t.tasks.Keys, c, i);
      assert Edge(g, c[i], c[i + 1]);
    }
  }

  lemma CycleStaysNew(t: Table, g: map<nat, seq<nat>>, named: map<nat, seq<nat>>, c: seq<nat>)
    requires Cycle(g, c) && c[0] !in t.tasks
    requires forall a, b :: Edge(g, a, b) && a !in t.tasks ==> b !in t.tasks && Edge(named, a, b)
    ensures Cycle(named, c)
  {
    var outside := Nodes(g) - t.tasks.Keys;
    assert Edge(g, c[0], c[0 + 1]);
    forall i: nat | i < |c| - 1 ensures Edge(named, c[i], c[i + 1]) {
      WalkStaysIn(g, outside, c, i);
      assert Edge(g, c[i], c[i + 1]);
    }
  }

  lemma EdgesNeverCross(t: Table, project: nat, parent: nat, plan: Plan, ids: seq<nat>, a: nat, b: nat)
    requires Consistent(t) && WellFormed(plan) && ValidReferences(plan.deps) && FreshIds(t, ids, |plan.deps|)
    requires Consistent(Materialized(t, project, parent, plan, ids))
    requires Edge(StoredGraph(Materialized(t, project, parent, plan, ids)), a, b)
    ensures a !in t.tasks ==> b !in t.tasks && Edge(Named(plan.deps, ids), a, b)
    ensures a in t.tasks ==> b in t.tasks && Edge(StoredGraph(t), a, b)
  {
    var after := Materialized(t, project, parent, plan, ids);
    StoredEdges(after, a, b);
    StoredEdges(t, a, b);
    RowsAreNamedEdges(plan.deps, ids, a, b);
    if Row(a, b) in RowsUpTo(plan.deps, ids, |ids|) {
      ImageRow(plan.deps, ids, Row(a, b));
    }
  }

  lemma RowsReferToTasks(t: Table, project: nat, parent: nat, plan: Plan, ids: seq<nat>, r: Row)
    requires Consistent(t) && WellFormed(plan) && ValidReferences(plan.deps) && FreshIds(t, ids, |plan.deps|)
    requires r in Materialized(t, project, parent, plan, ids).rows
    ensures var tasks := Materialized(t, project, parent, plan, ids).tasks; r.task in tasks && r.dependsOn in tasks
  {
    hide NoDuplicates, Distinct;
    ChildrenAreExact(t, project, parent, plan, ids, |ids|);
    assert ids[..|ids|] == ids;
    if r !in t.rows {
      ImageRow(plan.deps, ids, r);
    }
  }

  lemma ImageRow(deps: Dependencies, ids: seq<nat>, r: Row)
    requires ValidReferences(deps) && |ids| == |deps| && Distinct(ids) && r in RowsUpTo(deps, ids, |deps|)
    ensures r.task in ids && r.dependsOn in ids
  {
    var t, e := EveryRowHasAnEdge(deps, ids, |deps|, r);
  }

  lemma RowsStayDistinct(t: Table, deps: Dependencies, ids: seq<nat>)
    requires Consistent(t) && ValidReferences(deps) && FreshIds(t, ids, |deps|)
    ensures Distinct(t.rows + RowsUpTo(deps, ids, |deps|))
  {
    var added := RowsUpTo(deps, ids, |deps|);
    var rows := t.rows + added;
    RowsAreDistinct(deps, ids, |deps|);
    forall i, j | 0 <= i < j < |rows| ensures rows[i] != rows[j] {
      if i < |t.rows| <= j {
        var r := added[j - |t.rows|];
        ImageRow(deps, ids, r);
        assert t.rows[i] in t.rows;
      }
    }
  }

  lemma MaterializedIsConsistent(t: Table, project: nat, parent: nat, plan: Plan, ids: seq<nat>)
    requires Consistent(t) && WellFormed(plan) && ValidReferences(plan.deps) && FreshIds(t, ids, |plan.deps|)
    requires KeysFree(t, project, |ids|)
    ensures Consistent(Materialized(t, project, parent, plan, ids))
  {
    var after := Materialized(t, project, parent, plan, ids);
    RowsStayDistinct(t, plan.deps, ids);
    forall r | r in after.rows ensures r.task in after.tasks && r.dependsOn in after.tasks {
      RowsReferToTasks(t, project, parent, plan, ids, r);
    }
    forall a, b | a in after.tasks && b in after.tasks && after.tasks[a].project == after.tasks[b].project && after.tasks[a].number == after.tasks[b].number
      ensures a == b
    {
      KeysStayUnique(t, project, parent, plan, ids, a, b);
    }
    hide Distinct, RowsUpTo, ChildrenUpTo, NoDuplicates, InRange, NoSelfReference;
  }

  lemma KeysStayUnique(t: Table, project: nat, parent: nat, plan: Plan, ids: seq<nat>, a: nat, b: nat)
    requires Consistent(t) && WellFormed(plan) && InRange(plan.deps) && FreshIds(t, ids, |plan.deps|)
    requires KeysFree(t, project, |ids|)
    requires var tasks := Materialized(t, project, parent, plan, ids).tasks;
      a in tasks && b in tasks && tasks[a].project == tasks[b].project && tasks[a].number == tasks[b].number
    ensures a == b
  {
    ChildrenAreExact(t, project, parent, plan, ids, |ids|);
    assert ids[..|ids|] == ids;
    var tasks := Materialized(t, project, parent, plan, ids).tasks;
    if a in ids && b in t.tasks {
      var i :| 0 <= i < |ids| && ids[i] == a;
      NewKeyIsNew(t, project, |ids|, i, b);
    } else if b in ids && a in t.tasks {
      var i :| 0 <= i < |ids| && ids[i] == b;
      NewKeyIsNew(t, project, |ids|, i, a);
    }
  }

  lemma NewKeyIsNew(t: Table, project: nat, n: nat, i: nat, b: nat)
    requires KeysFree(t, project, n) && i < n && b in t.tasks
    ensures t.tasks[b].project != project || t.tasks[b].number != t.sequence + 1 + i
  {
    assert !KeyTaken(t, project, t.sequence + 1 + i);
  }

  // -- the transaction and its retries ---------------------------------------------------------------

  /** The table one attempt starts from, the identifiers it would get, and a reason to give up, if any. */
  datatype Trial = Trial(table: Table, ids: seq<nat>, refusal: Option<Failure>)

  /** What one attempt must answer. */
  ghost predicate Answer(a: Trial, project: nat, plan: Plan, r: Result<seq<nat>, Failure>) {
    match a.refusal
    case Some(failure) => r == Err(failure)
    case None => r == if KeysFree(a.table, project, |plan.deps|) then Ok(a.ids) else Err(UniqueViolation)
  }

  ghost predicate ProperTrial(a: Trial, plan: Plan) {
    && Consistent(a.table) && FreshIds(a.table, a.ids, |plan.deps|)
    && (a.refusal.Some? ==> a.refusal.value != UniqueViolation)
  }

  lemma FreeKeysAreRead(t: Table, project: nat, n: nat)
    ensures KeysFree(t, project, n) <==>
      forall a :: a in t.tasks && t.tasks[a].project == project ==> !(t.sequence < t.tasks[a].number <= t.sequence + n)
  {
    if KeysFree(t, project, n) {
      forall a | a in t.tasks && t.tasks[a].project == project ensures !(t.sequence < t.tasks[a].number <= t.sequence + n) {
        assert KeyTaken(t, project, t.tasks[a].number);
      }
    }
  }

  lemma NoChildren(t: Table, project: nat, parent: nat, plan: Plan, ids: seq<nat>)
    ensures ChildrenUpTo(t, project, parent, plan, ids, 0) == t.tasks && KeysFree(t, project, 0)
  {}

  lemma NextChild(t: Table, project: nat, parent: nat, plan: Plan, ids: seq<nat>, i: nat)
    requires i < |ids| && i < |plan.titles|
    ensures ChildrenUpTo(t, project, parent, plan, ids, i + 1) ==
      ChildrenUpTo(t, project, parent, plan, ids, i)[ids[i] := Child(project, t.sequence + i + 1, Some(parent), plan.titles[i])]
  {}

  lemma NextKey(t: Table, project: nat, i: nat)
    requires KeysFree(t, project, i)
    ensures KeysFree(t, project, i + 1) <==> !KeyTaken(t, project, t.sequence + i + 1)
  {}

  lemma TakenKey(t: Table, project: nat, n: nat, m: nat)
    requires t.sequence < m <= t.sequence + n && KeyTaken(t, project, m)
    ensures !KeysFree(t, project, n)
  {}

  /** How often the retry wrapper runs its operation at most: once even for a limit below one. */
  function Rounds(limit: int): nat {
    if limit <= 0 then 1 else limit
  }

  class Materializer {
    var sequence: nat
    var tasks: map<nat, Child>
    var rows: seq<Row>

    function Contents(): Table
      reads this
    {
      Table(sequence, tasks, rows)
    }

    constructor (t: Table)
      ensures Contents() == t
    {
      sequence, tasks, rows := t.sequence, t.tasks, t.rows;
    }

    /** Children in plan order, stopping at the first key that is taken. */
    method CreateChildren(project: nat, parent: nat, plan: Plan, ids: seq<nat>) returns (created: bool)
      requires WellFormed(plan) && FreshIds(Contents(), ids, |plan.titles|)
      modifies this`sequence, this`tasks
      ensures created <==> KeysFree(old(Contents()), project, |ids|)
      ensures created ==>
        sequence == old(sequence) + |ids| && tasks == ChildrenUpTo(old(Contents()), project, parent, plan, ids, |ids|)
    {
      hide ChildrenUpTo, KeysFree, Distinct;
      var i := 0;
      NoChildren(Contents(), project, parent, plan, ids);
      while i < |ids|
        invariant 0 <= i <= |ids| && sequence == old(sequence) + i
        invariant tasks == ChildrenUpTo(old(Contents()), project, parent, plan, ids, i)
        invariant KeysFree(old(Contents()), project, i)
      {
        ChildrenAreExact(old(Contents()), project, parent, plan, ids, i);
        NextKey(old(Contents()), project, i);
        sequence := sequence + 1;
        if a :| a in tasks && tasks[a].project == project && tasks[a].number == sequence {
          assert a in old(tasks) && tasks[a] == old(tasks)[a];
          assert KeyTaken(old(Contents()), project, sequence);
          TakenKey(old(Contents()), project, |ids|, sequence);
          return false;
        }
        assert !KeyTaken(old(Contents()), project, sequence);
        NextChild(old(Contents()), project, parent, plan, ids, i);
        tasks := tasks[ids[i] := Child(project, sequence, Some(parent), plan.titles[i])];
        i := i + 1;
      }
      return true;
    }

    /** Index edges become rows, task by task. */
    method CreateRows(deps: Dependencies, ids: seq<nat>)
      requires InRange(deps) && |ids| == |deps|
      modifies this`rows
      ensures rows == old(rows) + RowsUpTo(deps, ids, |deps|)
    {
      var edges: seq<Row> := [];
      var t := 0;
      while t < |deps|
        invariant 0 <= t <= |deps| && edges == RowsUpTo(deps, ids, t) && rows == old(rows)
      {
        var e := 0;
        while e < |deps[t]|
          invariant 0 <= e <= |deps[t]| && rows == old(rows)
          invariant edges == RowsUpTo(deps, ids, t) + RowsOf(ids[t], deps[t], ids)[..e]
        {
          edges := edges + [Row(ids[t], ids[deps[t][e]])];
          assert RowsOf(ids[t], deps[t], ids)[..e + 1] == RowsOf(ids[t], deps[t], ids)[..e] + [Row(ids[t], ids[deps[t][e]])];
          e := e + 1;
        }
        assert RowsOf(ids[t], deps[t], ids)[..e] == RowsOf(ids[t], deps[t], ids);
        t := t + 1;
      }
      rows := rows + edges;
    }

    /** One transaction: the whole plan is stored, or nothing is. */
    method Attempt(project: nat, parent: nat, plan: Plan, ids: seq<nat>, refusal: Option<Failure>) returns (r: Result<seq<nat>, Failure>)
      requires WellFormed(plan) && InRange(plan.deps) && FreshIds(Contents(), ids, |plan.deps|)
      modifies this
      ensures Answer(Trial(old(Contents()), ids, refusal), project, plan, r)
      ensures refusal == None ==>
        && (r.Ok? <==> forall a :: a in old(tasks) && old(tasks)[a].project == project ==>
              !(old(sequence) < old(tasks)[a].number <= old(sequence) + |plan.deps|))
        && (r.Err? ==> r == Err(UniqueViolation))
      ensures r.Ok? ==> sequence == old(sequence) + |plan.deps| && r.value == ids
      ensures Contents() == if r.Ok? then Materialized(old(Contents()), project, parent, plan, ids) else old(Contents())
    {
      if refusal.Some? {
        return Err(refusal.value);
      }
      FreeKeysAreRead(Contents(), project, |plan.deps|);
      var savedSequence, savedTasks := sequence, tasks;
      var created := CreateChildren(project, parent, plan, ids);
      if !created {
        sequence, tasks := savedSequence, savedTasks;
        return Err(UniqueViolation);
      }
      CreateRows(plan.deps, ids);
      return Ok(ids);
    }

    /**
     The plan is checked, then the transaction runs until it does anything but hit a taken key,
     at most `Rounds(limit)` times. Between attempts the tables are whatever others left.
     */
    method Materialize(project: nat, parent: nat, plan: Plan, trials: seq<Trial>, limit: int)
      returns (r: Result<seq<nat>, Failure>, ran: nat)
      requires WellFormed(plan) && Rounds(limit) <= |trials|
      requires forall k :: 0 <= k < Rounds(limit) ==> ProperTrial(trials[k], plan)
      modifies this
      ensures r == Err(InvalidPlan) && ran == 0 <==> !(ValidReferences(plan.deps) && !HasCycle(GraphOf(plan.deps)))
      ensures ran == 0 ==> Contents() == old(Contents())
      ensures ran <= if limit >= 1 then limit else 1
      ensures ValidReferences(plan.deps) && !HasCycle(GraphOf(plan.deps)) ==> ran >= 1
      ensures ran > 0 ==>
        && ValidReferences(plan.deps) && ProperTrial(trials[ran - 1], plan)
        && Answer(trials[ran - 1], project, plan, r)
        && (r == Err(UniqueViolation) ==> ran == if limit >= 1 then limit else 1)
        && (forall k :: 0 <= k < ran - 1 ==> Answer(trials[k], project, plan, Err(UniqueViolation)))
        && Contents() == if r.Ok? then Materialized(trials[ran - 1].table, project, parent, plan, trials[ran - 1].ids)
                         else trials[ran - 1].table
      ensures r.Ok? ==> ran > 0
      ensures r.Ok? && !HasCycle(StoredGraph(trials[ran - 1].table)) ==>
        Consistent(Contents()) && !HasCycle(StoredGraph(Contents()))
    {
      ran := 0;
      var issues, order := CheckPlan(plan.deps);
      if issues != [] {
        return Err(InvalidPlan), 0;
      }
      while true
        invariant 0 <= ran < Rounds(limit)
        invariant forall k :: 0 <= k < ran ==> Answer(trials[k], project, plan, Err(UniqueViolation))
        decreases Rounds(limit) - ran
      {
        var a := trials[ran];
        sequence, tasks, rows := a.table.sequence, a.table.tasks, a.table.rows;
        assert ProperTrial(a, plan) && Contents() == a.table;
        r := Attempt(project, parent, plan, a.ids, a.refusal);
        ran := ran + 1;
        if r != Err(UniqueViolation) || ran >= limit {
          if r.Ok? && !HasCycle(StoredGraph(a.table)) {
            StoredGraphStaysAcyclic(a.table, project, parent, plan, a.ids);
          }
          return;
        }
      }
    }
  }
}
