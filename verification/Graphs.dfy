/**
 Finite directed graphs given by adjacency lists, shared by the three graph
 algorithms: the planner's topological pass, the phase dependency search and the
 shortest path search of the state machine.
 */
module Graphs {

  function Targets<T>(g: map<T, seq<T>>, x: T): seq<T> {
    if x in g then g[x] else []
  }

  predicate Edge<T(==)>(g: map<T, seq<T>>, x: T, y: T) {
    y in Targets(g, x)
  }

  /** A nonempty sequence of nodes in which every step follows an edge. */
  ghost predicate Walk<T(!new)>(g: map<T, seq<T>>, p: seq<T>) {
    |p| > 0 && forall i :: 0 <= i < |p| - 1 ==> Edge(g, p[i], p[i + 1])
  }

  ghost predicate WalkBetween<T(!new)>(g: map<T, seq<T>>, x: T, y: T, p: seq<T>) {
    Walk(g, p) && p[0] == x && p[|p| - 1] == y
  }

  ghost predicate Reaches<T(!new)>(g: map<T, seq<T>>, x: T, y: T) {
    exists p :: WalkBetween(g, x, y, p)
  }

  ghost predicate Cycle<T(!new)>(g: map<T, seq<T>>, c: seq<T>) {
    |c| >= 2 && Walk(g, c) && c[0] == c[|c| - 1]
  }

  ghost predicate HasCycle<T(!new)>(g: map<T, seq<T>>) {
    exists c :: Cycle(g, c)
  }

  predicate Distinct<T(==)>(s: seq<T>) {
    forall i, j :: 0 <= i < j < |s| ==> s[i] != s[j]
  }

  function Elements<T>(s: seq<T>): set<T> {
    set x | x in s
  }

  /** Every node a graph mentions, as a source or as a target. */
  function Nodes<T>(g: map<T, seq<T>>): set<T> {
    g.Keys + set x, y | x in g.Keys && y in g[x] :: y
  }

  // -- sequences without repetition ------------------------------------------

  /** The first position of an element of the list. */
  function IndexOf<T(==)>(s: seq<T>, x: T): (i: nat)
    requires x in s
    ensures i < |s| && s[i] == x && x !in s[..i]
  {
    if s[0] == x then 0 else 1 + IndexOf(s[1..], x)
  }

  lemma FirstIndex<T>(s: seq<T>, x: T, i: nat)
    requires i < |s| && s[i] == x && x !in s[..i]
    ensures IndexOf(s, x) == i
  {
    var j := IndexOf(s, x);
    assert forall k :: 0 <= k < i ==> s[k] in s[..i];
    assert forall k :: 0 <= k < j ==> s[k] in s[..j];
  }

  /** Comparing the size of the set with the length of the list detects a repetition. */
  lemma {:induction false} DistinctIffSize<T>(s: seq<T>)
    ensures Distinct(s) <==> |Elements(s)| == |s|
    ensures |Elements(s)| <= |s|
  {
    if |s| == 0 {
      assert Elements(s) == {};
    } else {
      var rest, last := s[..|s| - 1], s[|s| - 1];
      DistinctIffSize(rest);
      assert s == rest + [last];
      assert Elements(s) == Elements(rest) + {last};
      if last in rest {
        var i :| 0 <= i < |rest| && rest[i] == last;
        assert s[i] == s[|s| - 1];
        assert last in Elements(rest);
        assert Elements(s) == Elements(rest);
      } else {
        assert last !in Elements(rest);
        if !Distinct(rest) {
          var i, j :| 0 <= i < j < |rest| && rest[i] == rest[j];
          assert s[i] == s[j];
        }
      }
    }
  }

  lemma SubsetSize<T>(a: set<T>, b: set<T>)
    requires a <= b
    ensures |a| <= |b|
    ensures |a| == |b| ==> a == b
  {
    assert b == a + (b - a);
  }

  /** The indices 0, .., n - 1 as a set. */
  function Indices(n: nat): (r: set<nat>)
    ensures forall i: nat :: i in r <==> i < n
    ensures |r| == n
  {
    if n == 0 then {} else Indices(n - 1) + {n - 1}
  }

  /** A sequence longer than the set it draws from repeats an element. */
  lemma Pigeonhole<T(!new)>(s: seq<T>, pool: set<T>)
    requires forall x :: x in s ==> x in pool
    requires |s| > |pool|
    ensures !Distinct(s)
  {
    if Distinct(s) {
      DistinctIffSize(s);
      SubsetSize(Elements(s), pool);
    }
  }

  // -- walks ------------------------------------------------------------------

  lemma WalkConcat<T(!new)>(g: map<T, seq<T>>, p: seq<T>, q: seq<T>)
    requires Walk(g, p) && Walk(g, q)
    requires Edge(g, p[|p| - 1], q[0])
    ensures Walk(g, p + q)
  {
    forall i | 0 <= i < |p + q| - 1 ensures Edge(g, (p + q)[i], (p + q)[i + 1]) {
      if i < |p| - 1 {
        assert Edge(g, p[i], p[i + 1]);
      } else if i >= |p| {
        assert Edge(g, q[i - |p|], q[i - |p| + 1]);
      }
    }
  }

  lemma WalkSlice<T(!new)>(g: map<T, seq<T>>, p: seq<T>, lo: nat, hi: nat)
    requires Walk(g, p) && lo < hi <= |p|
    ensures Walk(g, p[lo..hi])
  {
    forall i | 0 <= i < hi - lo - 1 ensures Edge(g, p[lo..hi][i], p[lo..hi][i + 1]) {
      assert Edge(g, p[lo + i], p[lo + i + 1]);
    }
  }

  /** A walk that starts in a set closed under edges never leaves it. */
  lemma {:induction false} WalkStaysIn<T(!new)>(g: map<T, seq<T>>, closed: set<T>, p: seq<T>, k: nat)
    requires Walk(g, p) && k < |p| && p[0] in closed
    requires forall x, y :: x in closed && Edge(g, x, y) ==> y in closed
    ensures p[k] in closed
  {
    if k > 0 {
      WalkStaysIn(g, closed, p, k - 1);
      assert Edge(g, p[k - 1], p[k - 1 + 1]);
    }
  }

  // -- acyclicity ---------------------------------------------------------------

  /** A rank that falls along every edge excludes cycles. */
  lemma {:induction false} RankFalls<T(!new)>(g: map<T, seq<T>>, rank: map<T, int>, p: seq<T>, k: nat)
    requires forall x, y :: Edge(g, x, y) ==> x in rank && y in rank && rank[y] < rank[x]
    requires Walk(g, p) && 0 < k < |p|
    ensures p[0] in rank && p[k] in rank && rank[p[k]] < rank[p[0]]
  {
    assert Edge(g, p[k - 1], p[k - 1 + 1]);
    if k > 1 {
      RankFalls(g, rank, p, k - 1);
    }
  }

  lemma RankedIsAcyclic<T(!new)>(g: map<T, seq<T>>, rank: map<T, int>)
    requires forall x, y :: Edge(g, x, y) ==> x in rank && y in rank && rank[y] < rank[x]
    ensures !HasCycle(g)
  {
    forall c | Cycle(g, c) ensures false {
      RankFalls(g, rank, c, |c| - 1);
    }
  }

  ghost predicate HasTargetIn<T(!new)>(g: map<T, seq<T>>, pool: set<T>, x: T) {
    exists y :: y in pool && Edge(g, x, y)
  }

  /** No member of the pool is a sink within the pool. */
  ghost predicate Sinkless<T(!new)>(g: map<T, seq<T>>, pool: set<T>) {
    forall x {:trigger HasTargetIn(g, pool, x)} :: x in pool ==> HasTargetIn(g, pool, x)
  }

  lemma {:induction false} LongWalkInside<T(!new)>(g: map<T, seq<T>>, pool: set<T>, n: nat) returns (p: seq<T>)
    requires pool != {} && n > 0 && Sinkless(g, pool)
    ensures Walk(g, p) && |p| == n
    ensures forall x :: x in p ==> x in pool
  {
    if n == 1 {
      var x :| x in pool;
      p := [x];
    } else {
      var q := LongWalkInside(g, pool, n - 1);
      var last := q[|q| - 1];
      assert last in q;
      assert HasTargetIn(g, pool, last);
      var y :| y in pool && Edge(g, last, y);
      WalkConcat(g, q, [y]);
      p := q + [y];
    }
  }

  /** If every member of a nonempty finite set has a successor in the set, the set contains a cycle. */
  lemma SinklessSetHasCycle<T(!new)>(g: map<T, seq<T>>, pool: set<T>) returns (c: seq<T>)
    requires pool != {} && Sinkless(g, pool)
    ensures Cycle(g, c)
    ensures forall x :: x in c ==> x in pool
  {
    var p := LongWalkInside(g, pool, |pool| + 1);
    Pigeonhole(p, pool);
    var i, j :| 0 <= i < j < |p| && p[i] == p[j];
    WalkSlice(g, p, i, j + 1);
    c := p[i..j + 1];
  }

  // -- renaming -------------------------------------------------------------------

  ghost predicate Injective<A(!new), B(!new)>(m: map<A, B>) {
    forall x, y :: x in m && y in m && m[x] == m[y] ==> x == y
  }

  /** h carries the edges of the graph `from`, and nothing else, to the graph `to`. */
  ghost predicate Renames<A(!new), B(!new)>(from: map<A, seq<A>>, to: map<B, seq<B>>, h: map<A, B>) {
    && Injective(h)
    && (forall x, y :: Edge(from, x, y) ==> x in h && y in h && Edge(to, h[x], h[y]))
    && (forall u, v :: Edge(to, u, v) ==> exists x, y :: x in h && y in h && h[x] == u && h[y] == v && Edge(from, x, y))
  }

  /** The forward half: the image of a cycle is a cycle. */
  lemma CycleImage<A(!new), B(!new)>(from: map<A, seq<A>>, to: map<B, seq<B>>, h: map<A, B>, c: seq<A>)
    returns (d: seq<B>)
    requires forall x, y :: Edge(from, x, y) ==> x in h && y in h && Edge(to, h[x], h[y])
    requires Cycle(from, c)
    ensures Cycle(to, d)
  {
    forall k | 0 <= k < |c| ensures c[k] in h {
      if k < |c| - 1 {
        assert Edge(from, c[k], c[k + 1]);
      } else {
        assert Edge(from, c[k - 1], c[k - 1 + 1]);
      }
    }
    d := seq(|c|, k requires 0 <= k < |c| => h[c[k]]);
    forall k | 0 <= k < |d| - 1 ensures Edge(to, d[k], d[k + 1]) {
      assert Edge(from, c[k], c[k + 1]);
    }
  }

  /** Renaming nodes injectively neither makes nor breaks a cycle. */
  lemma RenamingKeepsCycles<A(!new), B(!new)>(from: map<A, seq<A>>, to: map<B, seq<B>>, h: map<A, B>)
    requires Renames(from, to, h)
    ensures HasCycle(from) <==> HasCycle(to)
  {
    if HasCycle(from) {
      var c :| Cycle(from, c);
      var d := CycleImage(from, to, h, c);
    }
    if HasCycle(to) {
      var c :| Cycle(to, c);
      var inverse: map<B, A> := map u | u in h.Values :: (var x :| x in h && h[x] == u; x);
      forall u, v | Edge(to, u, v) ensures u in inverse && v in inverse && Edge(from, inverse[u], inverse[v]) {
        var x, y :| x in h && y in h && h[x] == u && h[y] == v && Edge(from, x, y);
        assert u in h.Values && v in h.Values;
        assert h[inverse[u]] == u && h[inverse[v]] == v;
      }
      var d := CycleImage(to, from, inverse, c);
    }
  }
}
