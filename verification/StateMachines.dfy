/** The reusable state machine: transitions are data, and `Path` is a breadth-first search over them. */
module StateMachines {
  import opened Graphs
  import opened Wrappers

  datatype Definition<State> = Definition(initial: State, terminal: seq<State>, transitions: map<State, seq<State>>)

  predicate Can<State(==)>(m: map<State, seq<State>>, from: State, to: State) {
    from != to && to in Targets(m, from)
  }

  /** A chain of legal moves. */
  ghost predicate LegalChain<State(!new)>(m: map<State, seq<State>>, chain: seq<State>) {
    |chain| > 0 && forall i :: 0 <= i < |chain| - 1 ==> Can(m, chain[i], chain[i + 1])
  }

  ghost predicate ChainBetween<State(!new)>(m: map<State, seq<State>>, from: State, to: State, chain: seq<State>) {
    LegalChain(m, chain) && chain[0] == from && chain[|chain| - 1] == to
  }

  /** No legal chain between the same ends is shorter. */
  ghost predicate ShortestChain<State(!new)>(m: map<State, seq<State>>, from: State, to: State, chain: seq<State>) {
    && ChainBetween(m, from, to, chain)
    && forall other :: ChainBetween(m, from, to, other) ==> |chain| <= |other|
  }

  lemma ExtendChain<State(!new)>(m: map<State, seq<State>>, from: State, tail: State, chain: seq<State>, next: State)
    requires ChainBetween(m, from, tail, chain) && Can(m, tail, next)
    ensures ChainBetween(m, from, next, chain + [next])
  {
    forall i | 0 <= i < |chain| ensures Can(m, (chain + [next])[i], (chain + [next])[i + 1]) {
      if i < |chain| - 1 {
        assert Can(m, chain[i], chain[i + 1]);
      }
    }
  }

  lemma ShortenChain<State(!new)>(m: map<State, seq<State>>, chain: seq<State>, hi: nat)
    requires LegalChain(m, chain) && 0 < hi <= |chain|
    ensures LegalChain(m, chain[..hi])
  {
    forall i | 0 <= i < hi - 1 ensures Can(m, chain[..hi][i], chain[..hi][i + 1]) {
      assert Can(m, chain[i], chain[i + 1]);
    }
  }

  /** A shortest chain visits no state twice. */
  lemma ShortestIsDistinct<State(!new)>(m: map<State, seq<State>>, from: State, to: State, chain: seq<State>)
    requires ShortestChain(m, from, to, chain)
    ensures Distinct(chain)
  {
    if i, j :| 0 <= i < j < |chain| && chain[i] == chain[j] {
      var cut := chain[..i + 1] + chain[j + 1..];
      forall k | 0 <= k < |cut| - 1 ensures Can(m, cut[k], cut[k + 1]) {
        if k < i {
          assert Can(m, chain[k], chain[k + 1]);
        } else {
          assert Can(m, chain[j + (k - i)], chain[j + (k - i) + 1]);
        }
      }
      assert ChainBetween(m, from, to, cut);
    }
  }

  // -- the breadth-first search ---------------------------------------------------

  function Last<T>(s: seq<T>): T
    requires |s| > 0
  {
    s[|s| - 1]
  }

  ghost predicate Trail<State(!new)>(m: map<State, seq<State>>, from: State, seen: set<State>, trail: seq<State>) {
    |trail| > 0 && Last(trail) in seen && ShortestChain(m, from, Last(trail), trail)
  }

  /** Trails in the queue are shortest, sorted by length, and span at most two lengths. */
  ghost predicate Frontier<State(!new)>(m: map<State, seq<State>>, from: State, seen: set<State>, queue: seq<seq<State>>, depth: nat) {
    && (forall i {:trigger Trail(m, from, seen, queue[i])} :: 0 <= i < |queue| ==>
          Trail(m, from, seen, queue[i]) && depth <= |queue[i]| <= depth + 1)
    && (forall i, j :: 0 <= i < j < |queue| ==> |queue[i]| <= |queue[j]|)
  }

  ghost predicate Queued<State(!new)>(queue: seq<seq<State>>, s: State) {
    exists i :: 0 <= i < |queue| && |queue[i]| > 0 && Last(queue[i]) == s
  }

  ghost predicate Expanded<State(!new)>(m: map<State, seq<State>>, seen: set<State>, s: State) {
    forall t :: t in Targets(m, s) ==> t in seen
  }

  /** Whatever was seen and is not waiting in the queue has had all its moves looked at. */
  ghost predicate Covered<State(!new)>(m: map<State, seq<State>>, seen: set<State>, queue: seq<seq<State>>, except: set<State>) {
    forall s {:trigger Queued(queue, s)} :: s in seen && s !in except ==> Queued(queue, s) || Expanded(m, seen, s)
  }

  /** Every state with a legal chain of at most `depth` states has been seen. */
  ghost predicate SeenTo<State(!new)>(m: map<State, seq<State>>, from: State, seen: set<State>, depth: nat) {
    forall s, chain :: ChainBetween(m, from, s, chain) && |chain| <= depth ==> s in seen
  }

  /** When the front of the queue is one longer, one more layer has been seen. */
  lemma NextLayer<State(!new)>(m: map<State, seq<State>>, from: State, seen: set<State>, queue: seq<seq<State>>, depth: nat)
    requires depth > 0 && SeenTo(m, from, seen, depth) && Covered(m, seen, queue, {})
    requires forall i :: 0 <= i < |queue| ==> Trail(m, from, seen, queue[i]) && |queue[i]| > depth
    ensures SeenTo(m, from, seen, depth + 1)
  {
    forall s, chain | ChainBetween(m, from, s, chain) && |chain| <= depth + 1 ensures s in seen {
      if |chain| == depth + 1 {
        var before := chain[..depth];
        ShortenChain(m, chain, depth);
        assert ChainBetween(m, from, Last(before), before);
        assert !Queued(queue, Last(before));
        assert Can(m, chain[depth - 1], chain[depth - 1 + 1]);
      }
    }
  }

  /** With an empty queue the seen states are closed under moves. */
  lemma NothingBeyondSeen<State(!new)>(m: map<State, seq<State>>, from: State, seen: set<State>, chain: seq<State>, k: nat)
    requires from in seen && Covered(m, seen, [], {})
    requires LegalChain(m, chain) && chain[0] == from && k < |chain|
    ensures chain[k] in seen
  {
    if k > 0 {
      NothingBeyondSeen(m, from, seen, chain, k - 1);
      assert !Queued([], chain[k - 1]);
      assert Can(m, chain[k - 1], chain[k - 1 + 1]);
    }
  }

  /** A state first met from the front trail gets a shortest trail. */
  lemma NewTrail<State(!new)>(m: map<State, seq<State>>, from: State, seen: set<State>, trail: seq<State>, candidate: State)
    requires Trail(m, from, seen, trail) && SeenTo(m, from, seen, |trail|)
    requires candidate in Targets(m, Last(trail)) && candidate !in seen
    ensures ShortestChain(m, from, candidate, trail + [candidate])
  {
    ExtendChain(m, from, Last(trail), trail, candidate);
  }

  /** The inner loop: looks at every move out of the trail's tail, stopping at the target. */
  method ExpandTrail<State(!new,==)>(m: map<State, seq<State>>, from: State, to: State, trail: seq<State>,
                                     waiting: seq<seq<State>>, known: set<State>)
    returns (hit: Option<seq<State>>, queue: seq<seq<State>>, seen: set<State>)
    requires Trail(m, from, known, trail) && to !in known
    requires Frontier(m, from, known, waiting, |trail|) && SeenTo(m, from, known, |trail|)
    requires Covered(m, known, waiting, {Last(trail)})
    ensures hit.Some? ==> ShortestChain(m, from, to, hit.value)
    ensures hit.None? ==> to !in seen && known <= seen <= known + Nodes(m)
    ensures hit.None? ==> Frontier(m, from, seen, queue, |trail|) && SeenTo(m, from, seen, |trail|)
    ensures hit.None? ==> Covered(m, seen, queue, {})
    ensures hit.None? && seen == known ==> queue == waiting
  {
    queue, seen := waiting, known;
    var tail := trail[|trail| - 1];
    var candidates := Targets(m, tail);
    var k := 0;
    while k < |candidates|
      invariant 0 <= k <= |candidates|
      invariant to !in seen && known <= seen <= known + Nodes(m)
      invariant Frontier(m, from, seen, queue, |trail|) && SeenTo(m, from, seen, |trail|)
      invariant Covered(m, seen, queue, {tail})
      invariant forall t :: t in candidates[..k] ==> t in seen
      invariant seen == known ==> queue == waiting
    {
      var candidate := candidates[k];
      assert candidates[..k + 1] == candidates[..k] + [candidate];
      if candidate !in seen {
        var nextTrail := trail + [candidate];
        NewTrail(m, from, seen, trail, candidate);
        if candidate == to {
          return Some(nextTrail), queue, seen;
        }
        assert candidate in Nodes(m);
        Enqueue(m, from, seen, queue, |trail|, tail, candidate, nextTrail);
        seen := seen + {candidate};
        queue := queue + [nextTrail];
      }
      k := k + 1;
    }
    assert candidates[..k] == candidates;
    return None, queue, seen;
  }

  /** After a whole layer the front of the queue may be one longer, with the next layer seen. */
  lemma AdvanceFront<State(!new)>(m: map<State, seq<State>>, from: State, seen: set<State>, queue: seq<seq<State>>, depth: nat)
    requires depth > 0 && |queue| > 0 && Frontier(m, from, seen, queue, depth)
    requires SeenTo(m, from, seen, depth) && Covered(m, seen, queue, {})
    ensures Frontier(m, from, seen, queue, |queue[0]|) && SeenTo(m, from, seen, |queue[0]|)
  {
    assert Trail(m, from, seen, queue[0]);
    forall i {:trigger Trail(m, from, seen, queue[i])} | 0 <= i < |queue|
      ensures Trail(m, from, seen, queue[i]) && |queue[0]| <= |queue[i]| <= |queue[0]| + 1
    {}
    if |queue[0]| > depth {
      NextLayer(m, from, seen, queue, depth);
    }
  }

  /** Dropping the front trail keeps the rest of the queue a frontier of the same depth. */
  lemma DropFront<State(!new)>(m: map<State, seq<State>>, from: State, seen: set<State>, queue: seq<seq<State>>, depth: nat)
    requires |queue| > 0 && Frontier(m, from, seen, queue, depth)
    ensures Frontier(m, from, seen, queue[1..], depth)
  {
    forall i {:trigger Trail(m, from, seen, queue[1..][i])} | 0 <= i < |queue| - 1
      ensures Trail(m, from, seen, queue[1..][i]) && depth <= |queue[1..][i]| <= depth + 1
    {
      assert Trail(m, from, seen, queue[i + 1]);
    }
  }

  /**
   Shortest legal path, or None exactly when the target is unreachable.
   */
  method Path<State(!new,==)>(m: map<State, seq<State>>, from: State, to: State) returns (path: Option<seq<State>>)
    ensures path.None? <==> forall chain :: !ChainBetween(m, from, to, chain)
    ensures path.Some? ==> ShortestChain(m, from, to, path.value) && Distinct(path.value)
  {
    if from == to {
      assert ChainBetween(m, from, to, [from]);
      return Some([from]);
    }
    var queue: seq<seq<State>> := [[from]];
    var seen: set<State> := {from};
    assert ChainBetween(m, from, from, [from]);
    assert Last(queue[0]) == from && Queued(queue, from);
    while |queue| > 0
      invariant from in seen && to !in seen && seen <= Nodes(m) + {from}
      invariant |queue| > 0 ==> |queue[0]| > 0 && Frontier(m, from, seen, queue, |queue[0]|) && SeenTo(m, from, seen, |queue[0]|)
      invariant Covered(m, seen, queue, {})
      decreases Nodes(m) + {from} - seen, |queue|
    {
      var trail := queue[0];
      assert Trail(m, from, seen, trail);
      Dequeue(m, seen, queue);
      DropFront(m, from, seen, queue, |trail|);
      queue := queue[1..];
      var hit: Option<seq<State>>;
      hit, queue, seen := ExpandTrail(m, from, to, trail, queue, seen);
      if hit.Some? {
        ShortestIsDistinct(m, from, to, hit.value);
        return hit;
      }
      if |queue| > 0 {
        assert Trail(m, from, seen, queue[0]);
        AdvanceFront(m, from, seen, queue, |trail|);
      }
    }
    forall chain | ChainBetween(m, from, to, chain) ensures false {
      NothingBeyondSeen(m, from, seen, chain, |chain| - 1);
    }
    return None;
  }

  /** Taking the front trail off the queue leaves only its own tail uncovered. */
  lemma Dequeue<State(!new)>(m: map<State, seq<State>>, seen: set<State>, queue: seq<seq<State>>)
    requires |queue| > 0 && |queue[0]| > 0 && Covered(m, seen, queue, {})
    ensures Covered(m, seen, queue[1..], {Last(queue[0])})
  {
    forall s {:trigger Queued(queue[1..], s)} | s in seen && s != Last(queue[0]) ensures Queued(queue[1..], s) || Expanded(m, seen, s) {
      if Queued(queue, s) {
        var i :| 0 <= i < |queue| && |queue[i]| > 0 && Last(queue[i]) == s;
        assert queue[1..][i - 1] == queue[i];
      }
    }
  }

  /** Appending a trail of the next length keeps the queue in order and everything seen covered. */
  lemma Enqueue<State(!new)>(m: map<State, seq<State>>, from: State, seen: set<State>, queue: seq<seq<State>>, depth: nat,
                             tail: State, candidate: State, trail: seq<State>)
    requires Frontier(m, from, seen, queue, depth) && Covered(m, seen, queue, {tail})
    requires |trail| == depth + 1 && ShortestChain(m, from, candidate, trail)
    ensures Frontier(m, from, seen + {candidate}, queue + [trail], depth)
    ensures Covered(m, seen + {candidate}, queue + [trail], {tail})
  {
    var longer, known := queue + [trail], seen + {candidate};
    forall i {:trigger Trail(m, from, known, longer[i])} | 0 <= i < |longer|
      ensures Trail(m, from, known, longer[i]) && depth <= |longer[i]| <= depth + 1
    {
      if i < |queue| {
        assert Trail(m, from, seen, queue[i]);
      }
    }
    forall i, j | 0 <= i < j < |longer| ensures |longer[i]| <= |longer[j]| {
      if j == |queue| {
        assert Trail(m, from, seen, queue[i]);
      }
    }
    forall s {:trigger Queued(longer, s)} | s in known && s !in {tail} ensures Queued(longer, s) || Expanded(m, known, s) {
      if s == candidate {
        assert Last(longer[|queue|]) == s;
      } else if Queued(queue, s) {
        var i :| 0 <= i < |queue| && |queue[i]| > 0 && Last(queue[i]) == s;
        assert longer[i] == queue[i];
      }
    }
  }
}
