/** computeSafeReverseDist: how much room a train needs beyond each node to turn round there. */
module SafeReverse {
  import opened TrackGraph
  import opened Sequences
  import opened TrackState

  const SAFE_REVERSE_DIST_COMPENSATION: int := 60

  function Max(x: int, y: int): int
  {
    if x > y then x else y
  }

  /** The nodes not yet marked as unsuitable for turning round. */
  ghost function Unmarked(safe: seq<int>): (s: set<nat>)
    ensures forall i :: i in s <==> 0 <= i < |safe| && safe[i] != INT_MAX
  {
    set i: nat | i < |safe| && safe[i] != INT_MAX
  }

  /** Marks are never taken back. */
  ghost predicate KeepsMarks(before: seq<int>, after: seq<int>)
  {
    |before| == |after| && forall i :: 0 <= i < |before| && before[i] == INT_MAX ==> after[i] == INT_MAX
  }

  lemma MarksShrink(before: seq<int>, after: seq<int>, marked: nat)
    requires KeepsMarks(before, after) && marked < |before| && before[marked] != INT_MAX && after[marked] == INT_MAX
    ensures |Unmarked(after)| < |Unmarked(before)|
  {
    var a, b := Unmarked(after), Unmarked(before);
    assert a <= b - {marked};
    SmallerSet(a, b - {marked});
  }

  /** Whether a leg may be followed by the recursion. */
  ghost predicate GoodLeg(g: Graph, e: nat)
    requires e < |g.edge|
  {
    && g.edge[e].src < |g.node| && g.edge[e].dest < |g.node| && g.edge[e].dist >= 0
    && g.node[g.edge[e].src].ty != NoNode && g.node[g.edge[e].dest].ty != NoNode
  }

  ghost predicate GoodLegAt(g: Graph, x: nat, dir: nat)
    requires Shape(g)
  {
    HasLeg(g, x, dir) ==> GoodLeg(g, EdgeId(x, dir)) && g.edge[EdgeId(x, dir)].src == x
  }

  ghost predicate GoodLegs(g: Graph)
  {
    Shape(g) && forall x, dir {:trigger GoodLegAt(g, x, dir)} :: GoodLegAt(g, x, dir)
  }

  ghost predicate AllStorable(g: Graph, safe: seq<int>)
    requires |safe| == |g.node|
  {
    forall i :: 0 <= i < |safe| && g.node[i].ty != NoNode ==> safe[i] <= INT_MAX
  }

  /** The call goes on beyond edge e: its source is marked, and what is left of the source's distance
      reaches the other end. */
  ghost function Passed(g: Graph, safe: seq<int>, e: nat): (r: seq<int>)
    requires GoodLegs(g) && |safe| == |g.node| && e < |g.edge| && GoodLeg(g, e) && AllStorable(g, safe)
    requires safe[g.edge[e].src] != INT_MAX
    ensures KeepsMarks(safe, r) && AllStorable(g, r) && r[g.edge[e].src] == INT_MAX && |Unmarked(r)| < |Unmarked(safe)|
  {
    var d := g.edge[e];
    var safe1 := safe[d.src := INT_MAX];
    var r := safe1[d.dest := Max(safe[d.src] - d.dist, safe1[d.dest])];
    MarksShrink(safe, r, d.src);
    r
  }

  /** computeSafeReverseDistHelper as a function of the distances before the call. It stops
      because each call that goes on marks a node, and marks survive: the rollback between the two
      legs of a branch can only unmark a node that was unmarked when the call began. */
  ghost function Propagate(g: Graph, safe: seq<int>, e: nat, trainLength: int): (r: seq<int>)
    requires GoodLegs(g) && |safe| == |g.node| && e < |g.edge| && GoodLeg(g, e)
    requires AllStorable(g, safe)
    ensures KeepsMarks(safe, r) && AllStorable(g, r)
    decreases |Unmarked(safe)|
  {
    var d := g.edge[e];
    if safe[d.src] == INT_MAX then safe
    else
      var newSafe := safe[d.src] - d.dist;
      if newSafe > 0 then
        var safe2 := Passed(g, safe, e);
        if g.node[d.dest].ty == Branch then
          var temp := safe2[d.dest];
          assert GoodLegAt(g, d.dest, DIR_CURVED) && GoodLegAt(g, d.dest, DIR_STRAIGHT);
          var safe3 := Propagate(g, safe2, EdgeId(d.dest, DIR_CURVED), trainLength);
          var safe4 := safe3[d.dest := temp];
          MarksShrink(safe, safe4, d.src);
          Propagate(g, safe4, EdgeId(d.dest, DIR_STRAIGHT), trainLength)
        else if g.node[d.dest].ty != Exit then
          assert GoodLegAt(g, d.dest, DIR_AHEAD);
          Propagate(g, safe2, EdgeId(d.dest, DIR_AHEAD), trainLength)
        else safe2
      else if (g.node[d.dest].ty == Branch || g.node[d.dest].ty == Merge)
              && d.dist < trainLength + SAFE_REVERSE_DIST_COMPENSATION then
        safe[d.src := INT_MAX]
      else safe
  }

  /** Propagate, case by case. */
  lemma PropagateIs(g: Graph, safe: seq<int>, e: nat, trainLength: int)
    requires GoodLegs(g) && |safe| == |g.node| && e < |g.edge| && GoodLeg(g, e) && AllStorable(g, safe)
    ensures var d := g.edge[e]; var r := Propagate(g, safe, e, trainLength);
            if safe[d.src] == INT_MAX then r == safe
            else if safe[d.src] - d.dist <= 0 then
              r == if g.node[d.dest].ty in {Branch, Merge} && d.dist < trainLength + SAFE_REVERSE_DIST_COMPENSATION
                   then safe[d.src := INT_MAX] else safe
            else
              var safe2 := Passed(g, safe, e); var b := d.dest;
              if g.node[b].ty == Branch then
                && GoodLegAt(g, b, DIR_CURVED) && GoodLegAt(g, b, DIR_STRAIGHT)
                && var safe4 := Propagate(g, safe2, EdgeId(b, DIR_CURVED), trainLength)[b := safe2[b]];
                && AllStorable(g, safe4) && |Unmarked(safe4)| < |Unmarked(safe)|
                && r == Propagate(g, safe4, EdgeId(b, DIR_STRAIGHT), trainLength)
              else if g.node[b].ty == Exit then r == safe2
              else GoodLegAt(g, b, DIR_AHEAD) && r == Propagate(g, safe2, EdgeId(b, DIR_AHEAD), trainLength)
  {
    var d := g.edge[e];
    if safe[d.src] != INT_MAX && safe[d.src] - d.dist > 0 {
      assert GoodLegAt(g, d.dest, DIR_CURVED) && GoodLegAt(g, d.dest, DIR_STRAIGHT) && GoodLegAt(g, d.dest, DIR_AHEAD);
      if g.node[d.dest].ty == Branch {
        var safe2 := Passed(g, safe, e);
        MarksShrink(safe, Propagate(g, safe2, EdgeId(d.dest, DIR_CURVED), trainLength)[d.dest := safe2[d.dest]], d.src);
      }
    }
  }

  ghost predicate InRange(v: int, limit: int)
  {
    0 <= v <= limit || v == INT_MAX
  }

  ghost predicate AllInRange(g: Graph, safe: seq<int>, limit: int)
    requires |safe| == |g.node|
  {
    forall i :: 0 <= i < |safe| && g.node[i].ty != NoNode ==> InRange(safe[i], limit)
  }

  /** Nothing but marks and distances between 0 and the clearance it starts from is ever stored. */
  lemma {:induction false} PropagateInRange(g: Graph, safe: seq<int>, e: nat, trainLength: int, limit: int)
    requires GoodLegs(g) && |safe| == |g.node| && e < |g.edge| && GoodLeg(g, e)
    requires 0 <= limit <= INT_MAX && AllInRange(g, safe, limit)
    ensures AllInRange(g, Propagate(g, safe, e, trainLength), limit)
    decreases |Unmarked(safe)|
  {
    PropagateIs(g, safe, e, trainLength);
    var d := g.edge[e];
    if safe[d.src] != INT_MAX && safe[d.src] - d.dist > 0 {
      var safe2 := Passed(g, safe, e);
      if g.node[d.dest].ty == Branch {
        PropagateInRange(g, safe2, EdgeId(d.dest, DIR_CURVED), trainLength, limit);
        var safe4 := Propagate(g, safe2, EdgeId(d.dest, DIR_CURVED), trainLength)[d.dest := safe2[d.dest]];
        PropagateInRange(g, safe4, EdgeId(d.dest, DIR_STRAIGHT), trainLength, limit);
      } else if g.node[d.dest].ty != Exit {
        PropagateInRange(g, safe2, EdgeId(d.dest, DIR_AHEAD), trainLength, limit);
      }
    }
  }

  /** computeSafeReverseDist over the first k nodes. */
  ghost function PropagateAll(g: Graph, safe: seq<int>, k: nat, trainLength: int): (r: seq<int>)
    requires GoodLegs(g) && |safe| == |g.node| && k <= |g.node|
    requires 0 <= trainLength && trainLength + SAFE_REVERSE_DIST_COMPENSATION <= INT_MAX
    requires AllInRange(g, safe, trainLength + SAFE_REVERSE_DIST_COMPENSATION)
    ensures |r| == |safe| && AllInRange(g, r, trainLength + SAFE_REVERSE_DIST_COMPENSATION)
  {
    if k == 0 then safe
    else
      var r := PropagateAll(g, safe, k - 1, trainLength);
      if g.node[k - 1].ty == Merge then
        var r' := r[k - 1 := trainLength + SAFE_REVERSE_DIST_COMPENSATION];
        assert GoodLegAt(g, k - 1, DIR_AHEAD);
        PropagateInRange(g, r', EdgeId(k - 1, DIR_AHEAD), trainLength, trainLength + SAFE_REVERSE_DIST_COMPENSATION);
        Propagate(g, r', EdgeId(k - 1, DIR_AHEAD), trainLength)
      else r
  }

  // ---- which marks stay ----

  /** e is the record its source holds in one of the directions it can be left in. */
  ghost predicate IsLeg(g: Graph, e: nat)
    requires e < |g.edge|
  {
    IsLegOf(g, g.edge[e].src, e)
  }

  /** A marked merge has less than the room needed behind it. */
  ghost predicate MarkedMergesShort(g: Graph, safe: seq<int>, limit: int)
    requires Shape(g) && |safe| == |g.node|
  {
    forall x :: 0 <= x < |safe| && g.node[x].ty == Merge && safe[x] == INT_MAX ==>
      g.edge[EdgeId(x, DIR_AHEAD)].dist < limit
  }

  lemma PassedMarksShort(g: Graph, safe: seq<int>, e: nat, limit: int)
    requires GoodLegs(g) && |safe| == |g.node| && e < |g.edge| && GoodLeg(g, e) && IsLeg(g, e) && 0 <= limit <= INT_MAX
    requires AllInRange(g, safe, limit) && MarkedMergesShort(g, safe, limit)
    requires safe[g.edge[e].src] != INT_MAX && safe[g.edge[e].src] - g.edge[e].dist > 0
    ensures AllInRange(g, Passed(g, safe, e), limit) && MarkedMergesShort(g, Passed(g, safe, e), limit)
  {
  }

  lemma {:induction false} PropagateMarksShort(g: Graph, safe: seq<int>, e: nat, trainLength: int, limit: int)
    requires GoodLegs(g) && |safe| == |g.node| && e < |g.edge| && GoodLeg(g, e) && IsLeg(g, e)
    requires 0 <= limit == trainLength + SAFE_REVERSE_DIST_COMPENSATION <= INT_MAX
    requires AllInRange(g, safe, limit) && MarkedMergesShort(g, safe, limit)
    ensures MarkedMergesShort(g, Propagate(g, safe, e, trainLength), limit)
    decreases |Unmarked(safe)|
  {
    PropagateIs(g, safe, e, trainLength);
    var d := g.edge[e];
    if safe[d.src] != INT_MAX && safe[d.src] - d.dist > 0 {
      var safe2 := Passed(g, safe, e);
      PassedMarksShort(g, safe, e, limit);
      if g.node[d.dest].ty == Branch {
        PropagateInRange(g, safe2, EdgeId(d.dest, DIR_CURVED), trainLength, limit);
        PropagateMarksShort(g, safe2, EdgeId(d.dest, DIR_CURVED), trainLength, limit);
        var safe4 := Propagate(g, safe2, EdgeId(d.dest, DIR_CURVED), trainLength)[d.dest := safe2[d.dest]];
        PropagateMarksShort(g, safe4, EdgeId(d.dest, DIR_STRAIGHT), trainLength, limit);
      } else if g.node[d.dest].ty != Exit {
        PropagateMarksShort(g, safe2, EdgeId(d.dest, DIR_AHEAD), trainLength, limit);
      }
    }
  }

  /** A call that goes on marks the node it starts from, for good. */
  lemma PropagateMarksSource(g: Graph, safe: seq<int>, e: nat, trainLength: int)
    requires GoodLegs(g) && |safe| == |g.node| && e < |g.edge| && GoodLeg(g, e) && AllStorable(g, safe)
    requires safe[g.edge[e].src] - g.edge[e].dist > 0
    ensures Propagate(g, safe, e, trainLength)[g.edge[e].src] == INT_MAX
  {
    PropagateIs(g, safe, e, trainLength);
  }

  /** One turn of the loop: the mark of merge x is overwritten, and set again. */
  lemma TurnKeepsMarks(g: Graph, r: seq<int>, x: nat, trainLength: int, limit: int)
    requires GoodLegs(g) && |r| == |g.node| && x < |g.node| && g.node[x].ty == Merge && GoodLegAt(g, x, DIR_AHEAD)
    requires 0 <= limit == trainLength + SAFE_REVERSE_DIST_COMPENSATION < INT_MAX
    requires AllInRange(g, r, limit) && MarkedMergesShort(g, r, limit)
    ensures AllStorable(g, r[x := limit])
    ensures var r' := Propagate(g, r[x := limit], EdgeId(x, DIR_AHEAD), trainLength);
            && KeepsMarks(r, r') && MarkedMergesShort(g, r', limit)
            && (r'[x] == INT_MAX <==> g.edge[EdgeId(x, DIR_AHEAD)].dist < limit)
  {
    var e := EdgeId(x, DIR_AHEAD);
    PropagateMarksShort(g, r[x := limit], e, trainLength, limit);
    if g.edge[e].dist < limit {
      PropagateMarksSource(g, r[x := limit], e, trainLength);
    }
  }

  /** Of the first k nodes exactly the merges with too short a leg behind them are marked. */
  ghost predicate MergesDecided(g: Graph, safe: seq<int>, k: nat, limit: int)
    requires Shape(g) && |safe| == |g.node| && k <= |g.node|
  {
    forall x :: 0 <= x < k && g.node[x].ty == Merge ==>
      (safe[x] == INT_MAX <==> g.edge[EdgeId(x, DIR_AHEAD)].dist < limit)
  }

  lemma OneMoreDecided(g: Graph, r: seq<int>, r': seq<int>, x: nat, limit: int)
    requires Shape(g) && |r| == |g.node| && x < |g.node| && MergesDecided(g, r, x, limit)
    requires KeepsMarks(r, r') && MarkedMergesShort(g, r', limit)
    requires g.node[x].ty == Merge ==> (r'[x] == INT_MAX <==> g.edge[EdgeId(x, DIR_AHEAD)].dist < limit)
    ensures MergesDecided(g, r', x + 1, limit)
  {
  }

  /** In the end a merge is marked exactly when the leg behind it is shorter than the train and its margin. */
  lemma {:induction false} MergesMarked(g: Graph, safe: seq<int>, k: nat, trainLength: int, limit: int)
    requires GoodLegs(g) && |safe| == |g.node| && k <= |g.node|
    requires 0 <= trainLength && limit == trainLength + SAFE_REVERSE_DIST_COMPENSATION < INT_MAX
    requires AllInRange(g, safe, limit) && MarkedMergesShort(g, safe, limit)
    ensures var r := PropagateAll(g, safe, k, trainLength);
            MarkedMergesShort(g, r, limit) && MergesDecided(g, r, k, limit)
  {
    if k > 0 {
      MergesMarked(g, safe, k - 1, trainLength, limit);
      var r, r' := PropagateAll(g, safe, k - 1, trainLength), PropagateAll(g, safe, k, trainLength);
      if g.node[k - 1].ty == Merge {
        assert GoodLegAt(g, k - 1, DIR_AHEAD);
        TurnKeepsMarks(g, r, k - 1, trainLength, limit);
      }
      OneMoreDecided(g, r, r', k - 1, limit);
    }
  }

  /** No turn of the whole computation takes a mark back. */
  lemma {:induction false} MarksStay(g: Graph, safe: seq<int>, j: nat, k: nat, trainLength: int, limit: int)
    requires GoodLegs(g) && |safe| == |g.node| && j <= k <= |g.node|
    requires 0 <= trainLength && limit == trainLength + SAFE_REVERSE_DIST_COMPENSATION < INT_MAX
    requires AllInRange(g, safe, limit) && MarkedMergesShort(g, safe, limit)
    ensures KeepsMarks(PropagateAll(g, safe, j, trainLength), PropagateAll(g, safe, k, trainLength))
    decreases k
  {
    if j < k {
      MarksStay(g, safe, j, k - 1, trainLength, limit);
      MergesMarked(g, safe, k - 1, trainLength, limit);
      if g.node[k - 1].ty == Merge {
        assert GoodLegAt(g, k - 1, DIR_AHEAD);
        TurnKeepsMarks(g, PropagateAll(g, safe, k - 1, trainLength), k - 1, trainLength, limit);
      }
    }
  }

  /** computeSafeReverseDistHelper */
  method ComputeSafeReverseDistHelper(t: Track, e: nat, trainLength: int)
    requires t.Valid() && GoodLegs(t.G()) && e < t.edges.Length && GoodLeg(t.G(), e)
    requires AllStorable(t.G(), t.safeReverseDist[..])
    modifies t.safeReverseDist
    ensures t.safeReverseDist[..] == Propagate(t.G(), old(t.safeReverseDist[..]), e, trainLength)
    decreases |Unmarked(t.safeReverseDist[..])|
  {
    ghost var g, safe := t.G(), t.safeReverseDist[..];
    var d := t.edges[e];
    if t.safeReverseDist[d.src] == INT_MAX {
      return;
    }
    var newSafe := t.safeReverseDist[d.src] - d.dist;
    if newSafe > 0 {
      t.safeReverseDist[d.src] := INT_MAX;
      t.safeReverseDist[d.dest] := Max(newSafe, t.safeReverseDist[d.dest]);
      ghost var safe2 := t.safeReverseDist[..];
      assert safe2 == Passed(g, safe, e);
      if t.nodes[d.dest].ty == Branch {
        assert GoodLegAt(g, d.dest, DIR_CURVED) && GoodLegAt(g, d.dest, DIR_STRAIGHT);
        var temp := t.safeReverseDist[d.dest];
        ComputeSafeReverseDistHelper(t, EdgeId(d.dest, DIR_CURVED), trainLength);
        ghost var safe3 := t.safeReverseDist[..];
        t.safeReverseDist[d.dest] := temp;
        assert t.safeReverseDist[..] == safe3[d.dest := temp];
        MarksShrink(safe, t.safeReverseDist[..], d.src);
        ComputeSafeReverseDistHelper(t, EdgeId(d.dest, DIR_STRAIGHT), trainLength);
      } else if t.nodes[d.dest].ty != Exit {
        assert GoodLegAt(g, d.dest, DIR_AHEAD);
        ComputeSafeReverseDistHelper(t, EdgeId(d.dest, DIR_AHEAD), trainLength);
      }
    } else if (t.nodes[d.dest].ty == Branch || t.nodes[d.dest].ty == Merge)
              && d.dist < trainLength + SAFE_REVERSE_DIST_COMPENSATION {
      t.safeReverseDist[d.src] := INT_MAX;
    }
  }

  method ComputeSafeReverseDist(t: Track, trainLength: int)
    requires t.Valid() && GoodLegs(t.G())
    requires 0 <= trainLength && trainLength + SAFE_REVERSE_DIST_COMPENSATION <= INT_MAX
    requires AllInRange(t.G(), t.safeReverseDist[..], trainLength + SAFE_REVERSE_DIST_COMPENSATION)
    modifies t.safeReverseDist
    ensures t.safeReverseDist[..] == PropagateAll(t.G(), old(t.safeReverseDist[..]), t.nodes.Length, trainLength)
  {
    ghost var safe := t.safeReverseDist[..];
    for i := 0 to t.nodes.Length
      invariant t.safeReverseDist[..] == PropagateAll(t.G(), safe, i, trainLength)
    {
      if t.nodes[i].ty == Merge {
        ghost var r := t.safeReverseDist[..];
        t.safeReverseDist[i] := trainLength + SAFE_REVERSE_DIST_COMPENSATION;
        assert t.safeReverseDist[..] == r[i := trainLength + SAFE_REVERSE_DIST_COMPENSATION];
        assert GoodLegAt(t.G(), i, DIR_AHEAD);
        ComputeSafeReverseDistHelper(t, EdgeId(i, DIR_AHEAD), trainLength);
      }
    }
  }
}
