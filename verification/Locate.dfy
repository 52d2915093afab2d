/** From a position (two landmarks and an offset) to an edge: kernel/track/TrackHelper.c. */
module Locating {
  import opened TrackGraph
  import opened TrackState
  import opened Landmarks

  const MAX_TRAVERSE: nat := 7

  ghost predicate Named(nodes: seq<Node>, x: nat, l: Landmark)
  {
    x < |nodes| && nodes[x].ty != NoNode && nodes[x].ty == NodeTypeOf(l) && nodes[x].num == NodeNumOf(l)
  }

  /** r is the first of the first n nodes that l names, NULL if there is none. */
  ghost predicate FirstNamed(nodes: seq<Node>, n: nat, l: Landmark, r: int)
  {
    && (r == NULL || (0 <= r < n && Named(nodes, r, l)))
    && (forall x :: 0 <= x < (if r == NULL then n else r) ==> !Named(nodes, x, l))
  }

  lemma FirstNamedUnique(nodes: seq<Node>, n: nat, l: Landmark, r: int, r': int)
    requires FirstNamed(nodes, n, l, r) && FirstNamed(nodes, n, l, r')
    ensures r == r'
  {
    if r != NULL && r' != NULL {
      assert Named(nodes, r, l) && Named(nodes, r', l);
    }
  }

  /** findNode */
  method FindNode(t: Track, n: nat, l: Landmark) returns (r: int)
    requires n <= t.nodes.Length
    ensures FirstNamed(t.nodes[..], n, l, r)
  {
    for i := 0 to n
      invariant forall x :: 0 <= x < i ==> !Named(t.nodes[..], x, l)
    {
      if t.nodes[i].ty != NoNode && t.nodes[i].ty == NodeTypeOf(l) && t.nodes[i].num == NodeNumOf(l) {
        return i;
      }
    }
    return NULL;
  }

  /** A landmark made from a node names that node's type and number again. */
  lemma LandmarkNamesNode(v: Node)
    requires v.ty != NoNode && v.ty != Fake
    ensures NodeTypeOf(LandmarkOf(v)) == v.ty && NodeNumOf(LandmarkOf(v)) == v.num
  {
  }

  // ---- traverse ----

  datatype Search = Search(target: nat, max: nat, ignoreSensor: bool)

  /** traverse gives up at this node without looking further. */
  predicate DeadEnd(g: Graph, s: Search, cur: nat, depth: nat)
    requires cur < |g.node|
  {
    depth >= s.max || g.node[cur].ty == Exit || (g.node[cur].ty == Sensor && depth != 0 && s.ignoreSensor)
  }

  /** The value traverse returns and what it leaves in the caller's edge buffer. */
  ghost function Trace(g: Graph, n: nat, s: Search, cur: nat, depth: nat, buf: seq<nat>): (r: (int, seq<nat>))
    requires Plannable(g, n) && cur < n && g.node[cur].ty != NoNode && depth <= s.max <= |buf|
    ensures |r.1| == |buf| && (r.0 == -1 || depth <= r.0 <= s.max)
    ensures r.1[..depth] == buf[..depth]
    ensures r.0 == depth <==> cur == s.target
    decreases s.max - depth
  {
    if cur == s.target then (depth, buf)
    else if DeadEnd(g, s, cur, depth) then (-1, buf)
    else
      assert LegOk(g, n, cur, DIR_STRAIGHT);
      var e1 := EdgeId(cur, DIR_STRAIGHT);
      var (len1, buf1) := Trace(g, n, s, g.edge[e1].dest, depth + 1, buf);
      if g.node[cur].ty != Branch then
        if len1 != -1 then (len1, buf1[depth := e1]) else (-1, buf1)
      else
        assert LegOk(g, n, cur, DIR_CURVED);
        var e2 := EdgeId(cur, DIR_CURVED);
        var (len2, buf2) := Trace(g, n, s, g.edge[e2].dest, depth + 1, buf1);
        if len1 != -1 then (len1, buf2[depth := e1])
        else if len2 != -1 then (len2, buf2[depth := e2])
        else (-1, buf2)
  }

  method Traverse(t: Track, cur: nat, target: nat, depth: nat, max: nat, edges: array<nat>, ignoreSensor: bool,
                  ghost n: nat) returns (len: int)
    requires t.Valid() && Plannable(t.G(), n) && cur < n && t.nodes[cur].ty != NoNode && depth <= max <= edges.Length
    modifies edges
    ensures (len, edges[..]) == Trace(t.G(), n, Search(target, max, ignoreSensor), cur, depth, old(edges[..]))
    decreases max - depth
  {
    ghost var g, buf := t.G(), edges[..];
    ghost var s := Search(target, max, ignoreSensor);
    if cur == target {
      return depth;
    }
    if depth == max {
      return -1;
    }
    assert LegOk(g, n, cur, DIR_STRAIGHT) && LegOk(g, n, cur, DIR_CURVED);
    if t.nodes[cur].ty == Exit {
      return -1;
    } else if t.nodes[cur].ty == Sensor && depth != 0 && ignoreSensor {
      return -1;
    }
    assert !DeadEnd(g, s, cur, depth);
    if t.nodes[cur].ty != Branch {
      var e := EdgeId(cur, DIR_AHEAD);
      len := Traverse(t, t.edges[e].dest, target, depth + 1, max, edges, ignoreSensor, n);
      ghost var r := Trace(g, n, s, g.edge[e].dest, depth + 1, buf);
      assert (len, edges[..]) == r;
      if len != -1 {
        edges[depth] := e;
        assert edges[..] == r.1[depth := e];
      }
    } else {
      var e1, e2 := EdgeId(cur, DIR_STRAIGHT), EdgeId(cur, DIR_CURVED);
      var len1 := Traverse(t, t.edges[e1].dest, target, depth + 1, max, edges, ignoreSensor, n);
      var len2 := Traverse(t, t.edges[e2].dest, target, depth + 1, max, edges, ignoreSensor, n);
      ghost var r1 := Trace(g, n, s, g.edge[e1].dest, depth + 1, buf);
      ghost var r2 := Trace(g, n, s, g.edge[e2].dest, depth + 1, r1.1);
      assert len1 == r1.0 && (len2, edges[..]) == r2;
      if len1 != -1 {
        edges[depth] := e1;
        len := len1;
        assert edges[..] == r2.1[depth := e1];
      } else if len2 != -1 {
        edges[depth] := e2;
        len := len2;
        assert edges[..] == r2.1[depth := e2];
      } else {
        len := -1;
      }
    }
  }

  // ---- what traverse finds ----

  /** es is a connected list of edges from cur to target. */
  ghost predicate IsRun(g: Graph, n: nat, cur: nat, target: nat, es: seq<nat>)
    requires Plannable(g, n)
    decreases |es|
  {
    if |es| == 0 then cur == target
    else cur < n && es[0] < |g.edge| && IsLegOf(g, cur, es[0]) && IsRun(g, n, g.edge[es[0]].dest, target, es[1..])
  }

  /** No node of the run, except the last, is one traverse refuses to pass. */
  ghost predicate Passes(g: Graph, n: nat, s: Search, cur: nat, depth: nat, es: seq<nat>)
    requires Plannable(g, n)
    decreases |es|
  {
    |es| == 0 ||
    (cur < n && es[0] < |g.edge| && !DeadEnd(g, s, cur, depth)
     && Passes(g, n, s, g.edge[es[0]].dest, depth + 1, es[1..]))
  }

  /** A run traverse may follow from cur at the given depth. */
  ghost predicate OpenRun(g: Graph, n: nat, s: Search, cur: nat, depth: nat, es: seq<nat>)
    requires Plannable(g, n)
  {
    IsRun(g, n, cur, s.target, es) && Passes(g, n, s, cur, depth, es)
  }

  ghost predicate Findable(g: Graph, n: nat, s: Search, cur: nat, depth: nat)
    requires Plannable(g, n)
  {
    exists es :: OpenRun(g, n, s, cur, depth, es)
  }

  /** The value traverse returns does not depend on the buffer. */
  ghost function Len(g: Graph, n: nat, s: Search, cur: nat, depth: nat): (r: int)
    requires Plannable(g, n) && cur < n && g.node[cur].ty != NoNode && depth <= s.max
    decreases s.max - depth
  {
    Trace(g, n, s, cur, depth, seq(s.max, _ => 0)).0
  }

  lemma {:induction false} LenIsTrace(g: Graph, n: nat, s: Search, cur: nat, depth: nat, buf: seq<nat>, buf': seq<nat>)
    requires Plannable(g, n) && cur < n && g.node[cur].ty != NoNode && depth <= s.max <= |buf| && s.max <= |buf'|
    ensures Trace(g, n, s, cur, depth, buf).0 == Trace(g, n, s, cur, depth, buf').0
    decreases s.max - depth
  {
    if cur != s.target && !DeadEnd(g, s, cur, depth) {
      assert LegOk(g, n, cur, DIR_STRAIGHT) && LegOk(g, n, cur, DIR_CURVED);
      var d1 := g.edge[EdgeId(cur, DIR_STRAIGHT)].dest;
      LenIsTrace(g, n, s, d1, depth + 1, buf, buf');
      if g.node[cur].ty == Branch {
        var d2 := g.edge[EdgeId(cur, DIR_CURVED)].dest;
        LenIsTrace(g, n, s, d2, depth + 1, Trace(g, n, s, d1, depth + 1, buf).1, Trace(g, n, s, d1, depth + 1, buf').1);
      }
    }
  }

  /** Nor do the entries of a path it finds; every other entry is kept or written whatever it was. */
  lemma {:induction false} TraceFromAnyBuffer(g: Graph, n: nat, s: Search, cur: nat, depth: nat, buf: seq<nat>,
                                              buf': seq<nat>)
    requires Plannable(g, n) && cur < n && g.node[cur].ty != NoNode && depth <= s.max <= |buf| == |buf'|
    ensures var (len, out) := Trace(g, n, s, cur, depth, buf); var (len', out') := Trace(g, n, s, cur, depth, buf');
            && len' == len
            && (forall i :: depth <= i < len ==> out'[i] == out[i])
            && (forall i :: 0 <= i < |buf| && buf'[i] == buf[i] ==> out'[i] == out[i])
    decreases s.max - depth
  {
    if cur != s.target && !DeadEnd(g, s, cur, depth) {
      assert LegOk(g, n, cur, DIR_STRAIGHT) && LegOk(g, n, cur, DIR_CURVED);
      var d1 := g.edge[EdgeId(cur, DIR_STRAIGHT)].dest;
      TraceFromAnyBuffer(g, n, s, d1, depth + 1, buf, buf');
      if g.node[cur].ty == Branch {
        var d2 := g.edge[EdgeId(cur, DIR_CURVED)].dest;
        TraceFromAnyBuffer(g, n, s, d2, depth + 1,
                           Trace(g, n, s, d1, depth + 1, buf).1, Trace(g, n, s, d1, depth + 1, buf').1);
      }
    }
  }

  /** Len, one step at a time. */
  lemma LenStep(g: Graph, n: nat, s: Search, cur: nat, depth: nat)
    requires Plannable(g, n) && cur < n && g.node[cur].ty != NoNode && depth < s.max
    requires cur != s.target && !DeadEnd(g, s, cur, depth)
    ensures LegOk(g, n, cur, DIR_STRAIGHT) && HasLeg(g, cur, DIR_STRAIGHT)
    ensures g.node[cur].ty == Branch ==> LegOk(g, n, cur, DIR_CURVED) && HasLeg(g, cur, DIR_CURVED)
    ensures var len1 := Len(g, n, s, g.edge[EdgeId(cur, DIR_STRAIGHT)].dest, depth + 1);
            Len(g, n, s, cur, depth) ==
              if g.node[cur].ty != Branch || len1 != -1 then len1
              else Len(g, n, s, g.edge[EdgeId(cur, DIR_CURVED)].dest, depth + 1)
  {
    assert LegOk(g, n, cur, DIR_STRAIGHT) && LegOk(g, n, cur, DIR_CURVED);
    var buf := seq(s.max, _ => 0);
    var d1 := g.edge[EdgeId(cur, DIR_STRAIGHT)].dest;
    if g.node[cur].ty == Branch {
      LenIsTrace(g, n, s, g.edge[EdgeId(cur, DIR_CURVED)].dest, depth + 1, Trace(g, n, s, d1, depth + 1, buf).1, buf);
    }
  }

  /** traverse succeeds exactly when there is an open run to the target within its depth. */
  lemma {:induction false} TraverseComplete(g: Graph, n: nat, s: Search, cur: nat, depth: nat)
    requires Plannable(g, n) && cur < n && g.node[cur].ty != NoNode && depth <= s.max
    ensures Len(g, n, s, cur, depth) != -1 <==> Findable(g, n, s, cur, depth)
    decreases s.max - depth
  {
    if cur == s.target {
      assert OpenRun(g, n, s, cur, depth, []);
    } else if DeadEnd(g, s, cur, depth) {
      forall es: seq<nat>
        ensures !OpenRun(g, n, s, cur, depth, es)
      {
      }
    } else {
      LenStep(g, n, s, cur, depth);
      var e1, e2 := EdgeId(cur, DIR_STRAIGHT), EdgeId(cur, DIR_CURVED);
      TraverseComplete(g, n, s, g.edge[e1].dest, depth + 1);
      RunThrough(g, n, s, cur, depth, DIR_STRAIGHT);
      if g.node[cur].ty == Branch {
        TraverseComplete(g, n, s, g.edge[e2].dest, depth + 1);
        RunThrough(g, n, s, cur, depth, DIR_CURVED);
      }
      if Findable(g, n, s, cur, depth) {
        var es :| OpenRun(g, n, s, cur, depth, es);
        var dir := es[0] - 2 * cur;
        assert OpenRun(g, n, s, g.edge[es[0]].dest, depth + 1, es[1..]);
      }
    }
  }

  lemma RunThrough(g: Graph, n: nat, s: Search, cur: nat, depth: nat, dir: nat)
    requires Plannable(g, n) && cur < n && HasLeg(g, cur, dir) && !DeadEnd(g, s, cur, depth)
    ensures Findable(g, n, s, g.edge[EdgeId(cur, dir)].dest, depth + 1) ==> Findable(g, n, s, cur, depth)
  {
    var e := EdgeId(cur, dir);
    assert LegOk(g, n, cur, dir);
    if Findable(g, n, s, g.edge[e].dest, depth + 1) {
      var depth1 := depth + 1;
      var es :| OpenRun(g, n, s, g.edge[e].dest, depth1, es);
      var es' := [e] + es;
      assert es'[1..] == es;
      assert IsLegOf(g, cur, e);
      assert OpenRun(g, n, s, cur, depth, es');
    }
  }

  // ---- when the buffer holds a path ----

  /** The condition under which the buffer is a path: where both legs of a branch lead to the
      target, the straight leg ends at the target itself, or the curved one does (so that its
      search overwrites nothing). */
  ghost predicate Clean(g: Graph, n: nat, s: Search, cur: nat, depth: nat)
    requires Plannable(g, n) && cur < n && g.node[cur].ty != NoNode && depth <= s.max
    decreases s.max - depth
  {
    if cur == s.target || DeadEnd(g, s, cur, depth) then true
    else
      assert LegOk(g, n, cur, DIR_STRAIGHT);
      var d1 := g.edge[EdgeId(cur, DIR_STRAIGHT)].dest;
      if g.node[cur].ty != Branch then Clean(g, n, s, d1, depth + 1)
      else
        assert LegOk(g, n, cur, DIR_CURVED);
        var d2 := g.edge[EdgeId(cur, DIR_CURVED)].dest;
        if Len(g, n, s, d1, depth + 1) == -1 then Clean(g, n, s, d2, depth + 1)
        else if Len(g, n, s, d2, depth + 1) == -1 then Clean(g, n, s, d1, depth + 1)
        else d1 == s.target || (d2 == s.target && Clean(g, n, s, d1, depth + 1))
  }

  /** A failing search leaves the buffer alone; a succeeding one leaves an edge out of cur first. */
  lemma {:induction false} TraceWrites(g: Graph, n: nat, s: Search, cur: nat, depth: nat, buf: seq<nat>)
    requires Plannable(g, n) && cur < n && g.node[cur].ty != NoNode && depth <= s.max <= |buf|
    ensures var (len, buf') := Trace(g, n, s, cur, depth, buf);
            && (len == -1 || cur == s.target ==> buf' == buf)
            && (len > depth ==> IsLegOf(g, cur, buf'[depth]))
    decreases s.max - depth
  {
    if cur != s.target && !DeadEnd(g, s, cur, depth) {
      assert LegOk(g, n, cur, DIR_STRAIGHT) && LegOk(g, n, cur, DIR_CURVED);
      var d1 := g.edge[EdgeId(cur, DIR_STRAIGHT)].dest;
      TraceWrites(g, n, s, d1, depth + 1, buf);
      if g.node[cur].ty == Branch {
        TraceWrites(g, n, s, g.edge[EdgeId(cur, DIR_CURVED)].dest, depth + 1, Trace(g, n, s, d1, depth + 1, buf).1);
      }
    }
  }

  lemma RunOneMore(g: Graph, n: nat, cur: nat, target: nat, dir: nat, buf: seq<nat>, depth: nat, len: int)
    requires Plannable(g, n) && cur < n && HasLeg(g, cur, dir) && depth < len <= |buf|
    requires buf[depth] == EdgeId(cur, dir)
    ensures IsRun(g, n, cur, target, buf[depth..len])
       <==> IsRun(g, n, g.edge[EdgeId(cur, dir)].dest, target, buf[depth + 1..len])
  {
    var es := buf[depth..len];
    assert es[0] == EdgeId(cur, dir) && es[1..] == buf[depth + 1..len];
    assert LegOk(g, n, cur, dir) && IsLegOf(g, cur, es[0]);
  }

  /** Both legs of a branch lead to the target: the second search has overwritten the first. */
  lemma Overwritten(g: Graph, n: nat, s: Search, cur: nat, depth: nat, buf: seq<nat>)
    requires Plannable(g, n) && cur < n && g.node[cur].ty == Branch && depth < s.max <= |buf|
    requires LegOk(g, n, cur, DIR_STRAIGHT) && LegOk(g, n, cur, DIR_CURVED)
    requires var d1 := g.edge[EdgeId(cur, DIR_STRAIGHT)].dest; var d2 := g.edge[EdgeId(cur, DIR_CURVED)].dest;
             && Trace(g, n, s, d1, depth + 1, buf).0 != -1 && d1 != s.target && d2 != s.target
             && Trace(g, n, s, d2, depth + 1, Trace(g, n, s, d1, depth + 1, buf).1).0 != -1
    ensures var d1 := g.edge[EdgeId(cur, DIR_STRAIGHT)].dest; var d2 := g.edge[EdgeId(cur, DIR_CURVED)].dest;
            var r1 := Trace(g, n, s, d1, depth + 1, buf);
            !IsRun(g, n, d1, s.target, Trace(g, n, s, d2, depth + 1, r1.1).1[depth + 1..r1.0])
  {
    var d1 := g.edge[EdgeId(cur, DIR_STRAIGHT)].dest;
    var d2 := g.edge[EdgeId(cur, DIR_CURVED)].dest;
    var (len1, buf1) := Trace(g, n, s, d1, depth + 1, buf);
    var (len2, buf2) := Trace(g, n, s, d2, depth + 1, buf1);
    TraceWrites(g, n, s, d2, depth + 1, buf1);
    assert LegsDiffer(g, cur);
    assert IsLegOf(g, d2, buf2[depth + 1]);
    assert buf2[depth + 1..len1][0] == buf2[depth + 1];
  }

  /** The edges traverse returns are a connected path to the target exactly when the search was clean. */
  lemma {:induction false} TraversePath(g: Graph, n: nat, s: Search, cur: nat, depth: nat, buf: seq<nat>)
    requires Plannable(g, n) && cur < n && g.node[cur].ty != NoNode && depth <= s.max <= |buf|
    requires Trace(g, n, s, cur, depth, buf).0 != -1
    ensures var (len, buf') := Trace(g, n, s, cur, depth, buf);
            IsRun(g, n, cur, s.target, buf'[depth..len]) <==> Clean(g, n, s, cur, depth)
    decreases s.max - depth, 2
  {
    if cur != s.target {
      assert LegOk(g, n, cur, DIR_STRAIGHT) && LegOk(g, n, cur, DIR_CURVED);
      assert HasLeg(g, cur, DIR_STRAIGHT);
      var d1 := g.edge[EdgeId(cur, DIR_STRAIGHT)].dest;
      var (len1, buf1) := Trace(g, n, s, d1, depth + 1, buf);
      LenIsTrace(g, n, s, d1, depth + 1, buf, seq(s.max, _ => 0));
      var (len, buf') := Trace(g, n, s, cur, depth, buf);
      if g.node[cur].ty != Branch {
        TraversePath(g, n, s, d1, depth + 1, buf);
        RunOneMore(g, n, cur, s.target, DIR_AHEAD, buf', depth, len);
        assert buf'[depth + 1..len] == buf1[depth + 1..len];
      } else {
        BranchPath(g, n, s, cur, depth, buf);
      }
    }
  }

  lemma {:induction false} BranchPath(g: Graph, n: nat, s: Search, cur: nat, depth: nat, buf: seq<nat>)
    requires Plannable(g, n) && cur < n && g.node[cur].ty == Branch && depth < s.max <= |buf|
    requires cur != s.target && Trace(g, n, s, cur, depth, buf).0 != -1
    ensures var (len, buf') := Trace(g, n, s, cur, depth, buf);
            IsRun(g, n, cur, s.target, buf'[depth..len]) <==> Clean(g, n, s, cur, depth)
    decreases s.max - depth, 1
  {
    assert LegOk(g, n, cur, DIR_STRAIGHT) && LegOk(g, n, cur, DIR_CURVED);
    if Trace(g, n, s, g.edge[EdgeId(cur, DIR_STRAIGHT)].dest, depth + 1, buf).0 != -1 {
      StraightPath(g, n, s, cur, depth, buf);
    } else {
      CurvedPath(g, n, s, cur, depth, buf);
    }
  }

  lemma {:induction false} StraightPath(g: Graph, n: nat, s: Search, cur: nat, depth: nat, buf: seq<nat>)
    requires Plannable(g, n) && cur < n && g.node[cur].ty == Branch && depth < s.max <= |buf|
    requires LegOk(g, n, cur, DIR_STRAIGHT) && LegOk(g, n, cur, DIR_CURVED) && cur != s.target
    requires Trace(g, n, s, cur, depth, buf).0 != -1
    requires Trace(g, n, s, g.edge[EdgeId(cur, DIR_STRAIGHT)].dest, depth + 1, buf).0 != -1
    ensures var (len, buf') := Trace(g, n, s, cur, depth, buf);
            IsRun(g, n, cur, s.target, buf'[depth..len]) <==> Clean(g, n, s, cur, depth)
    decreases s.max - depth, 0
  {
    var d1, d2 := g.edge[EdgeId(cur, DIR_STRAIGHT)].dest, g.edge[EdgeId(cur, DIR_CURVED)].dest;
    var zeros := seq(s.max, _ => 0);
    var (len1, buf1) := Trace(g, n, s, d1, depth + 1, buf);
    var (len2, buf2) := Trace(g, n, s, d2, depth + 1, buf1);
    var (len, buf') := Trace(g, n, s, cur, depth, buf);
    LenIsTrace(g, n, s, d1, depth + 1, buf, zeros);
    LenIsTrace(g, n, s, d2, depth + 1, buf1, zeros);
    TraceWrites(g, n, s, d2, depth + 1, buf1);
    assert HasLeg(g, cur, DIR_STRAIGHT) && buf'[depth + 1..len] == buf2[depth + 1..len];
    RunOneMore(g, n, cur, s.target, DIR_STRAIGHT, buf', depth, len);
    if len2 == -1 || d2 == s.target {
      TraversePath(g, n, s, d1, depth + 1, buf);
    } else if d1 != s.target {
      Overwritten(g, n, s, cur, depth, buf);
    }
  }

  lemma {:induction false} CurvedPath(g: Graph, n: nat, s: Search, cur: nat, depth: nat, buf: seq<nat>)
    requires Plannable(g, n) && cur < n && g.node[cur].ty == Branch && depth < s.max <= |buf|
    requires LegOk(g, n, cur, DIR_STRAIGHT) && LegOk(g, n, cur, DIR_CURVED) && cur != s.target
    requires Trace(g, n, s, cur, depth, buf).0 != -1
    requires Trace(g, n, s, g.edge[EdgeId(cur, DIR_STRAIGHT)].dest, depth + 1, buf).0 == -1
    ensures var (len, buf') := Trace(g, n, s, cur, depth, buf);
            IsRun(g, n, cur, s.target, buf'[depth..len]) <==> Clean(g, n, s, cur, depth)
    decreases s.max - depth, 0
  {
    var d1, d2 := g.edge[EdgeId(cur, DIR_STRAIGHT)].dest, g.edge[EdgeId(cur, DIR_CURVED)].dest;
    var (len1, buf1) := Trace(g, n, s, d1, depth + 1, buf);
    var (len2, buf2) := Trace(g, n, s, d2, depth + 1, buf1);
    var (len, buf') := Trace(g, n, s, cur, depth, buf);
    LenIsTrace(g, n, s, d1, depth + 1, buf, seq(s.max, _ => 0));
    assert HasLeg(g, cur, DIR_CURVED) && buf'[depth + 1..len] == buf2[depth + 1..len];
    RunOneMore(g, n, cur, s.target, DIR_CURVED, buf', depth, len);
    TraversePath(g, n, s, d2, depth + 1, buf1);
  }

  /** Whatever path they make, the entries returned are real edges. */
  lemma {:induction false} TraceEdges(g: Graph, n: nat, s: Search, cur: nat, depth: nat, buf: seq<nat>)
    requires Plannable(g, n) && cur < n && g.node[cur].ty != NoNode && depth <= s.max <= |buf|
    ensures var (len, buf') := Trace(g, n, s, cur, depth, buf);
            && (forall i :: 0 <= i < |buf| ==> buf'[i] == buf[i] || IsEdge(g, n, buf'[i]))
            && (forall i :: depth <= i < len ==> IsEdge(g, n, buf'[i]))
    decreases s.max - depth
  {
    if cur != s.target && !DeadEnd(g, s, cur, depth) {
      assert LegOk(g, n, cur, DIR_STRAIGHT) && LegOk(g, n, cur, DIR_CURVED);
      var d1 := g.edge[EdgeId(cur, DIR_STRAIGHT)].dest;
      TraceEdges(g, n, s, d1, depth + 1, buf);
      assert HasLeg(g, cur, DIR_STRAIGHT) && IsEdge(g, n, EdgeId(cur, DIR_STRAIGHT));
      if g.node[cur].ty == Branch {
        TraceEdges(g, n, s, g.edge[EdgeId(cur, DIR_CURVED)].dest, depth + 1, Trace(g, n, s, d1, depth + 1, buf).1);
        assert HasLeg(g, cur, DIR_CURVED) && IsEdge(g, n, EdgeId(cur, DIR_CURVED));
      }
    }
  }

  // ---- locateNode ----

  datatype Position = Position(landmark1: Landmark, landmark2: Landmark, offset: int)

  ghost predicate AllEdges(g: Graph, n: nat, es: seq<nat>)
    requires Plannable(g, n)
  {
    forall i :: 0 <= i < |es| ==> IsEdge(g, n, es[i])
  }

  /** Length of the first k edges of es. */
  ghost function Along(g: Graph, es: seq<nat>, k: nat): int
    requires k <= |es| && forall i :: 0 <= i < |es| ==> es[i] < |g.edge|
  {
    if k == 0 then 0 else Along(g, es, k - 1) + g.edge[es[k - 1]].dist
  }

  function Clamp(x: int, lo: int, hi: int): int
  {
    if x < lo then lo else if x > hi then hi else x
  }

  /** Edge i of es and off are where the given offset, kept between the two ends, lies along es: an
      offset not above 0 at the very beginning, one beyond the end at the very end, and where two
      edges meet, on the later one. */
  ghost predicate PlaceOn(g: Graph, es: seq<nat>, offset: int, i: nat, off: int)
    requires forall j :: 0 <= j < |es| ==> es[j] < |g.edge|
  {
    && i < |es| && 0 <= off <= g.edge[es[i]].dist
    && Along(g, es, i) + off == Clamp(offset, 0, Along(g, es, |es|))
    && (if offset <= 0 then i == 0
        else off < g.edge[es[i]].dist || (i == |es| - 1 && offset >= Along(g, es, |es|)))
  }

  ghost predicate At(g: Graph, n: nat, es: seq<nat>, offset: int, e: nat, off: int)
    requires Plannable(g, n) && AllEdges(g, n, es)
  {
    exists i: nat :: PlaceOn(g, es, offset, i, off) && e == es[i]
  }

  /** There is only one such place. */
  lemma PlaceUnique(g: Graph, n: nat, es: seq<nat>, offset: int, i: nat, off: int, i': nat, off': int)
    requires Plannable(g, n) && AllEdges(g, n, es)
    requires PlaceOn(g, es, offset, i, off) && PlaceOn(g, es, offset, i', off')
    ensures i == i' && off == off'
  {
    PlaceNotBefore(g, n, es, offset, i, off, i', off');
    PlaceNotBefore(g, n, es, offset, i', off', i, off);
  }

  lemma PlaceNotBefore(g: Graph, n: nat, es: seq<nat>, offset: int, i: nat, off: int, i': nat, off': int)
    requires Plannable(g, n) && AllEdges(g, n, es)
    requires PlaceOn(g, es, offset, i, off) && PlaceOn(g, es, offset, i', off')
    ensures i' <= i
  {
    if i < i' && offset > 0 {
      AlongMonotone(g, n, es, i + 1, i');
    }
  }

  lemma AlongMonotone(g: Graph, n: nat, es: seq<nat>, i: nat, j: nat)
    requires Plannable(g, n) && AllEdges(g, n, es) && i <= j <= |es|
    ensures Along(g, es, i) <= Along(g, es, j)
  {
    if i < j {
      AlongMonotone(g, n, es, i, j - 1);
      var e := es[j - 1];
      assert IsEdge(g, n, e);
      assert LegOk(g, n, g.edge[e].src, e - 2 * g.edge[e].src);
    }
  }

  lemma FoundAt(g: Graph, n: nat, es: seq<nat>, offset: int, i: nat, off: int)
    requires Plannable(g, n) && AllEdges(g, n, es) && i < |es| && off >= 0
    requires (i == 0 && off == 0 && offset <= 0)
          || (offset > 0 && Along(g, es, i) + off == offset && off < g.edge[es[i]].dist)
          || (offset > 0 && i == |es| - 1 && off == g.edge[es[i]].dist && offset >= Along(g, es, |es|))
    ensures At(g, n, es, offset, es[i], off)
  {
    AlongMonotone(g, n, es, 0, i);
    AlongMonotone(g, n, es, i, i + 1);
    AlongMonotone(g, n, es, i + 1, |es|);
    assert Along(g, es, i + 1) == Along(g, es, i) + g.edge[es[i]].dist;
    assert PlaceOn(g, es, offset, i, off);
  }

  /** The scan of the edges found between the two landmarks. */
  method FindOffset(t: Track, edges: array<nat>, len: nat, offset: int, ghost n: nat) returns (e: nat, off: int)
    requires t.Valid() && Plannable(t.G(), n) && 0 < len <= edges.Length && AllEdges(t.G(), n, edges[..len])
    ensures At(t.G(), n, edges[..len], offset, e, off)
  {
    ghost var g, es := t.G(), edges[..len];
    var dist := offset;
    assert IsEdge(g, n, es[0]);
    if dist <= 0 {
      FoundAt(g, n, es, offset, 0, 0);
      return edges[0], 0;
    }
    for i := 0 to len
      invariant offset > 0 && dist >= 0 && dist == offset - Along(g, es, i)
    {
      assert IsEdge(g, n, es[i]);
      if dist < t.edges[edges[i]].dist {
        FoundAt(g, n, es, offset, i, dist);
        return edges[i], dist;
      }
      dist := dist - t.edges[edges[i]].dist;
    }
    assert IsEdge(g, n, es[len - 1]);
    AlongMonotone(g, n, es, len - 1, len);
    FoundAt(g, n, es, offset, len - 1, g.edge[es[len - 1]].dist);
    return edges[len - 1], t.edges[edges[len - 1]].dist;
  }

  /** The search locateNode makes between its two landmarks. */
  ghost function Between(target: nat): Search
  {
    Search(target, MAX_TRAVERSE, true)
  }

  /** The edges traverse leaves in the buffer of locateNode. */
  ghost function EdgesBetween(g: Graph, n: nat, a: nat, b: nat): (es: seq<nat>)
    requires Plannable(g, n) && a < n && g.node[a].ty != NoNode
  {
    var (len, buf) := Trace(g, n, Between(b), a, 0, seq(MAX_TRAVERSE, _ => 0));
    if len <= 0 then [] else buf[..len]
  }

  /** What locateNode has found for pos: the first nodes named by its landmarks, the edges es its
      search returned between them, and the place on those edges. */
  ghost predicate Located(g: Graph, n: nat, trackMax: nat, pos: Position, e: nat, off: int, a: nat, b: nat,
                          es: seq<nat>)
    requires Plannable(g, n) && trackMax <= n
  {
    && FirstNamed(g.node, trackMax, pos.landmark1, a) && FirstNamed(g.node, trackMax, pos.landmark2, b)
    && IsEdge(g, n, e) && 0 <= off <= g.edge[e].dist
    && es == EdgesBetween(g, n, a, b) && |es| == Len(g, n, Between(b), a, 0)
    && AllEdges(g, n, es) && At(g, n, es, pos.offset, e, off)
    && (IsRun(g, n, a, b, es) <==> Clean(g, n, Between(b), a, 0))
  }

  /** Two answers to one question are the same. */
  lemma LocatedUnique(g: Graph, n: nat, trackMax: nat, pos: Position, e: nat, off: int, a: nat, b: nat, es: seq<nat>,
                      e': nat, off': int, a': nat, b': nat, es': seq<nat>)
    requires Plannable(g, n) && trackMax <= n
    requires Located(g, n, trackMax, pos, e, off, a, b, es) && Located(g, n, trackMax, pos, e', off', a', b', es')
    ensures e == e' && off == off' && a == a' && b == b' && es == es'
  {
    FirstNamedUnique(g.node, trackMax, pos.landmark1, a, a');
    FirstNamedUnique(g.node, trackMax, pos.landmark2, b, b');
    var i: nat :| PlaceOn(g, es, pos.offset, i, off) && e == es[i];
    var i': nat :| PlaceOn(g, es, pos.offset, i', off') && e' == es[i'];
    PlaceUnique(g, n, es, pos.offset, i, off, i', off');
  }

  /** The place that fits pos is on edge e. */
  ghost predicate OnEdge(g: Graph, n: nat, trackMax: nat, pos: Position, e: nat)
    requires Plannable(g, n) && trackMax <= n
  {
    exists off: int, a: nat, b: nat, es: seq<nat> :: Located(g, n, trackMax, pos, e, off, a, b, es)
  }

  lemma OnOneEdge(g: Graph, n: nat, trackMax: nat, pos: Position, e: nat, off: int, a: nat, b: nat, es: seq<nat>,
                  e': nat)
    requires Plannable(g, n) && trackMax <= n && Located(g, n, trackMax, pos, e, off, a, b, es)
    requires OnEdge(g, n, trackMax, pos, e')
    ensures e' == e
  {
    var off', a', b', es' :| Located(g, n, trackMax, pos, e', off', a', b', es');
    LocatedUnique(g, n, trackMax, pos, e, off, a, b, es, e', off', a', b', es');
  }

  /** locateNode can be asked: it follows a NULL pointer if only its second landmark names a node. */
  ghost predicate Askable(nodes: seq<Node>, trackMax: nat, pos: Position)
  {
    FirstNamed(nodes, trackMax, pos.landmark1, NULL) ==> FirstNamed(nodes, trackMax, pos.landmark2, NULL)
  }

  /** No place on the track fits pos. */
  ghost predicate Unlocatable(g: Graph, n: nat, trackMax: nat, pos: Position)
    requires Plannable(g, n) && trackMax <= n
  {
    forall e: nat, off: int, a: nat, b: nat, es: seq<nat> :: !Located(g, n, trackMax, pos, e, off, a, b, es)
  }

  lemma NoPlace(g: Graph, n: nat, trackMax: nat, pos: Position, a: int, b: int)
    requires Plannable(g, n) && trackMax <= n
    requires FirstNamed(g.node, trackMax, pos.landmark1, a) && FirstNamed(g.node, trackMax, pos.landmark2, b)
    requires a == NULL || b == NULL || Len(g, n, Between(b), a, 0) <= 0
    ensures Unlocatable(g, n, trackMax, pos)
  {
    forall e: nat, off: int, a': nat, b': nat, es: seq<nat>
      ensures !Located(g, n, trackMax, pos, e, off, a', b', es)
    {
      if FirstNamed(g.node, trackMax, pos.landmark1, a') && FirstNamed(g.node, trackMax, pos.landmark2, b') {
        FirstNamedUnique(g.node, trackMax, pos.landmark1, a, a');
        FirstNamedUnique(g.node, trackMax, pos.landmark2, b, b');
      }
    }
  }

  /** What the search leaves in a buffer, when it succeeds, does not depend on what the buffer held. */
  lemma AnyBufferHolds(g: Graph, n: nat, a: nat, b: nat, buf: seq<nat>, len: int, out: seq<nat>)
    requires Plannable(g, n) && a < n && g.node[a].ty != NoNode && |buf| == MAX_TRAVERSE && len > 0
    requires (len, out) == Trace(g, n, Between(b), a, 0, buf)
    ensures len <= |out| && out[..len] == EdgesBetween(g, n, a, b)
  {
    var zeros := seq(MAX_TRAVERSE, _ => 0);
    TraceFromAnyBuffer(g, n, Between(b), a, 0, buf, zeros);
    var (len', out') := Trace(g, n, Between(b), a, 0, zeros);
    assert len' == len && out'[..len] == out[..len];
  }

  /** locateNode; NULL stands for the code's -1. */
  method LocateNode(t: Track, trackMax: nat, pos: Position, ghost n: nat)
    returns (e: int, off: int, ghost a: int, ghost b: int, ghost es: seq<nat>)
    requires t.Valid() && Plannable(t.G(), n) && trackMax <= n && Askable(t.nodes[..], trackMax, pos)
    ensures FirstNamed(t.nodes[..], trackMax, pos.landmark1, a) && FirstNamed(t.nodes[..], trackMax, pos.landmark2, b)
    ensures e == NULL ==> Unlocatable(t.G(), n, trackMax, pos)
    ensures e != NULL ==> 0 <= e && 0 <= a && 0 <= b && Located(t.G(), n, trackMax, pos, e, off, a, b, es)
  {
    ghost var g := t.G();
    var start := FindNode(t, trackMax, pos.landmark1);
    var target := FindNode(t, trackMax, pos.landmark2);
    a, b := start, target;
    e, off, es := NULL, 0, [];
    assert start != NULL ==> Named(t.nodes[..], start, pos.landmark1);
    if target != NULL {
      assert Named(t.nodes[..], target, pos.landmark2) && start != NULL;
      var edges := new nat[MAX_TRAVERSE](_ => 0);
      ghost var buf := edges[..];
      var len := Traverse(t, start, target, 0, MAX_TRAVERSE, edges, true, n);
      LenIsTrace(g, n, Between(b), a, 0, buf, seq(MAX_TRAVERSE, _ => 0));
      if len > 0 {
        AnyBufferHolds(g, n, a, b, buf, len, edges[..]);
        TraceEdges(g, n, Between(b), a, 0, buf);
        TraversePath(g, n, Between(b), a, 0, buf);
        es := edges[..len];
        assert edges[0..len] == es && edges[..][..len] == es;
        e, off := FindOffset(t, edges, len, pos.offset, n);
        return;
      }
    }
    NoPlace(g, n, trackMax, pos, a, b);
  }
}
