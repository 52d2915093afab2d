/** A track on which traverse returns edges that are no path: two legs of a branch meet again, no sensor between. */
module LocateExample {
  import opened TrackGraph
  import opened Locating

  // From entry 0 to branch 2; its curved leg leads to merge 6, its straight leg to merge 4 and from there
  // to merge 6; beyond it exit 8. Merge 4 can also be entered from 11. The odd nodes are the other sides.

  function LoopNode(x: int): Node
  {
    if x == 0 then Node(Enter, 1, 1) else if x == 1 then Node(Exit, 1, 0)
    else if x == 2 then Node(Branch, 1, 3) else if x == 3 then Node(Merge, 1, 2)
    else if x == 4 then Node(Merge, 2, 5) else if x == 5 then Node(Branch, 2, 4)
    else if x == 6 then Node(Merge, 3, 7) else if x == 7 then Node(Branch, 3, 6)
    else if x == 8 then Node(Exit, 2, 9) else if x == 9 then Node(Enter, 2, 8)
    else if x == 10 then Node(Exit, 3, 11) else Node(Enter, 3, 10)
  }

  function LoopEdge(e: int): Edge
  {
    if e == 0 then Edge(0, 2, 6, 10) else if e == 6 then Edge(3, 1, 0, 10)
    else if e == 4 then Edge(2, 4, 10, 20) else if e == 10 then Edge(5, 3, 4, 20)
    else if e == 5 then Edge(2, 6, 15, 70) else if e == 15 then Edge(7, 3, 5, 70)
    else if e == 8 then Edge(4, 6, 14, 30) else if e == 14 then Edge(7, 5, 8, 30)
    else if e == 12 then Edge(6, 8, 18, 40) else if e == 18 then Edge(9, 7, 12, 40)
    else if e == 11 then Edge(5, 10, 22, 50) else if e == 22 then Edge(11, 4, 11, 50)
    else Edge(0, 0, 0, 0)
  }

  ghost predicate IsLoop(g: Graph)
  {
    && |g.node| == 12 && |g.edge| == 24
    && (forall x :: 0 <= x < 12 ==> g.node[x] == LoopNode(x))
    && (forall e :: 0 <= e < 24 ==> g.edge[e] == LoopEdge(e))
  }

  lemma LoopExists() returns (g: Graph)
    ensures IsLoop(g)
  {
    g := Graph(seq(12, x => LoopNode(x)), seq(24, e => LoopEdge(e)));
  }

  lemma LoopNodeOk(g: Graph, x: nat)
    requires IsLoop(g) && x < 12
    ensures NodeOk(g, 12, x) && LegsDiffer(g, x)
  {
  }

  lemma LoopLegOk(g: Graph, x: nat, dir: nat)
    requires IsLoop(g) && x < 12
    ensures LegOk(g, 12, x, dir)
  {
  }

  lemma LoopPlannable(g: Graph)
    requires IsLoop(g)
    ensures Plannable(g, 12)
  {
    forall x | 0 <= x < 12
      ensures NodeOk(g, 12, x) && LegsDiffer(g, x)
    {
      LoopNodeOk(g, x);
    }
    forall x, dir | 0 <= x < 12
      ensures LegOk(g, 12, x, dir)
    {
      LoopLegOk(g, x, dir);
    }
  }

  predicate IsLoopEdge(e: int)
  {
    e == 0 || e == 6 || e == 4 || e == 10 || e == 5 || e == 15 || e == 8 || e == 14 || e == 12 || e == 18 || e == 11
      || e == 22
  }

  lemma LoopEdgePair(g: Graph, e: nat)
    requires IsLoop(g) && IsLoopEdge(e)
    ensures var d := g.edge[e];
            && IsLoopEdge(d.reverse) && d.src < 12 && d.dest < 12
            && var r := g.edge[d.reverse];
            && r.src < 12 && r.reverse == e && r.dist == d.dist
            && r.src == LoopNode(d.dest).reverse && r.dest == LoopNode(d.src).reverse
            && 2 * r.src <= d.reverse <= 2 * r.src + 1 && HasDir(LoopNode(r.src).ty, d.reverse - 2 * r.src)
            && LoopNode(d.src).ty != NoNode && LoopNode(d.dest).ty != NoNode
  {
  }

  lemma LoopHasLeg(g: Graph, x: nat, dir: nat)
    requires IsLoop(g) && x < 12
    ensures HasLeg(g, x, dir) <==> dir < 2 && IsLoopEdge(EdgeId(x, dir))
  {
  }

  lemma LoopWellFormed(g: Graph)
    requires IsLoop(g)
    ensures WellFormed(g, 12)
  {
    LoopPlannable(g);
    forall x, dir | 0 <= x < 12
      ensures Paired(g, 12, x, dir)
    {
      if HasLeg(g, x, dir) {
        LoopHasLeg(g, x, dir);
        LoopEdgePair(g, EdgeId(x, dir));
      }
    }
    forall x | 0 <= x < 12
      ensures SidesMatch(g, 12, x)
    {
      LoopNodeOk(g, x);
    }
  }

  // ---- the search, node by node ----

  /** One step along a node with a single leg. */
  lemma StepAlong(g: Graph, s: Search, x: nat, depth: nat, buf: seq<nat>, y: nat)
    requires Plannable(g, 12) && x < 12 && HasLeg(g, x, DIR_AHEAD) && g.node[x].ty != Branch && g.node[x].ty != Sensor
    requires x != s.target && depth < s.max <= |buf| && y == g.edge[EdgeId(x, DIR_AHEAD)].dest
    ensures y < 12 && g.node[y].ty != NoNode
    ensures var r := Trace(g, 12, s, y, depth + 1, buf);
            Trace(g, 12, s, x, depth, buf) == if r.0 != -1 then (r.0, r.1[depth := EdgeId(x, DIR_AHEAD)]) else (-1, r.1)
  {
    assert LegOk(g, 12, x, DIR_AHEAD);
  }

  /** From merge 6 on: one edge. */
  lemma FromSix(g: Graph, s: Search, depth: nat, buf: seq<nat>)
    requires IsLoop(g) && Plannable(g, 12) && s.target == 8 && depth < s.max <= |buf|
    ensures Trace(g, 12, s, 6, depth, buf) == (depth + 1, buf[depth := 12])
  {
    StepAlong(g, s, 6, depth, buf, 8);
  }

  /** From merge 4 on: two edges. */
  lemma FromFour(g: Graph, s: Search, depth: nat, buf: seq<nat>)
    requires IsLoop(g) && Plannable(g, 12) && s.target == 8 && depth + 1 < s.max <= |buf|
    ensures Trace(g, 12, s, 4, depth, buf) == (depth + 2, buf[depth + 1 := 12][depth := 8])
  {
    StepAlong(g, s, 4, depth, buf, 6);
    FromSix(g, s, depth + 1, buf);
  }

  /** At branch 2 the second search overwrites what the first has found. */
  lemma FromTwo(g: Graph, s: Search, depth: nat, buf: seq<nat>)
    requires IsLoop(g) && Plannable(g, 12) && s.target == 8 && depth + 2 < s.max <= |buf|
    ensures Trace(g, 12, s, 2, depth, buf) == (depth + 3, buf[depth + 2 := 12][depth + 1 := 12][depth := 4])
  {
    assert LegOk(g, 12, 2, DIR_STRAIGHT) && LegOk(g, 12, 2, DIR_CURVED);
    FromFour(g, s, depth + 1, buf);
    var buf1 := buf[depth + 2 := 12][depth + 1 := 8];
    FromSix(g, s, depth + 1, buf1);
    assert buf1[depth + 1 := 12] == buf[depth + 2 := 12][depth + 1 := 12];
  }

  /** Asked for the edges between entry 0 and exit 8, the code takes the way over merge 4 for its length,
      and edges of both ways: the second leads to merge 4, the third starts at merge 6. */
  lemma LegsMixed(g: Graph)
    requires IsLoop(g)
    ensures WellFormed(g, 12) && EdgesBetween(g, 12, 0, 8) == [0, 4, 12, 12]
    ensures !IsRun(g, 12, 0, 8, EdgesBetween(g, 12, 0, 8)) && !Clean(g, 12, Between(8), 0, 0)
  {
    LoopWellFormed(g);
    var s, depth, buf := Between(8), 0, seq(MAX_TRAVERSE, _ => 0);
    StepAlong(g, s, 0, depth, buf, 2);
    FromTwo(g, s, depth + 1, buf);
    var out := buf[3 := 12][2 := 12][1 := 4][0 := 0];
    assert Trace(g, 12, s, 0, depth, buf) == (4, out);
    NotARun(g, s, depth, buf, out);
    assert out[depth..4] == [0, 4, 12, 12];
  }

  lemma NotARun(g: Graph, s: Search, depth: nat, buf: seq<nat>, out: seq<nat>)
    requires IsLoop(g) && Plannable(g, 12) && depth + 4 <= s.max <= |buf| && s.target == 8
    requires Trace(g, 12, s, 0, depth, buf) == (depth + 4, out) && out[depth..depth + 4] == [0, 4, 12, 12]
    ensures !IsRun(g, 12, 0, 8, [0, 4, 12, 12]) && !Clean(g, 12, s, 0, depth)
  {
    TraversePath(g, 12, s, 0, depth, buf);
    assert [0, 4, 12, 12][1..] == [4, 12, 12] && [4, 12, 12][1..] == [12, 12];
    assert !IsLegOf(g, 4, 12);
  }
}
