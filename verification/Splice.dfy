/** fakeNode: putting a position on an edge into the graph as a pair of temporary nodes. */
module Splicing {
  import opened TrackGraph
  import opened TrackState

  /** edgeType: the direction of an edge record at its source. */
  function EdgeDir(g: Graph, e: nat): nat
    requires e < |g.edge| && g.edge[e].src < |g.node|
  {
    if g.node[g.edge[e].src].ty != Branch then DIR_AHEAD
    else if e == EdgeId(g.edge[e].src, DIR_STRAIGHT) then DIR_STRAIGHT
    else DIR_CURVED
  }

  /** e is one of the real edge records of the first n nodes, and its two directions match. */
  ghost predicate Spliceable(g: Graph, n: nat, e: nat)
  {
    && Plannable(g, n) && e < |g.edge| && g.edge[e].src < n
    && IsLegOf(g, g.edge[e].src, e)
    && Reversible(g, n, e)
  }

  /** Where the records written by a splice are. */
  lemma LegIsEdge(g: Graph, n: nat, e: nat)
    requires Spliceable(g, n, e)
    ensures var d := g.edge[e]; var r := g.edge[d.reverse];
            && LegOk(g, n, d.src, EdgeDir(g, e)) && HasLeg(g, d.src, EdgeDir(g, e)) && e == EdgeId(d.src, EdgeDir(g, e))
            && LegOk(g, n, r.src, EdgeDir(g, d.reverse)) && HasLeg(g, r.src, EdgeDir(g, d.reverse))
            && d.reverse == EdgeId(r.src, EdgeDir(g, d.reverse))
            && e < 2 * n && d.reverse < 2 * n && e != d.reverse && d.dest < n && r.dest < n
            && g.node[d.src].reverse < n && g.node[d.dest].reverse == r.src
  {
    var d := g.edge[e];
    var r := g.edge[d.reverse];
    assert LegOk(g, n, d.src, e - 2 * d.src) && LegOk(g, n, r.src, d.reverse - 2 * r.src);
    assert NodeOk(g, n, d.dest) && NodeOk(g, n, d.src);
  }

  /** The records written by a splice are those of e and of its other direction. */
  lemma SpliceIds(g: Graph, n: nat, e: nat)
    requires Spliceable(g, n, e)
    ensures var d := g.edge[e];
            && e < 2 * n && d.reverse < 2 * n && e != d.reverse && 2 * n <= |g.edge|
            && d.src < n && d.dest < n && g.node[d.dest].reverse < n && g.edge[d.reverse].src < n
            && EdgeId(d.src, EdgeDir(g, e)) == e
            && EdgeId(g.node[d.dest].reverse, EdgeDir(g, d.reverse)) == d.reverse
  {
    LegIsEdge(g, n, e);
  }

  /** The graph after splicing nodes f and f + 1 into edge e, off along it. */
  ghost function Splice(g: Graph, e: nat, f: nat, off: int): Graph
    requires Spliceable(g, f, e) && f + 1 < |g.node|
  {
    SpliceIds(g, f, e);
    var d := g.edge[e];
    var r := g.edge[d.reverse];
    var back := EdgeId(g.node[d.dest].reverse, EdgeDir(g, d.reverse));
    var fwd := EdgeId(d.src, EdgeDir(g, e));
    Graph(
      g.node[f := Node(Fake, g.node[f].num, f + 1)][f + 1 := Node(Fake, g.node[f + 1].num, f)],
      var edge1 := g.edge[EdgeId(f, DIR_AHEAD) := Edge(f, d.dest, back, d.dist - off)];
      var edge2 := edge1[EdgeId(f + 1, DIR_AHEAD) :=
                           Edge(f + 1, r.dest, EdgeId(g.node[d.src].reverse, EdgeDir(g, e)), off)];
      var edge3 := edge2[back := edge2[back].(reverse := EdgeId(f, DIR_AHEAD), dest := f + 1, dist := d.dist - off)];
      edge3[fwd := edge3[fwd].(reverse := EdgeId(f + 1, DIR_AHEAD), dest := f, dist := off)])
  }

  /** Owners of the new edges are those of the edge they lie on. */
  ghost function SpliceOwner(g: Graph, owner: seq<int>, e: nat, f: nat): seq<int>
    requires Spliceable(g, f, e) && f + 1 < |g.node| && |owner| == |g.edge|
  {
    SpliceIds(g, f, e);
    owner[EdgeId(f, DIR_AHEAD) := owner[e]][EdgeId(f + 1, DIR_AHEAD) := owner[g.edge[e].reverse]]
  }

  /** Record by record, what distinguishes g' from g after a splice into e. */
  ghost predicate Changes(g: Graph, g': Graph, n: nat, e: nat, off: int)
  {
    && Shape(g) && |g'.node| == |g.node| && |g'.edge| == |g.edge| && n + 1 < |g.node| && e < 2 * n
    && var d := g.edge[e]; var back := d.reverse;
    && e != back && back < 2 * n && d.dest < n && g.edge[back].dest < n
    && (forall x :: 0 <= x < |g.node| && x != n && x != n + 1 ==> g'.node[x] == g.node[x])
    && g'.node[n].ty == Fake && g'.node[n].reverse == n + 1
    && g'.node[n + 1].ty == Fake && g'.node[n + 1].reverse == n
    && (forall i :: 0 <= i < |g.edge| && i != e && i != back && i != 2 * n && i != 2 * n + 2 ==>
          g'.edge[i] == g.edge[i])
    && g'.edge[e] == Edge(d.src, n, 2 * n + 2, off)
    && g'.edge[back] == Edge(g.edge[back].src, n + 1, 2 * n, d.dist - off)
    && g'.edge[2 * n] == Edge(n, d.dest, back, d.dist - off)
    && g'.edge[2 * n + 2].src == n + 1 && g'.edge[2 * n + 2].dest == g.edge[back].dest
    && g'.edge[2 * n + 2].dist == off
  }

  lemma SpliceShape(g: Graph, n: nat, e: nat, off: int)
    requires Spliceable(g, n, e) && n + 1 < |g.node|
    ensures Changes(g, Splice(g, e, n, off), n, e, off)
  {
    LegIsEdge(g, n, e);
  }

  lemma SpliceLegOk(g: Graph, n: nat, e: nat, off: int, x: nat, dir: nat)
    requires Spliceable(g, n, e) && n + 1 < |g.node| && 0 <= off <= g.edge[e].dist && x < n + 2
    ensures NodeOk(Splice(g, e, n, off), n + 2, x)
    ensures LegOk(Splice(g, e, n, off), n + 2, x, dir)
  {
    SpliceShape(g, n, e, off);
    LegIsEdge(g, n, e);
    assert NodeOk(g, n, g.edge[e].src) && NodeOk(g, n, g.edge[e].dest);
    if x < n {
      assert LegOk(g, n, x, dir) && NodeOk(g, n, x);
    }
  }

  lemma SpliceLegsDiffer(g: Graph, n: nat, e: nat, off: int, x: nat)
    requires Spliceable(g, n, e) && n + 1 < |g.node| && 0 <= off <= g.edge[e].dist && x < n + 2
    ensures LegsDiffer(Splice(g, e, n, off), x)
  {
    SpliceShape(g, n, e, off);
    LegIsEdge(g, n, e);
    if x < n {
      assert LegsDiffer(g, x) && LegOk(g, n, x, DIR_STRAIGHT) && LegOk(g, n, x, DIR_CURVED);
    }
  }

  /** Splicing keeps everything planning relies on, now for two more nodes. */
  lemma SplicePlannable(g: Graph, n: nat, e: nat, off: int)
    requires Spliceable(g, n, e) && n + 1 < |g.node| && 0 <= off <= g.edge[e].dist
    ensures Plannable(Splice(g, e, n, off), n + 2)
  {
    var g', n2 := Splice(g, e, n, off), n + 2;
    SpliceShape(g, n, e, off);
    forall x | 0 <= x < n2
      ensures NodeOk(g', n2, x) && LegsDiffer(g', x)
    {
      SpliceLegOk(g, n, e, off, x, DIR_AHEAD);
      SpliceLegsDiffer(g, n, e, off, x);
    }
    forall x, dir | 0 <= x < n2
      ensures LegOk(g', n2, x, dir)
    {
      SpliceLegOk(g, n, e, off, x, dir);
    }
  }

  /** An edge of a complete track away from the splice keeps both its directions. */
  lemma FarEdgeReversible(g: Graph, n: nat, e: nat, off: int, x: nat, dir: nat)
    requires WellFormed(g, n) && Spliceable(g, n, e) && n + 1 < |g.node| && 0 <= off <= g.edge[e].dist
    requires x < n && HasLeg(g, x, dir) && EdgeId(x, dir) != e && EdgeId(x, dir) != g.edge[e].reverse
    requires Plannable(Splice(g, e, n, off), n + 2)
    ensures Reversible(Splice(g, e, n, off), n + 2, EdgeId(x, dir))
  {
    var g' := Splice(g, e, n, off);
    SpliceShape(g, n, e, off);
    LegIsEdge(g, n, e);
    var i := EdgeId(x, dir);
    assert LegOk(g, n, x, dir) && NodeOk(g, n, x) && NodeOk(g, n, g.edge[i].dest);
    assert Paired(g, n, x, dir) && Paired(g, n, g.edge[e].src, EdgeDir(g, e));
    var j := g.edge[i].reverse;
    assert j != e && j != g.edge[e].reverse;
    assert LegOk(g, n, g.edge[j].src, j - 2 * g.edge[j].src);
  }

  /** The four edge records of the splice: three of them have both their directions. */
  lemma NearEdgesReversible(g: Graph, n: nat, e: nat, off: int)
    requires Spliceable(g, n, e) && n + 1 < |g.node| && 0 <= off <= g.edge[e].dist
    requires Plannable(Splice(g, e, n, off), n + 2)
    ensures var g' := Splice(g, e, n, off);
            Reversible(g', n + 2, e) && Reversible(g', n + 2, g.edge[e].reverse) && Reversible(g', n + 2, 2 * n)
  {
    var g' := Splice(g, e, n, off);
    SpliceShape(g, n, e, off);
    LegIsEdge(g, n, e);
    var d := g.edge[e];
    var r := g.edge[d.reverse];
    assert NodeOk(g, n, d.src) && NodeOk(g, n, d.dest);
    assert HasLeg(g', n + 1, DIR_AHEAD) && 2 * n + 2 == EdgeId(n + 1, DIR_AHEAD);
    assert HasLeg(g', n, DIR_AHEAD) && 2 * n == EdgeId(n, DIR_AHEAD);
    assert HasLeg(g', r.src, EdgeDir(g, d.reverse)) && d.reverse == EdgeId(r.src, EdgeDir(g, d.reverse));
  }

  /** The record of the second temporary node names the wrong edge as its other direction, always. */
  lemma FarHalfNotReversible(g: Graph, n: nat, e: nat, off: int)
    requires Spliceable(g, n, e) && n + 1 < |g.node| && Plannable(Splice(g, e, n, off), n + 2)
    ensures !Reversible(Splice(g, e, n, off), n + 2, EdgeId(n + 1, DIR_AHEAD))
  {
    var g' := Splice(g, e, n, off);
    SpliceShape(g, n, e, off);
    LegIsEdge(g, n, e);
    var d := g.edge[e];
    assert NodeOk(g, n, d.src) && NodeOk(g, n, d.dest);
    var wrong := g'.edge[EdgeId(n + 1, DIR_AHEAD)].reverse;
    assert wrong == EdgeId(g.node[d.src].reverse, EdgeDir(g, e));
    assert LegOk(g', n + 2, g.node[d.src].reverse, EdgeDir(g, e));
  }

  /** After one splice into a complete track, every edge but that of the second temporary node
      can be spliced again. */
  lemma SpliceAgain(g: Graph, n: nat, e: nat, off: int, x: nat, dir: nat)
    requires WellFormed(g, n) && Spliceable(g, n, e) && n + 1 < |g.node| && 0 <= off <= g.edge[e].dist
    requires x < n + 2 && x != n + 1 && HasLeg(Splice(g, e, n, off), x, dir)
    ensures Spliceable(Splice(g, e, n, off), n + 2, EdgeId(x, dir))
  {
    SpliceShape(g, n, e, off);
    SplicePlannable(g, n, e, off);
    NearEdgesReversible(g, n, e, off);
    var i := EdgeId(x, dir);
    assert LegOk(Splice(g, e, n, off), n + 2, x, dir);
    if x < n && i != e && i != g.edge[e].reverse {
      FarEdgeReversible(g, n, e, off, x, dir);
    }
  }
}
