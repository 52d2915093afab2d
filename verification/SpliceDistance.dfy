/** Splicing a position into an edge changes no distance between the nodes that were there before. */
module SpliceDistances {
  import opened TrackGraph
  import opened Splicing

  /** w is a list of directions that can be taken one after the other from node u, using only
      edges for which open holds. */
  ghost predicate IsPath(g: Graph, n: nat, open: seq<bool>, u: nat, w: seq<nat>)
    requires Plannable(g, n) && |open| == |g.edge| && u < n
    decreases |w|, 0
  {
    |w| == 0 ||
    var w' := w[..|w| - 1];
    IsPath(g, n, open, u, w') && OpenLeg(g, n, open, PathEnd(g, n, open, u, w'), w[|w| - 1])
  }

  ghost predicate OpenLeg(g: Graph, n: nat, open: seq<bool>, x: nat, dir: nat)
    requires Plannable(g, n) && |open| == |g.edge| && x < n
  {
    HasLeg(g, x, dir) && open[EdgeId(x, dir)]
  }

  ghost function PathEnd(g: Graph, n: nat, open: seq<bool>, u: nat, w: seq<nat>): (v: nat)
    requires Plannable(g, n) && |open| == |g.edge| && u < n && IsPath(g, n, open, u, w)
    ensures v < n
    decreases |w|, 1
  {
    if |w| == 0 then u
    else
      var x := PathEnd(g, n, open, u, w[..|w| - 1]);
      assert LegOk(g, n, x, w[|w| - 1]);
      g.edge[EdgeId(x, w[|w| - 1])].dest
  }

  ghost function PathLength(g: Graph, n: nat, open: seq<bool>, u: nat, w: seq<nat>): int
    requires Plannable(g, n) && |open| == |g.edge| && u < n && IsPath(g, n, open, u, w)
    decreases |w|
  {
    if |w| == 0 then 0
    else
      PathLength(g, n, open, u, w[..|w| - 1])
      + g.edge[EdgeId(PathEnd(g, n, open, u, w[..|w| - 1]), w[|w| - 1])].dist
  }

  /** v can be reached from u over open edges in exactly length millimetres. */
  ghost predicate Connected(g: Graph, n: nat, open: seq<bool>, u: nat, v: nat, length: int, w: seq<nat>)
    requires Plannable(g, n) && |open| == |g.edge| && u < n
  {
    IsPath(g, n, open, u, w) && PathEnd(g, n, open, u, w) == v && PathLength(g, n, open, u, w) == length
  }

  lemma ExtendPath(g: Graph, n: nat, open: seq<bool>, u: nat, v: nat, length: int, w: seq<nat>, dir: nat)
    requires Plannable(g, n) && |open| == |g.edge| && u < n && Connected(g, n, open, u, v, length, w)
    requires v < n && OpenLeg(g, n, open, v, dir)
    ensures var e := g.edge[EdgeId(v, dir)]; Connected(g, n, open, u, e.dest, length + e.dist, w + [dir])
  {
    assert (w + [dir])[..|w + [dir]| - 1] == w;
  }

  lemma PeelPath(g: Graph, n: nat, open: seq<bool>, u: nat, v: nat, length: int, w: seq<nat>) returns (x: nat, dir: nat)
    requires Plannable(g, n) && |open| == |g.edge| && u < n && Connected(g, n, open, u, v, length, w) && |w| > 0
    ensures dir == w[|w| - 1] && x < n && OpenLeg(g, n, open, x, dir)
    ensures var e := g.edge[EdgeId(x, dir)];
            e.dest == v && Connected(g, n, open, u, x, length - e.dist, w[..|w| - 1])
  {
    dir := w[|w| - 1];
    x := PathEnd(g, n, open, u, w[..|w| - 1]);
  }

  /** A splice of e, and what may be driven before and after it: the two new edges are open when
      the directions of e they lie on are. */
  ghost predicate Spliced(g: Graph, g': Graph, n: nat, e: nat, off: int, open: seq<bool>, open': seq<bool>)
  {
    && Plannable(g, n) && Plannable(g', n + 2) && Changes(g, g', n, e, off)
    && g.edge[g.edge[e].reverse].dist == g.edge[e].dist
    && |open| == |open'| == |g.edge|
    && (forall i :: 0 <= i < 2 * n ==> open'[i] == open[i])
    && (open[e] ==> open'[2 * n]) && (open[g.edge[e].reverse] ==> open'[2 * n + 2])
  }

  /** One old edge becomes one or two new ones. */
  lemma ExpandStep(g: Graph, g': Graph, n: nat, n': nat, e: nat, off: int, open: seq<bool>, open': seq<bool>,
                   u: nat, x: nat, dir: nat, length: int, w: seq<nat>)
    returns (w': seq<nat>)
    requires Spliced(g, g', n, e, off, open, open') && n' == n + 2 && u < n && x < n && OpenLeg(g, n, open, x, dir)
    requires Connected(g', n', open', u, x, length, w)
    ensures var i := EdgeId(x, dir); Connected(g', n', open', u, g.edge[i].dest, length + g.edge[i].dist, w')
  {
    var i := EdgeId(x, dir);
    assert LegOk(g, n, x, dir);
    ExtendPath(g', n', open', u, x, length, w, dir);
    w' := w + [dir];
    if i == e {
      ExtendPath(g', n', open', u, n, length + off, w', DIR_AHEAD);
      w' := w' + [DIR_AHEAD];
    } else if i == g.edge[e].reverse {
      ExtendPath(g', n', open', u, n + 1, length + g.edge[e].dist - off, w', DIR_AHEAD);
      w' := w' + [DIR_AHEAD];
    }
  }

  /** Every path in the old graph has a path of the same length in the new one. */
  lemma {:induction false} Expand(g: Graph, g': Graph, n: nat, n': nat, e: nat, off: int,
                                  open: seq<bool>, open': seq<bool>, u: nat, v: nat, length: int, w: seq<nat>)
    returns (w': seq<nat>)
    requires Spliced(g, g', n, e, off, open, open') && n' == n + 2 && u < n && Connected(g, n, open, u, v, length, w)
    ensures Connected(g', n', open', u, v, length, w')
    decreases |w|
  {
    if |w| == 0 {
      w' := [];
    } else {
      var x, dir := PeelPath(g, n, open, u, v, length, w);
      var d := g.edge[EdgeId(x, dir)].dist;
      w' := Expand(g, g', n, n', e, off, open, open', u, x, length - d, w[..|w| - 1]);
      w' := ExpandStep(g, g', n, n', e, off, open, open', u, x, dir, length - d, w');
    }
  }

  /** A temporary node can only have been entered through the edge spliced, from an old node. */
  lemma EnteredThrough(g: Graph, g': Graph, n: nat, n': nat, e: nat, off: int, open: seq<bool>, open': seq<bool>,
                       y: nat, dir: nat)
    requires Spliced(g, g', n, e, off, open, open') && n' == n + 2 && y < n' && OpenLeg(g', n', open', y, dir)
    requires n <= g'.edge[EdgeId(y, dir)].dest
    ensures y < n && OpenLeg(g, n, open, y, dir)
    ensures EdgeId(y, dir) == if g'.edge[EdgeId(y, dir)].dest == n then e else g.edge[e].reverse
  {
    assert y < n ==> LegOk(g, n, y, dir);
  }

  /** A leg between old nodes is one of the old legs. */
  lemma CollapseOldLeg(g: Graph, g': Graph, n: nat, n': nat, e: nat, off: int, open: seq<bool>, open': seq<bool>,
                       u: nat, v: nat, x: nat, dir: nat, length: int, w: seq<nat>)
    returns (w1: seq<nat>)
    requires Spliced(g, g', n, e, off, open, open') && n' == n + 2 && u < n && v < n && x < n
    requires OpenLeg(g', n', open', x, dir)
    requires g'.edge[EdgeId(x, dir)].dest == v && Connected(g, n, open, u, x, length, w)
    ensures Connected(g, n, open, u, v, length + g'.edge[EdgeId(x, dir)].dist, w1)
  {
    assert LegOk(g, n, x, dir);
    ExtendPath(g, n, open, u, x, length, w, dir);
    w1 := w + [dir];
  }

  /** A leg to a temporary node and the leg out of it make up one of the old legs. */
  lemma CollapseNewLegs(g: Graph, g': Graph, n: nat, n': nat, e: nat, off: int, open: seq<bool>, open': seq<bool>,
                        u: nat, v: nat, x: nat, dir: nat, y: nat, ydir: nat, length: int, w: seq<nat>)
    returns (w1: seq<nat>)
    requires Spliced(g, g', n, e, off, open, open') && n' == n + 2 && u < n && v < n && n <= x < n'
    requires OpenLeg(g', n', open', x, dir) && g'.edge[EdgeId(x, dir)].dest == v
    requires y < n' && OpenLeg(g', n', open', y, ydir) && g'.edge[EdgeId(y, ydir)].dest == x
    requires y < n && Connected(g, n, open, u, y, length, w)
    ensures Connected(g, n, open, u, v, length + g'.edge[EdgeId(y, ydir)].dist + g'.edge[EdgeId(x, dir)].dist, w1)
  {
    EnteredThrough(g, g', n, n', e, off, open, open', y, ydir);
    ExtendPath(g, n, open, u, y, length, w, ydir);
    w1 := w + [ydir];
  }

  /** Every path between old nodes in the new graph has a path of the same length in the old one. */
  lemma {:induction false} Collapse(g: Graph, g': Graph, n: nat, n': nat, e: nat, off: int,
                                    open: seq<bool>, open': seq<bool>, u: nat, v: nat, length: int, w': seq<nat>)
    returns (w: seq<nat>)
    requires Spliced(g, g', n, e, off, open, open') && n' == n + 2 && u < n && v < n
    requires Connected(g', n', open', u, v, length, w')
    ensures Connected(g, n, open, u, v, length, w)
    decreases |w'|
  {
    if |w'| == 0 {
      w := [];
    } else {
      var x, dir := PeelPath(g', n', open', u, v, length, w');
      var last, d := w'[..|w'| - 1], g'.edge[EdgeId(x, dir)].dist;
      if x < n {
        w := Collapse(g, g', n, n', e, off, open, open', u, x, length - d, last);
        w := CollapseOldLeg(g, g', n, n', e, off, open, open', u, v, x, dir, length - d, w);
      } else {
        var y, ydir := PeelPath(g', n', open', u, x, length - d, last);
        EnteredThrough(g, g', n, n', e, off, open, open', y, ydir);
        var d2 := g'.edge[EdgeId(y, ydir)].dist;
        w := Collapse(g, g', n, n', e, off, open, open', u, y, length - d - d2, last[..|last| - 1]);
        w := CollapseNewLegs(g, g', n, n', e, off, open, open', u, v, x, dir, y, ydir, length - d - d2, w);
      }
    }
  }

  /** v can be reached from u in exactly length millimetres. */
  ghost predicate Drivable(g: Graph, n: nat, open: seq<bool>, u: nat, v: nat, length: int)
    requires Plannable(g, n) && |open| == |g.edge| && u < n
  {
    exists w :: Connected(g, n, open, u, v, length, w)
  }

  /** What may be driven after a splice of e: as before, and the new edges as the directions of e
      they lie on. */
  ghost predicate OpenAfter(g: Graph, n: nat, e: nat, open: seq<bool>, open': seq<bool>)
  {
    && |open| == |open'| == |g.edge| && e < |g.edge| && g.edge[e].reverse < |g.edge| && 2 * n + 2 < |g.edge|
    && (forall i :: 0 <= i < 2 * n ==> open'[i] == open[i])
    && (open[e] ==> open'[2 * n]) && (open[g.edge[e].reverse] ==> open'[2 * n + 2])
  }

  /** Between any two nodes of the old graph exactly the same distances can be driven. */
  lemma SpliceKeepsDistances(g: Graph, n: nat, e: nat, off: int, open: seq<bool>, open': seq<bool>,
                             u: nat, v: nat, length: int)
    requires Spliceable(g, n, e) && n + 1 < |g.node| && 0 <= off <= g.edge[e].dist
    requires OpenAfter(g, n, e, open, open') && u < n && v < n
    ensures Plannable(Splice(g, e, n, off), n + 2)
    ensures Drivable(g, n, open, u, v, length) <==> Drivable(Splice(g, e, n, off), n + 2, open', u, v, length)
  {
    SpliceShape(g, n, e, off);
    SplicePlannable(g, n, e, off);
    SameDistances(g, Splice(g, e, n, off), n, n + 2, e, off, open, open', u, v, length);
  }

  /** The edges train t may use: those that are free or its own. */
  ghost function Usable(owner: seq<int>, t: int): (open: seq<bool>)
    ensures |open| == |owner| && forall i :: 0 <= i < |owner| ==> open[i] == (owner[i] in {UNRESERVED, t})
  {
    seq(|owner|, i requires 0 <= i < |owner| => owner[i] in {UNRESERVED, t})
  }

  /** A splice changes nothing about what a train may use: each part of the edge as the whole. So it may
      drive the same distances as before. */
  lemma SpliceKeepsUsable(g: Graph, owner: seq<int>, n: nat, e: nat, off: int, t: int, u: nat, v: nat, length: int)
    requires Spliceable(g, n, e) && n + 1 < |g.node| && 0 <= off <= g.edge[e].dist && |owner| == |g.edge|
    requires u < n && v < n
    ensures var open, open' := Usable(owner, t), Usable(SpliceOwner(g, owner, e, n), t);
            && |open'| == |g.edge| && g.edge[e].reverse < |g.edge| && EdgeId(n + 1, DIR_AHEAD) < |g.edge|
            && open'[EdgeId(n, DIR_AHEAD)] == open[e]
            && open'[EdgeId(n + 1, DIR_AHEAD)] == open[g.edge[e].reverse]
            && Plannable(Splice(g, e, n, off), n + 2)
            && (Drivable(g, n, open, u, v, length) <==> Drivable(Splice(g, e, n, off), n + 2, open', u, v, length))
  {
    var open, open' := Usable(owner, t), Usable(SpliceOwner(g, owner, e, n), t);
    LegIsEdge(g, n, e);
    assert OpenAfter(g, n, e, open, open');
    SpliceKeepsDistances(g, n, e, off, open, open', u, v, length);
  }

  lemma SameDistances(g: Graph, g': Graph, n: nat, n': nat, e: nat, off: int, open: seq<bool>, open': seq<bool>,
                      u: nat, v: nat, length: int)
    requires Spliced(g, g', n, e, off, open, open') && n' == n + 2 && u < n && v < n
    ensures Drivable(g, n, open, u, v, length) <==> Drivable(g', n', open', u, v, length)
  {
    if Drivable(g, n, open, u, v, length) {
      var w :| Connected(g, n, open, u, v, length, w);
      var w' := Expand(g, g', n, n', e, off, open, open', u, v, length, w);
    }
    if Drivable(g', n', open', u, v, length) {
      var w' :| Connected(g', n', open', u, v, length, w');
      var w := Collapse(g, g', n, n', e, off, open, open', u, v, length, w');
    }
  }

  /** The same after two splices into different pieces of track, or one inside the other, as long as
      the second is not on the far half of the first. */
  lemma TwoSplicesKeepDistances(g: Graph, g1: Graph, g2: Graph, n: nat, e: nat, off: int, e2: nat, off2: int,
                                open: seq<bool>, open1: seq<bool>, open2: seq<bool>, u: nat, v: nat, length: int)
    requires Spliceable(g, n, e) && n + 3 < |g.node| && 0 <= off <= g.edge[e].dist
    requires g1 == Splice(g, e, n, off)
    requires Spliceable(g1, n + 2, e2) && n + 3 < |g1.node| && 0 <= off2 <= g1.edge[e2].dist
    requires g2 == Splice(g1, e2, n + 2, off2)
    requires OpenAfter(g, n, e, open, open1) && OpenAfter(g1, n + 2, e2, open1, open2)
    requires u < n && v < n
    ensures Plannable(g2, n + 4)
    ensures Drivable(g, n, open, u, v, length) <==> Drivable(g2, n + 4, open2, u, v, length)
  {
    SpliceKeepsDistances(g, n, e, off, open, open1, u, v, length);
    SpliceKeepsDistances(g1, n + 2, e2, off2, open1, open2, u, v, length);
  }
}
