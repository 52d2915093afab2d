/**
 Walks a train may make: along a leg it is allowed on, or turning round where that is safe.
 This is the reference meaning of "cost of a route" against which the planner is proved.
 */
module Walks {
  import opened TrackGraph

  datatype Step = Leg(dir: nat) | Reverse

  /** What one planning request fixes: edge owners, the asking train, up to two edges to
      avoid (NULL when there is none) and the distance needed beyond a node to turn there. */
  datatype Policy = Policy(owner: seq<int>, train: int, avoid1: int, avoid2: int, safe: seq<int>)

  predicate Free(p: Policy, e: nat)
    requires e < |p.owner|
  {
    p.owner[e] == UNRESERVED || p.owner[e] == p.train
  }

  ghost predicate Fits(g: Graph, p: Policy)
  {
    && Plannable(g, |g.node|)
    && |p.owner| == |g.edge| && |p.safe| == |g.node|
    && forall x :: 0 <= x < |p.safe| && g.node[x].ty != NoNode ==> p.safe[x] >= 0
  }

  /** May the train make step s at node u? */
  ghost predicate Enabled(g: Graph, p: Policy, u: nat, s: Step)
    requires Fits(g, p) && u < |g.node|
  {
    match s
    case Leg(dir) =>
      HasLeg(g, u, dir) && Free(p, EdgeId(u, dir))
      && EdgeId(u, dir) != p.avoid1 && EdgeId(u, dir) != p.avoid2
    case Reverse =>
      && g.node[u].ty != NoNode && g.node[u].ty != Exit && p.safe[u] != INT_MAX
      && Free(p, EdgeId(u, if g.node[u].ty == Branch then DIR_CURVED else DIR_AHEAD))
  }

  ghost function Target(g: Graph, p: Policy, u: nat, s: Step): (v: nat)
    requires Fits(g, p) && u < |g.node| && Enabled(g, p, u, s)
    ensures v < |g.node| && g.node[v].ty != NoNode
  {
    match s
    case Leg(dir) => assert LegOk(g, |g.node|, u, dir); g.edge[EdgeId(u, dir)].dest
    case Reverse => assert NodeOk(g, |g.node|, u); g.node[u].reverse
  }

  ghost function Cost(g: Graph, p: Policy, u: nat, s: Step): (c: int)
    requires Fits(g, p) && u < |g.node| && Enabled(g, p, u, s)
    ensures c >= 0
  {
    match s
    case Leg(dir) => assert LegOk(g, |g.node|, u, dir); g.edge[EdgeId(u, dir)].dist
    case Reverse => 2 * p.safe[u]
  }

  /** Every step of w, taken in turn from node u, is enabled. */
  ghost predicate IsWalk(g: Graph, p: Policy, u: nat, w: seq<Step>)
    requires Fits(g, p) && u < |g.node|
    decreases |w|, 0
  {
    |w| == 0 ||
    var w' := w[..|w| - 1];
    IsWalk(g, p, u, w') && Enabled(g, p, End(g, p, u, w'), w[|w| - 1])
  }

  ghost function End(g: Graph, p: Policy, u: nat, w: seq<Step>): (v: nat)
    requires Fits(g, p) && u < |g.node| && IsWalk(g, p, u, w)
    ensures v < |g.node|
    decreases |w|, 1
  {
    if |w| == 0 then u else Target(g, p, End(g, p, u, w[..|w| - 1]), w[|w| - 1])
  }

  ghost function WalkCost(g: Graph, p: Policy, u: nat, w: seq<Step>): (c: int)
    requires Fits(g, p) && u < |g.node| && IsWalk(g, p, u, w)
    ensures c >= 0
  {
    if |w| == 0 then 0
    else WalkCost(g, p, u, w[..|w| - 1]) + Cost(g, p, End(g, p, u, w[..|w| - 1]), w[|w| - 1])
  }

  ghost predicate Reaches(g: Graph, p: Policy, u: nat, v: nat, w: seq<Step>)
    requires Fits(g, p) && u < |g.node|
  {
    IsWalk(g, p, u, w) && End(g, p, u, w) == v
  }

  /** Adding an enabled step to a walk. */
  lemma Extend(g: Graph, p: Policy, u: nat, w: seq<Step>, s: Step)
    requires Fits(g, p) && u < |g.node|
    requires IsWalk(g, p, u, w) && Enabled(g, p, End(g, p, u, w), s)
    ensures IsWalk(g, p, u, w + [s])
    ensures End(g, p, u, w + [s]) == Target(g, p, End(g, p, u, w), s)
    ensures WalkCost(g, p, u, w + [s]) == WalkCost(g, p, u, w) + Cost(g, p, End(g, p, u, w), s)
  {
    assert (w + [s])[..|w + [s]| - 1] == w;
  }
}
