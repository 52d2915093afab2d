/** findRoute: splice both positions in, plan, rebuild the route, and put the track back. */
module RouteFinding {
  import opened TrackGraph
  import opened TrackState
  import opened Landmarks
  import opened SpliceInPlace
  import opened Splicing
  import opened Walks
  import Locating
  import RoutePlanning
  import RouteRebuild
  import SafeReverse

  // ---- planning on the spliced graph ----

  /** Every leg among the first n nodes is at most d long. */
  ghost predicate LegsWithin(g: Graph, n: nat, d: int)
    requires Shape(g) && n <= |g.node|
  {
    forall x, dir {:trigger HasLeg(g, x, dir)} :: 0 <= x < n && HasLeg(g, x, dir) ==> g.edge[EdgeId(x, dir)].dist <= d
  }

  /** The distances needed to turn round, as computed from a cleared field. */
  ghost predicate SafeFor(g: Graph, safe: seq<int>, trainLength: int)
    requires SafeReverse.GoodLegs(g)
  {
    exists cleared: seq<int> ::
      && |cleared| == |g.node| && 0 <= trainLength
         && trainLength + SafeReverse.SAFE_REVERSE_DIST_COMPENSATION <= INT_MAX
      && (forall x :: RealNode(g, x) ==> cleared[x] == 0)
      && safe == SafeReverse.PropagateAll(g, cleared, |g.node|, trainLength)
  }

  lemma PlannableLegs(g: Graph)
    requires Plannable(g, |g.node|)
    ensures SafeReverse.GoodLegs(g)
  {
    forall x, dir
      ensures SafeReverse.GoodLegAt(g, x, dir)
    {
      if HasLeg(g, x, dir) {
        assert LegOk(g, |g.node|, x, dir);
      }
    }
  }

  lemma QueryFits(g: Graph, p: Policy, start: nat, step: int, trainLength: int)
    requires Plannable(g, |g.node|) && SafeReverse.GoodLegs(g) && |p.owner| == |g.edge|
    requires SafeFor(g, p.safe, trainLength) && RealNode(g, start)
    requires LegsWithin(g, |g.node|, step) && step >= 2 * (trainLength + SafeReverse.SAFE_REVERSE_DIST_COMPENSATION)
    requires |g.node| * step < INT_MAX
    ensures RoutePlanning.QueryOk(RoutePlanning.Query(g, p, start, step))
  {
    var limit := trainLength + SafeReverse.SAFE_REVERSE_DIST_COMPENSATION;
    assert SafeReverse.AllInRange(g, p.safe, limit);
    forall u, s | 0 <= u < |g.node| && Enabled(g, p, u, s)
      ensures Cost(g, p, u, s) <= step
    {
      match s {
        case Leg(dir) => assert HasLeg(g, u, dir);
        case Reverse => assert SafeReverse.InRange(p.safe[u], limit);
      }
    }
  }

  method ClearScratch(t: Track)
    requires t.Valid()
    modifies t.currDist, t.inQueue, t.routePrevious, t.safeReverseDist
    ensures forall x :: 0 <= x < t.nodes.Length && t.nodes[x].ty != NoNode ==>
              && t.currDist[x] == INT_MAX && t.inQueue[x] && t.routePrevious[x] == NULL && t.safeReverseDist[x] == 0
  {
    for i := 0 to t.nodes.Length
      invariant forall x :: 0 <= x < i && t.nodes[x].ty != NoNode ==>
                  && t.currDist[x] == INT_MAX && t.inQueue[x] && t.routePrevious[x] == NULL && t.safeReverseDist[x] == 0
    {
      if t.nodes[i].ty != NoNode {
        t.currDist[i] := INT_MAX;
        t.inQueue[i] := true;
        t.routePrevious[i] := NULL;
        t.safeReverseDist[i] := 0;
      }
    }
  }

  /** result describes a cheapest walk from the start of q to goal, or says that there is none. */
  ghost predicate Describes(q: RoutePlanning.Query, goal: nat, dist: int, entries: seq<RouteRebuild.RouteNode>)
    requires RoutePlanning.QueryOk(q) && goal < |q.g.node|
  {
    && RoutePlanning.IsShortest(q, goal, dist)
    && (dist == INT_MAX ==> entries == [])
    && (dist != INT_MAX ==>
          && RouteRebuild.Total(entries) == dist
          && exists w :: Reaches(q.g, q.p, q.start, goal, w) && WalkCost(q.g, q.p, q.start, w) == dist
                         && entries == RouteRebuild.FullRoute(q, w, goal))
  }

  lemma RouteTotal(q: RoutePlanning.Query, w: seq<Step>, goal: nat)
    requires RoutePlanning.QueryOk(q) && Reaches(q.g, q.p, q.start, goal, w)
    ensures RouteRebuild.Total(RouteRebuild.FullRoute(q, w, goal)) == WalkCost(q.g, q.p, q.start, w)
  {
    var entries := RouteRebuild.Entries(q.g, q.p, q.start, w);
    RouteRebuild.EntriesTotal(q.g, q.p, q.start, w);
    var last := [RouteRebuild.RouteNode(LandmarkOf(q.g.node[goal]), 0, 0)];
    RouteRebuild.TotalOfSum(entries, last);
    assert last[..0] == [];
  }

  /** Who asks for a route, the edges to avoid, and how long the train is. */
  datatype Asked = Asked(train: int, avoid1: int, avoid2: int, trainLength: int)

  /** dist and entries answer the request on graph g: q is the question asked of the planner. */
  ghost predicate Optimal(g: Graph, owner: seq<int>, ask: Asked, start: nat, goal: nat,
                          q: RoutePlanning.Query, dist: int, entries: seq<RouteRebuild.RouteNode>)
  {
    && RoutePlanning.QueryOk(q) && SafeReverse.GoodLegs(q.g) && SafeFor(q.g, q.p.safe, ask.trainLength)
    && q.g == g && q.start == start && q.p == Policy(owner, ask.train, ask.avoid1, ask.avoid2, q.p.safe)
    && goal < |q.g.node| && Describes(q, goal, dist, entries)
  }

  ghost predicate PlanningOk(g: Graph, start: nat, goal: nat, trainLength: int, step: int)
  {
    && Plannable(g, |g.node|) && 2 * |g.node| <= RouteRebuild.MAX_ROUTE_NODE
    && start < |g.node| && goal < |g.node| && start != goal && g.node[start].ty == Fake && g.node[goal].ty == Fake
    && 0 <= trainLength && step >= 2 * (trainLength + SafeReverse.SAFE_REVERSE_DIST_COMPENSATION)
    && LegsWithin(g, |g.node|, step) && |g.node| * step < INT_MAX
  }

  lemma RoomForTrain(g: Graph, start: nat, goal: nat, trainLength: int, step: int)
    requires PlanningOk(g, start, goal, trainLength, step)
    ensures trainLength + SafeReverse.SAFE_REVERSE_DIST_COMPENSATION <= INT_MAX
    ensures SafeReverse.GoodLegs(g)
  {
    assert |g.node| * step == step + (|g.node| - 1) * step;
    PlannableLegs(g);
  }

  /** Resets the scratch fields and works out where the train can turn round. */
  method Prepare(t: Track, trainLength: int, start: nat, ghost goal: nat, ghost step: int)
    requires t.Valid() && PlanningOk(t.G(), start, goal, trainLength, step)
    modifies t.currDist, t.inQueue, t.routePrevious, t.safeReverseDist
    ensures SafeReverse.GoodLegs(t.G()) && SafeFor(t.G(), t.safeReverseDist[..], trainLength)
    ensures forall x :: RealNode(t.G(), x) ==>
              t.inQueue[x] && t.routePrevious[x] == NULL && t.currDist[x] == if x == start then 0 else INT_MAX
  {
    RoomForTrain(t.G(), start, goal, trainLength, step);
    ClearScratch(t);
    SafeReverse.ComputeSafeReverseDist(t, trainLength);
    t.currDist[start] := 0;
  }

  /** findRoute between splicing and restoring. */
  method PlanRoute(t: Track, train: int, avoid1: int, avoid2: int, trainLength: int, start: nat, goal: nat,
                   result: RouteRebuild.Route, ghost step: int)
    returns (ghost q: RoutePlanning.Query)
    requires t.Valid() && PlanningOk(t.G(), start, goal, trainLength, step)
    requires result.nodes.Length == RouteRebuild.MAX_ROUTE_NODE
    modifies t.currDist, t.inQueue, t.routePrevious, t.safeReverseDist, result, result.nodes
    ensures 0 <= result.length <= RouteRebuild.MAX_ROUTE_NODE
    ensures Optimal(t.G(), t.Owners(), Asked(train, avoid1, avoid2, trainLength), start, goal, q, result.dist,
                    result.Shown())
  {
    Prepare(t, trainLength, start, goal, step);
    q := RoutePlanning.QueryOf(t, train, avoid1, avoid2, start, step);
    QueryFits(q.g, q.p, start, step, trainLength);
    SearchRoute(t, train, avoid1, avoid2, start, goal, result, q);
  }

  method SearchRoute(t: Track, train: int, avoid1: int, avoid2: int, start: nat, goal: nat,
                     result: RouteRebuild.Route, ghost q: RoutePlanning.Query)
    requires t.Valid() && RoutePlanning.QueryOk(q)
    requires q == RoutePlanning.QueryOf(t, train, avoid1, avoid2, start, q.step)
    requires start != goal && goal < t.nodes.Length && t.nodes[start].ty == Fake && t.nodes[goal].ty == Fake
    requires 2 * t.nodes.Length <= RouteRebuild.MAX_ROUTE_NODE == result.nodes.Length
    requires forall x :: RealNode(t.G(), x) ==>
               t.inQueue[x] && t.routePrevious[x] == NULL && t.currDist[x] == if x == start then 0 else INT_MAX
    modifies t.currDist, t.inQueue, t.routePrevious, result, result.nodes
    ensures 0 <= result.length <= RouteRebuild.MAX_ROUTE_NODE
    ensures Describes(q, goal, result.dist, result.Shown())
  {
    var via, k := RoutePlanning.Dijkstra(t, train, avoid1, avoid2, start, goal, q);
    var w := via[goal];
    RouteRebuild.Rebuild(t, goal, result, q, via, k);
    if t.currDist[goal] != INT_MAX {
      RouteTotal(q, w, goal);
      ReachedAtCost(q, RoutePlanning.Now(t, via), k, goal);
    }
  }

  lemma ReachedAtCost(q: RoutePlanning.Query, st: RoutePlanning.Search, k: nat, x: nat)
    requires RoutePlanning.Progress(q, st, k) && RealNode(q.g, x) && st.dist[x] != INT_MAX
    ensures Reaches(q.g, q.p, q.start, x, st.via[x]) && WalkCost(q.g, q.p, q.start, st.via[x]) == st.dist[x]
  {
    assert RoutePlanning.Labelled(q, st, k, x);
  }

  // ---- the whole of findRoute ----

  lemma SecondEdgeSpliceable(g: Graph, n: nat, e: nat, off: int, e2: nat)
    requires WellFormed(g, n) && Spliceable(g, n, e) && n + 1 < |g.node| && 0 <= off <= g.edge[e].dist
    requires Plannable(Splice(g, e, n, off), n + 2)
    requires IsEdge(Splice(g, e, n, off), n + 2, e2) && e2 != EdgeId(n + 1, DIR_AHEAD)
    ensures Spliceable(Splice(g, e, n, off), n + 2, e2)
  {
    var g1 := Splice(g, e, n, off);
    SpliceShape(g, n, e, off);
    var x := g1.edge[e2].src;
    assert LegOk(g1, n + 2, x, e2 - 2 * x);
    SpliceAgain(g, n, e, off, x, e2 - 2 * x);
  }

  lemma SpliceLegsWithin(g: Graph, n: nat, e: nat, off: int, d: int)
    requires Spliceable(g, n, e) && n + 1 < |g.node| && 0 <= off <= g.edge[e].dist && LegsWithin(g, n, d)
    ensures LegsWithin(Splice(g, e, n, off), n + 2, d)
  {
    var g' := Splice(g, e, n, off);
    SpliceShape(g, n, e, off);
    LegIsEdge(g, n, e);
    forall x, dir | 0 <= x < n + 2 && HasLeg(g', x, dir)
      ensures g'.edge[EdgeId(x, dir)].dist <= d
    {
      if x < n {
        assert HasLeg(g, x, dir);
      }
    }
  }

  lemma SameNames(a: seq<Node>, b: seq<Node>, n: nat, l: Landmark, r: int)
    requires n <= |a| && n <= |b| && forall x :: 0 <= x < n ==> a[x] == b[x]
    ensures Locating.FirstNamed(a, n, l, r) <==> Locating.FirstNamed(b, n, l, r)
  {
    assert forall x :: 0 <= x < n ==> (Locating.Named(a, x, l) <==> Locating.Named(b, x, l));
  }

  /** FarHalf: the second position is on the edge of the second temporary node, which cannot be
      spliced properly (lemma FarHalfNotReversible); what the code computes then is not modelled. */
  datatype Outcome = BadFrom | BadTo | FarHalf | Planned

  /** Where a position was found, and the track before and after it was spliced in. */
  datatype Spot = Spot(before: Graph, e: nat, off: int, a: nat, b: nat, run: seq<nat>, after: Graph)

  /** Position pos of the track, looked up among its first n nodes and spliced in at places m and m + 1. */
  ghost predicate SpotOk(s: Spot, n: nat, m: nat, pos: Locating.Position)
  {
    && Plannable(s.before, m) && n <= m && m + 1 < |s.before.node|
    && Locating.Located(s.before, m, n, pos, s.e, s.off, s.a, s.b, s.run)
    && Spliceable(s.before, m, s.e) && s.after == Splice(s.before, s.e, m, s.off)
  }

  lemma ReadyToPlan(g: Graph, n: nat, e: nat, off: int, trainLength: int, step: int)
    requires |g.node| == n + 4 && Spliceable(g, n + 2, e) && 0 <= off <= g.edge[e].dist && g.node[n].ty == Fake
    requires LegsWithin(g, n + 2, step)
    ensures Changes(g, Splice(g, e, n + 2, off), n + 2, e, off)
    ensures SizesOk(n, trainLength, step) ==> PlanningOk(Splice(g, e, n + 2, off), n, n + 2, trainLength, step)
  {
    SpliceShape(g, n + 2, e, off);
    SplicePlannable(g, n + 2, e, off);
    SpliceLegsWithin(g, n + 2, e, off, step);
  }

  /** The answer is optimal in the graph with the second position spliced into edge e of g. */
  ghost predicate PlanOk(g: Graph, owner: seq<int>, n: nat, ask: Asked, e: nat, off: int,
                         q: RoutePlanning.Query, dist: int, entries: seq<RouteRebuild.RouteNode>)
    requires Spliceable(g, n + 2, e) && |g.node| == n + 4 && |owner| == |g.edge|
  {
    Optimal(Splice(g, e, n + 2, off), SpliceOwner(g, owner, e, n + 2), ask, n, n + 2, q, dist, entries)
  }

  /** The part of findRoute that runs with the first position spliced in and the second one found. */
  method WithBothPositions(t: Track, n: nat, toEdge: nat, offsetTo: int, train: int, avoid1: int, avoid2: int,
                           trainLength: int, result: RouteRebuild.Route, ghost step: int,
                           ghost g: Graph, ghost g2: Graph, ghost owner: seq<int>)
    returns (ghost q: RoutePlanning.Query, ghost dist: int, ghost entries: seq<RouteRebuild.RouteNode>)
    requires t.Valid() && t.G() == g && t.Owners() == owner && |g.node| == n + 4
    requires Spliceable(g, n + 2, toEdge) && g2 == Splice(g, toEdge, n + 2, offsetTo)
    requires Changes(g, g2, n + 2, toEdge, offsetTo) && PlanningOk(g2, n, n + 2, trainLength, step)
    requires result.nodes.Length == RouteRebuild.MAX_ROUTE_NODE
    modifies t.nodes, t.edges, t.owner, t.currDist, t.inQueue, t.routePrevious, t.safeReverseDist, result, result.nodes
    ensures Agree(t.G(), g, n) && SameOwners(t.Owners(), owner, n)
    ensures 0 <= result.length <= RouteRebuild.MAX_ROUTE_NODE
    ensures result.dist == dist && result.Shown() == entries
    ensures PlanOk(g, owner, n, Asked(train, avoid1, avoid2, trainLength), toEdge, offsetTo, q, dist, entries)
  {
    var src, back := SpliceIn(t, toEdge, n + 2, offsetTo, g, owner);
    ghost var owner2 := t.Owners();
    AgreeSelf(g2, n + 2);
    q := PlanRoute(t, train, avoid1, avoid2, trainLength, n, n + 2, result, step);
    dist, entries := result.dist, result.Shown();
    TakeOut(t, src, back, n + 2, g, owner, g2, owner2);
    AgreeOnFewer(t.G(), g, t.Owners(), owner, n, n + 2);
  }

  /** The track with its first position spliced in. */
  ghost predicate FromOk(s: Spot, n: nat, step: int)
  {
    && WellFormed(s.before, n) && |s.before.node| == n + 4 && Spliceable(s.before, n, s.e)
    && 0 <= s.off <= s.before.edge[s.e].dist && s.after == Splice(s.before, s.e, n, s.off)
    && Plannable(s.after, n + 2) && |s.after.node| == n + 4 && s.after.node[n].ty == Fake
    && LegsWithin(s.after, n + 2, step)
  }

  ghost predicate SizesOk(n: nat, trainLength: int, step: int)
  {
    && 0 <= trainLength && step >= 2 * (trainLength + SafeReverse.SAFE_REVERSE_DIST_COMPENSATION)
    && (n + 4) * step < INT_MAX && 2 * (n + 4) <= RouteRebuild.MAX_ROUTE_NODE
  }

  lemma FirstSpot(g: Graph, n: nat, step: int, pos: Locating.Position, e: nat, off: int, a: nat, b: nat, run: seq<nat>)
    returns (s: Spot)
    requires WellFormed(g, n) && |g.node| == n + 4 && LegsWithin(g, n, step)
    requires Locating.Located(g, n, n, pos, e, off, a, b, run)
    ensures Spliceable(g, n, e) && s.before == g && s.e == e && s.off == off && SpotOk(s, n, n, pos)
    ensures FromOk(s, n, step) && Changes(g, s.after, n, e, off)
  {
    EdgeSpliceable(g, n, e);
    s := Spot(g, e, off, a, b, run, Splice(g, e, n, off));
    SpliceShape(g, n, e, off);
    SplicePlannable(g, n, e, off);
    SpliceLegsWithin(g, n, e, off, step);
  }

  /** What findRoute answers once the first position has been found and spliced in. */
  ghost predicate AnswerTo(g1: Graph, owner1: seq<int>, n: nat, to: Locating.Position, ask: Asked, outcome: Outcome,
                           s2: Spot, q: RoutePlanning.Query, dist: int, entries: seq<RouteRebuild.RouteNode>)
    requires Plannable(g1, n + 2)
  {
    match outcome
    case BadFrom => false
    case BadTo => dist == 0 && entries == [] && Locating.Unlocatable(g1, n + 2, n, to)
    case FarHalf => dist == 0 && entries == [] && Locating.OnEdge(g1, n + 2, n, to, EdgeId(n + 1, DIR_AHEAD))
    case Planned =>
      && s2.before == g1 && SpotOk(s2, n, n + 2, to) && |g1.node| == n + 4 && |owner1| == |g1.edge|
      && PlanOk(g1, owner1, n, ask, s2.e, s2.off, q, dist, entries)
  }

  /** A position that has been spliced in does not lie on the edge of the second temporary node. */
  lemma NotOnFarHalf(g: Graph, e: nat, off: int, s2: Spot, n: nat, to: Locating.Position, far: nat)
    requires Spliceable(g, n, e) && n + 1 < |g.node| && SpotOk(s2, n, n + 2, to) && s2.before == Splice(g, e, n, off)
    requires far == EdgeId(n + 1, DIR_AHEAD)
    ensures !Locating.OnEdge(s2.before, n + 2, n, to, far)
  {
    FarHalfNotReversible(g, n, e, off);
    if Locating.OnEdge(s2.before, n + 2, n, to, far) {
      Locating.OnOneEdge(s2.before, n + 2, n, to, s2.e, s2.off, s2.a, s2.b, s2.run, far);
    }
  }

  /** Which answer it is depends on the request alone: nothing when the second position cannot be located,
      FarHalf when it lies on that edge, and otherwise a plan. */
  lemma AnswerDecided(s1: Spot, owner1: seq<int>, n: nat, to: Locating.Position, step: int, ask: Asked,
                      outcome: Outcome, s2: Spot,
                      q: RoutePlanning.Query, dist: int, entries: seq<RouteRebuild.RouteNode>)
    requires FromOk(s1, n, step) && AnswerTo(s1.after, owner1, n, to, ask, outcome, s2, q, dist, entries)
    ensures outcome == BadTo <==> Locating.Unlocatable(s1.after, n + 2, n, to)
    ensures outcome == FarHalf <==> Locating.OnEdge(s1.after, n + 2, n, to, EdgeId(n + 1, DIR_AHEAD))
  {
    if outcome == Planned {
      NotOnFarHalf(s1.before, s1.e, s1.off, s2, n, to, EdgeId(n + 1, DIR_AHEAD));
    }
  }

  lemma SecondSpot(s1: Spot, n: nat, step: int, trainLength: int, pos: Locating.Position, e: nat, off: int, a: nat,
                   b: nat, run: seq<nat>)
    returns (s2: Spot)
    requires FromOk(s1, n, step) && Locating.Located(s1.after, n + 2, n, pos, e, off, a, b, run)
    requires e != EdgeId(n + 1, DIR_AHEAD)
    ensures Spliceable(s1.after, n + 2, e) && 0 <= off <= s1.after.edge[e].dist
    ensures s2.before == s1.after && s2.e == e && s2.off == off && SpotOk(s2, n, n + 2, pos)
    ensures Changes(s1.after, s2.after, n + 2, e, off)
    ensures SizesOk(n, trainLength, step) ==> PlanningOk(s2.after, n, n + 2, trainLength, step)
  {
    SecondEdgeSpliceable(s1.before, n, s1.e, s1.off, e);
    ReadyToPlan(s1.after, n, e, off, trainLength, step);
    s2 := Spot(s1.after, e, off, a, b, run, Splice(s1.after, e, n + 2, off));
  }

  /** The part of findRoute that runs with the first position spliced in. */
  method WithFromPosition(t: Track, n: nat, to: Locating.Position, train: int, avoid1: int, avoid2: int,
                          trainLength: int, result: RouteRebuild.Route, ghost step: int, ghost s1: Spot,
                          ghost owner1: seq<int>)
    returns (outcome: Outcome, ghost s2: Spot, ghost q: RoutePlanning.Query, ghost dist: int,
             ghost entries: seq<RouteRebuild.RouteNode>)
    requires t.Valid() && t.nodes.Length == n + 4 && result.nodes.Length == RouteRebuild.MAX_ROUTE_NODE
    requires FromOk(s1, n, step) && SizesOk(n, trainLength, step) && t.G() == s1.after && t.Owners() == owner1
    requires Locating.Askable(s1.after.node, n, to)
    modifies t.nodes, t.edges, t.owner, t.currDist, t.inQueue, t.routePrevious, t.safeReverseDist, result, result.nodes
    ensures Agree(t.G(), s1.after, n) && SameOwners(t.Owners(), owner1, n)
    ensures 0 <= result.length <= RouteRebuild.MAX_ROUTE_NODE
    ensures result.dist == dist && result.Shown() == entries
    ensures AnswerTo(s1.after, owner1, n, to, Asked(train, avoid1, avoid2, trainLength), outcome, s2, q, dist, entries)
  {
    ghost var m := n + 2;
    var far := EdgeId(n + 1, DIR_AHEAD);
    var toEdge, offsetTo, a, b, run := Locating.LocateNode(t, n, to, m);
    if toEdge == NULL || toEdge == far {
      result.dist := 0;
      result.length := 0;
      dist, entries := 0, [];
      outcome := if toEdge == NULL then BadTo else FarHalf;
      s2 := s1;
      q := RoutePlanning.Query(s1.after, Policy([], 0, 0, 0, []), 0, 0);
    } else {
      s2 := SecondSpot(s1, n, step, trainLength, to, toEdge, offsetTo, a, b, run);
      q, dist, entries := WithBothPositions(t, n, toEdge, offsetTo, train, avoid1, avoid2, trainLength, result, step,
                                            s1.after, s2.after, owner1);
      outcome := Planned;
    }
  }

  /** What the caller must guarantee: a complete track of n nodes with four spare places after it,
      positions that can be looked up, and distances whose sums stay below INT_MAX. */
  ghost predicate RequestOk(g: Graph, n: nat, from: Locating.Position, to: Locating.Position, trainLength: int,
                            step: int)
  {
    && WellFormed(g, n) && |g.node| == n + 4 && LegsWithin(g, n, step) && SizesOk(n, trainLength, step)
    && Locating.Askable(g.node, n, from) && Locating.Askable(g.node, n, to)
  }

  lemma LandmarksStay(s: Spot, n: nat, pos: Locating.Position)
    requires n + 1 < |s.before.node| && Changes(s.before, s.after, n, s.e, s.off)
    ensures Locating.Askable(s.after.node, n, pos) <==> Locating.Askable(s.before.node, n, pos)
  {
    SameNames(s.after.node, s.before.node, n, pos.landmark1, NULL);
    SameNames(s.after.node, s.before.node, n, pos.landmark2, NULL);
  }

  /** What findRoute answers to a request about track g. */
  ghost predicate Answer(g: Graph, owner: seq<int>, n: nat, from: Locating.Position, to: Locating.Position, step: int,
                         ask: Asked, outcome: Outcome, s1: Spot, s2: Spot, q: RoutePlanning.Query,
                         dist: int, entries: seq<RouteRebuild.RouteNode>)
    requires Plannable(g, n) && |owner| == |g.edge|
  {
    if outcome == BadFrom then dist == 0 && entries == [] && Locating.Unlocatable(g, n, n, from)
    else
      && s1.before == g && SpotOk(s1, n, n, from) && FromOk(s1, n, step)
      && AnswerTo(s1.after, SpliceOwner(g, owner, s1.e, n), n, to, ask, outcome, s2, q, dist, entries)
  }

  /** findRoute from when the first position has been spliced in. */
  method RouteFrom(t: Track, n: nat, to: Locating.Position, train: int, avoid1: int, avoid2: int, trainLength: int,
                   result: RouteRebuild.Route, src: NodeCopy, back: NodeCopy, ghost step: int, ghost s1: Spot,
                   ghost owner: seq<int>, ghost owner1: seq<int>)
    returns (outcome: Outcome, ghost s2: Spot, ghost q: RoutePlanning.Query, ghost dist: int,
             ghost entries: seq<RouteRebuild.RouteNode>)
    requires t.Valid() && t.G() == s1.after && t.Owners() == owner1 && FromOk(s1, n, step)
    requires Undoes(n, s1.before, owner, s1.after, owner1, src, back) && |s1.before.node| == t.nodes.Length
    requires result.nodes.Length == RouteRebuild.MAX_ROUTE_NODE
    requires SizesOk(n, trainLength, step) && Locating.Askable(s1.after.node, n, to)
    modifies t.nodes, t.edges, t.owner, t.currDist, t.inQueue, t.routePrevious, t.safeReverseDist, result, result.nodes
    ensures Agree(t.G(), s1.before, n) && SameOwners(t.Owners(), owner, n)
    ensures 0 <= result.length <= RouteRebuild.MAX_ROUTE_NODE
    ensures result.dist == dist && result.Shown() == entries
    ensures AnswerTo(s1.after, owner1, n, to, Asked(train, avoid1, avoid2, trainLength), outcome, s2, q, dist, entries)
  {
    outcome, s2, q, dist, entries := WithFromPosition(t, n, to, train, avoid1, avoid2, trainLength, result, step,
                                                      s1, owner1);
    TakeOut(t, src, back, n, s1.before, owner, s1.after, owner1);
  }

  /** findRoute. The track ends up as it was, and a planned route is a cheapest walk in the track
      with the two positions spliced in, first the one then the other. */
  method FindRoute(t: Track, n: nat, from: Locating.Position, to: Locating.Position, result: RouteRebuild.Route,
                   train: int, avoid1: int, avoid2: int, trainLength: int, ghost step: int, ghost g: Graph,
                   ghost owner: seq<int>)
    returns (outcome: Outcome, ghost s1: Spot, ghost s2: Spot, ghost q: RoutePlanning.Query)
    requires t.Valid() && t.G() == g && t.Owners() == owner && RequestOk(g, n, from, to, trainLength, step)
    requires result.nodes.Length == RouteRebuild.MAX_ROUTE_NODE
    modifies t.nodes, t.edges, t.owner, t.currDist, t.inQueue, t.routePrevious, t.safeReverseDist, result, result.nodes
    ensures Agree(t.G(), g, n) && SameOwners(t.Owners(), owner, n)
    ensures 0 <= result.length <= RouteRebuild.MAX_ROUTE_NODE
    ensures Answer(g, owner, n, from, to, step, Asked(train, avoid1, avoid2, trainLength), outcome, s1, s2, q,
                   result.dist, result.Shown())
  {
    var fromEdge, offsetFrom, a, b, run := Locating.LocateNode(t, n, from, n);
    if fromEdge == NULL {
      result.dist := 0;
      result.length := 0;
      outcome := BadFrom;
      s1 := Spot(g, 0, 0, 0, 0, [], g);
      s2 := s1;
      q := RoutePlanning.Query(g, Policy([], 0, 0, 0, []), 0, 0);
    } else {
      s1 := FirstSpot(g, n, step, from, fromEdge, offsetFrom, a, b, run);
      LandmarksStay(s1, n, to);
      var src, back := SpliceIn(t, fromEdge, n, offsetFrom, g, owner);
      ghost var dist, entries;
      outcome, s2, q, dist, entries := RouteFrom(t, n, to, train, avoid1, avoid2, trainLength, result, src, back, step,
                                                 s1, owner, t.Owners());
    }
  }
}
