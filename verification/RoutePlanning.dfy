/** Dijkstra's algorithm as findRoute runs it: linear search for the nearest queued node,
    stop early at the goal, at most three neighbours relaxed per node. */
module RoutePlanning {
  import opened TrackGraph
  import opened TrackState
  import opened Walks

  /** The search so far, seen as values: tentative distances, who is still queued, predecessors,
      and (ghost) the walk behind every finite distance. */
  datatype Search = Search(dist: seq<int>, queued: seq<bool>, prev: seq<int>, via: seq<seq<Step>>)

  datatype Query = Query(g: Graph, p: Policy, start: nat, step: int)

  /** All lengths are at most q.step, and even a walk through every node stays below INT_MAX. */
  ghost predicate QueryOk(q: Query)
  {
    && Fits(q.g, q.p) && RealNode(q.g, q.start) && q.step >= 0
    && |q.g.node| * q.step < INT_MAX
    && (forall u, s :: 0 <= u < |q.g.node| && Enabled(q.g, q.p, u, s) ==> Cost(q.g, q.p, u, s) <= q.step)
  }

  ghost predicate Sizes(q: Query, st: Search)
  {
    && |st.dist| == |q.g.node| && |st.queued| == |q.g.node|
    && |st.prev| == |q.g.node| && |st.via| == |q.g.node|
  }

  /** Node x is either unreached, or st.via[x] is a walk from the start of exactly that cost,
      one step longer than that of a settled predecessor. */
  ghost predicate Labelled(q: Query, st: Search, k: nat, x: nat)
    requires QueryOk(q) && Sizes(q, st) && RealNode(q.g, x)
  {
    && (st.dist[x] == INT_MAX ==> st.queued[x] && st.prev[x] == NULL)
    && (st.dist[x] != INT_MAX ==>
          && Reaches(q.g, q.p, q.start, x, st.via[x])
          && WalkCost(q.g, q.p, q.start, st.via[x]) == st.dist[x]
          && 0 <= st.dist[x] <= k * q.step && |st.via[x]| <= k
          && (x == q.start ==> st.via[x] == [] && st.prev[x] == NULL)
          && (x != q.start ==>
                && RealNode(q.g, st.prev[x]) && !st.queued[st.prev[x]]
                && |st.via[x]| > 0 && st.via[x][..|st.via[x]| - 1] == st.via[st.prev[x]]))
  }

  /** A settled node is no further away than a queued one. */
  ghost predicate Ordered(q: Query, st: Search, u: nat, v: nat)
    requires Sizes(q, st) && RealNode(q.g, u) && RealNode(q.g, v)
  {
    !st.queued[u] && st.queued[v] ==> st.dist[u] <= st.dist[v]
  }

  /** After k nodes have been settled. */
  ghost predicate Progress(q: Query, st: Search, k: nat)
  {
    && QueryOk(q) && Sizes(q, st) && k <= |q.g.node|
    && st.dist[q.start] == 0
    && (forall x {:trigger Labelled(q, st, k, x)} :: RealNode(q.g, x) ==> Labelled(q, st, k, x))
    && (forall u, v {:trigger Ordered(q, st, u, v)} :: RealNode(q.g, u) && RealNode(q.g, v) ==> Ordered(q, st, u, v))
  }

  ghost predicate Tight(q: Query, st: Search, u: nat, s: Step)
    requires QueryOk(q) && Sizes(q, st) && u < |q.g.node|
  {
    Enabled(q.g, q.p, u, s) ==> st.dist[Target(q.g, q.p, u, s)] <= st.dist[u] + Cost(q.g, q.p, u, s)
  }

  /** Every enabled step out of a settled node (except the node being expanded) is accounted for. */
  ghost predicate Closed(q: Query, st: Search, except: int)
    requires QueryOk(q) && Sizes(q, st)
  {
    forall u, s {:trigger Tight(q, st, u, s)} ::
      RealNode(q.g, u) && !st.queued[u] && u != except ==> Tight(q, st, u, s)
  }

  /** Nothing queued lies nearer than m. */
  ghost predicate NoneNearer(q: Query, st: Search, m: int)
    requires QueryOk(q) && Sizes(q, st)
  {
    forall x {:trigger st.queued[x]} :: RealNode(q.g, x) && st.queued[x] ==> st.dist[x] >= m
  }

  lemma StepFits(q: Query, k: nat)
    requires QueryOk(q) && k < |q.g.node|
    ensures k * q.step + q.step == (k + 1) * q.step <= |q.g.node| * q.step < INT_MAX
  {
    var rest := |q.g.node| - (k + 1);
    assert |q.g.node| * q.step == (k + 1) * q.step + rest * q.step;
  }

  /** The heart of the optimality argument: a walk ends at a settled node no nearer than its
      label, or it is at least as long as the nearest queued node is far. */
  lemma {:induction false} WalkNotShorter(q: Query, st: Search, k: nat, m: int, w: seq<Step>)
    requires Progress(q, st, k) && Closed(q, st, NULL) && NoneNearer(q, st, m)
    requires IsWalk(q.g, q.p, q.start, w)
    ensures var v := End(q.g, q.p, q.start, w); var c := WalkCost(q.g, q.p, q.start, w);
            RealNode(q.g, v) && ((!st.queued[v] && st.dist[v] <= c) || m <= c)
    decreases |w|
  {
    if |w| == 0 {
      assert st.queued[q.start] ==> st.dist[q.start] >= m;
    } else {
      var w', s := w[..|w| - 1], w[|w| - 1];
      var u := End(q.g, q.p, q.start, w');
      WalkNotShorter(q, st, k, m, w');
      if !st.queued[u] {
        assert Tight(q, st, u, s);
        assert st.queued[End(q.g, q.p, q.start, w)] ==> m <= st.dist[End(q.g, q.p, q.start, w)];
      }
    }
  }

  /** When nothing queued has a finite label, walks never leave the settled nodes. */
  lemma {:induction false} WalkStaysSettled(q: Query, st: Search, k: nat, w: seq<Step>)
    requires Progress(q, st, k) && k < |q.g.node| && Closed(q, st, NULL) && NoneNearer(q, st, INT_MAX)
    requires IsWalk(q.g, q.p, q.start, w)
    ensures var v := End(q.g, q.p, q.start, w); RealNode(q.g, v) && !st.queued[v]
    decreases |w|
  {
    if |w| == 0 {
      assert !st.queued[q.start];
    } else {
      var w', s := w[..|w| - 1], w[|w| - 1];
      var u := End(q.g, q.p, q.start, w');
      WalkStaysSettled(q, st, k, w');
      assert Labelled(q, st, k, u) && Tight(q, st, u, s);
      assert Cost(q.g, q.p, u, s) <= q.step;
      StepFits(q, k);
      var v := Target(q.g, q.p, u, s);
      assert st.dist[v] <= k * q.step + q.step < INT_MAX;
    }
  }

  /** No settled node is further away than u. */
  ghost predicate Latest(q: Query, st: Search, u: nat)
    requires Sizes(q, st) && u < |st.dist|
  {
    !st.queued[u] && forall x {:trigger st.queued[x]} :: RealNode(q.g, x) && !st.queued[x] ==> st.dist[x] <= st.dist[u]
  }

  /** There is still room for one more step after u within the bounds for k settled nodes. */
  ghost predicate Room(q: Query, st: Search, k: nat, u: nat)
    requires Sizes(q, st) && u < |st.dist|
  {
    |st.via[u]| < k && st.dist[u] + q.step <= k * q.step
  }

  /** Taking the nearest queued node out of the queue. */
  lemma Settle(q: Query, st: Search, k: nat, u: nat) returns (st': Search)
    requires Progress(q, st, k) && Closed(q, st, NULL) && k < |q.g.node|
    requires RealNode(q.g, u) && st.queued[u] && st.dist[u] != INT_MAX && NoneNearer(q, st, st.dist[u])
    ensures st' == st.(queued := st.queued[u := false])
    ensures Progress(q, st', k + 1) && Closed(q, st', u) && Latest(q, st', u) && Room(q, st', k + 1, u)
  {
    st' := st.(queued := st.queued[u := false]);
    StepFits(q, k);
    assert Labelled(q, st, k, u);
    forall x | RealNode(q.g, x)
      ensures Labelled(q, st', k + 1, x)
    {
      assert Labelled(q, st, k, x);
    }
    forall x, y | RealNode(q.g, x) && RealNode(q.g, y)
      ensures Ordered(q, st', x, y)
    {
      assert Ordered(q, st, x, y) && Ordered(q, st, u, y);
      assert st.queued[y] ==> st.dist[u] <= st.dist[y];
    }
    forall x | RealNode(q.g, x) && !st'.queued[x]
      ensures st'.dist[x] <= st'.dist[u]
    {
      assert Ordered(q, st, x, u);
    }
    forall x, s | RealNode(q.g, x) && !st'.queued[x] && x != u
      ensures Tight(q, st', x, s)
    {
      assert Tight(q, st, x, s);
    }
  }

  ghost predicate Expanding(q: Query, st: Search, k: nat, u: nat)
  {
    Progress(q, st, k) && RealNode(q.g, u) && Closed(q, st, u) && Latest(q, st, u) && Room(q, st, k, u)
  }

  /** Node u offers its neighbour a shorter way. */
  ghost function Relaxed(q: Query, st: Search, u: nat, s: Step): Search
    requires QueryOk(q) && Sizes(q, st) && u < |q.g.node| && Enabled(q.g, q.p, u, s)
  {
    var v := Target(q.g, q.p, u, s);
    st.(dist := st.dist[v := st.dist[u] + Cost(q.g, q.p, u, s)], prev := st.prev[v := u],
        via := st.via[v := st.via[u] + [s]])
  }

  /** The improved neighbour's new label. */
  lemma NewLabel(q: Query, st: Search, k: nat, u: nat, s: Step)
    requires Expanding(q, st, k, u) && Enabled(q.g, q.p, u, s)
    requires var v := Target(q.g, q.p, u, s); st.queued[v] && v != q.start
    ensures Labelled(q, Relaxed(q, st, u, s), k, Target(q.g, q.p, u, s))
  {
    var v, c := Target(q.g, q.p, u, s), Cost(q.g, q.p, u, s);
    var st' := Relaxed(q, st, u, s);
    assert Labelled(q, st, k, u);
    assert c <= q.step;
    StepFits(q, k - 1);
    Extend(q.g, q.p, q.start, st.via[u], s);
    assert st'.via[v] == st.via[u] + [s] && st'.via[u] == st.via[u];
    assert st'.via[v][..|st'.via[v]| - 1] == st.via[u];
    assert Reaches(q.g, q.p, q.start, v, st'.via[v]);
    assert st'.dist[v] == st.dist[u] + c < INT_MAX;
  }

  /** Every other node keeps its label: settled predecessors are never relaxed. */
  lemma OldLabel(q: Query, st: Search, k: nat, u: nat, s: Step, x: nat)
    requires Expanding(q, st, k, u) && Enabled(q.g, q.p, u, s) && RealNode(q.g, x)
    requires var v := Target(q.g, q.p, u, s); st.queued[v] && v != x
    ensures Labelled(q, Relaxed(q, st, u, s), k, x)
  {
    assert Labelled(q, st, k, x);
  }

  /** Relaxing one step out of the node being expanded. */
  lemma Improve(q: Query, st: Search, k: nat, u: nat, s: Step) returns (st': Search)
    requires Expanding(q, st, k, u) && Enabled(q.g, q.p, u, s)
    requires st.queued[Target(q.g, q.p, u, s)]
    requires st.dist[u] + Cost(q.g, q.p, u, s) < st.dist[Target(q.g, q.p, u, s)]
    ensures st' == Relaxed(q, st, u, s)
    ensures Expanding(q, st', k, u)
  {
    var v, c := Target(q.g, q.p, u, s), Cost(q.g, q.p, u, s);
    st' := Relaxed(q, st, u, s);
    assert c <= q.step;
    assert Labelled(q, st, k, u);
    assert v != q.start && v != u;
    forall x | RealNode(q.g, x)
      ensures Labelled(q, st', k, x)
    {
      if x == v { NewLabel(q, st, k, u, s); } else { OldLabel(q, st, k, u, s, x); }
    }
    forall x, y | RealNode(q.g, x) && RealNode(q.g, y)
      ensures Ordered(q, st', x, y)
    {
      assert Ordered(q, st, x, y);
      assert !st.queued[x] ==> st.dist[x] <= st.dist[u];
    }
    forall x, a | RealNode(q.g, x) && !st'.queued[x] && x != u
      ensures Tight(q, st', x, a)
    {
      assert Tight(q, st, x, a);
    }
  }

  // ---- the search over the track's own fields ----

  ghost function QueryOf(t: Track, train: int, avoid1: int, avoid2: int, start: nat, step: int): Query
    reads t.nodes, t.edges, t.owner, t.safeReverseDist
  {
    Query(t.G(), Policy(t.owner[..], train, avoid1, avoid2, t.safeReverseDist[..]), start, step)
  }

  ghost function Now(t: Track, via: seq<seq<Step>>): Search
    reads t.currDist, t.inQueue, t.routePrevious
  {
    Search(t.currDist[..], t.inQueue[..], t.routePrevious[..], via)
  }

  /** The first of the nearest queued nodes, NULL when no queued node has been reached. */
  method NearestQueued(t: Track) returns (best: int)
    requires t.Valid()
    ensures best == NULL ==>
              forall x :: 0 <= x < t.nodes.Length && t.nodes[x].ty != NoNode && t.inQueue[x] ==>
                t.currDist[x] >= INT_MAX
    ensures best != NULL ==>
              && 0 <= best < t.nodes.Length && t.nodes[best].ty != NoNode && t.inQueue[best]
              && t.currDist[best] < INT_MAX
              && (forall x :: 0 <= x < t.nodes.Length && t.nodes[x].ty != NoNode && t.inQueue[x] ==>
                    t.currDist[best] <= t.currDist[x] && (x < best ==> t.currDist[best] < t.currDist[x]))
  {
    var minDist := INT_MAX;
    best := NULL;
    for i := 0 to t.nodes.Length
      invariant best == NULL ==> minDist == INT_MAX
      invariant best != NULL ==>
                  && 0 <= best < i && t.nodes[best].ty != NoNode && t.inQueue[best]
                  && t.currDist[best] == minDist < INT_MAX
      invariant forall x :: 0 <= x < i && t.nodes[x].ty != NoNode && t.inQueue[x] ==>
                  minDist <= t.currDist[x] && (best != NULL && x < best ==> minDist < t.currDist[x])
    {
      if t.nodes[i].ty != NoNode && t.inQueue[i] && t.currDist[i] < minDist {
        minDist := t.currDist[i];
        best := i;
      }
    }
  }

  datatype Neighbour = Neighbour(node: nat, dist: int)

  /** Step s out of u is allowed and leads to a node that is still queued. */
  ghost predicate Offers(q: Query, queued: seq<bool>, u: nat, s: Step)
    requires QueryOk(q) && |queued| == |q.g.node| && RealNode(q.g, u)
  {
    Enabled(q.g, q.p, u, s) && queued[Target(q.g, q.p, u, s)]
  }

  ghost predicate Describes(q: Query, u: nat, s: Step, nb: Neighbour)
    requires QueryOk(q) && RealNode(q.g, u)
  {
    Enabled(q.g, q.p, u, s) && nb == Neighbour(Target(q.g, q.p, u, s), Cost(q.g, q.p, u, s))
  }

  /** found lists exactly the neighbours that steps lead to, all of them on offer. */
  ghost predicate Listing(q: Query, queued: seq<bool>, u: nat, found: seq<Neighbour>, steps: seq<Step>)
    requires QueryOk(q) && |queued| == |q.g.node| && RealNode(q.g, u)
  {
    |found| == |steps| &&
    forall i :: 0 <= i < |steps| ==> Offers(q, queued, u, steps[i]) && Describes(q, u, steps[i], found[i])
  }

  /** The move along one leg, if it is open to the train and leads to a queued node. */
  method TryLeg(t: Track, train: int, avoid1: int, avoid2: int, u: nat, dir: nat, ghost q: Query)
    returns (found: seq<Neighbour>, ghost steps: seq<Step>)
    requires t.Valid() && QueryOk(q) && q == QueryOf(t, train, avoid1, avoid2, q.start, q.step)
    requires RealNode(q.g, u) && HasLeg(q.g, u, dir)
    ensures steps == if Offers(q, t.inQueue[..], u, Leg(dir)) then [Leg(dir)] else []
    ensures Listing(q, t.inQueue[..], u, found, steps)
  {
    assert LegOk(q.g, |q.g.node|, u, dir);
    var e := EdgeId(u, dir);
    var edge := t.edges[e];
    if t.inQueue[edge.dest]
       && (t.owner[e] == UNRESERVED || t.owner[e] == train)
       && (avoid1 == NULL || e != avoid1)
       && (avoid2 == NULL || e != avoid2)
    {
      found, steps := [Neighbour(edge.dest, edge.dist)], [Leg(dir)];
    } else {
      found, steps := [], [];
    }
  }

  /** Turning round at u, if that is safe and the edge needed beyond u is open to the train. */
  method TryReverse(t: Track, train: int, u: nat, ghost q: Query)
    returns (found: seq<Neighbour>, ghost steps: seq<Step>)
    requires t.Valid() && QueryOk(q) && q == QueryOf(t, train, q.p.avoid1, q.p.avoid2, q.start, q.step)
    requires RealNode(q.g, u)
    ensures steps == if Offers(q, t.inQueue[..], u, Reverse) then [Reverse] else []
    ensures Listing(q, t.inQueue[..], u, found, steps)
  {
    assert NodeOk(q.g, |q.g.node|, u);
    found, steps := [], [];
    if t.safeReverseDist[u] != INT_MAX && t.inQueue[t.nodes[u].reverse] {
      var beyond := NULL;
      if t.nodes[u].ty == Branch {
        beyond := EdgeId(u, DIR_CURVED);
      } else if t.nodes[u].ty != Exit {
        beyond := EdgeId(u, DIR_AHEAD);
      }
      if beyond != NULL && (t.owner[beyond] == UNRESERVED || t.owner[beyond] == train) {
        found, steps := [Neighbour(t.nodes[u].reverse, 2 * t.safeReverseDist[u])], [Reverse];
      }
    }
  }

  lemma JoinListings(q: Query, queued: seq<bool>, u: nat, f1: seq<Neighbour>, s1: seq<Step>, f2: seq<Neighbour>,
                     s2: seq<Step>)
    requires QueryOk(q) && |queued| == |q.g.node| && RealNode(q.g, u)
    requires Listing(q, queued, u, f1, s1) && Listing(q, queued, u, f2, s2)
    ensures Listing(q, queued, u, f1 + f2, s1 + s2)
  {
  }

  lemma InOneOf<T>(a: seq<T>, b: seq<T>, x: T)
    ensures x in a + b <==> x in a || x in b
  {
    if x in a {
      var i :| 0 <= i < |a| && a[i] == x;
      assert (a + b)[i] == x;
    } else if x in b {
      var i :| 0 <= i < |b| && b[i] == x;
      assert (a + b)[|a| + i] == x;
    }
  }

  /** Every way out of u that is on offer is among steps: turning round and at most two legs. */
  ghost predicate Covers(q: Query, queued: seq<bool>, u: nat, steps: seq<Step>)
    requires QueryOk(q) && |queued| == |q.g.node| && RealNode(q.g, u)
  {
    && (Offers(q, queued, u, Reverse) ==> Reverse in steps)
    && (Offers(q, queued, u, Leg(DIR_AHEAD)) ==> Leg(DIR_AHEAD) in steps)
    && (Offers(q, queued, u, Leg(DIR_CURVED)) ==> Leg(DIR_CURVED) in steps)
  }

  lemma ThreeMoves(q: Query, queued: seq<bool>, u: nat, f1: seq<Neighbour>, s1: seq<Step>,
                   f2: seq<Neighbour>, s2: seq<Step>, f3: seq<Neighbour>, s3: seq<Step>)
    requires QueryOk(q) && |queued| == |q.g.node| && RealNode(q.g, u)
    requires Listing(q, queued, u, f1, s1) && Listing(q, queued, u, f2, s2) && Listing(q, queued, u, f3, s3)
    requires s1 == if Offers(q, queued, u, Reverse) then [Reverse] else []
    requires s2 == if Offers(q, queued, u, Leg(DIR_AHEAD)) then [Leg(DIR_AHEAD)] else []
    requires s3 == if Offers(q, queued, u, Leg(DIR_CURVED)) then [Leg(DIR_CURVED)] else []
    ensures Covers(q, queued, u, s1 + s2 + s3)
    ensures Listing(q, queued, u, f1 + f2 + f3, s1 + s2 + s3) && |f1 + f2 + f3| <= 3
  {
    JoinListings(q, queued, u, f1, s1, f2, s2);
    JoinListings(q, queued, u, f1 + f2, s1 + s2, f3, s3);
    InOneOf(s1, s2, Reverse);
    InOneOf(s1 + s2, s3, Reverse);
    InOneOf(s1, s2, Leg(DIR_AHEAD));
    InOneOf(s1 + s2, s3, Leg(DIR_AHEAD));
    InOneOf(s1 + s2, s3, Leg(DIR_CURVED));
  }

  /** The up to three moves out of u that lead to queued nodes: turning round, then the legs. */
  method Neighbours(t: Track, train: int, avoid1: int, avoid2: int, u: nat, ghost q: Query)
    returns (found: seq<Neighbour>, ghost steps: seq<Step>)
    requires t.Valid() && QueryOk(q) && q == QueryOf(t, train, avoid1, avoid2, q.start, q.step)
    requires RealNode(q.g, u)
    ensures |found| <= 3 && Listing(q, t.inQueue[..], u, found, steps) && Covers(q, t.inQueue[..], u, steps)
  {
    var f1, s1 := TryReverse(t, train, u, q);
    var f2, f3 := [], [];
    ghost var s2, s3 := [], [];
    if t.nodes[u].ty == Branch {
      f2, s2 := TryLeg(t, train, avoid1, avoid2, u, DIR_STRAIGHT, q);
      f3, s3 := TryLeg(t, train, avoid1, avoid2, u, DIR_CURVED, q);
    } else if t.nodes[u].ty != Exit {
      f2, s2 := TryLeg(t, train, avoid1, avoid2, u, DIR_AHEAD, q);
    }
    found, steps := f1 + f2 + f3, s1 + s2 + s3;
    ThreeMoves(q, t.inQueue[..], u, f1, s1, f2, s2, f3, s3);
  }

  lemma ImproveKeepsTight(q: Query, st: Search, k: nat, u: nat, s: Step, a: Step)
    requires Expanding(q, st, k, u) && Enabled(q.g, q.p, u, s)
    requires st.queued[Target(q.g, q.p, u, s)]
    requires st.dist[u] + Cost(q.g, q.p, u, s) <= st.dist[Target(q.g, q.p, u, s)]
    ensures Tight(q, st, u, a) ==> Tight(q, Relaxed(q, st, u, s), u, a)
    ensures Tight(q, Relaxed(q, st, u, s), u, s)
  {
  }

  /** What one pass of the relaxation loop does. */
  lemma RelaxOne(q: Query, st: Search, k: nat, u: nat, found: seq<Neighbour>, steps: seq<Step>, i: nat)
    returns (st': Search)
    requires Expanding(q, st, k, u) && Listing(q, st.queued, u, found, steps) && i < |steps|
    requires forall j :: 0 <= j < i ==> Tight(q, st, u, steps[j])
    ensures found[i].node < |q.g.node|
    ensures var d := found[i].dist + st.dist[u];
            st' == if d < st.dist[found[i].node] then
                     st.(dist := st.dist[found[i].node := d], prev := st.prev[found[i].node := u],
                         via := st.via[found[i].node := st.via[u] + [steps[i]]])
                   else st
    ensures Expanding(q, st', k, u)
    ensures forall j :: 0 <= j <= i ==> Tight(q, st', u, steps[j])
  {
    assert Offers(q, st.queued, u, steps[i]) && Describes(q, u, steps[i], found[i]);
    if found[i].dist + st.dist[u] < st.dist[found[i].node] {
      st' := Improve(q, st, k, u, steps[i]);
      forall j | 0 <= j <= i
        ensures Tight(q, st', u, steps[j])
      {
        ImproveKeepsTight(q, st, k, u, steps[i], steps[j]);
      }
    } else {
      st' := st;
    }
  }

  /** Once every offered step is accounted for, u is as closed as the nodes settled before it. */
  lemma CloseNode(q: Query, st: Search, k: nat, u: nat, steps: seq<Step>)
    requires Expanding(q, st, k, u)
    requires Covers(q, st.queued, u, steps)
    requires forall j :: 0 <= j < |steps| ==> Tight(q, st, u, steps[j])
    ensures Closed(q, st, NULL)
  {
    forall x, s | RealNode(q.g, x) && !st.queued[x]
      ensures Tight(q, st, x, s)
    {
      if x == u && Enabled(q.g, q.p, u, s) {
        var v := Target(q.g, q.p, u, s);
        if st.queued[v] {
          assert Offers(q, st.queued, u, s);
          assert s in steps;
        } else {
          assert RealNode(q.g, v);
        }
      }
    }
  }

  method RelaxAll(t: Track, u: nat, found: seq<Neighbour>, ghost steps: seq<Step>, ghost q: Query, ghost k: nat,
                  ghost via0: seq<seq<Step>>)
    returns (ghost via: seq<seq<Step>>)
    requires t.Valid() && Expanding(q, Now(t, via0), k, u)
    requires Listing(q, t.inQueue[..], u, found, steps)
    requires Covers(q, t.inQueue[..], u, steps)
    modifies t.currDist, t.routePrevious
    ensures Progress(q, Now(t, via), k) && Closed(q, Now(t, via), NULL)
  {
    via := via0;
    for i := 0 to |found|
      invariant Expanding(q, Now(t, via), k, u)
      invariant forall j :: 0 <= j < i ==> Tight(q, Now(t, via), u, steps[j])
    {
      ghost var st := Now(t, via);
      ghost var st' := RelaxOne(q, st, k, u, found, steps, i);
      var tempDist := found[i].dist + t.currDist[u];
      if tempDist < t.currDist[found[i].node] {
        t.currDist[found[i].node] := tempDist;
        t.routePrevious[found[i].node] := u;
      }
      via := st'.via;
      assert Now(t, via) == st';
    }
    CloseNode(q, Now(t, via), k, u, steps);
  }

  ghost function Settled(q: Query, queued: seq<bool>): (s: set<nat>)
    requires |queued| == |q.g.node|
    ensures forall x :: x in s <==> RealNode(q.g, x) && !queued[x]
  {
    set x: nat | 0 <= x < |q.g.node| && RealNode(q.g, x) && !queued[x]
  }

  lemma AtMost(s: set<nat>, n: nat)
    requires forall x :: x in s ==> 0 <= x < n
    ensures |s| <= n
  {
    if n == 0 {
      assert s == {};
    } else {
      AtMost(s - {n - 1}, n - 1);
    }
  }

  /** The goal is never settled, so fewer than all nodes are. */
  lemma GoalLeftOut(q: Query, queued: seq<bool>, goal: nat)
    requires |queued| == |q.g.node| && RealNode(q.g, goal) && queued[goal]
    ensures |Settled(q, queued)| < |q.g.node|
  {
    AtMost(Settled(q, queued) + {goal}, |q.g.node|);
  }

  lemma SettledGrows(q: Query, queued: seq<bool>, u: nat)
    requires |queued| == |q.g.node| && RealNode(q.g, u) && queued[u]
    ensures |Settled(q, queued[u := false])| == |Settled(q, queued)| + 1
  {
    assert Settled(q, queued[u := false]) == Settled(q, queued) + {u};
  }

  ghost predicate Fresh(q: Query, st: Search, x: nat)
    requires Sizes(q, st) && RealNode(q.g, x)
  {
    st.queued[x] && st.prev[x] == NULL && st.dist[x] == if x == q.start then 0 else INT_MAX
  }

  lemma InitialProgress(q: Query, st: Search)
    requires QueryOk(q) && Sizes(q, st) && st.via[q.start] == []
    requires forall x :: RealNode(q.g, x) ==> Fresh(q, st, x)
    ensures Progress(q, st, 0) && Closed(q, st, NULL) && Settled(q, st.queued) == {}
  {
    forall x | RealNode(q.g, x)
      ensures Labelled(q, st, 0, x)
    {
      assert Fresh(q, st, x);
    }
  }

  /** d is the cost of a cheapest walk from the start of q to goal; INT_MAX when there is none. */
  ghost predicate IsShortest(q: Query, goal: nat, d: int)
    requires QueryOk(q)
  {
    && (d == INT_MAX <==> !exists w :: Reaches(q.g, q.p, q.start, goal, w))
    && (forall w :: Reaches(q.g, q.p, q.start, goal, w) ==> d <= WalkCost(q.g, q.p, q.start, w))
    && (d != INT_MAX ==> exists w :: Reaches(q.g, q.p, q.start, goal, w) && WalkCost(q.g, q.p, q.start, w) == d)
  }

  /** A finished search has found the shortest distance to its goal. */
  lemma SearchIsShortest(q: Query, st: Search, k: nat, goal: nat)
    requires Progress(q, st, k) && k < |q.g.node| && Closed(q, st, NULL)
    requires RealNode(q.g, goal) && st.queued[goal] && NoneNearer(q, st, st.dist[goal]) && st.dist[goal] <= INT_MAX
    ensures IsShortest(q, goal, st.dist[goal])
  {
    assert Labelled(q, st, k, goal);
    forall w | Reaches(q.g, q.p, q.start, goal, w)
      ensures st.dist[goal] != INT_MAX && st.dist[goal] <= WalkCost(q.g, q.p, q.start, w)
    {
      WalkNotShorter(q, st, k, st.dist[goal], w);
      if st.dist[goal] == INT_MAX {
        WalkStaysSettled(q, st, k, w);
      }
    }
  }

  lemma FinishSearch(q: Query, st: Search, k: nat, u: int, goal: nat)
    requires Progress(q, st, k) && k < |q.g.node| && Closed(q, st, NULL)
    requires RealNode(q.g, goal) && st.queued[goal] && (u == NULL || u == goal)
    requires NoneNearer(q, st, if u == NULL then INT_MAX else st.dist[goal])
    ensures IsShortest(q, goal, st.dist[goal])
  {
    assert Labelled(q, st, k, goal);
    StepFits(q, k);
    SearchIsShortest(q, st, k, goal);
  }

  /** One round of the main loop: settle u and offer its neighbours the way through it. */
  method ExpandNode(t: Track, train: int, avoid1: int, avoid2: int, u: nat, ghost q: Query,
                    ghost k: nat, ghost via0: seq<seq<Step>>)
    returns (ghost via: seq<seq<Step>>)
    requires t.Valid() && QueryOk(q) && q == QueryOf(t, train, avoid1, avoid2, q.start, q.step)
    requires Progress(q, Now(t, via0), k) && Closed(q, Now(t, via0), NULL) && k < t.nodes.Length
    requires RealNode(q.g, u) && t.inQueue[u] && t.currDist[u] != INT_MAX && NoneNearer(q, Now(t, via0), t.currDist[u])
    modifies t.currDist, t.inQueue, t.routePrevious
    ensures t.inQueue[..] == old(t.inQueue[..])[u := false]
    ensures Progress(q, Now(t, via), k + 1) && Closed(q, Now(t, via), NULL)
  {
    ghost var st' := Settle(q, Now(t, via0), k, u);
    t.inQueue[u] := false;
    assert Now(t, via0) == st';
    var found, steps := Neighbours(t, train, avoid1, avoid2, u, q);
    via := RelaxAll(t, u, found, steps, q, k + 1, via0);
  }

  /** The main loop's invariant: k nodes settled, the goal not among them. */
  ghost predicate Searching(q: Query, st: Search, k: nat, goal: nat)
  {
    && Progress(q, st, k) && Closed(q, st, NULL) && RealNode(q.g, goal) && st.queued[goal]
    && k == |Settled(q, st.queued)| < |q.g.node|
  }

  lemma StartSearch(q: Query, st: Search, goal: nat)
    requires QueryOk(q) && Sizes(q, st) && st.via[q.start] == [] && RealNode(q.g, goal)
    requires forall x :: RealNode(q.g, x) ==> Fresh(q, st, x)
    ensures Searching(q, st, 0, goal)
  {
    assert Fresh(q, st, goal);
    InitialProgress(q, st);
  }

  lemma NextSearch(q: Query, queued: seq<bool>, st': Search, k: nat, u: nat, goal: nat)
    requires |queued| == |q.g.node| && RealNode(q.g, u) && queued[u] && RealNode(q.g, goal) && queued[goal] && u != goal
    requires k == |Settled(q, queued)|
    requires Progress(q, st', k + 1) && Closed(q, st', NULL) && st'.queued == queued[u := false]
    ensures Searching(q, st', k + 1, goal)
  {
    SettledGrows(q, queued, u);
    GoalLeftOut(q, st'.queued, goal);
  }

  /** One turn of the main loop, when it does not end. */
  method SearchOn(t: Track, train: int, avoid1: int, avoid2: int, u: nat, ghost q: Query, ghost k: nat,
                  ghost via0: seq<seq<Step>>, ghost goal: nat)
    returns (ghost via: seq<seq<Step>>)
    requires t.Valid() && QueryOk(q) && q == QueryOf(t, train, avoid1, avoid2, q.start, q.step)
    requires Searching(q, Now(t, via0), k, goal) && RealNode(q.g, u) && t.inQueue[u] && u != goal
    requires t.currDist[u] != INT_MAX && NoneNearer(q, Now(t, via0), t.currDist[u])
    modifies t.currDist, t.inQueue, t.routePrevious
    ensures Searching(q, Now(t, via), k + 1, goal)
  {
    ghost var queued := t.inQueue[..];
    via := ExpandNode(t, train, avoid1, avoid2, u, q, k, via0);
    NextSearch(q, queued, Now(t, via), k, u, goal);
  }

  /** findRoute's main loop. */
  method Dijkstra(t: Track, train: int, avoid1: int, avoid2: int, start: nat, goal: nat, ghost q: Query)
    returns (ghost via: seq<seq<Step>>, ghost k: nat)
    requires t.Valid() && QueryOk(q) && q == QueryOf(t, train, avoid1, avoid2, start, q.step)
    requires RealNode(q.g, goal) && start != goal
    requires forall x :: RealNode(q.g, x) ==> Fresh(q, Now(t, seq(t.nodes.Length, _ => [])), x)
    modifies t.currDist, t.inQueue, t.routePrevious
    ensures Progress(q, Now(t, via), k) && k < t.nodes.Length
    ensures IsShortest(q, goal, t.currDist[goal])
  {
    via, k := seq(t.nodes.Length, _ => []), 0;
    StartSearch(q, Now(t, via), goal);
    while true
      invariant Searching(q, Now(t, via), k, goal)
      decreases t.nodes.Length - k
    {
      var u := NearestQueued(t);
      if u == NULL || u == goal {
        FinishSearch(q, Now(t, via), k, u, goal);
        return;
      }
      via := SearchOn(t, train, avoid1, avoid2, u, q, k, via, goal);
      k := k + 1;
    }
  }
}
