/** Turning the predecessor links left by the search into the list of route entries. */
module RouteRebuild {
  import opened TrackGraph
  import opened TrackState
  import opened Landmarks
  import opened Walks
  import opened RoutePlanning

  const REVERSE: int := -1
  const MAX_ROUTE_NODE: nat := 300

  datatype RouteNode = RouteNode(landmark: Landmark, num: int, dist: int)

  class Route {
    var dist: int
    var length: int
    const nodes: array<RouteNode>

    constructor ()
      ensures dist == 0 && length == 0 && nodes.Length == MAX_ROUTE_NODE && fresh(nodes)
    {
      dist := 0;
      length := 0;
      nodes := new RouteNode[MAX_ROUTE_NODE](_ => RouteNode(Landmark(BadMark, 0, 0), 0, 0));
    }

    /** The entries that count. */
    ghost function Shown(): seq<RouteNode>
      reads this, nodes
    {
      if 0 <= length <= nodes.Length then nodes[..length] else []
    }
  }

  // ---- what a route says about a walk ----

  /** The turnout setting with which merge u is entered from node prev. */
  ghost function EntrySetting(g: Graph, u: nat, prev: nat): int
    requires Plannable(g, |g.node|) && u < |g.node| && prev < |g.node| && g.node[u].ty != NoNode
  {
    assert NodeOk(g, |g.node|, u);
    if g.edge[EdgeId(g.node[u].reverse, DIR_STRAIGHT)].dest == g.node[prev].reverse then SWITCH_STRAIGHT
    else SWITCH_CURVED
  }

  /** The entries for making step s at node u, having come from prev (NULL at the start). */
  ghost function Entry(g: Graph, p: Policy, u: nat, prev: int, s: Step): (r: seq<RouteNode>)
    requires Fits(g, p) && u < |g.node| && Enabled(g, p, u, s) && prev < |g.node|
    ensures 1 <= |r| <= 2
  {
    var mark := LandmarkOf(g.node[u]);
    match s
    case Reverse =>
      [RouteNode(mark, SWITCH_CURVED, p.safe[u]), RouteNode(mark, REVERSE, p.safe[u])]
    case Leg(dir) =>
      var num :=
        if g.node[u].ty == Branch then (if dir == DIR_STRAIGHT then SWITCH_STRAIGHT else SWITCH_CURVED)
        else if g.node[u].ty == Merge && prev >= 0 then EntrySetting(g, u, prev)
        else 0;
      [RouteNode(mark, num, g.edge[EdgeId(u, dir)].dist)]
  }

  ghost function Before(g: Graph, p: Policy, u: nat, w: seq<Step>): (r: int)
    requires Fits(g, p) && u < |g.node| && IsWalk(g, p, u, w)
    ensures r < |g.node|
  {
    if |w| == 0 then NULL else End(g, p, u, w[..|w| - 1])
  }

  /** The entries of a whole walk, in driving order. */
  ghost function Entries(g: Graph, p: Policy, u: nat, w: seq<Step>): (r: seq<RouteNode>)
    requires Fits(g, p) && u < |g.node| && IsWalk(g, p, u, w)
    ensures |w| <= |r| <= 2 * |w|
    decreases |w|
  {
    if |w| == 0 then []
    else
      var w' := w[..|w| - 1];
      Entries(g, p, u, w') + Entry(g, p, End(g, p, u, w'), Before(g, p, u, w'), w[|w| - 1])
  }

  ghost function Total(r: seq<RouteNode>): int
  {
    if |r| == 0 then 0 else Total(r[..|r| - 1]) + r[|r| - 1].dist
  }

  lemma {:induction false} TotalOfSum(a: seq<RouteNode>, b: seq<RouteNode>)
    ensures Total(a + b) == Total(a) + Total(b)
    decreases |b|
  {
    if |b| == 0 {
      assert a + b == a;
    } else {
      assert (a + b)[..|a + b| - 1] == a + b[..|b| - 1];
      TotalOfSum(a, b[..|b| - 1]);
    }
  }

  /** The distances on a route add up to the cost of its walk; each reversal shows up twice. */
  lemma {:induction false} EntriesTotal(g: Graph, p: Policy, u: nat, w: seq<Step>)
    requires Fits(g, p) && u < |g.node| && IsWalk(g, p, u, w)
    ensures Total(Entries(g, p, u, w)) == WalkCost(g, p, u, w)
    decreases |w|
  {
    if |w| > 0 {
      var w' := w[..|w| - 1];
      EntriesTotal(g, p, u, w');
      var last := Entry(g, p, End(g, p, u, w'), Before(g, p, u, w'), w[|w| - 1]);
      TotalOfSum(Entries(g, p, u, w'), last);
      if |last| == 2 {
        assert Total(last[..1]) == Total(last[..1][..0]) + last[0].dist;
      } else {
        assert last[..0] == [];
      }
    }
  }

  // ---- rebuilding ----

  /** The entries for node u when the walk goes on to node next (NULL after the goal). */
  method EntriesFor(t: Track, u: nat, next: int, ghost q: Query, ghost s: Step) returns (r: seq<RouteNode>)
    requires t.Valid() && QueryOk(q) && RealNode(q.g, u) && q.g == t.G() && q.p.safe == t.safeReverseDist[..]
    requires if next == NULL then t.nodes[u].ty == Fake
             else Enabled(q.g, q.p, u, s) && Target(q.g, q.p, u, s) == next
    requires t.nodes[u].ty == Merge ==> t.nodes[u].reverse == next || 0 <= t.routePrevious[u]
    requires t.routePrevious[u] < t.nodes.Length
    ensures next != NULL ==> r == Entry(q.g, q.p, u, t.routePrevious[u], s)
    ensures next == NULL ==> r == [RouteNode(LandmarkOf(t.nodes[u]), 0, t.edges[EdgeId(u, DIR_AHEAD)].dist)]
  {
    var v := t.nodes[u];
    var mark := LandmarkOf(v);
    assert NodeOk(q.g, |q.g.node|, u) && LegsDiffer(q.g, u);
    assert s.Leg? ==> LegOk(q.g, |q.g.node|, u, s.dir);
    if v.reverse == next {
      r := [RouteNode(mark, SWITCH_CURVED, t.safeReverseDist[u]), RouteNode(mark, REVERSE, t.safeReverseDist[u])];
    } else if v.ty == Merge {
      if t.edges[EdgeId(v.reverse, DIR_STRAIGHT)].dest == t.nodes[t.routePrevious[u]].reverse {
        r := [RouteNode(mark, SWITCH_STRAIGHT, t.edges[EdgeId(u, DIR_AHEAD)].dist)];
      } else {
        r := [RouteNode(mark, SWITCH_CURVED, t.edges[EdgeId(u, DIR_AHEAD)].dist)];
      }
    } else if v.ty == Branch {
      if t.edges[EdgeId(u, DIR_STRAIGHT)].dest == next {
        r := [RouteNode(mark, SWITCH_STRAIGHT, t.edges[EdgeId(u, DIR_STRAIGHT)].dist)];
      } else {
        r := [RouteNode(mark, SWITCH_CURVED, t.edges[EdgeId(u, DIR_CURVED)].dist)];
      }
    } else {
      r := [RouteNode(mark, 0, t.edges[EdgeId(u, DIR_AHEAD)].dist)];
    }
  }

  /** Following the predecessor link of a labelled node undoes the last step of its walk. */
  lemma StepBack(q: Query, st: Search, k: nat, x: nat)
    requires Progress(q, st, k) && RealNode(q.g, x) && st.dist[x] != INT_MAX && x != q.start
    ensures var w := st.via[x]; var y := st.prev[x];
            && RealNode(q.g, y) && |w| > 0 && st.via[y] == w[..|w| - 1] && st.dist[y] != INT_MAX
            && IsWalk(q.g, q.p, q.start, w) && IsWalk(q.g, q.p, q.start, w[..|w| - 1])
            && End(q.g, q.p, q.start, w[..|w| - 1]) == y
            && Enabled(q.g, q.p, y, w[|w| - 1]) && Target(q.g, q.p, y, w[|w| - 1]) == x
  {
    assert Labelled(q, st, k, x);
    assert Labelled(q, st, k, st.prev[x]);
  }

  /** Writes the one or two entries of r, last first, below index. */
  method Push(temp: array<RouteNode>, index: nat, r: seq<RouteNode>) returns (index': nat)
    requires 1 <= |r| <= 2 && |r| <= index <= temp.Length
    modifies temp
    ensures index' == index - |r|
    ensures temp[index'..] == r + old(temp[index..])
  {
    index' := index;
    if |r| == 2 {
      index' := index' - 1;
      temp[index'] := r[1];
    }
    index' := index' - 1;
    temp[index'] := r[0];
  }

  /** The walk w to node next is still to be written, the entries behind it are in done;
      cur is the node before next (NULL when w is empty). */
  ghost predicate Rebuilding(q: Query, st: Search, w: seq<Step>, cur: int, next: int,
                             total: seq<RouteNode>, done: seq<RouteNode>)
    requires QueryOk(q) && Sizes(q, st)
  {
    && IsWalk(q.g, q.p, q.start, w) && next == End(q.g, q.p, q.start, w)
    && Entries(q.g, q.p, q.start, w) + done == total
    && (cur == NULL <==> |w| == 0)
    && (cur != NULL ==> RealNode(q.g, next) && st.dist[next] != INT_MAX && st.via[next] == w
                        && next != q.start && cur == st.prev[next])
  }

  lemma BeforeIsPrevious(q: Query, st: Search, k: nat, x: nat)
    requires Progress(q, st, k) && RealNode(q.g, x) && st.dist[x] != INT_MAX
    ensures IsWalk(q.g, q.p, q.start, st.via[x]) && End(q.g, q.p, q.start, st.via[x]) == x
    ensures Before(q.g, q.p, q.start, st.via[x]) == st.prev[x] < |q.g.node|
    ensures st.prev[x] == NULL <==> |st.via[x]| == 0
    ensures st.prev[x] == NULL <==> x == q.start
    ensures st.prev[x] == NULL || 0 <= st.prev[x]
  {
    assert Labelled(q, st, k, x);
    if x != q.start {
      StepBack(q, st, k, x);
    }
  }

  /** The last step of a walk moves from the walk's entries to those already written. */
  lemma PeelLast(g: Graph, p: Policy, u: nat, w: seq<Step>, done: seq<RouteNode>)
    requires Fits(g, p) && u < |g.node| && IsWalk(g, p, u, w) && |w| > 0
    ensures var w' := w[..|w| - 1]; var s := w[|w| - 1]; var x := End(g, p, u, w');
            Entries(g, p, u, w) + done == Entries(g, p, u, w') + (Entry(g, p, x, Before(g, p, u, w'), s) + done)
  {
    var w', s := w[..|w| - 1], w[|w| - 1];
    var all, e := Entries(g, p, u, w'), Entry(g, p, End(g, p, u, w'), Before(g, p, u, w'), s);
    assert all + (e + done) == (all + e) + done;
  }

  lemma RebuildOne(q: Query, st: Search, k: nat, w: seq<Step>, cur: int, next: int,
                   total: seq<RouteNode>, done: seq<RouteNode>) returns (s: Step, before: int)
    requires Progress(q, st, k) && q.g.node[q.start].ty == Fake
    requires Rebuilding(q, st, w, cur, next, total, done) && cur != NULL
    ensures RealNode(q.g, cur) && Enabled(q.g, q.p, cur, s) && Target(q.g, q.p, cur, s) == next
    ensures before == st.prev[cur] && before < |q.g.node|
    ensures q.g.node[cur].ty == Merge ==> before >= 0
    ensures Rebuilding(q, st, w[..|w| - 1], before, cur, total, Entry(q.g, q.p, cur, before, s) + done)
  {
    s := w[|w| - 1];
    StepBack(q, st, k, next);
    before := st.prev[cur];
    BeforeIsPrevious(q, st, k, cur);
    PeelLast(q.g, q.p, q.start, w, done);
  }

  /** The whole route for a labelled goal: the entries of its walk, then the goal itself. */
  ghost function FullRoute(q: Query, w: seq<Step>, goal: nat): seq<RouteNode>
    requires QueryOk(q) && IsWalk(q.g, q.p, q.start, w) && goal < |q.g.node|
  {
    Entries(q.g, q.p, q.start, w) + [RouteNode(LandmarkOf(q.g.node[goal]), 0, 0)]
  }

  /** The loop that follows the predecessor links back from the goal. */
  method WriteBackwards(t: Track, goal: nat, temp: array<RouteNode>, top: nat,
                        ghost q: Query, ghost via: seq<seq<Step>>, ghost k: nat, ghost total: seq<RouteNode>)
    returns (index: nat)
    requires t.Valid() && QueryOk(q) && q.g == t.G() && q.p.safe == t.safeReverseDist[..]
    requires Progress(q, Now(t, via), k) && q.g.node[q.start].ty == Fake && RealNode(q.g, goal)
    requires top <= temp.Length && |total| <= temp.Length
    requires Rebuilding(q, Now(t, via), via[goal], t.routePrevious[goal], goal, total, temp[top..])
    modifies temp
    ensures index <= temp.Length && temp[index..] == total
  {
    index := top;
    ghost var st := Now(t, via);
    ghost var w := via[goal];
    var next: nat := goal;
    var cur := t.routePrevious[goal];
    while cur != NULL
      invariant index <= temp.Length
      invariant Rebuilding(q, st, w, cur, next, total, temp[index..])
      decreases |w|
    {
      ghost var s, before := RebuildOne(q, st, k, w, cur, next, total, temp[index..]);
      var r := EntriesFor(t, cur, next, q, s);
      w := w[..|w| - 1];
      index := Push(temp, index, r);
      next := cur;
      cur := t.routePrevious[cur];
    }
  }

  /** The final copy: a route of length 1 is not a route, and the goal's own distance is 0. */
  method CopyOut(temp: array<RouteNode>, index: nat, result: Route)
    requires temp.Length == MAX_ROUTE_NODE == result.nodes.Length && index < MAX_ROUTE_NODE && temp != result.nodes
    modifies result`length, result.nodes
    ensures var built := temp[index..]; var m := |built| - 1;
            if m == 0 then result.length == 0
            else result.length == m + 1 && result.nodes[..m + 1] == built[..m] + [built[m].(dist := 0)]
  {
    result.length := MAX_ROUTE_NODE - index;
    for i := index to MAX_ROUTE_NODE
      invariant result.length == MAX_ROUTE_NODE - index
      invariant forall j :: 0 <= j < i - index ==> result.nodes[j] == temp[index + j]
    {
      result.nodes[i - index] := temp[i];
    }
    if result.length == 1 {
      result.length := 0;
    } else {
      var m := result.length - 1;
      result.nodes[m] := result.nodes[m].(dist := 0);
    }
  }

  lemma BoundedPrevious(q: Query, st: Search, k: nat, x: nat)
    requires Progress(q, st, k) && RealNode(q.g, x)
    ensures st.prev[x] < |q.g.node|
  {
    assert Labelled(q, st, k, x);
  }

  /** Where the backward loop starts. */
  lemma StartRebuilding(q: Query, st: Search, k: nat, goal: nat, last: seq<RouteNode>)
    requires Progress(q, st, k) && k < |q.g.node| && 2 * |q.g.node| <= MAX_ROUTE_NODE
    requires RealNode(q.g, goal) && goal != q.start && |last| == 1
    ensures st.dist[goal] == INT_MAX ==> st.prev[goal] == NULL
    ensures st.dist[goal] != INT_MAX ==>
              && st.prev[goal] != NULL && Reaches(q.g, q.p, q.start, goal, st.via[goal])
              && var total := Entries(q.g, q.p, q.start, st.via[goal]) + last;
              Rebuilding(q, st, st.via[goal], st.prev[goal], goal, total, last) && 1 < |total| < MAX_ROUTE_NODE
  {
    assert Labelled(q, st, k, goal);
    if st.dist[goal] != INT_MAX {
      BeforeIsPrevious(q, st, k, goal);
    }
  }

  /** The goal's own entry as first written, before its distance is cleared. */
  ghost function GoalEntry(g: Graph, goal: nat): RouteNode
    requires Shape(g) && goal < |g.node|
  {
    RouteNode(LandmarkOf(g.node[goal]), 0, g.edge[EdgeId(goal, DIR_AHEAD)].dist)
  }

  method BuildBackwards(t: Track, goal: nat, temp: array<RouteNode>, ghost q: Query, ghost via: seq<seq<Step>>,
                        ghost k: nat)
    returns (index: nat)
    requires t.Valid() && QueryOk(q) && q.g == t.G() && q.p.safe == t.safeReverseDist[..]
    requires Progress(q, Now(t, via), k) && k < t.nodes.Length && 2 * t.nodes.Length <= MAX_ROUTE_NODE == temp.Length
    requires q.g.node[q.start].ty == Fake && goal != q.start && RealNode(q.g, goal) && q.g.node[goal].ty == Fake
    modifies temp
    ensures index < MAX_ROUTE_NODE
    ensures t.currDist[goal] == INT_MAX ==> temp[index..] == [GoalEntry(q.g, goal)]
    ensures t.currDist[goal] != INT_MAX ==>
              && Reaches(q.g, q.p, q.start, goal, via[goal])
              && temp[index..] == Entries(q.g, q.p, q.start, via[goal]) + [GoalEntry(q.g, goal)]
              && 1 < |temp[index..]|
  {
    BoundedPrevious(q, Now(t, via), k, goal);
    var last := EntriesFor(t, goal, NULL, q, Reverse);
    StartRebuilding(q, Now(t, via), k, goal, last);
    index := Push(temp, MAX_ROUTE_NODE, last);
    if t.routePrevious[goal] != NULL {
      index := WriteBackwards(t, goal, temp, index, q, via, k, Entries(q.g, q.p, q.start, via[goal]) + last);
    }
  }

  /** findRoute's construction of the result from the predecessor links. */
  method Rebuild(t: Track, goal: nat, result: Route, ghost q: Query, ghost via: seq<seq<Step>>, ghost k: nat)
    requires t.Valid() && QueryOk(q) && q.g == t.G() && q.p.safe == t.safeReverseDist[..]
    requires Progress(q, Now(t, via), k) && k < t.nodes.Length && 2 * t.nodes.Length <= MAX_ROUTE_NODE
    requires q.g.node[q.start].ty == Fake && goal != q.start && RealNode(q.g, goal) && q.g.node[goal].ty == Fake
    requires result.nodes.Length == MAX_ROUTE_NODE
    modifies result, result.nodes
    ensures result.dist == t.currDist[goal]
    ensures t.currDist[goal] == INT_MAX ==> result.length == 0
    ensures t.currDist[goal] != INT_MAX ==>
              && Reaches(q.g, q.p, q.start, goal, via[goal])
              && 0 <= result.length <= MAX_ROUTE_NODE
              && result.nodes[..result.length] == FullRoute(q, via[goal], goal)
  {
    var temp := new RouteNode[MAX_ROUTE_NODE](_ => RouteNode(Landmark(BadMark, 0, 0), 0, 0));
    var index := BuildBackwards(t, goal, temp, q, via, k);
    result.dist := t.currDist[goal];
    CopyOut(temp, index, result);
  }
}
