/**
 The rail graph of kernel/track: nodes, the two edge records embedded in each node,
 and what the planning and reservation code may take for granted about them.
 A pointer to a node is its index in `track`; a pointer to an edge record is
 2 * node + direction.
 */
module TrackGraph {

  const INT_MAX: int := 0x7FFFFFFF
  const UNRESERVED: int := -1
  const NULL: int := -1

  const DIR_AHEAD: nat := 0
  const DIR_STRAIGHT: nat := 0
  const DIR_CURVED: nat := 1

  const SWITCH_STRAIGHT: int := 35
  const SWITCH_CURVED: int := 34

  datatype NodeType = NoNode | Sensor | Branch | Merge | Enter | Exit | Fake

  datatype Node = Node(ty: NodeType, num: int, reverse: nat)

  datatype Edge = Edge(src: nat, dest: nat, reverse: nat, dist: int)

  datatype Graph = Graph(node: seq<Node>, edge: seq<Edge>)

  /** The edge record `&track[n].edge[dir]`. */
  function EdgeId(n: nat, dir: nat): nat
  {
    2 * n + dir
  }

  /** The directions in which a train can leave a node of this type. */
  predicate HasDir(ty: NodeType, dir: nat)
  {
    match ty
    case NoNode => false
    case Exit => false
    case Branch => dir == DIR_STRAIGHT || dir == DIR_CURVED
    case _ => dir == DIR_AHEAD
  }

  /** Node n of g has a real edge record in direction dir. */
  predicate HasLeg(g: Graph, n: nat, dir: nat)
  {
    n < |g.node| && HasDir(g.node[n].ty, dir)
  }

  ghost predicate RealNode(g: Graph, x: int)
  {
    0 <= x < |g.node| && g.node[x].ty != NoNode
  }

  ghost predicate Shape(g: Graph)
  {
    |g.edge| == 2 * |g.node|
  }

  /** What route planning needs of the first n nodes: they are closed under taking an edge
      and under turning round, turning round twice is nothing, lengths are not negative,
      no edge leads to the other side of its own source, and the two legs of a branch end
      in different places. */
  ghost predicate NodeOk(g: Graph, n: nat, x: nat)
    requires x < |g.node|
  {
    var v := g.node[x];
    v.ty != NoNode ==>
      && v.reverse < n && v.reverse < |g.node| && v.reverse != x
      && g.node[v.reverse].ty != NoNode && g.node[v.reverse].reverse == x
  }

  ghost predicate LegOk(g: Graph, n: nat, x: nat, dir: nat)
    requires Shape(g) && x < |g.node|
  {
    HasLeg(g, x, dir) ==>
      var e := g.edge[EdgeId(x, dir)];
      && e.src == x && e.dest < n && e.dest < |g.node| && e.dist >= 0
      && g.node[e.dest].ty != NoNode && e.dest != g.node[x].reverse
  }

  ghost predicate LegsDiffer(g: Graph, x: nat)
    requires Shape(g) && x < |g.node|
  {
    g.node[x].ty == Branch ==>
      g.edge[EdgeId(x, DIR_STRAIGHT)].dest != g.edge[EdgeId(x, DIR_CURVED)].dest
  }

  ghost predicate Plannable(g: Graph, n: nat)
  {
    && Shape(g) && n <= |g.node|
    && (forall x {:trigger NodeOk(g, n, x)} :: 0 <= x < n ==> NodeOk(g, n, x))
    && (forall x, dir {:trigger LegOk(g, n, x, dir)} :: 0 <= x < n ==> LegOk(g, n, x, dir))
    && (forall x {:trigger LegsDiffer(g, x)} :: 0 <= x < n ==> LegsDiffer(g, x))
  }

  /** e is an edge record of node x. */
  predicate IsLegOf(g: Graph, x: nat, e: nat)
  {
    2 * x <= e && HasLeg(g, x, e - 2 * x)
  }

  /** e is an edge record of one of the first n nodes. */
  ghost predicate IsEdge(g: Graph, n: nat, e: nat)
    requires Plannable(g, n)
  {
    e < |g.edge| && g.edge[e].src < n && IsLegOf(g, g.edge[e].src, e)
  }

  /** Edge e and the record it calls its reverse are the two directions of one piece of track. */
  ghost predicate Reversible(g: Graph, n: nat, e: nat)
    requires Plannable(g, n) && e < |g.edge|
  {
    var d := g.edge[e];
    && d.reverse < |g.edge| && d.src < n && d.dest < n
    && var r := g.edge[d.reverse];
    && r.src < n && g.node[d.src].ty != NoNode && g.node[d.dest].ty != NoNode
    && r.src == g.node[d.dest].reverse && r.dest == g.node[d.src].reverse
    && r.dist == d.dist && IsLegOf(g, r.src, d.reverse)
  }

  /** The leg's other direction names it in turn. */
  ghost predicate Paired(g: Graph, n: nat, x: nat, dir: nat)
    requires Plannable(g, n) && x < n
  {
    HasLeg(g, x, dir) ==>
      Reversible(g, n, EdgeId(x, dir)) && g.edge[g.edge[EdgeId(x, dir)].reverse].reverse == EdgeId(x, dir)
  }

  ghost predicate SidesMatch(g: Graph, n: nat, x: nat)
    requires Plannable(g, n) && x < n
  {
    assert NodeOk(g, n, x);
    && (g.node[x].ty == Branch ==> g.node[g.node[x].reverse].ty == Merge)
    && (g.node[x].ty == Merge ==> g.node[g.node[x].reverse].ty == Branch)
    && (g.node[x].ty == Enter ==> g.node[g.node[x].reverse].ty == Exit)
  }

  /** A complete track: every edge has its other direction, and the two name each other;
      branches and merges are the two sides of a turnout, entries and exits of a dead end. */
  ghost predicate WellFormed(g: Graph, n: nat)
  {
    && Plannable(g, n)
    && (forall x, dir {:trigger Paired(g, n, x, dir)} :: 0 <= x < n ==> Paired(g, n, x, dir))
    && (forall x {:trigger SidesMatch(g, n, x)} :: 0 <= x < n ==> SidesMatch(g, n, x))
  }
}
