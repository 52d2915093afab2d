/** Splicing a position into the track in place, and taking it out again. */
module SpliceInPlace {
  import opened TrackGraph
  import opened TrackState
  import opened Splicing

  // ---- saving and putting back nodes ----

  /** A copy of a node record with its two edge records. */
  datatype NodeCopy = NodeCopy(at: nat, node: Node, edge0: Edge, edge1: Edge, owner0: int, owner1: int)

  ghost function CopyOf(g: Graph, owner: seq<int>, x: nat): NodeCopy
    requires Shape(g) && |owner| == |g.edge| && x < |g.node|
  {
    NodeCopy(x, g.node[x], g.edge[2 * x], g.edge[2 * x + 1], owner[2 * x], owner[2 * x + 1])
  }

  ghost function PutBack(g: Graph, c: NodeCopy): Graph
    requires Shape(g) && c.at < |g.node|
  {
    Graph(g.node[c.at := c.node], g.edge[2 * c.at := c.edge0][2 * c.at + 1 := c.edge1])
  }

  ghost function PutBackOwner(owner: seq<int>, c: NodeCopy): seq<int>
    requires 2 * c.at + 1 < |owner|
  {
    owner[2 * c.at := c.owner0][2 * c.at + 1 := c.owner1]
  }

  method Save(t: Track, x: nat) returns (c: NodeCopy)
    requires t.Valid() && x < t.nodes.Length
    ensures c == CopyOf(t.G(), t.Owners(), x)
  {
    c := NodeCopy(x, t.nodes[x], t.edges[2 * x], t.edges[2 * x + 1], t.owner[2 * x], t.owner[2 * x + 1]);
  }

  method Restore(t: Track, c: NodeCopy)
    requires t.Valid() && c.at < t.nodes.Length
    modifies t.nodes, t.edges, t.owner
    ensures t.G() == PutBack(old(t.G()), c) && t.Owners() == PutBackOwner(old(t.Owners()), c)
  {
    t.nodes[c.at] := c.node;
    t.edges[2 * c.at] := c.edge0;
    t.edges[2 * c.at + 1] := c.edge1;
    t.owner[2 * c.at] := c.owner0;
    t.owner[2 * c.at + 1] := c.owner1;
  }

  /** The two graphs have the same first n nodes and the same edges there. */
  ghost predicate Agree(a: Graph, b: Graph, n: nat)
  {
    && Shape(a) && Shape(b) && n <= |a.node| && n <= |b.node|
    && (forall x :: 0 <= x < n ==> a.node[x] == b.node[x])
    && (forall i :: 0 <= i < 2 * n ==> a.edge[i] == b.edge[i])
  }

  /** Putting back the two nodes that hold edges e and r undoes any change to those two edges,
      whatever happened to nodes beyond the first n in the meantime. */
  lemma PutBackTwo(g: Graph, owner: seq<int>, h: Graph, n: nat, x: nat, y: nat, e: nat, r: nat)
    requires Shape(g) && Shape(h) && |owner| == |g.edge| && n <= |g.node| && n <= |h.node| && x < n && y < n
    requires (e == 2 * x || e == 2 * x + 1) && (r == 2 * y || r == 2 * y + 1)
    requires forall i :: 0 <= i < n ==> h.node[i] == g.node[i]
    requires forall i :: 0 <= i < 2 * n && i != e && i != r ==> h.edge[i] == g.edge[i]
    ensures Agree(PutBack(PutBack(h, CopyOf(g, owner, x)), CopyOf(g, owner, y)), g, n)
  {
  }

  /** edgeType. A leg is the record its source holds in this direction. */
  method EdgeType(t: Track, e: nat) returns (dir: nat)
    requires t.Valid() && e < t.edges.Length && t.edges[e].src < t.nodes.Length
    ensures dir == EdgeDir(t.G(), e)
    ensures IsLegOf(t.G(), t.edges[e].src, e) ==> HasLeg(t.G(), t.edges[e].src, dir) && EdgeId(t.edges[e].src, dir) == e
  {
    if t.nodes[t.edges[e].src].ty != Branch {
      dir := DIR_AHEAD;
    } else if e == EdgeId(t.edges[e].src, DIR_STRAIGHT) {
      dir := DIR_STRAIGHT;
    } else {
      dir := DIR_CURVED;
    }
  }

  /** Fills in one of the two temporary nodes. */
  method WriteFake(t: Track, f: nat, reverse: nat, edge: Edge, owner: int)
    requires t.Valid() && f < t.nodes.Length
    modifies t.nodes, t.edges, t.owner
    ensures t.nodes[..] == old(t.nodes[..])[f := Node(Fake, old(t.nodes[f].num), reverse)]
    ensures t.edges[..] == old(t.edges[..])[EdgeId(f, DIR_AHEAD) := edge]
    ensures t.Owners() == old(t.Owners())[EdgeId(f, DIR_AHEAD) := owner]
  {
    t.nodes[f] := Node(Fake, t.nodes[f].num, reverse);
    t.edges[EdgeId(f, DIR_AHEAD)] := edge;
    t.owner[EdgeId(f, DIR_AHEAD)] := owner;
  }

  /** Leads an existing edge to a temporary node. */
  method Redirect(t: Track, e: nat, reverse: nat, dest: nat, dist: int)
    requires t.Valid() && e < t.edges.Length
    modifies t.edges
    ensures t.edges[..] == old(t.edges[..])[e := old(t.edges[e]).(reverse := reverse, dest := dest, dist := dist)]
  {
    t.edges[e] := t.edges[e].(reverse := reverse, dest := dest, dist := dist);
  }

  /** The four writes of fakeNode, for edge e with reverse er, at the places computed for them. */
  method WriteSplice(t: Track, f: nat, e: nat, er: nat, back: nat, fwd: nat, other: nat, off: int)
    requires t.Valid() && f + 1 < t.nodes.Length && e < t.edges.Length && er < t.edges.Length
    requires back < t.edges.Length && fwd < t.edges.Length
    modifies t.nodes, t.edges, t.owner
    ensures t.nodes[..] == old(t.nodes[..])[f := Node(Fake, old(t.nodes[f].num), f + 1)]
                                           [f + 1 := Node(Fake, old(t.nodes[f + 1].num), f)]
    ensures var d, r := old(t.edges[e]), old(t.edges[er]);
            var edge1 := old(t.edges[..])[EdgeId(f, DIR_AHEAD) := Edge(f, d.dest, back, d.dist - off)];
            var edge2 := edge1[EdgeId(f + 1, DIR_AHEAD) := Edge(f + 1, r.dest, other, off)];
            var edge3 := edge2[back := edge2[back].(reverse := EdgeId(f, DIR_AHEAD), dest := f + 1,
                                                    dist := d.dist - off)];
            t.edges[..] == edge3[fwd := edge3[fwd].(reverse := EdgeId(f + 1, DIR_AHEAD), dest := f, dist := off)]
    ensures t.Owners() == old(t.Owners()[EdgeId(f, DIR_AHEAD) := t.owner[e]])[EdgeId(f + 1,
                                                                                     DIR_AHEAD) := old(t.owner[er])]
  {
    var edge, edgeReverse, ownerReverse := t.edges[e], t.edges[er], t.owner[er];
    WriteFake(t, f, f + 1, Edge(f, edge.dest, back, edge.dist - off), t.owner[e]);
    WriteFake(t, f + 1, f, Edge(f + 1, edgeReverse.dest, other, off), ownerReverse);
    Redirect(t, back, EdgeId(f, DIR_AHEAD), f + 1, edge.dist - off);
    Redirect(t, fwd, EdgeId(f + 1, DIR_AHEAD), f, off);
  }

  /** fakeNode: the new nodes take the places f and f + 1. */
  method FakeNode(t: Track, e: nat, f: nat, off: int)
    requires t.Valid() && f + 1 < t.nodes.Length && Spliceable(t.G(), f, e)
    modifies t.nodes, t.edges, t.owner
    ensures t.G() == old(Splice(t.G(), e, f, off))
    ensures t.Owners() == old(SpliceOwner(t.G(), t.Owners(), e, f))
  {
    SpliceIds(t.G(), f, e);
    var edge := t.edges[e];
    var dirReverse := EdgeType(t, edge.reverse);
    var dir := EdgeType(t, e);
    var back := EdgeId(t.nodes[edge.dest].reverse, dirReverse);
    var fwd := EdgeId(edge.src, dir);
    var other := EdgeId(t.nodes[edge.src].reverse, dir);
    WriteSplice(t, f, e, edge.reverse, back, fwd, other, off);
  }

  /** The owners of the first n nodes' edges. */
  ghost predicate SameOwners(a: seq<int>, b: seq<int>, n: nat)
  {
    2 * n <= |a| && 2 * n <= |b| && forall i :: 0 <= i < 2 * n ==> a[i] == b[i]
  }

  lemma SpliceKeepsOwners(g: Graph, owner: seq<int>, n: nat, e: nat)
    requires Spliceable(g, n, e) && n + 1 < |g.node| && |owner| == |g.edge|
    ensures SameOwners(SpliceOwner(g, owner, e, n), owner, n)
  {
    SpliceIds(g, n, e);
  }

  /** Putting the two copies back into h takes it from g' to g, as far as the first f nodes go. */
  ghost predicate UndoneAt(f: nat, g: Graph, owner: seq<int>, g': Graph, owner': seq<int>, src: NodeCopy,
                           back: NodeCopy, h: Graph, howner: seq<int>)
  {
    Agree(h, g', f) && SameOwners(howner, owner', f) && |h.node| == |g.node| && |howner| == |h.edge|
    && src.at < |h.node| && back.at < |h.node| ==>
      && Agree(PutBack(PutBack(h, src), back), g, f)
      && SameOwners(PutBackOwner(PutBackOwner(howner, src), back), owner, f)
  }

  /** Whatever else has happened to the track since. */
  ghost predicate Undoes(f: nat, g: Graph, owner: seq<int>, g': Graph, owner': seq<int>, src: NodeCopy, back: NodeCopy)
  {
    && src.at < |g.node| && back.at < |g.node|
    && forall h, howner {:trigger UndoneAt(f, g, owner, g', owner', src, back, h, howner)} ::
      UndoneAt(f, g, owner, g', owner', src, back, h, howner)
  }

  lemma CopiesUndo(g: Graph, g': Graph, owner: seq<int>, owner': seq<int>, e: nat, f: nat, off: int, src: NodeCopy,
                   back: NodeCopy)
    requires Spliceable(g, f, e) && Changes(g, g', f, e, off) && |owner| == |g.edge| && SameOwners(owner', owner, f)
    requires src == CopyOf(g, owner, g.edge[e].src)
    requires g.edge[g.edge[e].reverse].src < |g.node| && back == CopyOf(g, owner, g.edge[g.edge[e].reverse].src)
    ensures Undoes(f, g, owner, g', owner', src, back)
  {
    forall h, howner
      ensures UndoneAt(f, g, owner, g', owner', src, back, h, howner)
    {
      if Agree(h, g', f) && SameOwners(howner, owner', f) && |h.node| == |g.node| && |howner| == |h.edge| {
        OwnersChain(howner, owner', owner, f);
        TakenOut(g, g', owner, e, f, off, h, howner);
      }
    }
  }

  /** Saves the nodes at both ends of edge e and splices a position into it. */
  method SpliceIn(t: Track, e: nat, f: nat, off: int, ghost g: Graph, ghost owner: seq<int>)
    returns (src: NodeCopy, back: NodeCopy)
    requires t.Valid() && f + 1 < t.nodes.Length && t.G() == g && t.Owners() == owner && Spliceable(g, f, e)
    modifies t.nodes, t.edges, t.owner
    ensures t.G() == Splice(g, e, f, off) && t.Owners() == SpliceOwner(g, owner, e, f)
    ensures Undoes(f, g, owner, t.G(), t.Owners(), src, back)
  {
    SpliceIds(g, f, e);
    SpliceKeepsOwners(g, owner, f, e);
    SpliceShape(g, f, e, off);
    src := Save(t, t.edges[e].src);
    back := Save(t, t.edges[t.edges[e].reverse].src);
    FakeNode(t, e, f, off);
    CopiesUndo(g, t.G(), owner, t.Owners(), e, f, off, src, back);
  }

  lemma TakenOut(g: Graph, g': Graph, owner: seq<int>, e: nat, f: nat, off: int, h: Graph, howner: seq<int>)
    requires Spliceable(g, f, e) && Changes(g, g', f, e, off) && |owner| == |g.edge| == |howner|
    requires Agree(h, g', f) && SameOwners(howner, owner, f)
    ensures g.edge[g.edge[e].reverse].src < f
    ensures var c1 := CopyOf(g, owner, g.edge[e].src); var c2 := CopyOf(g, owner, g.edge[g.edge[e].reverse].src);
            Agree(PutBack(PutBack(h, c1), c2), g, f) && SameOwners(PutBackOwner(PutBackOwner(howner, c1), c2), owner, f)
  {
    SpliceIds(g, f, e);
    var x, y, r := g.edge[e].src, g.edge[g.edge[e].reverse].src, g.edge[e].reverse;
    forall i | 0 <= i < f
      ensures h.node[i] == g.node[i]
    {
      assert h.node[i] == g'.node[i];
    }
    forall i | 0 <= i < 2 * f && i != e && i != r
      ensures h.edge[i] == g.edge[i]
    {
      assert h.edge[i] == g'.edge[i];
    }
    PutBackTwo(g, owner, h, f, x, y, e, r);
    PutBackOwners(g, owner, howner, f, x, y);
  }

  lemma PutBackOwners(g: Graph, owner: seq<int>, howner: seq<int>, n: nat, x: nat, y: nat)
    requires Shape(g) && |owner| == |g.edge| == |howner| && x < n && y < n && n <= |g.node|
    requires SameOwners(howner, owner, n)
    ensures SameOwners(PutBackOwner(PutBackOwner(howner, CopyOf(g, owner, x)), CopyOf(g, owner, y)), owner, n)
  {
  }

  /** Puts both saved nodes back: the track below f is as it was when they were saved. */
  method TakeOut(t: Track, src: NodeCopy, back: NodeCopy, ghost f: nat, ghost g: Graph, ghost owner: seq<int>,
                 ghost g': Graph, ghost owner': seq<int>)
    requires t.Valid() && |g.node| == t.nodes.Length && Undoes(f, g, owner, g', owner', src, back)
    requires Agree(t.G(), g', f) && SameOwners(t.Owners(), owner', f)
    modifies t.nodes, t.edges, t.owner
    ensures Agree(t.G(), g, f) && SameOwners(t.Owners(), owner, f)
  {
    assert UndoneAt(f, g, owner, g', owner', src, back, t.G(), t.Owners());
    Restore(t, src);
    Restore(t, back);
  }

  lemma AgreeSelf(g: Graph, n: nat)
    requires Shape(g) && n <= |g.node|
    ensures Agree(g, g, n)
  {
  }

  lemma AgreeOnFewer(a: Graph, b: Graph, oa: seq<int>, ob: seq<int>, n: nat, m: nat)
    requires n <= m && Agree(a, b, m) && SameOwners(oa, ob, m)
    ensures Agree(a, b, n) && SameOwners(oa, ob, n)
  {
  }

  lemma OwnersChain(a: seq<int>, b: seq<int>, c: seq<int>, n: nat)
    requires SameOwners(a, b, n) && SameOwners(b, c, n)
    ensures SameOwners(a, c, n)
  {
  }

  /** Any edge found by locateNode can be spliced. */
  lemma EdgeSpliceable(g: Graph, n: nat, e: nat)
    requires WellFormed(g, n) && IsEdge(g, n, e)
    ensures Spliceable(g, n, e)
  {
    assert Paired(g, n, g.edge[e].src, e - 2 * g.edge[e].src);
  }
}
