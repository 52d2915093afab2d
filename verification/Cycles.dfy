/** Rankings of a track: when no cycle consists of chosen edges only, the nodes can be ranked so that
    chosen edges lead down. */
module Cycles {
  import opened TrackGraph
  import opened Sequences

  /** The edges of es can be driven one after the other. */
  ghost predicate IsChain(g: Graph, n: nat, es: seq<nat>)
    requires Plannable(g, n)
  {
    && (forall i :: 0 <= i < |es| ==> IsEdge(g, n, es[i]))
    && (forall i :: 0 <= i < |es| - 1 ==> g.edge[es[i]].dest == g.edge[es[i + 1]].src)
  }

  ghost predicate IsCycle(g: Graph, n: nat, es: seq<nat>)
    requires Plannable(g, n)
  {
    |es| > 0 && IsChain(g, n, es) && g.edge[es[|es| - 1]].dest == g.edge[es[0]].src
  }

  /** All edges of es are chosen ones. */
  ghost predicate AllChosen(chosen: seq<bool>, es: seq<nat>)
  {
    forall i :: 0 <= i < |es| ==> es[i] < |chosen| && chosen[es[i]]
  }

  /** On every directed cycle there is an edge that is not chosen. */
  ghost predicate NoCycleChosen(g: Graph, n: nat, chosen: seq<bool>)
    requires Plannable(g, n)
  {
    forall es {:trigger IsCycle(g, n, es)} :: IsCycle(g, n, es) ==> !AllChosen(chosen, es)
  }

  ghost predicate ChosenChain(g: Graph, n: nat, chosen: seq<bool>, x: nat, es: seq<nat>)
    requires Plannable(g, n)
  {
    IsChain(g, n, es) && (|es| > 0 ==> g.edge[es[0]].src == x) && AllChosen(chosen, es)
  }

  /** k chosen edges can be driven one after the other from x. */
  ghost predicate HasChain(g: Graph, n: nat, chosen: seq<bool>, x: nat, k: nat)
    requires Plannable(g, n)
  {
    exists es :: |es| == k && ChosenChain(g, n, chosen, x, es)
  }

  /** A chain of chosen edges visits no node twice, so it is shorter than the track has nodes. */
  lemma ChosenChainShort(g: Graph, n: nat, chosen: seq<bool>, x: nat, es: seq<nat>)
    requires Plannable(g, n) && NoCycleChosen(g, n, chosen) && x < n && ChosenChain(g, n, chosen, x, es)
    ensures |es| < n
  {
    var visited := Visited(g, n, x, es);
    forall i, j | 0 <= i < j < |visited|
      ensures visited[i] != visited[j]
    {
      if visited[i] == visited[j] {
        var cycle := es[i..j];
        assert g.edge[es[j - 1]].dest == visited[j];
        assert IsCycle(g, n, cycle);
      }
    }
    DistinctBounded(visited, n);
  }

  /** The nodes a chain from x passes. */
  ghost function Visited(g: Graph, n: nat, x: nat, es: seq<nat>): (r: seq<nat>)
    requires Plannable(g, n) && x < n && IsChain(g, n, es) && (|es| > 0 ==> g.edge[es[0]].src == x)
    ensures |r| == |es| + 1 && r[0] == x && forall i :: 0 <= i < |r| ==> r[i] < n
    ensures forall i :: 0 <= i < |es| ==> r[i] == g.edge[es[i]].src && r[i + 1] == g.edge[es[i]].dest
  {
    if |es| == 0 then [x]
    else
      var last := es[|es| - 1];
      assert IsEdge(g, n, last);
      assert LegOk(g, n, g.edge[last].src, last - 2 * g.edge[last].src);
      Visited(g, n, x, es[..|es| - 1]) + [g.edge[last].dest]
  }

  /** The length of the longest chain of chosen edges from x, among lengths up to k. */
  ghost function Longest(g: Graph, n: nat, chosen: seq<bool>, x: nat, k: nat): (r: nat)
    requires Plannable(g, n)
    ensures r <= k && HasChain(g, n, chosen, x, r)
    ensures forall j :: r < j <= k ==> !HasChain(g, n, chosen, x, j)
  {
    assert ChosenChain(g, n, chosen, x, []);
    if k == 0 || HasChain(g, n, chosen, x, k) then k else Longest(g, n, chosen, x, k - 1)
  }

  /** A leg that is chosen leads to a node of lower rank. */
  ghost predicate LeadsDown(g: Graph, n: nat, chosen: seq<bool>, rank: seq<nat>, x: nat, dir: nat)
    requires Plannable(g, n) && x < n && |rank| == |g.node| && |chosen| == |g.edge|
  {
    HasLeg(g, x, dir) && chosen[EdgeId(x, dir)] ==>
      assert LegOk(g, n, x, dir);
      rank[g.edge[EdgeId(x, dir)].dest] < rank[x]
  }

  /** The ranking: how far one can drive over chosen edges. */
  lemma RankFromCycles(g: Graph, n: nat, chosen: seq<bool>) returns (rank: seq<nat>)
    requires Plannable(g, n) && NoCycleChosen(g, n, chosen) && |chosen| == |g.edge|
    ensures |rank| == |g.node|
    ensures forall x, dir {:trigger LeadsDown(g, n, chosen, rank, x, dir)} :: 0 <= x < n ==>
            LeadsDown(g, n, chosen, rank, x, dir)
  {
    rank := seq(|g.node|, x requires 0 <= x < |g.node| => Longest(g, n, chosen, x, n));
    forall x, dir | 0 <= x < n
      ensures LeadsDown(g, n, chosen, rank, x, dir)
    {
      assert LegOk(g, n, x, dir);
      var e := EdgeId(x, dir);
      if HasLeg(g, x, dir) && chosen[e] {
        var y := g.edge[e].dest;
        var k := Longest(g, n, chosen, y, n);
        var es :| |es| == k && ChosenChain(g, n, chosen, y, es);
        ChosenChainShort(g, n, chosen, y, es);
        var longer := [e] + es;
        assert IsEdge(g, n, e);
        assert ChosenChain(g, n, chosen, x, longer) && |longer| == k + 1;
        assert HasChain(g, n, chosen, x, k + 1);
      }
    }
  }
}
