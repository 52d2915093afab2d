/** Why reserveEdges ends: when every directed cycle of the track has positive length, nodes can be
    ranked so that edges of length zero lead down. */
module ZeroCycles {
  import opened TrackGraph
  import opened Reservation
  import opened Cycles

  ghost function Length(g: Graph, es: seq<nat>): int
    requires forall i :: 0 <= i < |es| ==> es[i] < |g.edge|
  {
    if |es| == 0 then 0 else Length(g, es[..|es| - 1]) + g.edge[es[|es| - 1]].dist
  }

  /** Every directed cycle has positive length. */
  ghost predicate CyclesPositive(g: Graph, n: nat)
    requires Plannable(g, n)
  {
    forall es {:trigger IsCycle(g, n, es)} :: IsCycle(g, n, es) ==> Length(g, es) > 0
  }

  /** Which edges have length zero. */
  ghost function ZeroEdges(g: Graph): (r: seq<bool>)
    ensures |r| == |g.edge| && forall e :: 0 <= e < |r| ==> r[e] == (g.edge[e].dist == 0)
  {
    seq(|g.edge|, e requires 0 <= e < |g.edge| => g.edge[e].dist == 0)
  }

  lemma {:induction false} ZeroLength(g: Graph, es: seq<nat>)
    requires AllChosen(ZeroEdges(g), es)
    ensures Length(g, es) == 0
  {
    if |es| > 0 {
      ZeroLength(g, es[..|es| - 1]);
    }
  }

  lemma NoZeroCycle(g: Graph, n: nat)
    requires Plannable(g, n) && CyclesPositive(g, n)
    ensures NoCycleChosen(g, n, ZeroEdges(g))
  {
    forall es | IsCycle(g, n, es)
      ensures !AllChosen(ZeroEdges(g), es)
    {
      if AllChosen(ZeroEdges(g), es) {
        ZeroLength(g, es);
      }
    }
  }

  /** A chain of zero-length edges is shorter than the track has nodes. */
  lemma ZeroChainShort(g: Graph, n: nat, x: nat, es: seq<nat>)
    requires Plannable(g, n) && CyclesPositive(g, n) && x < n && IsChain(g, n, es)
    requires |es| > 0 ==> g.edge[es[0]].src == x
    requires forall i :: 0 <= i < |es| ==> g.edge[es[i]].dist == 0
    ensures |es| < n
  {
    NoZeroCycle(g, n);
    assert AllChosen(ZeroEdges(g), es);
    ChosenChainShort(g, n, ZeroEdges(g), x, es);
  }

  /** The ranking reserveEdges needs exists. */
  lemma RankExists(g: Graph, n: nat) returns (rank: seq<nat>)
    requires Plannable(g, n) && CyclesPositive(g, n)
    ensures Ranked(g, n, rank)
  {
    NoZeroCycle(g, n);
    rank := RankFromCycles(g, n, ZeroEdges(g));
    forall x, dir | 0 <= x < n
      ensures RankedAt(g, n, rank, x, dir)
    {
      assert LeadsDown(g, n, ZeroEdges(g), rank, x, dir) && LegOk(g, n, x, dir);
    }
  }
}
