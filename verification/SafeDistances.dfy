/** What the distances computeSafeReverseDist stores mean on the track: at each node, what is left of the
    clearance of some merge after a run of legs from there. */
module SafeDistances {
  import opened TrackGraph
  import opened TrackState
  import opened SafeReverse
  import RouteFinding
  import RoutePlanning
  import RouteRebuild
  import Locating

  /** The legs es lead from x to y, over len in all. */
  ghost predicate Runs(g: Graph, x: nat, es: seq<nat>, y: nat, len: int)
    decreases |es|
  {
    if |es| == 0 then x == y && len == 0
    else
      var e := es[|es| - 1];
      && e < |g.edge| && IsLeg(g, e) && g.edge[e].dest == y
      && Runs(g, x, es[..|es| - 1], g.edge[e].src, len - g.edge[e].dist)
  }

  /** The run es from merge x to y is shorter than limit, by v. */
  ghost predicate RunLeaves(g: Graph, x: nat, es: seq<nat>, y: nat, v: int, limit: int)
  {
    x < |g.node| && g.node[x].ty == Merge && Runs(g, x, es, y, limit - v) && 0 < v <= limit
  }

  /** A run of legs from some merge to y leaves v of the clearance limit. */
  ghost predicate LeftOver(g: Graph, y: nat, v: int, limit: int)
  {
    exists x, es :: RunLeaves(g, x, es, y, v, limit)
  }

  /** With v left at y, turning round there is no good: the leg ahead, at a branch the straight one, is
      shorter than that; or it ends at a turnout and is shorter than the clearance. */
  ghost predicate NoRoom(g: Graph, y: nat, v: int, limit: int)
    requires Shape(g)
  {
    HasLeg(g, y, DIR_AHEAD) && var d := g.edge[EdgeId(y, DIR_AHEAD)];
    v > d.dist || (d.dest < |g.node| && g.node[d.dest].ty in {Branch, Merge} && d.dist < limit)
  }

  /** With w left y has been marked, and what was left beyond the leg ahead has been handed on; what a
      branch has been handed may have been more than it keeps. */
  ghost predicate HandedOn(g: Graph, safe: seq<int>, y: nat, w: int, limit: int)
    requires Shape(g) && |safe| == |g.node|
  {
    && LeftOver(g, y, w, limit) && NoRoom(g, y, w, limit)
    && var d := g.edge[EdgeId(y, DIR_AHEAD)];
    d.dest < |g.node| && (w > d.dist ==> safe[d.dest] >= if g.node[d.dest].ty == Branch then 1 else w - d.dist)
  }

  ghost predicate MarkedRight(g: Graph, safe: seq<int>, y: nat, limit: int)
    requires Shape(g) && |safe| == |g.node|
  {
    exists w {:trigger HandedOn(g, safe, y, w, limit)} :: HandedOn(g, safe, y, w, limit)
  }

  /** What is stored at y: nothing; or a mark, for which there is a reason; or what is left after some run,
      and it leaves room. */
  ghost predicate Settled(g: Graph, safe: seq<int>, y: nat, limit: int)
    requires Shape(g) && |safe| == |g.node| && y < |safe|
  {
    || safe[y] == 0
    || (safe[y] == INT_MAX && MarkedRight(g, safe, y, limit))
    || (safe[y] != INT_MAX && LeftOver(g, y, safe[y], limit) && !NoRoom(g, y, safe[y], limit))
  }

  /** y is about to be dealt with. */
  ghost predicate Pending(g: Graph, safe: seq<int>, y: nat, limit: int)
    requires Shape(g) && |safe| == |g.node| && y < |safe|
  {
    if safe[y] == INT_MAX then MarkedRight(g, safe, y, limit) else LeftOver(g, y, safe[y], limit)
  }

  /** All but y are settled, and those in open, which are marked for the time being. */
  ghost predicate OthersSettled(g: Graph, safe: seq<int>, y: int, open: set<nat>, limit: int)
    requires Shape(g) && |safe| == |g.node|
  {
    && (forall z {:trigger Settled(g, safe, z, limit)} :: RealNode(g, z) && z != y && z !in open ==>
          Settled(g, safe, z, limit))
    && forall z :: z in open && z < |safe| ==> safe[z] == INT_MAX
  }

  // ---- values only grow ----

  ghost predicate NotLower(g: Graph, before: seq<int>, after: seq<int>)
  {
    |before| == |after| == |g.node| && forall x :: RealNode(g, x) ==> before[x] <= after[x]
  }

  lemma {:induction false} PropagateGrows(g: Graph, safe: seq<int>, e: nat, trainLength: int)
    requires GoodLegs(g) && |safe| == |g.node| && e < |g.edge| && GoodLeg(g, e) && AllStorable(g, safe)
    ensures NotLower(g, safe, Propagate(g, safe, e, trainLength))
    decreases |Unmarked(safe)|
  {
    PropagateIs(g, safe, e, trainLength);
    var d := g.edge[e];
    if safe[d.src] != INT_MAX && safe[d.src] - d.dist > 0 {
      var safe2 := Passed(g, safe, e);
      if g.node[d.dest].ty == Branch {
        PropagateGrows(g, safe2, EdgeId(d.dest, DIR_CURVED), trainLength);
        var safe4 := Propagate(g, safe2, EdgeId(d.dest, DIR_CURVED), trainLength)[d.dest := safe2[d.dest]];
        PropagateGrows(g, safe4, EdgeId(d.dest, DIR_STRAIGHT), trainLength);
      } else if g.node[d.dest].ty != Exit {
        PropagateGrows(g, safe2, EdgeId(d.dest, DIR_AHEAD), trainLength);
      }
    }
  }

  // ---- one step ----

  lemma RunOn(g: Graph, e: nat, w: int, limit: int)
    requires GoodLegs(g) && e < |g.edge| && GoodLeg(g, e) && IsLeg(g, e)
    requires LeftOver(g, g.edge[e].src, w, limit) && w > g.edge[e].dist
    ensures LeftOver(g, g.edge[e].dest, w - g.edge[e].dist, limit)
  {
    var d := g.edge[e];
    var x, es :| RunLeaves(g, x, es, d.src, w, limit);
    assert (es + [e])[..|es|] == es;
    assert RunLeaves(g, x, es + [e], d.dest, w - d.dist, limit);
  }

  lemma NoRun(g: Graph, x: nat, limit: int)
    requires x < |g.node| && g.node[x].ty == Merge && limit > 0
    ensures LeftOver(g, x, limit, limit)
  {
    assert RunLeaves(g, x, [], x, limit, limit);
  }

  /** A reason for a mark remains one while values grow, but for what a branch is given back. */
  lemma StillMarkedRight(g: Graph, safe: seq<int>, safe': seq<int>, y: nat, limit: int)
    requires GoodLegs(g) && |safe| == |safe'| == |g.node| && MarkedRight(g, safe, y, limit)
    requires forall x :: RealNode(g, x) ==>
               safe'[x] >= safe[x] || (g.node[x].ty == Branch && safe'[x] >= 1) || safe'[x] >= limit > 0
    ensures MarkedRight(g, safe', y, limit)
  {
    var w :| HandedOn(g, safe, y, w, limit);
    assert GoodLegAt(g, y, DIR_AHEAD);
    assert HandedOn(g, safe', y, w, limit);
  }

  ghost predicate Ready(g: Graph, safe: seq<int>, e: nat, open: set<nat>, limit: int)
  {
    && GoodLegs(g) && |safe| == |g.node| && e < |g.edge| && GoodLeg(g, e) && IsLeg(g, e)
    && 0 < limit < INT_MAX && AllStorable(g, safe) && safe[g.edge[e].src] > 0
    && OthersSettled(g, safe, g.edge[e].src, open, limit)
    && (g.edge[e].src !in open ==> Pending(g, safe, g.edge[e].src, limit))
  }

  /** Leg e leads ahead; at a branch, straight on. */
  ghost predicate Ahead(g: Graph, e: nat)
    requires e < |g.edge|
  {
    e == EdgeId(g.edge[e].src, DIR_AHEAD)
  }

  ghost predicate Done(g: Graph, safe: seq<int>, e: nat, open: set<nat>, limit: int)
    requires Shape(g) && |safe| == |g.node| && e < |g.edge|
  {
    OthersSettled(g, safe, if Ahead(g, e) then NULL else g.edge[e].src, open, limit)
  }

  lemma SettledStays(g: Graph, safe: seq<int>, safe': seq<int>, y: nat, limit: int)
    requires GoodLegs(g) && |safe| == |safe'| == |g.node| && y < |safe| && Settled(g, safe, y, limit)
    requires safe'[y] == safe[y]
    requires forall x :: RealNode(g, x) ==>
               safe'[x] >= safe[x] || (g.node[x].ty == Branch && safe'[x] >= 1) || safe'[x] >= limit > 0
    ensures Settled(g, safe', y, limit)
  {
    if safe[y] == INT_MAX {
      StillMarkedRight(g, safe, safe', y, limit);
    }
  }

  lemma WasMarked(g: Graph, safe: seq<int>, e: nat, open: set<nat>, limit: int)
    requires Ready(g, safe, e, open, limit) && safe[g.edge[e].src] == INT_MAX
    ensures Done(g, safe, e, open, limit)
  {
    var y := g.edge[e].src;
    assert y !in open ==> Settled(g, safe, y, limit);
  }

  /** Too little is left to go on: the source is marked, or stays as it is. */
  lemma StopsHere(g: Graph, safe: seq<int>, e: nat, open: set<nat>, limit: int, safe': seq<int>)
    requires Ready(g, safe, e, open, limit) && safe[g.edge[e].src] != INT_MAX
    requires safe[g.edge[e].src] <= g.edge[e].dist
    requires safe' == if g.node[g.edge[e].dest].ty in {Branch, Merge} && g.edge[e].dist < limit
                      then safe[g.edge[e].src := INT_MAX] else safe
    ensures Done(g, safe', e, open, limit)
  {
    var y, w := g.edge[e].src, safe[g.edge[e].src];
    if Ahead(g, e) {
      if safe' != safe {
        assert HandedOn(g, safe', y, w, limit);
      }
      assert Settled(g, safe', y, limit);
    }
    forall z | RealNode(g, z) && z != y && z !in open
      ensures Settled(g, safe', z, limit)
    {
      assert Settled(g, safe, z, limit);
      SettledStays(g, safe, safe', z, limit);
    }
  }

  /** Which nodes are marked for the time being beyond leg e. */
  ghost function Opened(g: Graph, e: nat, open: set<nat>): set<nat>
    requires e < |g.edge|
  {
    if Ahead(g, e) then open else open + {g.edge[e].src}
  }

  /** safe2 is safe when the call has gone on beyond leg e. */
  ghost predicate GoneOn(g: Graph, safe: seq<int>, e: nat, safe2: seq<int>)
    requires e < |g.edge|
  {
    var d := g.edge[e];
    && NotLower(g, safe, safe2) && d.src < |safe| && d.dest < |safe|
    && (forall x :: 0 <= x < |safe| && x != d.src && x != d.dest ==> safe2[x] == safe[x])
    && safe2[d.src] == INT_MAX && safe2[d.dest] >= safe[d.src] - d.dist > 0
    && (d.dest != d.src ==> safe2[d.dest] == safe[d.src] - d.dist || safe2[d.dest] == safe[d.dest])
  }

  lemma GoesOn(g: Graph, safe: seq<int>, e: nat, open: set<nat>, limit: int, safe2: seq<int>)
    requires Ready(g, safe, e, open, limit) && safe[g.edge[e].src] != INT_MAX
    requires safe[g.edge[e].src] > g.edge[e].dist && safe2 == Passed(g, safe, e)
    ensures GoneOn(g, safe, e, safe2)
  {
  }

  /** The source is settled, marked with reason, or open. */
  lemma SourceSettled(g: Graph, safe: seq<int>, e: nat, open: set<nat>, limit: int, safe2: seq<int>)
    requires Ready(g, safe, e, open, limit) && safe[g.edge[e].src] != INT_MAX
    requires GoneOn(g, safe, e, safe2)
    ensures g.edge[e].src !in Opened(g, e, open) ==> MarkedRight(g, safe2, g.edge[e].src, limit)
  {
    if Ahead(g, e) {
      assert HandedOn(g, safe2, g.edge[e].src, safe[g.edge[e].src], limit);
    }
  }

  lemma OthersStay(g: Graph, safe: seq<int>, e: nat, open: set<nat>, limit: int, safe2: seq<int>)
    requires Ready(g, safe, e, open, limit) && safe[g.edge[e].src] != INT_MAX && GoneOn(g, safe, e, safe2)
    ensures OthersSettled(g, safe2, g.edge[e].dest, Opened(g, e, open), limit)
  {
    var y, b, open' := g.edge[e].src, g.edge[e].dest, Opened(g, e, open);
    SourceSettled(g, safe, e, open, limit, safe2);
    forall z | RealNode(g, z) && z != b && z !in open'
      ensures Settled(g, safe2, z, limit)
    {
      if z != y {
        assert Settled(g, safe, z, limit);
        SettledStays(g, safe, safe2, z, limit);
      }
    }
  }

  lemma DestPending(g: Graph, safe: seq<int>, e: nat, open: set<nat>, limit: int, safe2: seq<int>)
    requires Ready(g, safe, e, open, limit) && safe[g.edge[e].src] != INT_MAX && GoneOn(g, safe, e, safe2)
    requires g.edge[e].dest !in Opened(g, e, open)
    ensures Pending(g, safe2, g.edge[e].dest, limit)
  {
    var y, b := g.edge[e].src, g.edge[e].dest;
    if b == y {
      SourceSettled(g, safe, e, open, limit, safe2);
    } else {
      assert b !in open && Settled(g, safe, b, limit);
      RunOn(g, e, safe[y], limit);
      if safe2[b] == INT_MAX && safe[b] == INT_MAX {
        StillMarkedRight(g, safe, safe2, b, limit);
      }
    }
  }

  lemma Onwards(g: Graph, safe: seq<int>, e: nat, open: set<nat>, limit: int, safe2: seq<int>)
    requires Ready(g, safe, e, open, limit) && safe[g.edge[e].src] != INT_MAX
    requires safe[g.edge[e].src] > g.edge[e].dist && safe2 == Passed(g, safe, e)
    ensures var b := g.edge[e].dest;
            && AllStorable(g, safe2) && safe2[b] > 0 && OthersSettled(g, safe2, b, Opened(g, e, open), limit)
            && (b !in Opened(g, e, open) ==> Pending(g, safe2, b, limit))
  {
    GoesOn(g, safe, e, open, limit, safe2);
    OthersStay(g, safe, e, open, limit, safe2);
    if g.edge[e].dest !in Opened(g, e, open) {
      DestPending(g, safe, e, open, limit, safe2);
    }
  }

  /** The rollback between the two legs of branch b. */
  lemma RolledBack(g: Graph, safe2: seq<int>, safe3: seq<int>, b: nat, open: set<nat>, limit: int)
    requires GoodLegs(g) && |safe2| == |safe3| == |g.node| && RealNode(g, b) && g.node[b].ty == Branch && limit > 0
    requires NotLower(g, safe2, safe3) && safe2[b] > 0 && (b !in open ==> Pending(g, safe2, b, limit))
    requires OthersSettled(g, safe3, b, open, limit) && (b in open ==> safe2[b] == INT_MAX)
    ensures OthersSettled(g, safe3[b := safe2[b]], b, open, limit)
    ensures b !in open ==> Pending(g, safe3[b := safe2[b]], b, limit)
  {
    var safe4 := safe3[b := safe2[b]];
    forall z | RealNode(g, z) && z != b && z !in open
      ensures Settled(g, safe4, z, limit)
    {
      assert Settled(g, safe3, z, limit);
      SettledStays(g, safe3, safe4, z, limit);
    }
    if b !in open && safe2[b] == INT_MAX {
      StillMarkedRight(g, safe2, safe4, b, limit);
    }
  }

  /** The end of the track is not marked: there is no leg to be too short. */
  lemma AtExit(g: Graph, safe: seq<int>, b: nat, open: set<nat>, limit: int)
    requires Shape(g) && |safe| == |g.node| && b < |g.node| && g.node[b].ty == Exit
    requires OthersSettled(g, safe, b, open, limit) && (b !in open ==> Pending(g, safe, b, limit))
    ensures OthersSettled(g, safe, NULL, open, limit)
  {
    assert b !in open ==> Settled(g, safe, b, limit);
  }

  lemma Closes(g: Graph, safe: seq<int>, e: nat, open: set<nat>, limit: int)
    requires Shape(g) && |safe| == |g.node| && e < |g.edge|
    requires OthersSettled(g, safe, NULL, Opened(g, e, open), limit)
    ensures Done(g, safe, e, open, limit)
  {
  }

  /** Each call leaves every node settled that it has dealt with: not the source of the curved leg of a branch,
      which is given back what it had. */
  lemma {:induction false} PropagateSettles(g: Graph, safe: seq<int>, e: nat, trainLength: int, limit: int,
                                            open: set<nat>)
    requires Ready(g, safe, e, open, limit) && limit == trainLength + SAFE_REVERSE_DIST_COMPENSATION
    ensures Done(g, Propagate(g, safe, e, trainLength), e, open, limit)
    decreases |Unmarked(safe)|, 1
  {
    PropagateIs(g, safe, e, trainLength);
    var d := g.edge[e];
    if safe[d.src] == INT_MAX {
      WasMarked(g, safe, e, open, limit);
    } else if safe[d.src] <= d.dist {
      StopsHere(g, safe, e, open, limit, Propagate(g, safe, e, trainLength));
    } else {
      var safe2, open' := Passed(g, safe, e), Opened(g, e, open);
      Onwards(g, safe, e, open, limit, safe2);
      if g.node[d.dest].ty == Branch {
        BranchSettles(g, safe, safe2, d.dest, trainLength, limit, open');
      } else if g.node[d.dest].ty != Exit {
        PropagateSettles(g, safe2, EdgeId(d.dest, DIR_AHEAD), trainLength, limit, open');
      } else {
        AtExit(g, safe2, d.dest, open', limit);
      }
      Closes(g, Propagate(g, safe, e, trainLength), e, open, limit);
    }
  }

  /** Both legs of branch b in turn. */
  lemma BranchSettles(g: Graph, safe: seq<int>, safe2: seq<int>, b: nat, trainLength: int, limit: int, open: set<nat>)
    requires GoodLegs(g) && |safe| == |safe2| == |g.node| && RealNode(g, b) && g.node[b].ty == Branch
    requires 0 < limit == trainLength + SAFE_REVERSE_DIST_COMPENSATION < INT_MAX
    requires AllStorable(g, safe2) && |Unmarked(safe2)| < |Unmarked(safe)|
    requires safe2[b] > 0 && OthersSettled(g, safe2, b, open, limit) && (b !in open ==> Pending(g, safe2, b, limit))
    requires GoodLegAt(g, b, DIR_CURVED) && GoodLegAt(g, b, DIR_STRAIGHT)
    requires var safe4 := Propagate(g, safe2, EdgeId(b, DIR_CURVED), trainLength)[b := safe2[b]];
             AllStorable(g, safe4) && |Unmarked(safe4)| < |Unmarked(safe)|
    ensures var safe4 := Propagate(g, safe2, EdgeId(b, DIR_CURVED), trainLength)[b := safe2[b]];
            OthersSettled(g, Propagate(g, safe4, EdgeId(b, DIR_STRAIGHT), trainLength), NULL, open, limit)
    decreases |Unmarked(safe)|, 0
  {
    var safe3 := Propagate(g, safe2, EdgeId(b, DIR_CURVED), trainLength);
    var safe4 := safe3[b := safe2[b]];
    PropagateSettles(g, safe2, EdgeId(b, DIR_CURVED), trainLength, limit, open);
    PropagateGrows(g, safe2, EdgeId(b, DIR_CURVED), trainLength);
    RolledBack(g, safe2, safe3, b, open, limit);
    PropagateSettles(g, safe4, EdgeId(b, DIR_STRAIGHT), trainLength, limit, open);
  }

  // ---- the whole computation ----

  lemma TurnSettles(g: Graph, safe: seq<int>, m: nat, trainLength: int, limit: int)
    requires GoodLegs(g) && |safe| == |g.node| && m < |g.node| && g.node[m].ty == Merge
    requires 0 < limit == trainLength + SAFE_REVERSE_DIST_COMPENSATION < INT_MAX
    requires AllInRange(g, safe, limit) && OthersSettled(g, safe, NULL, {}, limit)
    ensures GoodLegAt(g, m, DIR_AHEAD) && AllStorable(g, safe[m := limit])
    ensures OthersSettled(g, Propagate(g, safe[m := limit], EdgeId(m, DIR_AHEAD), trainLength), NULL, {}, limit)
  {
    var safe' := safe[m := limit];
    NoRun(g, m, limit);
    assert GoodLegAt(g, m, DIR_AHEAD);
    forall z | RealNode(g, z) && z != m
      ensures Settled(g, safe', z, limit)
    {
      assert Settled(g, safe, z, limit);
      SettledStays(g, safe, safe', z, limit);
    }
    PropagateSettles(g, safe', EdgeId(m, DIR_AHEAD), trainLength, limit, {});
  }

  lemma {:induction false} PropagateAllSettles(g: Graph, safe: seq<int>, k: nat, trainLength: int, limit: int)
    requires GoodLegs(g) && |safe| == |g.node| && k <= |g.node|
    requires 0 <= trainLength && limit == trainLength + SAFE_REVERSE_DIST_COMPENSATION < INT_MAX
    requires AllInRange(g, safe, limit) && forall x :: RealNode(g, x) ==> safe[x] == 0
    ensures OthersSettled(g, PropagateAll(g, safe, k, trainLength), NULL, {}, limit)
  {
    if k > 0 {
      PropagateAllSettles(g, safe, k - 1, trainLength, limit);
      if g.node[k - 1].ty == Merge {
        TurnSettles(g, PropagateAll(g, safe, k - 1, trainLength), k - 1, trainLength, limit);
      }
    }
  }

  /** A call that goes on leaves at the other end at least what remains. */
  lemma ReachesEnd(g: Graph, safe: seq<int>, e: nat, trainLength: int)
    requires GoodLegs(g) && |safe| == |g.node| && e < |g.edge| && GoodLeg(g, e) && AllStorable(g, safe)
    requires INT_MAX > safe[g.edge[e].src] > g.edge[e].dist
    ensures Propagate(g, safe, e, trainLength)[g.edge[e].dest] >= safe[g.edge[e].src] - g.edge[e].dist
  {
    PropagateIs(g, safe, e, trainLength);
    var b, safe2 := g.edge[e].dest, Passed(g, safe, e);
    if g.node[b].ty == Branch {
      var safe4 := Propagate(g, safe2, EdgeId(b, DIR_CURVED), trainLength)[b := safe2[b]];
      PropagateGrows(g, safe4, EdgeId(b, DIR_STRAIGHT), trainLength);
    } else if g.node[b].ty != Exit {
      PropagateGrows(g, safe2, EdgeId(b, DIR_AHEAD), trainLength);
    }
  }

  /** One turn of the loop lowers nothing: the merge it is about gets all there is to get. */
  lemma TurnGrows(g: Graph, safe: seq<int>, m: nat, trainLength: int, limit: int)
    requires GoodLegs(g) && |safe| == |g.node| && m < |g.node| && g.node[m].ty == Merge
    requires 0 <= limit == trainLength + SAFE_REVERSE_DIST_COMPENSATION < INT_MAX
    requires AllInRange(g, safe, limit) && MarkedMergesShort(g, safe, limit)
    ensures GoodLegAt(g, m, DIR_AHEAD) && AllStorable(g, safe[m := limit])
    ensures var safe' := Propagate(g, safe[m := limit], EdgeId(m, DIR_AHEAD), trainLength);
            && NotLower(g, safe, safe') && safe'[m] >= limit
            && safe'[g.edge[EdgeId(m, DIR_AHEAD)].dest] >= limit - g.edge[EdgeId(m, DIR_AHEAD)].dist
  {
    assert GoodLegAt(g, m, DIR_AHEAD);
    var e, r := EdgeId(m, DIR_AHEAD), safe[m := limit];
    TurnKeepsMarks(g, safe, m, trainLength, limit);
    PropagateGrows(g, r, e, trainLength);
    if limit > g.edge[e].dist {
      ReachesEnd(g, r, e, trainLength);
    } else {
      PropagateInRange(g, r, e, trainLength, limit);
    }
  }

  /** A merge has had its turn: it has all there is to get, and the far end of its leg what is left. */
  ghost predicate Served(g: Graph, safe: seq<int>, m: nat, limit: int)
    requires Shape(g) && |safe| == |g.node|
  {
    m < |g.node| && g.node[m].ty == Merge ==>
      var d := g.edge[EdgeId(m, DIR_AHEAD)];
      safe[m] >= limit && d.dest < |g.node| && g.node[d.dest].ty != NoNode && safe[d.dest] >= limit - d.dist
  }

  lemma {:induction false} MergeServed(g: Graph, safe: seq<int>, k: nat, trainLength: int, limit: int, m: nat)
    requires GoodLegs(g) && |safe| == |g.node| && m < k <= |g.node|
    requires 0 <= trainLength && limit == trainLength + SAFE_REVERSE_DIST_COMPENSATION < INT_MAX
    requires AllInRange(g, safe, limit) && MarkedMergesShort(g, safe, limit)
    ensures Served(g, PropagateAll(g, safe, k, trainLength), m, limit)
  {
    var r := PropagateAll(g, safe, k - 1, trainLength);
    MergesMarked(g, safe, k - 1, trainLength, limit);
    assert GoodLegAt(g, m, DIR_AHEAD);
    if g.node[k - 1].ty == Merge {
      TurnGrows(g, r, k - 1, trainLength, limit);
    }
    if m < k - 1 {
      MergeServed(g, safe, k - 1, trainLength, limit, m);
    }
  }

  /** What findRoute's distances for turning round are, node by node: nothing; or what is left of the room for
      the train, and 60 mm, after a run of legs from some merge; or a mark, where that would not do. A merge has
      the whole room, or a mark when the leg behind it is shorter, and then hands on at least the rest. */
  lemma ClearanceAt(g: Graph, safe: seq<int>, trainLength: int, y: nat)
    requires GoodLegs(g) && RouteFinding.SafeFor(g, safe, trainLength) && RealNode(g, y)
    requires trainLength + SAFE_REVERSE_DIST_COMPENSATION < INT_MAX
    ensures |safe| == |g.node| && Settled(g, safe, y, trainLength + SAFE_REVERSE_DIST_COMPENSATION)
    ensures g.node[y].ty == Merge ==>
              var d := g.edge[EdgeId(y, DIR_AHEAD)];
              && d.dest < |g.node| && safe[d.dest] >= trainLength + SAFE_REVERSE_DIST_COMPENSATION - d.dist
              && safe[y] == if d.dist < trainLength + SAFE_REVERSE_DIST_COMPENSATION then INT_MAX
                            else trainLength + SAFE_REVERSE_DIST_COMPENSATION
  {
    var limit, n := trainLength + SAFE_REVERSE_DIST_COMPENSATION, |g.node|;
    var cleared: seq<int> :| |cleared| == |g.node| && (forall x :: RealNode(g, x) ==> cleared[x] == 0)
      && safe == PropagateAll(g, cleared, |g.node|, trainLength);
    PropagateAllSettles(g, cleared, n, trainLength, limit);
    assert Settled(g, safe, y, limit);
    if g.node[y].ty == Merge {
      MergesMarked(g, cleared, n, trainLength, limit);
      MergeServed(g, cleared, n, trainLength, limit, y);
    }
  }

  /** That is what the reversals of every planned route rest on. */
  lemma PlannedClearances(g: Graph, owner: seq<int>, n: nat, from: Locating.Position, to: Locating.Position, step: int,
                          ask: RouteFinding.Asked, s1: RouteFinding.Spot, s2: RouteFinding.Spot,
                          q: RoutePlanning.Query, dist: int, entries: seq<RouteRebuild.RouteNode>, y: nat)
    requires Plannable(g, n) && |owner| == |g.edge| && RealNode(q.g, y)
    requires RouteFinding.Answer(g, owner, n, from, to, step, ask, RouteFinding.Planned, s1, s2, q, dist, entries)
    requires ask.trainLength + SAFE_REVERSE_DIST_COMPENSATION < INT_MAX
    ensures RoutePlanning.QueryOk(q)
    ensures Settled(q.g, q.p.safe, y, ask.trainLength + SAFE_REVERSE_DIST_COMPENSATION)
  {
    ClearanceAt(q.g, q.p.safe, ask.trainLength, y);
  }
}
