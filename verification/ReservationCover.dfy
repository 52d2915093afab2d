/** How far a reservation reaches: a call that succeeds leaves the train holding every edge it may drive over
    within the stopping distance, however the switches stand. */
module ReservationCover {
  import opened TrackGraph
  import opened Reservation

  /** es can be driven from x, and the train needs all of it: while room is left every leg, and beyond its
      end the first leg of each turnout at which it would come to stand. */
  ghost predicate Needed(g: Graph, n: nat, x: nat, s: int, es: seq<nat>)
    requires WellFormed(g, n) && x < n
    decreases |es|
  {
    && |es| > 0 && IsLegOf(g, x, es[0]) && (s < 0 ==> es == [EdgeId(x, DIR_AHEAD)])
    && (|es| > 1 ==>
          assert LegOk(g, n, x, es[0] - 2 * x);
          GoesOn(g, es[0], s) && Needed(g, n, g.edge[es[0]].dest, s - g.edge[es[0]].dist, es[1..]))
  }

  /** es can be driven from x. */
  ghost predicate Drivable(g: Graph, n: nat, x: nat, es: seq<nat>)
    requires WellFormed(g, n) && x < n
    decreases |es|
  {
    |es| > 0 && IsLegOf(g, x, es[0]) &&
    (|es| > 1 ==>
       assert LegOk(g, n, x, es[0] - 2 * x);
       Drivable(g, n, g.edge[es[0]].dest, es[1..]))
  }

  /** How far from x the last edge of es begins. */
  ghost function LastBegins(g: Graph, n: nat, x: nat, es: seq<nat>): (d: int)
    requires WellFormed(g, n) && x < n && Drivable(g, n, x, es)
    ensures d >= 0
    decreases |es|
  {
    if |es| == 1 then 0
    else
      assert LegOk(g, n, x, es[0] - 2 * x);
      g.edge[es[0]].dist + LastBegins(g, n, g.edge[es[0]].dest, es[1..])
  }

  /** So every way is needed whose last edge begins within the stopping distance. */
  lemma {:induction false} NeededWithin(g: Graph, n: nat, x: nat, s: int, es: seq<nat>)
    requires WellFormed(g, n) && x < n && Drivable(g, n, x, es) && 0 <= s && (|es| > 1 ==> LastBegins(g, n, x, es) < s)
    ensures Needed(g, n, x, s, es)
    decreases |es|
  {
    if |es| > 1 {
      assert LegOk(g, n, x, es[0] - 2 * x);
      NeededWithin(g, n, g.edge[es[0]].dest, s - g.edge[es[0]].dist, es[1..]);
    }
  }

  ghost predicate AllOwn(owner: seq<int>, es: seq<nat>, t: int)
  {
    forall i :: 0 <= i < |es| ==> es[i] < |owner| && owner[es[i]] == t
  }

  /** The train holds all it needs beyond x. */
  ghost predicate Covered(g: Graph, n: nat, owner: seq<int>, t: int, x: nat, s: int)
    requires WellFormed(g, n)
  {
    x < n && forall es {:trigger Needed(g, n, x, s, es)} :: Needed(g, n, x, s, es) ==> AllOwn(owner, es, t)
  }

  lemma StaysCovered(g: Graph, n: nat, before: seq<int>, after: seq<int>, t: int, x: nat, s: int)
    requires WellFormed(g, n) && Covered(g, n, before, t, x, s) && KeepsOwn(before, after, t)
    ensures Covered(g, n, after, t, x, s)
  {
    forall es | Needed(g, n, x, s, es)
      ensures AllOwn(after, es, t)
    {
      assert AllOwn(before, es, t);
    }
  }

  /** The train holds the leg, and all it needs beyond it. */
  ghost predicate LegCovered(g: Graph, n: nat, owner: seq<int>, t: int, x: nat, dir: nat, s: int)
    requires WellFormed(g, n) && x < n && |owner| == |g.edge|
  {
    HasLeg(g, x, dir) ==>
      assert LegOk(g, n, x, dir);
      var d := g.edge[EdgeId(x, dir)];
      owner[EdgeId(x, dir)] == t && (GoesOn(g, EdgeId(x, dir), s) ==> Covered(g, n, owner, t, d.dest, s - d.dist))
  }

  /** With its legs, x is covered. */
  lemma LegsMakeCover(g: Graph, n: nat, owner: seq<int>, t: int, x: nat, s: int)
    requires WellFormed(g, n) && x < n && |owner| == |g.edge|
    requires LegCovered(g, n, owner, t, x, DIR_STRAIGHT, s) && LegCovered(g, n, owner, t, x, DIR_CURVED, s)
    ensures Covered(g, n, owner, t, x, s)
  {
    forall es | Needed(g, n, x, s, es)
      ensures AllOwn(owner, es, t)
    {
      var dir := es[0] - 2 * x;
      assert LegOk(g, n, x, dir) && LegCovered(g, n, owner, t, x, dir, s) && owner[es[0]] == t;
      if |es| > 1 {
        var d := g.edge[EdgeId(x, dir)];
        assert es[0] == EdgeId(x, dir) && Needed(g, n, d.dest, s - d.dist, es[1..]);
        assert Covered(g, n, owner, t, d.dest, s - d.dist);
        assert AllOwn(owner, es[1..], t);
        assert forall i :: 1 <= i < |es| ==> es[i] == es[1..][i - 1];
      }
    }
  }

  /** Where no room is left the first leg is enough. */
  lemma HeldIsCovered(g: Graph, n: nat, owner: seq<int>, t: int, x: nat, s: int)
    requires WellFormed(g, n) && x < n && |owner| == |g.edge| && s < 0 && owner[EdgeId(x, DIR_AHEAD)] == t
    ensures Covered(g, n, owner, t, x, s)
  {
  }

  lemma LegIsCovered(g: Graph, n: nat, owner: seq<int>, t: int, x: nat, dir: nat, s: int, y: nat, s': int)
    requires WellFormed(g, n) && x < n && |owner| == |g.edge| && HasLeg(g, x, dir) && owner[EdgeId(x, dir)] == t
    requires y == g.edge[EdgeId(x, dir)].dest < n && s' == s - g.edge[EdgeId(x, dir)].dist
    requires GoesOn(g, EdgeId(x, dir), s) ==> Covered(g, n, owner, t, y, s')
    ensures LegCovered(g, n, owner, t, x, dir, s)
  {
  }

  lemma {:induction false} LegCovers(g: Graph, n: nat, rank: seq<nat>, entry: seq<int>, owner: seq<int>, t: int, x: nat,
                                     dir: nat, s: int, fail: int)
    requires Callable(g, n, rank, entry, t, x, s) && Callable(g, n, rank, owner, t, x, s) && HasLeg(g, x, dir)
    requires Claims(g.node[x].ty) && !AlreadyHeld(g, entry, t, x, s) && owner[EdgeId(x, dir)] == t
    requires KeepsOwn(entry, owner, t) && owner[EdgeId(x, DIR_AHEAD)] == t
    requires AlongLeg(g, n, rank, entry, owner, t, x, dir, s, false, fail).ok
    ensures LegCovered(g, n, AlongLeg(g, n, rank, entry, owner, t, x, dir, s, false, fail).owner, t, x, dir, s)
    decreases M1(s), M2(rank, entry, t, x, s), M3(g, x), 0
  {
    var d := g.edge[EdgeId(x, dir)];
    var y, s' := d.dest, s - d.dist;
    LegIs(g, n, rank, entry, owner, t, x, dir, s, false, fail, y, s');
    var r := AlongLeg(g, n, rank, entry, owner, t, x, dir, s, false, fail);
    if GoesOn(g, EdgeId(x, dir), s) {
      ReserveCovers(g, n, rank, owner, t, y, s', fail);
    }
    LegIsCovered(g, n, r.owner, t, x, dir, s, y, s');
  }

  lemma LegStaysCovered(g: Graph, n: nat, before: seq<int>, after: seq<int>, t: int, x: nat, dir: nat, s: int)
    requires WellFormed(g, n) && x < n && |before| == |g.edge| && LegCovered(g, n, before, t, x, dir, s)
    requires KeepsOwn(before, after, t)
    ensures LegCovered(g, n, after, t, x, dir, s)
  {
    if HasLeg(g, x, dir) && (assert LegOk(g, n, x, dir); GoesOn(g, EdgeId(x, dir), s)) {
      var d := g.edge[EdgeId(x, dir)];
      StaysCovered(g, n, before, after, t, d.dest, s - d.dist);
    }
  }

  /** After the calls of a frame the train holds its legs, and what it needs beyond them. */
  lemma {:induction false} LegsCover(g: Graph, n: nat, rank: seq<nat>, entry: seq<int>, owner: seq<int>, t: int, x: nat,
                                     dir: nat, s: int, fail: int)
    requires Callable(g, n, rank, entry, t, x, s) && Callable(g, n, rank, owner, t, x, s) && HasLeg(g, x, dir)
    requires Claims(g.node[x].ty) && !AlreadyHeld(g, entry, t, x, s) && owner[EdgeId(x, dir)] == t
    requires KeepsOwn(entry, owner, t) && owner[EdgeId(x, DIR_AHEAD)] == t && HasLeg(g, x, DIR_AHEAD)
    requires AlongLegs(g, n, rank, entry, owner, t, x, s, false, fail).ok
    ensures LegCovered(g, n, AlongLegs(g, n, rank, entry, owner, t, x, s, false, fail).owner, t, x, dir, s)
    decreases M1(s), M2(rank, entry, t, x, s), M3(g, x), 1
  {
    var r1 := AlongLeg(g, n, rank, entry, owner, t, x, DIR_STRAIGHT, s, false, fail);
    var r := AlongLegs(g, n, rank, entry, owner, t, x, s, false, fail);
    if g.node[x].ty == Branch {
      StaysClear(g, n, owner, r1.owner, t, x, s);
      if dir == DIR_STRAIGHT {
        LegCovers(g, n, rank, entry, owner, t, x, dir, s, fail);
        LegStaysCovered(g, n, r1.owner, r.owner, t, x, dir, s);
      } else {
        LegCovers(g, n, rank, entry, r1.owner, t, x, dir, s, r1.failNode);
      }
    } else {
      LegCovers(g, n, rank, entry, owner, t, x, dir, s, fail);
    }
  }

  /** The legs of a claimed node are among the edges claimed. */
  lemma LegsClaimed(g: Graph, n: nat, x: nat, dir: nat)
    requires WellFormed(g, n) && x < n && Claims(g.node[x].ty) && HasLeg(g, x, dir)
    ensures EdgeId(x, dir) in Claim(g, n, x)
  {
    var claim := Claim(g, n, x);
    assert claim[0] == EdgeId(x, DIR_AHEAD) && (g.node[x].ty == Branch ==> claim[1] == EdgeId(x, DIR_CURVED));
  }

  /** A successful real call that gets as far as its frame ends with the owners its inner calls leave. */
  lemma SuccessIs(g: Graph, n: nat, rank: seq<nat>, owner: seq<int>, t: int, x: nat, dir: nat, s: int, fail: int)
    returns (marked: seq<int>)
    requires Callable(g, n, rank, owner, t, x, s) && Reserve(g, n, rank, owner, t, x, s, false, fail).ok
    requires Claims(g.node[x].ty) && !AlreadyHeld(g, owner, t, x, s) && HasLeg(g, x, dir)
    ensures Callable(g, n, rank, marked, t, x, s) && HasLeg(g, x, DIR_AHEAD) && KeepsOwn(owner, marked, t)
    ensures marked[EdgeId(x, DIR_AHEAD)] == t && EdgeId(x, dir) < |marked| && marked[EdgeId(x, dir)] == t
    ensures var r := AlongLegs(g, n, rank, owner, marked, t, x, s, false, fail);
            r.ok && Reserve(g, n, rank, owner, t, x, s, false, fail).owner == r.owner
  {
    marked := Marked(owner, Claim(g, n, x), Centre(g, n, x), t);
    FrameIn(g, n, rank, owner, t, x, s);
    LegsClaimed(g, n, x, dir);
  }

  lemma {:induction false} FrameCovers(g: Graph, n: nat, rank: seq<nat>, owner: seq<int>, t: int, x: nat, dir: nat,
                                       s: int, fail: int)
    requires Callable(g, n, rank, owner, t, x, s) && Reserve(g, n, rank, owner, t, x, s, false, fail).ok
    requires Claims(g.node[x].ty) && !AlreadyHeld(g, owner, t, x, s)
    ensures LegCovered(g, n, Reserve(g, n, rank, owner, t, x, s, false, fail).owner, t, x, dir, s)
    decreases M1(s), M2(rank, owner, t, x, s), M3(g, x), 2
  {
    if HasLeg(g, x, dir) {
      var marked := SuccessIs(g, n, rank, owner, t, x, dir, s, fail);
      LegsCover(g, n, rank, owner, marked, t, x, dir, s, fail);
    }
  }

  /** A real call that succeeds leaves the train holding all it needs beyond x. */
  lemma {:induction false} ReserveCovers(g: Graph, n: nat, rank: seq<nat>, owner: seq<int>, t: int, x: nat, s: int,
                                         fail: int)
    requires Callable(g, n, rank, owner, t, x, s) && Reserve(g, n, rank, owner, t, x, s, false, fail).ok
    ensures Covered(g, n, Reserve(g, n, rank, owner, t, x, s, false, fail).owner, t, x, s)
    decreases M1(s), M2(rank, owner, t, x, s), M3(g, x), 3
  {
    var after := Reserve(g, n, rank, owner, t, x, s, false, fail).owner;
    if AlreadyHeld(g, owner, t, x, s) {
      HeldIsCovered(g, n, after, t, x, s);
    } else {
      if Claims(g.node[x].ty) {
        FrameCovers(g, n, rank, owner, t, x, DIR_STRAIGHT, s, fail);
        FrameCovers(g, n, rank, owner, t, x, DIR_CURVED, s, fail);
      }
      LegsMakeCover(g, n, after, t, x, s);
    }
  }
}
