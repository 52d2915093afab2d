/** What a call of reserveEdges takes: all around every node within the stopping distance, so that nobody runs in
    from the side, and nothing beyond. */
module ReservationExtent {
  import opened TrackGraph
  import opened Reservation
  import opened ReservationReasons

  /** How far es reaches from x. */
  ghost function Reach(g: Graph, n: nat, x: nat, s: int, es: seq<nat>): (d: int)
    requires WellFormed(g, n) && x < n && Follows(g, n, x, s, es)
    ensures d >= 0
    decreases |es|
  {
    if |es| == 0 then 0
    else
      assert LegOk(g, n, x, es[0] - 2 * x);
      g.edge[es[0]].dist + Reach(g, n, g.edge[es[0]].dest, s - g.edge[es[0]].dist, es[1..])
  }

  /** A call comes to a node only within the stopping distance, or when it is a turnout. */
  lemma {:induction false} FollowsWithin(g: Graph, n: nat, x: nat, s: int, es: seq<nat>)
    requires WellFormed(g, n) && x < n && Follows(g, n, x, s, es) && |es| > 0
    ensures IsTurnout(g.node[Reached(g, n, x, s, es)].ty) || Reach(g, n, x, s, es) < s
    decreases |es|
  {
    assert LegOk(g, n, x, es[0] - 2 * x);
    if |es| > 1 {
      FollowsWithin(g, n, g.edge[es[0]].dest, s - g.edge[es[0]].dist, es[1..]);
    }
  }

  /** e is a leg, in either direction, of the branch numbered above 100 that lies beyond the straight leg of the
      turnout behind merge y. */
  ghost predicate AroundCentre(g: Graph, y: nat, e: nat)
    requires Shape(g) && y < |g.node|
  {
    && g.node[y].ty == Merge && EdgeId(g.node[y].reverse, DIR_STRAIGHT) < |g.edge|
    && var c := g.edge[EdgeId(g.node[y].reverse, DIR_STRAIGHT)].dest;
    c < |g.node| && g.node[c].num > 100 && AnyLeg(g, c, e)
  }

  ghost predicate Near(g: Graph, y: nat, e: nat)
    requires Shape(g) && y < |g.node|
  {
    Around(g, y, e) || AroundCentre(g, y, e)
  }

  lemma CentreIsAround(g: Graph, n: nat, x: nat, e: nat)
    requires WellFormed(g, n) && CentreIsBranch(g, n) && x < n
    ensures e in Centre(g, n, x) <==> AroundCentre(g, x, e)
  {
    if g.node[x].ty == Merge {
      assert NodeOk(g, n, x) && SidesMatch(g, n, x) && LegOk(g, n, g.node[x].reverse, DIR_STRAIGHT);
      assert CentreBranchAt(g, n, x);
      var es := Centre(g, n, x);
      if |es| > 0 {
        assert es == [es[0], es[1], es[2], es[3]];
      }
    }
  }

  // ---- all that is near is taken ----

  /** The train holds all edges near y. */
  ghost predicate HeldAround(g: Graph, owner: seq<int>, t: int, y: nat)
    requires Shape(g) && y < |g.node|
  {
    forall e: nat {:trigger Near(g, y, e)} :: Near(g, y, e) ==> e < |owner| && owner[e] == t
  }

  /** So it does at every node within the stopping distance s of x. */
  ghost predicate Holds(g: Graph, n: nat, owner: seq<int>, t: int, x: nat, s: int)
    requires WellFormed(g, n)
  {
    x < n && forall es {:trigger Follows(g, n, x, s, es)} ::
      Follows(g, n, x, s, es) && Reach(g, n, x, s, es) <= s ==> HeldAround(g, owner, t, Reached(g, n, x, s, es))
  }

  lemma StaysHeld(g: Graph, n: nat, before: seq<int>, after: seq<int>, t: int, x: nat, s: int)
    requires WellFormed(g, n) && Holds(g, n, before, t, x, s) && KeepsOwn(before, after, t)
    ensures Holds(g, n, after, t, x, s)
  {
    forall es | Follows(g, n, x, s, es) && Reach(g, n, x, s, es) <= s
      ensures HeldAround(g, after, t, Reached(g, n, x, s, es))
    {
      assert HeldAround(g, before, t, Reached(g, n, x, s, es));
    }
  }

  /** The train holds all it needs beyond the leg. */
  ghost predicate LegHolds(g: Graph, n: nat, owner: seq<int>, t: int, x: nat, dir: nat, s: int)
    requires WellFormed(g, n) && x < n
  {
    HasLeg(g, x, dir) ==>
      assert LegOk(g, n, x, dir);
      var d := g.edge[EdgeId(x, dir)];
      GoesOn(g, EdgeId(x, dir), s) ==> Holds(g, n, owner, t, d.dest, s - d.dist)
  }

  lemma LegStaysHeld(g: Graph, n: nat, before: seq<int>, after: seq<int>, t: int, x: nat, dir: nat, s: int)
    requires WellFormed(g, n) && x < n && LegHolds(g, n, before, t, x, dir, s) && KeepsOwn(before, after, t)
    ensures LegHolds(g, n, after, t, x, dir, s)
  {
    if HasLeg(g, x, dir) && (assert LegOk(g, n, x, dir); GoesOn(g, EdgeId(x, dir), s)) {
      var d := g.edge[EdgeId(x, dir)];
      StaysHeld(g, n, before, after, t, d.dest, s - d.dist);
    }
  }

  lemma LegsMakeHold(g: Graph, n: nat, owner: seq<int>, t: int, x: nat, s: int)
    requires WellFormed(g, n) && x < n && HeldAround(g, owner, t, x)
    requires LegHolds(g, n, owner, t, x, DIR_STRAIGHT, s) && LegHolds(g, n, owner, t, x, DIR_CURVED, s)
    ensures Holds(g, n, owner, t, x, s)
  {
    forall es | Follows(g, n, x, s, es) && Reach(g, n, x, s, es) <= s
      ensures HeldAround(g, owner, t, Reached(g, n, x, s, es))
    {
      if |es| > 0 {
        var dir := es[0] - 2 * x;
        assert LegOk(g, n, x, dir) && es[0] == EdgeId(x, dir) && LegHolds(g, n, owner, t, x, dir, s);
        var d := g.edge[es[0]];
        assert Follows(g, n, d.dest, s - d.dist, es[1..]);
      }
    }
  }

  /** Where no room is left nothing is within the stopping distance, nor beyond an exit. */
  lemma NoRoomHolds(g: Graph, n: nat, owner: seq<int>, t: int, x: nat, s: int)
    requires WellFormed(g, n) && x < n && (s < 0 || g.node[x].ty == Exit)
    ensures Holds(g, n, owner, t, x, s)
  {
    forall es | Follows(g, n, x, s, es) && Reach(g, n, x, s, es) <= s
      ensures HeldAround(g, owner, t, Reached(g, n, x, s, es))
    {
      assert |es| == 0;
    }
  }

  /** What a successful frame has marked. */
  lemma MarkedAround(g: Graph, n: nat, rank: seq<nat>, owner: seq<int>, t: int, x: nat, s: int, fail: int)
    returns (marked: seq<int>)
    requires Callable(g, n, rank, owner, t, x, s) && Reserve(g, n, rank, owner, t, x, s, false, fail).ok
    requires Claims(g.node[x].ty) && !AlreadyHeld(g, owner, t, x, s)
    ensures Callable(g, n, rank, marked, t, x, s) && HasLeg(g, x, DIR_AHEAD) && KeepsOwn(owner, marked, t)
    ensures EdgeId(x, DIR_AHEAD) < |marked| && marked[EdgeId(x, DIR_AHEAD)] == t && HeldAround(g, marked, t, x)
    ensures var r := AlongLegs(g, n, rank, owner, marked, t, x, s, false, fail);
            r.ok && Reserve(g, n, rank, owner, t, x, s, false, fail).owner == r.owner && KeepsOwn(marked, r.owner, t)
  {
    var claim, centre := Claim(g, n, x), Centre(g, n, x);
    marked := Marked(owner, claim, centre, t);
    FrameIn(g, n, rank, owner, t, x, s);
    forall e: nat | Near(g, x, e)
      ensures e < |marked| && marked[e] == t
    {
      ClaimIsAround(g, n, x, e);
      CentreIsAround(g, n, x, e);
    }
  }

  lemma LegIsHeld(g: Graph, n: nat, owner: seq<int>, t: int, x: nat, dir: nat, s: int, y: nat, s': int)
    requires WellFormed(g, n) && x < n && HasLeg(g, x, dir)
    requires y == g.edge[EdgeId(x, dir)].dest < n && s' == s - g.edge[EdgeId(x, dir)].dist
    requires GoesOn(g, EdgeId(x, dir), s) ==> Holds(g, n, owner, t, y, s')
    ensures LegHolds(g, n, owner, t, x, dir, s)
  {
  }

  lemma {:induction false} AlongLegHolds(g: Graph, n: nat, rank: seq<nat>, entry: seq<int>, owner: seq<int>, t: int,
                                         x: nat, dir: nat, s: int, fail: int)
    requires Callable(g, n, rank, entry, t, x, s) && Callable(g, n, rank, owner, t, x, s) && HasLeg(g, x, dir)
    requires Claims(g.node[x].ty) && !AlreadyHeld(g, entry, t, x, s)
    requires KeepsOwn(entry, owner, t) && owner[EdgeId(x, DIR_AHEAD)] == t
    requires AlongLeg(g, n, rank, entry, owner, t, x, dir, s, false, fail).ok
    ensures LegHolds(g, n, AlongLeg(g, n, rank, entry, owner, t, x, dir, s, false, fail).owner, t, x, dir, s)
    decreases M1(s), M2(rank, entry, t, x, s), M3(g, x), 0
  {
    var d := g.edge[EdgeId(x, dir)];
    var y, s' := d.dest, s - d.dist;
    LegIs(g, n, rank, entry, owner, t, x, dir, s, false, fail, y, s');
    var r := AlongLeg(g, n, rank, entry, owner, t, x, dir, s, false, fail);
    if GoesOn(g, EdgeId(x, dir), s) {
      ReserveHolds(g, n, rank, owner, t, y, s', fail);
    }
    LegIsHeld(g, n, r.owner, t, x, dir, s, y, s');
  }

  lemma {:induction false} AlongLegsHold(g: Graph, n: nat, rank: seq<nat>, entry: seq<int>, owner: seq<int>, t: int,
                                         x: nat, dir: nat, s: int, fail: int)
    requires Callable(g, n, rank, entry, t, x, s) && Callable(g, n, rank, owner, t, x, s) && HasLeg(g, x, dir)
    requires Claims(g.node[x].ty) && !AlreadyHeld(g, entry, t, x, s)
    requires KeepsOwn(entry, owner, t) && owner[EdgeId(x, DIR_AHEAD)] == t && HasLeg(g, x, DIR_AHEAD)
    requires AlongLegs(g, n, rank, entry, owner, t, x, s, false, fail).ok
    ensures LegHolds(g, n, AlongLegs(g, n, rank, entry, owner, t, x, s, false, fail).owner, t, x, dir, s)
    decreases M1(s), M2(rank, entry, t, x, s), M3(g, x), 1
  {
    var r1 := AlongLeg(g, n, rank, entry, owner, t, x, DIR_STRAIGHT, s, false, fail);
    var r := AlongLegs(g, n, rank, entry, owner, t, x, s, false, fail);
    if g.node[x].ty == Branch {
      StaysClear(g, n, owner, r1.owner, t, x, s);
      if dir == DIR_STRAIGHT {
        AlongLegHolds(g, n, rank, entry, owner, t, x, dir, s, fail);
        LegStaysHeld(g, n, r1.owner, r.owner, t, x, dir, s);
      } else {
        AlongLegHolds(g, n, rank, entry, r1.owner, t, x, dir, s, r1.failNode);
      }
    } else {
      AlongLegHolds(g, n, rank, entry, owner, t, x, dir, s, fail);
    }
  }

  lemma {:induction false} FrameHolds(g: Graph, n: nat, rank: seq<nat>, owner: seq<int>, t: int, x: nat, s: int,
                                      fail: int)
    requires Callable(g, n, rank, owner, t, x, s) && Reserve(g, n, rank, owner, t, x, s, false, fail).ok
    requires Claims(g.node[x].ty) && !AlreadyHeld(g, owner, t, x, s)
    ensures Holds(g, n, Reserve(g, n, rank, owner, t, x, s, false, fail).owner, t, x, s)
    decreases M1(s), M2(rank, owner, t, x, s), M3(g, x), 2
  {
    var marked := MarkedAround(g, n, rank, owner, t, x, s, fail);
    AlongLegsHold(g, n, rank, owner, marked, t, x, DIR_AHEAD, s, fail);
    if HasLeg(g, x, DIR_CURVED) {
      AlongLegsHold(g, n, rank, owner, marked, t, x, DIR_CURVED, s, fail);
    }
    var after := AlongLegs(g, n, rank, owner, marked, t, x, s, false, fail).owner;
    LegsMakeHold(g, n, after, t, x, s);
  }

  /** A real call that succeeds leaves the train holding, at every node it comes to within the stopping distance,
      the legs in both directions; at a merge also those of the turnout's other side, and those of the double
      turnout behind it. */
  lemma {:induction false} ReserveHolds(g: Graph, n: nat, rank: seq<nat>, owner: seq<int>, t: int, x: nat, s: int,
                                        fail: int)
    requires Callable(g, n, rank, owner, t, x, s) && Reserve(g, n, rank, owner, t, x, s, false, fail).ok
    ensures Holds(g, n, Reserve(g, n, rank, owner, t, x, s, false, fail).owner, t, x, s)
    decreases M1(s), M2(rank, owner, t, x, s), M3(g, x), 3
  {
    if AlreadyHeld(g, owner, t, x, s) || g.node[x].ty == Exit {
      NoRoomHolds(g, n, owner, t, x, s);
    } else {
      FrameHolds(g, n, rank, owner, t, x, s, fail);
    }
  }

  /** A real call that fails has changed nothing, or it leaves everything near x free. */
  lemma FailureFrees(g: Graph, n: nat, rank: seq<nat>, owner: seq<int>, t: int, x: nat, s: int, fail: int, e: nat)
    requires Callable(g, n, rank, owner, t, x, s) && !Reserve(g, n, rank, owner, t, x, s, false, fail).ok
    requires Near(g, x, e)
    ensures var after := Reserve(g, n, rank, owner, t, x, s, false, fail).owner;
            after == owner || (e < |after| && after[e] == UNRESERVED)
  {
    if Claims(g.node[x].ty) && !AlreadyHeld(g, owner, t, x, s) && AllReservable(owner, Claim(g, n, x), t) {
      ClaimIsAround(g, n, x, e);
      CentreIsAround(g, n, x, e);
      FrameIn(g, n, rank, owner, t, x, s);
    }
  }

  // ---- nothing else is touched ----

  ghost predicate NearAt(g: Graph, n: nat, x: nat, s: int, es: seq<nat>, e: nat)
    requires WellFormed(g, n) && x < n
  {
    Follows(g, n, x, s, es) && Near(g, Reached(g, n, x, s, es), e)
  }

  /** e is near some node that a call at x with s left may come to. */
  ghost predicate InReach(g: Graph, n: nat, x: nat, s: int, e: nat)
    requires WellFormed(g, n)
  {
    x < n && exists es {:trigger NearAt(g, n, x, s, es, e)} :: NearAt(g, n, x, s, es, e)
  }

  ghost predicate TouchesOnly(g: Graph, n: nat, before: seq<int>, after: seq<int>, x: nat, s: int)
    requires WellFormed(g, n)
  {
    |before| == |after| && forall e {:trigger after[e]} :: 0 <= e < |before| && after[e] != before[e] ==>
      InReach(g, n, x, s, e)
  }

  lemma TouchesBoth(g: Graph, n: nat, a: seq<int>, b: seq<int>, c: seq<int>, x: nat, s: int)
    requires WellFormed(g, n) && TouchesOnly(g, n, a, b, x, s) && TouchesOnly(g, n, b, c, x, s)
    ensures TouchesOnly(g, n, a, c, x, s)
  {
    forall e | 0 <= e < |a| && c[e] != a[e]
      ensures InReach(g, n, x, s, e)
    {
      assert b[e] != a[e] || c[e] != b[e];
    }
  }

  lemma TouchesOnward(g: Graph, n: nat, before: seq<int>, after: seq<int>, x: nat, s: int, dir: nat, y: nat, s': int)
    requires WellFormed(g, n) && x < n && HasLeg(g, x, dir) && y == g.edge[EdgeId(x, dir)].dest < n
    requires s' == s - g.edge[EdgeId(x, dir)].dist && GoesOn(g, EdgeId(x, dir), s)
    requires TouchesOnly(g, n, before, after, y, s')
    ensures TouchesOnly(g, n, before, after, x, s)
  {
    forall e | 0 <= e < |before| && after[e] != before[e]
      ensures InReach(g, n, x, s, e)
    {
      var es :| NearAt(g, n, y, s', es, e);
      FollowsOn(g, n, x, s, dir, y, s', es);
      assert NearAt(g, n, x, s, [EdgeId(x, dir)] + es, e);
    }
  }

  /** The frame's own edges are in reach. */
  lemma FrameInReach(g: Graph, n: nat, x: nat, s: int, e: nat)
    requires WellFormed(g, n) && CentreIsBranch(g, n) && x < n && Claims(g.node[x].ty)
    requires e in Claim(g, n, x) || e in Centre(g, n, x)
    ensures InReach(g, n, x, s, e)
  {
    ClaimIsAround(g, n, x, e);
    CentreIsAround(g, n, x, e);
    assert NearAt(g, n, x, s, [], e);
  }

  lemma MarkedTouches(g: Graph, n: nat, owner: seq<int>, t: int, x: nat, s: int)
    requires WellFormed(g, n) && CentreIsBranch(g, n) && x < n && Claims(g.node[x].ty) && |owner| == |g.edge|
    ensures TouchesOnly(g, n, owner, Marked(owner, Claim(g, n, x), Centre(g, n, x), t), x, s)
  {
    var marked := Marked(owner, Claim(g, n, x), Centre(g, n, x), t);
    forall e | 0 <= e < |owner| && marked[e] != owner[e]
      ensures InReach(g, n, x, s, e)
    {
      FrameInReach(g, n, x, s, e);
    }
  }

  lemma LeaveTouches(g: Graph, n: nat, owner: seq<int>, now: seq<int>, t: int, x: nat, s: int, ok: bool, dry: bool)
    requires WellFormed(g, n) && CentreIsBranch(g, n) && x < n && Claims(g.node[x].ty)
    requires |owner| == |now| == |g.edge|
    ensures TouchesOnly(g, n, now, Leave(owner, now, Claim(g, n, x), Centre(g, n, x), t, ok, dry), x, s)
  {
    var out := Leave(owner, now, Claim(g, n, x), Centre(g, n, x), t, ok, dry);
    forall e | 0 <= e < |now| && out[e] != now[e]
      ensures InReach(g, n, x, s, e)
    {
      FrameInReach(g, n, x, s, e);
    }
  }

  lemma {:induction false} LegTouches(g: Graph, n: nat, rank: seq<nat>, entry: seq<int>, owner: seq<int>, t: int,
                                      x: nat, dir: nat, s: int, dry: bool, fail: int)
    requires Callable(g, n, rank, entry, t, x, s) && Callable(g, n, rank, owner, t, x, s) && HasLeg(g, x, dir)
    requires Claims(g.node[x].ty) && !AlreadyHeld(g, entry, t, x, s)
    requires KeepsOwn(entry, owner, t) && owner[EdgeId(x, DIR_AHEAD)] == t
    ensures TouchesOnly(g, n, owner, AlongLeg(g, n, rank, entry, owner, t, x, dir, s, dry, fail).owner, x, s)
    decreases M1(s), M2(rank, entry, t, x, s), M3(g, x), 0
  {
    var d := g.edge[EdgeId(x, dir)];
    var y, s' := d.dest, s - d.dist;
    LegIs(g, n, rank, entry, owner, t, x, dir, s, dry, fail, y, s');
    if GoesOn(g, EdgeId(x, dir), s) {
      ReserveTouches(g, n, rank, owner, t, y, s', dry, fail);
      TouchesOnward(g, n, owner, Reserve(g, n, rank, owner, t, y, s', dry, fail).owner, x, s, dir, y, s');
    }
  }

  lemma {:induction false} LegsTouch(g: Graph, n: nat, rank: seq<nat>, entry: seq<int>, owner: seq<int>, t: int,
                                     x: nat, s: int, dry: bool, fail: int)
    requires Callable(g, n, rank, entry, t, x, s) && Callable(g, n, rank, owner, t, x, s) && HasLeg(g, x, DIR_AHEAD)
    requires Claims(g.node[x].ty) && !AlreadyHeld(g, entry, t, x, s)
    requires KeepsOwn(entry, owner, t) && owner[EdgeId(x, DIR_AHEAD)] == t
    ensures TouchesOnly(g, n, owner, AlongLegs(g, n, rank, entry, owner, t, x, s, dry, fail).owner, x, s)
    decreases M1(s), M2(rank, entry, t, x, s), M3(g, x), 1
  {
    LegTouches(g, n, rank, entry, owner, t, x, DIR_STRAIGHT, s, dry, fail);
    var r1 := AlongLeg(g, n, rank, entry, owner, t, x, DIR_STRAIGHT, s, dry, fail);
    if g.node[x].ty == Branch && r1.ok {
      StaysClear(g, n, owner, r1.owner, t, x, s);
      LegTouches(g, n, rank, entry, r1.owner, t, x, DIR_CURVED, s, dry, r1.failNode);
      var r2 := AlongLeg(g, n, rank, entry, r1.owner, t, x, DIR_CURVED, s, dry, r1.failNode);
      TouchesBoth(g, n, owner, r1.owner, r2.owner, x, s);
    }
  }

  /** Whatever its outcome, a call changes owners only near the nodes it may come to. */
  lemma {:induction false} ReserveTouches(g: Graph, n: nat, rank: seq<nat>, owner: seq<int>, t: int, x: nat, s: int,
                                          dry: bool, fail: int)
    requires Callable(g, n, rank, owner, t, x, s)
    ensures TouchesOnly(g, n, owner, Reserve(g, n, rank, owner, t, x, s, dry, fail).owner, x, s)
    decreases M1(s), M2(rank, owner, t, x, s), M3(g, x), 2
  {
    if !AlreadyHeld(g, owner, t, x, s) && Claims(g.node[x].ty) && AllReservable(owner, Claim(g, n, x), t) {
      var claim, centre := Claim(g, n, x), Centre(g, n, x);
      var marked := Marked(owner, claim, centre, t);
      FrameIn(g, n, rank, owner, t, x, s);
      LegsTouch(g, n, rank, owner, marked, t, x, s, dry, fail);
      var r := AlongLegs(g, n, rank, owner, marked, t, x, s, dry, fail);
      var out := Leave(owner, r.owner, claim, centre, t, r.ok, dry);
      MarkedTouches(g, n, owner, t, x, s);
      TouchesBoth(g, n, owner, marked, r.owner, x, s);
      LeaveTouches(g, n, owner, r.owner, t, x, s, r.ok, dry);
      TouchesBoth(g, n, owner, r.owner, out, x, s);
    }
  }
}
