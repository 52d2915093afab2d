/** What a real call of reserveEdges that is refused leaves behind. It gives back the track its own frames have
    taken, but not what the call along the straight leg of a branch has taken beyond it when the call along the
    curved leg is then refused. */
module ReservationLeftovers {
  import opened TrackGraph
  import opened Reservation
  import opened ReservationSafety

  /** The train has no edge it did not have before. */
  ghost predicate TakesNothing(before: seq<int>, after: seq<int>, t: int)
  {
    |before| == |after| && forall e {:trigger after[e]} :: 0 <= e < |after| && after[e] == t ==> before[e] == t
  }

  /** A call at x with s left comes to no branch. */
  ghost predicate NoBranchFrom(g: Graph, n: nat, x: nat, s: int)
    requires WellFormed(g, n)
  {
    x < n && forall es {:trigger Follows(g, n, x, s, es)} ::
      Follows(g, n, x, s, es) ==> g.node[Reached(g, n, x, s, es)].ty != Branch
  }

  lemma NoBranchHere(g: Graph, n: nat, x: nat, s: int)
    requires WellFormed(g, n) && NoBranchFrom(g, n, x, s)
    ensures g.node[x].ty != Branch
  {
    assert Follows(g, n, x, s, []) && Reached(g, n, x, s, []) == x;
  }

  lemma NoBranchOnward(g: Graph, n: nat, x: nat, s: int, dir: nat, y: nat, s': int)
    requires WellFormed(g, n) && NoBranchFrom(g, n, x, s) && HasLeg(g, x, dir)
    requires y == g.edge[EdgeId(x, dir)].dest < n
    requires s' == s - g.edge[EdgeId(x, dir)].dist && GoesOn(g, EdgeId(x, dir), s)
    ensures NoBranchFrom(g, n, y, s')
  {
    forall es | Follows(g, n, y, s', es)
      ensures g.node[Reached(g, n, y, s', es)].ty != Branch
    {
      FollowsOn(g, n, x, s, dir, y, s', es);
    }
  }

  lemma FrameGivesBack(owner: seq<int>, now: seq<int>, claim: seq<nat>, centre: seq<nat>, t: int)
    requires ValidEdges(owner, claim) && ValidEdges(owner, centre) && t != UNRESERVED
    requires TakesNothing(Marked(owner, claim, centre, t), now, t)
    ensures TakesNothing(owner, Leave(owner, now, claim, centre, t, false, false), t)
  {
  }

  lemma {:induction false} LegTakesNothing(g: Graph, n: nat, rank: seq<nat>, entry: seq<int>, owner: seq<int>, t: int,
                                           x: nat, dir: nat, s: int, fail: int)
    requires Callable(g, n, rank, entry, t, x, s) && Callable(g, n, rank, owner, t, x, s) && HasLeg(g, x, dir)
    requires Claims(g.node[x].ty) && !AlreadyHeld(g, entry, t, x, s) && NoBranchFrom(g, n, x, s)
    requires KeepsOwn(entry, owner, t) && owner[EdgeId(x, DIR_AHEAD)] == t
    requires !AlongLeg(g, n, rank, entry, owner, t, x, dir, s, false, fail).ok
    ensures TakesNothing(owner, AlongLeg(g, n, rank, entry, owner, t, x, dir, s, false, fail).owner, t)
    decreases M1(s), M2(rank, entry, t, x, s), M3(g, x), 0
  {
    var d := g.edge[EdgeId(x, dir)];
    var y, s' := d.dest, s - d.dist;
    LegIs(g, n, rank, entry, owner, t, x, dir, s, false, fail, y, s');
    NoBranchOnward(g, n, x, s, dir, y, s');
    RefusedTakesNothing(g, n, rank, owner, t, y, s', fail);
  }

  /** A real call that is refused leaves the train no edge it did not have, if it comes to no branch. */
  lemma {:induction false} RefusedTakesNothing(g: Graph, n: nat, rank: seq<nat>, owner: seq<int>, t: int, x: nat,
                                               s: int, fail: int)
    requires Callable(g, n, rank, owner, t, x, s) && NoBranchFrom(g, n, x, s)
    requires !Reserve(g, n, rank, owner, t, x, s, false, fail).ok
    ensures TakesNothing(owner, Reserve(g, n, rank, owner, t, x, s, false, fail).owner, t)
    decreases M1(s), M2(rank, owner, t, x, s), M3(g, x), 2
  {
    if Claims(g.node[x].ty) && AllReservable(owner, Claim(g, n, x), t) {
      var claim, centre := Claim(g, n, x), Centre(g, n, x);
      var marked := Marked(owner, claim, centre, t);
      FrameIn(g, n, rank, owner, t, x, s);
      NoBranchHere(g, n, x, s);
      OneLegIs(g, n, rank, owner, marked, t, x, s, false, fail);
      var r := AlongLeg(g, n, rank, owner, marked, t, x, DIR_AHEAD, s, false, fail);
      LegTakesNothing(g, n, rank, owner, marked, t, x, DIR_AHEAD, s, fail);
      FrameGivesBack(owner, r.owner, claim, centre, t);
    }
  }

  // ---- at a branch ----

  /** Branch b and all its legs are free, and both lead, nearer than s, to sensors. At the one the straight leg
      leads to there is room: the piece of track beyond is free, reaches far enough, and ends at no turnout.
      Beyond the other the track is another train's. */
  ghost predicate HalfOpen(g: Graph, n: nat, owner: seq<int>, t: int, b: nat, s: int)
    requires WellFormed(g, n) && |owner| == |g.edge|
  {
    b < n && g.node[b].ty == Branch &&
    (assert LegOk(g, n, b, DIR_STRAIGHT) && LegOk(g, n, b, DIR_CURVED);
     assert Paired(g, n, b, DIR_STRAIGHT) && Paired(g, n, b, DIR_CURVED);
     var e1, e2 := EdgeId(b, DIR_STRAIGHT), EdgeId(b, DIR_CURVED);
     var z, y := g.edge[e1].dest, g.edge[e2].dest;
     && owner[e1] == owner[e2] == owner[Rev(g, e1)] == owner[Rev(g, e2)] == UNRESERVED
     && g.node[z].ty == Sensor && g.node[y].ty == Sensor && s > g.edge[e1].dist && s > g.edge[e2].dist
     && ForeignTo(owner[EdgeId(y, DIR_AHEAD)], t) && SensorOpen(g, n, owner, z, s - g.edge[e1].dist)
     && EdgeId(z, DIR_AHEAD) != Rev(g, e2))
  }

  /** The track beyond sensor z is free, and a call there with s left ends with it. */
  ghost predicate SensorOpen(g: Graph, n: nat, owner: seq<int>, z: nat, s: int)
    requires WellFormed(g, n) && |owner| == |g.edge| && z < n
  {
    g.node[z].ty == Sensor &&
    (assert LegOk(g, n, z, DIR_AHEAD) && Paired(g, n, z, DIR_AHEAD);
     var e := EdgeId(z, DIR_AHEAD);
     owner[e] == owner[Rev(g, e)] == UNRESERVED && !GoesOn(g, e, s))
  }

  /** A sensor with the track beyond it free, or the train's, is granted that track. */
  lemma SensorGranted(g: Graph, n: nat, rank: seq<nat>, owner: seq<int>, t: int, z: nat, s: int, fail: int,
                      e: nat, back: nat)
    requires Callable(g, n, rank, owner, t, z, s) && g.node[z].ty == Sensor && s >= 0
    requires e == EdgeId(z, DIR_AHEAD) < |g.edge| && back == Rev(g, e) < |g.edge| && g.edge[e].dest < n
    requires !GoesOn(g, e, s) && CanReserve(owner, e, t) && CanReserve(owner, back, t)
    ensures Reserve(g, n, rank, owner, t, z, s, false, fail) == Result(true, Mark(owner, [e, back], t), fail)
  {
    assert Claim(g, n, z) == [e, back];
    var marked, r := OneLegFrame(g, n, rank, owner, t, z, s, false, fail, [e, back]);
    LegEnds(g, n, rank, owner, marked, t, z, DIR_AHEAD, s, false, fail);
  }

  /** A sensor with the track beyond it another train's is refused, and nothing is written. */
  lemma SensorRefused(g: Graph, n: nat, rank: seq<nat>, owner: seq<int>, t: int, y: nat, s: int, fail: int)
    requires Callable(g, n, rank, owner, t, y, s) && g.node[y].ty == Sensor && s >= 0
    requires EdgeId(y, DIR_AHEAD) < |owner| && ForeignTo(owner[EdgeId(y, DIR_AHEAD)], t)
    ensures Reserve(g, n, rank, owner, t, y, s, false, fail) == Result(false, owner, y)
  {
    var claim := Claim(g, n, y);
    assert claim[0] == EdgeId(y, DIR_AHEAD) && LegOk(g, n, y, DIR_AHEAD);
    assert !AllReservable(owner, claim, t) && FailNode(g, owner, claim, t) == y;
  }

  /** The two calls of a branch, when the one along the straight leg succeeds. */
  lemma SecondLegDecides(g: Graph, n: nat, rank: seq<nat>, entry: seq<int>, owner: seq<int>, t: int, b: nat, s: int,
                         fail: int, r1: Result)
    requires Callable(g, n, rank, entry, t, b, s) && Callable(g, n, rank, owner, t, b, s) && g.node[b].ty == Branch
    requires !AlreadyHeld(g, entry, t, b, s) && KeepsOwn(entry, owner, t) && owner[EdgeId(b, DIR_AHEAD)] == t
    requires r1 == AlongLeg(g, n, rank, entry, owner, t, b, DIR_STRAIGHT, s, false, fail) && r1.ok
    ensures Callable(g, n, rank, r1.owner, t, b, s)
    ensures AlongLegs(g, n, rank, entry, owner, t, b, s, false, fail)
            == AlongLeg(g, n, rank, entry, r1.owner, t, b, DIR_CURVED, s, false, r1.failNode)
  {
    StaysClear(g, n, owner, r1.owner, t, b, s);
  }

  lemma StraightGranted(g: Graph, n: nat, rank: seq<nat>, entry: seq<int>, owner: seq<int>, t: int, b: nat, s: int,
                        fail: int, z: nat, s': int, e: nat, back: nat)
    requires Callable(g, n, rank, entry, t, b, s) && Callable(g, n, rank, owner, t, b, s) && g.node[b].ty == Branch
    requires !AlreadyHeld(g, entry, t, b, s) && KeepsOwn(entry, owner, t) && owner[EdgeId(b, DIR_AHEAD)] == t
    requires z == g.edge[EdgeId(b, DIR_STRAIGHT)].dest < n && g.node[z].ty == Sensor
    requires s' == s - g.edge[EdgeId(b, DIR_STRAIGHT)].dist > 0
    requires e == EdgeId(z, DIR_AHEAD) < |g.edge| && back == Rev(g, e) < |g.edge| && g.edge[e].dest < n
    requires !GoesOn(g, e, s') && CanReserve(owner, e, t) && CanReserve(owner, back, t)
    ensures HasLeg(g, b, DIR_STRAIGHT)
    ensures AlongLeg(g, n, rank, entry, owner, t, b, DIR_STRAIGHT, s, false, fail)
            == Result(true, Mark(owner, [e, back], t), fail)
  {
    LegLeadsTo(g, n, rank, entry, owner, t, b, DIR_STRAIGHT, s, false, fail, z, s');
    SensorGranted(g, n, rank, owner, t, z, s', fail, e, back);
  }

  lemma CurvedRefused(g: Graph, n: nat, rank: seq<nat>, entry: seq<int>, owner: seq<int>, t: int, b: nat, s: int,
                      fail: int, y: nat, s': int)
    requires Callable(g, n, rank, entry, t, b, s) && Callable(g, n, rank, owner, t, b, s) && g.node[b].ty == Branch
    requires !AlreadyHeld(g, entry, t, b, s) && KeepsOwn(entry, owner, t) && owner[EdgeId(b, DIR_AHEAD)] == t
    requires y == g.edge[EdgeId(b, DIR_CURVED)].dest < n && g.node[y].ty == Sensor
    requires s' == s - g.edge[EdgeId(b, DIR_CURVED)].dist > 0
    requires EdgeId(y, DIR_AHEAD) < |owner| && ForeignTo(owner[EdgeId(y, DIR_AHEAD)], t)
    ensures HasLeg(g, b, DIR_CURVED)
    ensures AlongLeg(g, n, rank, entry, owner, t, b, DIR_CURVED, s, false, fail) == Result(false, owner, y)
  {
    LegLeadsTo(g, n, rank, entry, owner, t, b, DIR_CURVED, s, false, fail, y, s');
    SensorRefused(g, n, rank, owner, t, y, s', fail);
  }

  /** The edges at such a branch. */
  lemma HalfOpenEdges(g: Graph, n: nat, owner: seq<int>, t: int, b: nat, s: int, e1: nat, e2: nat, z: nat, y: nat,
                      ez: nat)
    requires WellFormed(g, n) && CentreIsBranch(g, n) && |owner| == |g.edge| && HalfOpen(g, n, owner, t, b, s)
    requires e1 == EdgeId(b, DIR_STRAIGHT) && e2 == EdgeId(b, DIR_CURVED) && e2 < |g.edge|
    requires z == g.edge[e1].dest && y == g.edge[e2].dest && ez == EdgeId(z, DIR_AHEAD)
    ensures z < n && y < n && ez < |g.edge| && Rev(g, ez) < |g.edge| && g.edge[ez].dest < n
    ensures EdgeId(y, DIR_AHEAD) < |g.edge|
    ensures Claim(g, n, b) == [e1, e2, Rev(g, e1), Rev(g, e2)] && ez !in Claim(g, n, b) && Centre(g, n, b) == []
    ensures AllReservable(owner, Claim(g, n, b), t) && !AlreadyHeld(g, owner, t, b, s)
  {
    assert LegOk(g, n, b, DIR_STRAIGHT) && LegOk(g, n, b, DIR_CURVED);
    assert Paired(g, n, b, DIR_STRAIGHT) && Paired(g, n, b, DIR_CURVED) && NodeOk(g, n, b);
    assert LegOk(g, n, z, DIR_AHEAD) && Paired(g, n, z, DIR_AHEAD) && NodeOk(g, n, z);
  }

  /** So at such a branch the call is refused, and the train is left with the track beyond the straight leg,
      which it did not have, and not with the way there. */
  lemma LeftBehind(g: Graph, n: nat, rank: seq<nat>, owner: seq<int>, t: int, b: nat, s: int, fail: int, z: nat, y: nat)
    requires Callable(g, n, rank, owner, t, b, s) && HalfOpen(g, n, owner, t, b, s) && EdgeId(b, DIR_CURVED) < |g.edge|
    requires z == g.edge[EdgeId(b, DIR_STRAIGHT)].dest && y == g.edge[EdgeId(b, DIR_CURVED)].dest
    ensures EdgeId(z, DIR_AHEAD) < |owner| && owner[EdgeId(z, DIR_AHEAD)] == UNRESERVED
    ensures var r := Reserve(g, n, rank, owner, t, b, s, false, fail);
            && !r.ok && r.failNode == y
            && r.owner[EdgeId(z, DIR_AHEAD)] == t && r.owner[EdgeId(b, DIR_STRAIGHT)] == UNRESERVED
  {
    var e1, e2, ez := EdgeId(b, DIR_STRAIGHT), EdgeId(b, DIR_CURVED), EdgeId(z, DIR_AHEAD);
    HalfOpenEdges(g, n, owner, t, b, s, e1, e2, z, y, ez);
    var claim := Claim(g, n, b);
    var marked := Mark(owner, claim, t);
    FrameIs(g, n, rank, owner, t, b, s, false, fail, claim, marked);
    StraightGranted(g, n, rank, owner, marked, t, b, s, fail, z, s - g.edge[e1].dist, ez, Rev(g, ez));
    var r1 := Result(true, Mark(marked, [ez, Rev(g, ez)], t), fail);
    SecondLegDecides(g, n, rank, owner, marked, t, b, s, fail, r1);
    CurvedRefused(g, n, rank, owner, r1.owner, t, b, s, fail, y, s - g.edge[e2].dist);
    assert e1 in claim && ez in [ez, Rev(g, ez)];
  }
}
