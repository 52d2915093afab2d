/** Why a call of reserveEdges is refused: some edge it needs belongs to another train, and it says where. */
module ReservationReasons {
  import opened TrackGraph
  import opened Reservation
  import opened ReservationSafety
  import opened ReservationReports

  /** e is the leg of z in this direction, or the other direction of it. */
  ghost predicate LegEitherWay(g: Graph, z: nat, dir: nat, e: nat)
    requires Shape(g)
  {
    HasLeg(g, z, dir) && EdgeId(z, dir) < |g.edge| && (e == EdgeId(z, dir) || e == Rev(g, EdgeId(z, dir)))
  }

  /** e is a leg of z, in either direction. */
  ghost predicate AnyLeg(g: Graph, z: nat, e: nat)
    requires Shape(g)
  {
    LegEitherWay(g, z, DIR_STRAIGHT, e) || LegEitherWay(g, z, DIR_CURVED, e)
  }

  /** e is in the way at y: a leg of y or, at a merge, one of the turnout's other side, in either direction. */
  ghost predicate Around(g: Graph, y: nat, e: nat)
    requires Shape(g) && y < |g.node|
  {
    AnyLeg(g, y, e) || (g.node[y].ty == Merge && AnyLeg(g, g.node[y].reverse, e))
  }

  lemma ClaimIsAround(g: Graph, n: nat, x: nat, e: nat)
    requires WellFormed(g, n) && x < n && Claims(g.node[x].ty)
    ensures e in Claim(g, n, x) <==> Around(g, x, e)
  {
    assert NodeOk(g, n, x) && SidesMatch(g, n, x);
    var es := Claim(g, n, x);
    match g.node[x].ty {
      case Sensor => assert es == [es[0], es[1]];
      case Enter => assert es == [es[0], es[1]];
      case Branch => assert es == [es[0], es[1], es[2], es[3]];
      case Merge => assert es == [es[0], es[1], es[2], es[3], es[4], es[5]];
    }
  }

  /** On the way es from x, with s left at x, edge e is in the way and belongs to another train. */
  ghost predicate Blocks(g: Graph, n: nat, owner: seq<int>, t: int, x: nat, s: int, es: seq<nat>, e: nat)
    requires WellFormed(g, n) && x < n
  {
    && Follows(g, n, x, s, es) && Around(g, Reached(g, n, x, s, es), e)
    && e < |owner| && e < |g.edge| && ForeignTo(owner[e], t)
  }

  /** There is such an edge, and it starts from node fail. */
  ghost predicate Blocked(g: Graph, n: nat, owner: seq<int>, t: int, x: nat, s: int, fail: int)
    requires WellFormed(g, n)
  {
    x < n && exists es: seq<nat>, e: nat {:trigger Blocks(g, n, owner, t, x, s, es, e)} ::
      Blocks(g, n, owner, t, x, s, es, e) && fail == g.edge[e].src
  }

  lemma WasBlocked(g: Graph, n: nat, before: seq<int>, after: seq<int>, t: int, x: nat, s: int, fail: int)
    requires WellFormed(g, n) && Blocked(g, n, after, t, x, s, fail) && OnlyOurs(before, after, t)
    ensures Blocked(g, n, before, t, x, s, fail)
  {
    var es: seq<nat>, e: nat :| Blocks(g, n, after, t, x, s, es, e) && fail == g.edge[e].src;
    assert Blocks(g, n, before, t, x, s, es, e);
  }

  lemma BlockedOnward(g: Graph, n: nat, owner: seq<int>, t: int, x: nat, s: int, dir: nat, y: nat, s': int, fail: int)
    requires WellFormed(g, n) && x < n && HasLeg(g, x, dir) && y == g.edge[EdgeId(x, dir)].dest < n
    requires s' == s - g.edge[EdgeId(x, dir)].dist && GoesOn(g, EdgeId(x, dir), s)
    requires Blocked(g, n, owner, t, y, s', fail)
    ensures Blocked(g, n, owner, t, x, s, fail)
  {
    var es: seq<nat>, e: nat :| Blocks(g, n, owner, t, y, s', es, e) && fail == g.edge[e].src;
    FollowsOn(g, n, x, s, dir, y, s', es);
    assert Blocks(g, n, owner, t, x, s, [EdgeId(x, dir)] + es, e);
  }

  /** The node remembered is that of the first edge the train may not have. */
  lemma {:induction false} FailNodeIsSource(g: Graph, owner: seq<int>, es: seq<nat>, t: int) returns (i: nat)
    requires |owner| == |g.edge| && ValidEdges(owner, es) && !AllReservable(owner, es, t)
    ensures i < |es| && ForeignTo(owner[es[i]], t) && forall j :: 0 <= j < i ==> !ForeignTo(owner[es[j]], t)
    ensures FailNode(g, owner, es, t) == g.edge[es[i]].src
  {
    i := 0;
    if CanReserve(owner, es[0], t) {
      var k :| 0 <= k < |es| && !CanReserve(owner, es[k], t);
      assert es[1..][k - 1] == es[k];
      i := FailNodeIsSource(g, owner, es[1..], t);
      i := i + 1;
    }
  }

  lemma BlockedHere(g: Graph, n: nat, owner: seq<int>, t: int, x: nat, s: int)
    requires WellFormed(g, n) && x < n && Claims(g.node[x].ty) && |owner| == |g.edge|
    requires !AllReservable(owner, Claim(g, n, x), t)
    ensures Blocked(g, n, owner, t, x, s, FailNode(g, owner, Claim(g, n, x), t))
  {
    var i := FailNodeIsSource(g, owner, Claim(g, n, x), t);
    ClaimIsAround(g, n, x, Claim(g, n, x)[i]);
    assert Blocks(g, n, owner, t, x, s, [], Claim(g, n, x)[i]);
  }

  /** A refusal has its reason in the owners the call found. */
  ghost predicate HasReason(g: Graph, n: nat, owner: seq<int>, t: int, x: nat, s: int, r: Result)
    requires WellFormed(g, n)
  {
    r.ok || Blocked(g, n, owner, t, x, s, r.failNode)
  }

  lemma {:induction false} LegRefused(g: Graph, n: nat, rank: seq<nat>, entry: seq<int>, owner: seq<int>, t: int,
                                      x: nat, dir: nat, s: int, dry: bool, fail: int)
    requires Callable(g, n, rank, entry, t, x, s) && Callable(g, n, rank, owner, t, x, s) && HasLeg(g, x, dir)
    requires NoFakes(g, n)
    requires Claims(g.node[x].ty) && !AlreadyHeld(g, entry, t, x, s)
    requires KeepsOwn(entry, owner, t) && owner[EdgeId(x, DIR_AHEAD)] == t
    ensures HasReason(g, n, owner, t, x, s, AlongLeg(g, n, rank, entry, owner, t, x, dir, s, dry, fail))
    decreases M1(s), M2(rank, entry, t, x, s), M3(g, x), 0
  {
    var d := g.edge[EdgeId(x, dir)];
    var y, s' := d.dest, s - d.dist;
    LegIs(g, n, rank, entry, owner, t, x, dir, s, dry, fail, y, s');
    var r := AlongLeg(g, n, rank, entry, owner, t, x, dir, s, dry, fail);
    if GoesOn(g, EdgeId(x, dir), s) {
      assert Reservable(g, y);
      ReserveRefused(g, n, rank, owner, t, y, s', dry, fail);
      if !r.ok {
        BlockedOnward(g, n, owner, t, x, s, dir, y, s', r.failNode);
      }
    }
  }

  lemma {:induction false} LegsRefused(g: Graph, n: nat, rank: seq<nat>, entry: seq<int>, owner: seq<int>, t: int,
                                       x: nat, s: int, dry: bool, fail: int)
    requires Callable(g, n, rank, entry, t, x, s) && Callable(g, n, rank, owner, t, x, s) && HasLeg(g, x, DIR_AHEAD)
    requires NoFakes(g, n)
    requires Claims(g.node[x].ty) && !AlreadyHeld(g, entry, t, x, s)
    requires KeepsOwn(entry, owner, t) && owner[EdgeId(x, DIR_AHEAD)] == t
    ensures HasReason(g, n, owner, t, x, s, AlongLegs(g, n, rank, entry, owner, t, x, s, dry, fail))
    decreases M1(s), M2(rank, entry, t, x, s), M3(g, x), 1
  {
    LegRefused(g, n, rank, entry, owner, t, x, DIR_STRAIGHT, s, dry, fail);
    var r1 := AlongLeg(g, n, rank, entry, owner, t, x, DIR_STRAIGHT, s, dry, fail);
    if g.node[x].ty == Branch && r1.ok {
      StaysClear(g, n, owner, r1.owner, t, x, s);
      LegRefused(g, n, rank, entry, r1.owner, t, x, DIR_CURVED, s, dry, r1.failNode);
      var r2 := AlongLeg(g, n, rank, entry, r1.owner, t, x, DIR_CURVED, s, dry, r1.failNode);
      if !r2.ok {
        WasBlocked(g, n, owner, r1.owner, t, x, s, r2.failNode);
      }
    }
  }

  /** On a track without temporary nodes a call that fails names a node from which an edge starts that
      belonged to another train when it was made, and is in the way somewhere it may come to. So without
      such an edge every call succeeds. */
  lemma {:induction false} ReserveRefused(g: Graph, n: nat, rank: seq<nat>, owner: seq<int>, t: int, x: nat, s: int,
                                          dry: bool, fail: int)
    requires Callable(g, n, rank, owner, t, x, s) && Reservable(g, x) && NoFakes(g, n)
    ensures HasReason(g, n, owner, t, x, s, Reserve(g, n, rank, owner, t, x, s, dry, fail))
    decreases M1(s), M2(rank, owner, t, x, s), M3(g, x), 2
  {
    if !AlreadyHeld(g, owner, t, x, s) && Claims(g.node[x].ty) {
      var claim := Claim(g, n, x);
      if AllReservable(owner, claim, t) {
        var marked := Marked(owner, claim, Centre(g, n, x), t);
        FrameIn(g, n, rank, owner, t, x, s);
        LegsRefused(g, n, rank, owner, marked, t, x, s, dry, fail);
        var r := AlongLegs(g, n, rank, owner, marked, t, x, s, dry, fail);
        if !r.ok {
          WasBlocked(g, n, owner, marked, t, x, s, r.failNode);
        }
      } else {
        BlockedHere(g, n, owner, t, x, s);
      }
    }
  }
}
