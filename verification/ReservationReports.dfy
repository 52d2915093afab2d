/** What a call of reserveEdges reports: reserveFailNode is written exactly when the call fails. */
module ReservationReports {
  import opened TrackGraph
  import opened Reservation

  /** No temporary nodes are left on the track itself. */
  ghost predicate NoFakes(g: Graph, n: nat)
    requires n <= |g.node|
  {
    forall x {:trigger g.node[x]} :: 0 <= x < n ==> g.node[x].ty != Fake
  }

  /** A node the train can be asked to reserve from. */
  predicate Reservable(g: Graph, x: nat)
    requires x < |g.node|
  {
    g.node[x].ty != NoNode && g.node[x].ty != Fake
  }

  /** A success leaves reserveFailNode alone, a failure sets it to a node of the track. */
  ghost predicate Reports(g: Graph, n: nat, r: Result, fail: int)
    requires n <= |g.node|
  {
    if r.ok then r.failNode == fail else 0 <= r.failNode < n && Reservable(g, r.failNode)
  }

  lemma {:induction false} FailNodeOnTrack(g: Graph, n: nat, owner: seq<int>, es: seq<nat>, t: int)
    requires |owner| == |g.edge| && ValidEdges(owner, es) && !AllReservable(owner, es, t)
    requires n <= |g.node| && forall i :: 0 <= i < |es| ==> g.edge[es[i]].src < n && Reservable(g, g.edge[es[i]].src)
    ensures 0 <= FailNode(g, owner, es, t) < n && Reservable(g, FailNode(g, owner, es, t))
  {
    if CanReserve(owner, es[0], t) {
      var i :| 0 <= i < |es| && !CanReserve(owner, es[i], t);
      assert es[1..][i - 1] == es[i];
      FailNodeOnTrack(g, n, owner, es[1..], t);
    }
  }

  /** The edges a frame claims start on the track. */
  lemma ClaimSources(g: Graph, n: nat, x: nat)
    requires WellFormed(g, n) && x < n && NoFakes(g, n)
    ensures forall i :: 0 <= i < |Claim(g, n, x)| ==>
              g.edge[Claim(g, n, x)[i]].src < n && Reservable(g, g.edge[Claim(g, n, x)[i]].src)
  {
    assert NodeOk(g, n, x) && SidesMatch(g, n, x) && LegOk(g, n, x, DIR_STRAIGHT) && LegOk(g, n, x, DIR_CURVED);
    assert Paired(g, n, x, DIR_STRAIGHT) && Paired(g, n, x, DIR_CURVED);
    if g.node[x].ty == Merge {
      var b := g.node[x].reverse;
      assert LegOk(g, n, b, DIR_STRAIGHT) && LegOk(g, n, b, DIR_CURVED);
      assert Paired(g, n, b, DIR_STRAIGHT) && Paired(g, n, b, DIR_CURVED);
    }
  }

  lemma {:induction false} LegReports(g: Graph, n: nat, rank: seq<nat>, entry: seq<int>, owner: seq<int>, t: int,
                                      x: nat, dir: nat, s: int, dry: bool, fail: int)
    requires Callable(g, n, rank, entry, t, x, s) && Callable(g, n, rank, owner, t, x, s) && HasLeg(g, x, dir)
    requires NoFakes(g, n)
    requires Claims(g.node[x].ty) && !AlreadyHeld(g, entry, t, x, s)
    requires KeepsOwn(entry, owner, t) && owner[EdgeId(x, DIR_AHEAD)] == t
    ensures Reports(g, n, AlongLeg(g, n, rank, entry, owner, t, x, dir, s, dry, fail), fail)
    decreases M1(s), M2(rank, entry, t, x, s), M3(g, x), 0
  {
    var d := g.edge[EdgeId(x, dir)];
    var y, s' := d.dest, s - d.dist;
    LegIs(g, n, rank, entry, owner, t, x, dir, s, dry, fail, y, s');
    if GoesOn(g, EdgeId(x, dir), s) {
      assert Reservable(g, y);
      ReserveReports(g, n, rank, owner, t, y, s', dry, fail);
    }
  }

  lemma {:induction false} LegsReport(g: Graph, n: nat, rank: seq<nat>, entry: seq<int>, owner: seq<int>, t: int,
                                      x: nat, s: int, dry: bool, fail: int)
    requires Callable(g, n, rank, entry, t, x, s) && Callable(g, n, rank, owner, t, x, s) && HasLeg(g, x, DIR_AHEAD)
    requires NoFakes(g, n)
    requires Claims(g.node[x].ty) && !AlreadyHeld(g, entry, t, x, s)
    requires KeepsOwn(entry, owner, t) && owner[EdgeId(x, DIR_AHEAD)] == t
    ensures Reports(g, n, AlongLegs(g, n, rank, entry, owner, t, x, s, dry, fail), fail)
    decreases M1(s), M2(rank, entry, t, x, s), M3(g, x), 1
  {
    LegReports(g, n, rank, entry, owner, t, x, DIR_STRAIGHT, s, dry, fail);
    var r1 := AlongLeg(g, n, rank, entry, owner, t, x, DIR_STRAIGHT, s, dry, fail);
    if g.node[x].ty == Branch && r1.ok {
      StaysClear(g, n, owner, r1.owner, t, x, s);
      LegReports(g, n, rank, entry, r1.owner, t, x, DIR_CURVED, s, dry, r1.failNode);
    }
  }

  /** On a track without temporary nodes a call succeeds exactly when it leaves reserveFailNode alone. */
  lemma {:induction false} ReserveReports(g: Graph, n: nat, rank: seq<nat>, owner: seq<int>, t: int, x: nat, s: int,
                                          dry: bool, fail: int)
    requires Callable(g, n, rank, owner, t, x, s) && Reservable(g, x) && NoFakes(g, n)
    ensures Reports(g, n, Reserve(g, n, rank, owner, t, x, s, dry, fail), fail)
    decreases M1(s), M2(rank, owner, t, x, s), M3(g, x), 2
  {
    if !AlreadyHeld(g, owner, t, x, s) && Claims(g.node[x].ty) {
      var claim := Claim(g, n, x);
      if AllReservable(owner, claim, t) {
        var marked := Marked(owner, claim, Centre(g, n, x), t);
        FrameIn(g, n, rank, owner, t, x, s);
        LegsReport(g, n, rank, owner, marked, t, x, s, dry, fail);
        var r := AlongLegs(g, n, rank, owner, marked, t, x, s, dry, fail);
        assert Reports(g, n, r, fail);
      } else {
        ClaimSources(g, n, x);
        FailNodeOnTrack(g, n, owner, claim, t);
      }
    }
  }
}
