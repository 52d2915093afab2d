/** reserveEdges run in place on the track's owners, and the messages that call it. */
module ReserveInPlace {
  import opened TrackGraph
  import opened TrackState
  import opened Reservation
  import opened ReservationRequests
  import opened ReservationReports
  import opened Landmarks
  import Locating

  /** The reply to a reservation request: nothing, or the landmark before the edge that could not be had. */
  datatype Reply = Nothing | Failed(landmark: Landmark)

  class TrackServer {
    const track: Track
    // the node in front of the last edge that could not be had
    var reserveFailNode: int

    constructor (track: Track)
      ensures this.track == track && reserveFailNode == NULL
    {
      this.track := track;
      reserveFailNode := NULL;
    }

    /** canReserve */
    method CanReserveEdge(e: nat, trainNum: int) returns (ok: bool)
      requires track.Valid() && e < track.owner.Length
      modifies this
      ensures ok <==> CanReserve(track.owner[..], e, trainNum)
      ensures reserveFailNode == if ok then old(reserveFailNode) else track.edges[e].src
    {
      ok := track.owner[e] == UNRESERVED || track.owner[e] == trainNum;
      if !ok {
        reserveFailNode := track.edges[e].src;
      }
    }

    /** The conjunction of canReserve over a frame's edges, which stops at the first refusal. */
    method CanReserveAll(es: seq<nat>, trainNum: int) returns (ok: bool)
      requires track.Valid() && ValidEdges(track.owner[..], es)
      modifies this
      ensures ok <==> AllReservable(track.owner[..], es, trainNum)
      ensures reserveFailNode == if ok then old(reserveFailNode)
                                 else FailNode(track.G(), track.owner[..], es, trainNum)
    {
      ok := true;
      var i := 0;
      while ok && i < |es|
        invariant i <= |es|
        invariant ok ==> reserveFailNode == old(reserveFailNode) && AllReservable(track.owner[..], es[..i], trainNum)
        invariant ok ==>
                    FailNode(track.G(), track.owner[..], es, trainNum)
                    == FailNode(track.G(), track.owner[..], es[i..], trainNum)
        invariant !ok ==> i < |es| && !CanReserve(track.owner[..], es[i], trainNum)
                          && reserveFailNode == FailNode(track.G(), track.owner[..], es, trainNum)
        decreases |es| - i, ok
      {
        ok := CanReserveEdge(es[i], trainNum);
        if ok {
          assert es[i..][1..] == es[i + 1..];
          i := i + 1;
        }
      }
      assert es[..|es|] == es;
    }

    method SetOwners(es: seq<nat>, v: int)
      requires track.Valid() && ValidEdges(track.owner[..], es)
      modifies track.owner
      ensures track.owner[..] == Mark(old(track.owner[..]), es, v)
    {
      ghost var before := track.owner[..];
      for i := 0 to |es|
        invariant track.owner[..] == Mark(before, es[..i], v)
      {
        track.owner[es[i]] := v;
        assert es[..i + 1][..i] == es[..i];
      }
      assert es[..|es|] == es;
    }

    method OwnersOf(es: seq<nat>) returns (orig: seq<int>)
      requires track.Valid() && ValidEdges(track.owner[..], es)
      ensures |orig| == |es| && forall i :: 0 <= i < |es| ==> orig[i] == track.owner[es[i]]
    {
      orig := [];
      for i := 0 to |es|
        invariant |orig| == i && forall j :: 0 <= j < i ==> orig[j] == track.owner[es[j]]
      {
        orig := orig + [track.owner[es[i]]];
      }
    }

    method RestoreOwners(es: seq<nat>, orig: seq<int>, ghost before: seq<int>)
      requires track.Valid() && ValidEdges(track.owner[..], es) && |before| == track.owner.Length
      requires |orig| == |es| && forall i :: 0 <= i < |es| ==> orig[i] == before[es[i]]
      modifies track.owner
      ensures track.owner[..] == Undo(old(track.owner[..]), es, before)
    {
      ghost var start := track.owner[..];
      for i := 0 to |es|
        invariant track.owner[..] == Undo(start, es[..i], before)
      {
        track.owner[es[i]] := orig[i];
        assert es[..i + 1][..i] == es[..i];
      }
      assert es[..|es|] == es;
    }

    /** The edges e1, e2, ... a frame at node x claims. */
    method ClaimOf(x: nat, ghost n: nat) returns (es: seq<nat>)
      requires track.Valid() && WellFormed(track.G(), n) && x < n
      ensures es == Claim(track.G(), n, x)
    {
      ghost var g := track.G();
      assert NodeOk(g, n, x) && SidesMatch(g, n, x) && LegOk(g, n, x, DIR_STRAIGHT) && LegOk(g, n, x, DIR_CURVED);
      assert Paired(g, n, x, DIR_STRAIGHT) && Paired(g, n, x, DIR_CURVED);
      var e1, e2 := EdgeId(x, DIR_STRAIGHT), EdgeId(x, DIR_CURVED);
      match track.nodes[x].ty {
        case Sensor => es := [e1, track.edges[e1].reverse];
        case Enter => es := [e1, track.edges[e1].reverse];
        case Branch => es := [e1, e2, track.edges[e1].reverse, track.edges[e2].reverse];
        case Merge =>
          var b := track.edges[track.edges[e1].reverse].dest;
          assert b == g.node[x].reverse;
          assert LegOk(g, n, b, DIR_STRAIGHT) && LegOk(g, n, b, DIR_CURVED);
          var e3, e4 := EdgeId(b, DIR_STRAIGHT), EdgeId(b, DIR_CURVED);
          es := [e1, track.edges[e1].reverse, e3, e4, track.edges[e3].reverse, track.edges[e4].reverse];
        case _ => es := [];
      }
    }

    method CentreOf(x: nat, ghost n: nat) returns (es: seq<nat>)
      requires track.Valid() && WellFormed(track.G(), n) && CentreIsBranch(track.G(), n) && x < n
      ensures es == Centre(track.G(), n, x)
    {
      ghost var g := track.G();
      es := [];
      if track.nodes[x].ty == Merge {
        assert NodeOk(g, n, x) && SidesMatch(g, n, x);
        assert Paired(g, n, x, DIR_AHEAD) && LegOk(g, n, x, DIR_AHEAD) && LegOk(g, n, g.node[x].reverse, DIR_STRAIGHT);
        var b := track.edges[track.edges[EdgeId(x, DIR_AHEAD)].reverse].dest;
        var c := track.edges[EdgeId(b, DIR_STRAIGHT)].dest;
        if track.nodes[c].num > 100 {
          assert CentreBranchAt(g, n, x);
          assert LegOk(g, n, c, DIR_STRAIGHT) && LegOk(g, n, c, DIR_CURVED);
          var e7, e8 := EdgeId(c, DIR_CURVED), EdgeId(c, DIR_STRAIGHT);
          es := [e7, e8, track.edges[e7].reverse, track.edges[e8].reverse];
        }
      }
    }

    /** The recursive call at the far end of a claimed leg. */
    method Onwards(x: nat, dir: nat, trainNum: int, stoppingDistance: int, dryrun: bool,
                   ghost n: nat, ghost rank: seq<nat>, ghost entry: seq<int>) returns (ok: bool)
      requires track.Valid() && Callable(track.G(), n, rank, entry, trainNum, x, stoppingDistance)
      requires Callable(track.G(), n, rank, track.Owners(), trainNum, x, stoppingDistance)
      requires x < n && HasLeg(track.G(), x, dir) && Claims(track.nodes[x].ty)
      requires !AlreadyHeld(track.G(), entry, trainNum, x, stoppingDistance)
      requires KeepsOwn(entry, track.Owners(), trainNum) && track.Owners()[EdgeId(x, DIR_AHEAD)] == trainNum
      modifies this, track.owner
      ensures Result(ok, track.Owners(), reserveFailNode)
           == old(AlongLeg(track.G(), n, rank, entry, track.Owners(), trainNum, x, dir, stoppingDistance, dryrun,
                           reserveFailNode))
      decreases M1(stoppingDistance), M2(rank, entry, trainNum, x, stoppingDistance), M3(track.G(), x), 0
    {
      ghost var g, owner, fail := track.G(), track.Owners(), reserveFailNode;
      ghost var d := g.edge[EdgeId(x, dir)];
      LegIs(g, n, rank, entry, owner, trainNum, x, dir, stoppingDistance, dryrun, fail, d.dest,
            stoppingDistance - d.dist);
      ghost var r := AlongLeg(g, n, rank, entry, owner, trainNum, x, dir, stoppingDistance, dryrun, fail);
      var e := track.edges[EdgeId(x, dir)];
      assert e == g.edge[EdgeId(x, dir)];
      var tmpStopping := stoppingDistance - e.dist;
      assert GoesOn(g, EdgeId(x, dir), stoppingDistance)
        <==> tmpStopping > 0 || track.nodes[e.dest].ty == Branch || track.nodes[e.dest].ty == Merge;
      ok := true;
      if tmpStopping > 0 || track.nodes[e.dest].ty == Branch || track.nodes[e.dest].ty == Merge {
        ok := ReserveEdges(e.dest, trainNum, tmpStopping, dryrun, n, rank);
      }
    }

    method BothOnwards(x: nat, trainNum: int, stoppingDistance: int, dryrun: bool,
                       ghost n: nat, ghost rank: seq<nat>, ghost entry: seq<int>) returns (ok: bool)
      requires track.Valid() && Callable(track.G(), n, rank, entry, trainNum, x, stoppingDistance)
      requires Callable(track.G(), n, rank, track.Owners(), trainNum, x, stoppingDistance)
      requires x < n && HasLeg(track.G(), x, DIR_AHEAD) && Claims(track.nodes[x].ty)
      requires !AlreadyHeld(track.G(), entry, trainNum, x, stoppingDistance)
      requires KeepsOwn(entry, track.Owners(), trainNum) && track.Owners()[EdgeId(x, DIR_AHEAD)] == trainNum
      modifies this, track.owner
      ensures Result(ok, track.Owners(), reserveFailNode)
           == old(AlongLegs(track.G(), n, rank, entry, track.Owners(), trainNum, x, stoppingDistance, dryrun,
                            reserveFailNode))
      decreases M1(stoppingDistance), M2(rank, entry, trainNum, x, stoppingDistance), M3(track.G(), x), 1
    {
      ghost var now := track.Owners();
      ok := Onwards(x, DIR_STRAIGHT, trainNum, stoppingDistance, dryrun, n, rank, entry);
      if ok && track.nodes[x].ty == Branch {
        StaysClear(track.G(), n, now, track.Owners(), trainNum, x, stoppingDistance);
        ok := Onwards(x, DIR_CURVED, trainNum, stoppingDistance, dryrun, n, rank, entry);
      }
    }

    /** The start of a frame: remember the owners, then claim the edges, the centre ones first. */
    method EnterFrame(es: seq<nat>, centre: seq<nat>, trainNum: int)
      returns (orig: seq<int>, taken: bool, origCentre: seq<int>)
      requires track.Valid() && ValidEdges(track.Owners(), es) && ValidEdges(track.Owners(), centre)
      modifies this, track.owner
      ensures track.Owners() == Marked(old(track.Owners()), es, centre, trainNum)
      ensures reserveFailNode == if |centre| > 0 && !old(CanReserve(track.Owners(), centre[0], trainNum))
                                 then track.edges[centre[0]].src else old(reserveFailNode)
      ensures taken == Taken(old(track.Owners()), centre, trainNum)
      ensures |orig| == |es| && forall i :: 0 <= i < |es| ==> orig[i] == old(track.Owners())[es[i]]
      ensures |origCentre| == |centre|
              && forall i :: 0 <= i < |centre| ==> origCentre[i] == old(track.Owners())[centre[i]]
    {
      orig := OwnersOf(es);
      origCentre := OwnersOf(centre);
      taken := |centre| > 0;
      if taken {
        taken := CanReserveEdge(centre[0], trainNum);
        if taken {
          SetOwners(centre, trainNum);
        }
      }
      SetOwners(es, trainNum);
    }

    /** The end of a frame: give everything back on failure, and in a dry run restore it. */
    method LeaveFrame(es: seq<nat>, orig: seq<int>, centre: seq<nat>, taken: bool, origCentre: seq<int>,
                      trainNum: int, ok: bool, dryrun: bool, ghost before: seq<int>)
      requires track.Valid() && |before| == track.owner.Length
      requires ValidEdges(before, es) && ValidEdges(before, centre) && taken == Taken(before, centre, trainNum)
      requires |orig| == |es| && forall i :: 0 <= i < |es| ==> orig[i] == before[es[i]]
      requires |origCentre| == |centre| && forall i :: 0 <= i < |centre| ==> origCentre[i] == before[centre[i]]
      modifies track.owner
      ensures track.Owners() == Leave(before, old(track.Owners()), es, centre, trainNum, ok, dryrun)
    {
      if !ok {
        SetOwners(es, UNRESERVED);
        SetOwners(centre, UNRESERVED);
      }
      if dryrun {
        RestoreOwners(es, orig, before);
        if taken {
          RestoreOwners(centre, origCentre, before);
        } else {
          // the saved values were never taken: they still hold the initial -1
          SetOwners(centre, UNRESERVED);
        }
      }
    }

    /** A frame whose edges es have all been found free or held by the train. */
    method RunFrame(x: nat, es: seq<nat>, trainNum: int, stoppingDistance: int, dryrun: bool,
                    ghost n: nat, ghost rank: seq<nat>) returns (ok: bool)
      requires track.Valid() && Callable(track.G(), n, rank, track.Owners(), trainNum, x, stoppingDistance)
      requires Claims(track.nodes[x].ty) && !AlreadyHeld(track.G(), track.Owners(), trainNum, x, stoppingDistance)
      requires es == Claim(track.G(), n, x) && AllReservable(track.Owners(), es, trainNum)
      modifies this, track.owner
      ensures Result(ok, track.Owners(), reserveFailNode)
           == old(Reserve(track.G(), n, rank, track.Owners(), trainNum, x, stoppingDistance, dryrun, reserveFailNode))
      decreases M1(stoppingDistance), M2(rank, track.Owners(), trainNum, x, stoppingDistance), M3(track.G(), x), 2
    {
      ghost var g, before, fail := track.G(), track.Owners(), reserveFailNode;
      FrameIn(g, n, rank, before, trainNum, x, stoppingDistance);
      var centre := CentreOf(x, n);
      ghost var marked := Marked(before, es, centre, trainNum);
      var orig, taken, origCentre := EnterFrame(es, centre, trainNum);
      ghost var r := AlongLegs(g, n, rank, before, marked, trainNum, x, stoppingDistance, dryrun, fail);
      ok := BothOnwards(x, trainNum, stoppingDistance, dryrun, n, rank, before);
      assert Result(ok, track.Owners(), reserveFailNode) == r;
      LeaveFrame(es, orig, centre, taken, origCentre, trainNum, ok, dryrun, before);
    }

    /** reserveEdges: true for RESERVE_SUCESS. */
    method ReserveEdges(x: nat, trainNum: int, stoppingDistance: int, dryrun: bool,
                        ghost n: nat, ghost rank: seq<nat>) returns (ok: bool)
      requires track.Valid() && Callable(track.G(), n, rank, track.Owners(), trainNum, x, stoppingDistance)
      modifies this, track.owner
      ensures Result(ok, track.Owners(), reserveFailNode)
           == old(Reserve(track.G(), n, rank, track.Owners(), trainNum, x, stoppingDistance, dryrun, reserveFailNode))
      decreases M1(stoppingDistance), M2(rank, track.Owners(), trainNum, x, stoppingDistance), M3(track.G(), x), 3
    {
      var v := track.nodes[x];
      if (v.ty == Sensor || v.ty == Branch || v.ty == Merge)
         && track.owner[EdgeId(x, DIR_AHEAD)] == trainNum && stoppingDistance < 0 {
        return true;
      }
      if v.ty == Exit {
        return true;
      }
      if v.ty != Sensor && v.ty != Enter && v.ty != Branch && v.ty != Merge {
        return false;
      }
      var es := ClaimOf(x, n);
      ok := CanReserveAll(es, trainNum);
      if ok {
        ok := RunFrame(x, es, trainNum, stoppingDistance, dryrun, n, rank);
      }
    }

    /** clearNodeReservation */
    method ClearNodeReservation(x: nat, trainNum: int)
      requires track.Valid() && x < track.nodes.Length
      modifies track.owner
      ensures forall e :: 0 <= e < track.owner.Length ==>
                track.owner[e] == if e / 2 == x && old(track.owner[e]) == trainNum && Clearable(track.G(), e)
                                  then UNRESERVED
                                  else old(track.owner[e])
    {
      var ty := track.nodes[x].ty;
      if ty == Sensor || ty == Enter || ty == Merge {
        if track.owner[EdgeId(x, DIR_AHEAD)] == trainNum {
          track.owner[EdgeId(x, DIR_AHEAD)] := UNRESERVED;
        }
      } else if ty == Branch {
        if track.owner[EdgeId(x, DIR_CURVED)] == trainNum {
          track.owner[EdgeId(x, DIR_CURVED)] := UNRESERVED;
        }
        if track.owner[EdgeId(x, DIR_STRAIGHT)] == trainNum {
          track.owner[EdgeId(x, DIR_STRAIGHT)] := UNRESERVED;
        }
      }
    }

    /** RELEASE_ALL_RESERVATION */
    method ReleaseAll(trainNum: int)
      requires track.Valid()
      modifies track.owner
      ensures Cleared(track.G(), old(track.Owners()), track.Owners(), trainNum)
    {
      ghost var before := track.Owners();
      for j := 0 to track.nodes.Length
        invariant forall e :: 0 <= e < track.owner.Length ==>
                    track.owner[e] == if e / 2 < j && before[e] == trainNum && Clearable(track.G(), e) then UNRESERVED
                                      else before[e]
      {
        ClearNodeReservation(j, trainNum);
      }
    }

    /** The nodes a request names: the last sensor and the predicted sensors, in that order. */
    ghost predicate Asks(asked: seq<Landmark>, n: nat, xs: seq<nat>)
      reads track.nodes
    {
      |asked| == |xs| && forall j :: 0 <= j < |xs| ==> Locating.FirstNamed(track.nodes[..], n, asked[j], xs[j])
    }

    /** findNode, for a landmark that names a node of the track. */
    method Lookup(asked: seq<Landmark>, j: nat, n: nat, ghost xs: seq<nat>) returns (x: nat)
      requires n <= track.nodes.Length && Asks(asked, n, xs) && j < |asked|
      ensures x == xs[j]
    {
      var r := Locating.FindNode(track, n, asked[j]);
      Locating.FirstNamedUnique(track.nodes[..], n, asked[j], r, xs[j]);
      x := r;
    }

    /** The dry runs for the requested nodes, up to the first failure. */
    method DryRuns(asked: seq<Landmark>, trainNum: int, stoppingDistance: int, n: nat, ghost xs: seq<nat>,
                   ghost rank: seq<nat>)
      returns (ok: bool)
      requires track.Valid() && AllCallable(track.G(), n, rank, track.Owners(), trainNum, xs, stoppingDistance)
      requires Asks(asked, n, xs)
      modifies this, track.owner
      ensures Result(ok, track.Owners(), reserveFailNode)
           == old(TryAll(track.G(), n, rank, track.Owners(), trainNum, xs, stoppingDistance, reserveFailNode))
    {
      ghost var g, owner := track.G(), track.Owners();
      ghost var r := TryAll(g, n, rank, owner, trainNum, xs, stoppingDistance, reserveFailNode);
      ok := true;
      for j := 0 to |asked|
        invariant track.Owners() == owner
        invariant ok ==> r == TryAll(g, n, rank, owner, trainNum, xs[j..], stoppingDistance, reserveFailNode)
        invariant !ok ==> r == Result(false, owner, reserveFailNode)
      {
        if !ok {
          break;
        }
        assert xs[j..][1..] == xs[j + 1..];
        var x := Lookup(asked, j, n, xs);
        ok := ReserveEdges(x, trainNum, stoppingDistance, true, n, rank);
      }
    }

    /** The real calls. Their results are ignored. */
    method RealRuns(asked: seq<Landmark>, trainNum: int, stoppingDistance: int, n: nat, ghost xs: seq<nat>,
                    ghost rank: seq<nat>)
      requires track.Valid() && AllCallable(track.G(), n, rank, track.Owners(), trainNum, xs, stoppingDistance)
      requires Asks(asked, n, xs)
      modifies this, track.owner
      ensures var r := old(DoAll(track.G(), n, rank, track.Owners(), trainNum, xs, stoppingDistance, reserveFailNode));
              track.Owners() == r.owner && reserveFailNode == r.failNode
    {
      ghost var g := track.G();
      ghost var r := DoAll(g, n, rank, track.Owners(), trainNum, xs, stoppingDistance, reserveFailNode);
      for j := 0 to |asked|
        invariant AllCallable(g, n, rank, track.Owners(), trainNum, xs, stoppingDistance)
        invariant var rest := DoAll(g, n, rank, track.Owners(), trainNum, xs[j..], stoppingDistance, reserveFailNode);
                  r.owner == rest.owner && r.failNode == rest.failNode
      {
        ghost var owner := track.Owners();
        assert xs[j..][1..] == xs[j + 1..];
        var x := Lookup(asked, j, n, xs);
        var _ := ReserveEdges(x, trainNum, stoppingDistance, false, n, rank);
        AllStayCallable(g, n, rank, owner, track.Owners(), trainNum, xs, stoppingDistance);
      }
    }

    /** The reply: nothing exactly when no node is remembered, and otherwise a landmark that names that node. */
    method ReplyFor(ghost n: nat) returns (reply: Reply)
      requires track.Valid() && n <= track.nodes.Length
      requires reserveFailNode != NULL ==> 0 <= reserveFailNode < n && Reservable(track.G(), reserveFailNode)
      ensures reply == Nothing <==> reserveFailNode == NULL
      ensures reply.Failed? ==> Locating.Named(track.nodes[..], reserveFailNode, reply.landmark)
    {
      if reserveFailNode != NULL {
        Locating.LandmarkNamesNode(track.nodes[reserveFailNode]);
        reply := Failed(LandmarkOf(track.nodes[reserveFailNode]));
      } else {
        reply := Nothing;
      }
    }

    /** RELEASE_OLD_N_RESERVE_NEW for the last sensor and the predicted sensors. The reply is empty exactly
        when the request was granted and every real call succeeded, and then the train holds all it needs. */
    method ReleaseOldAndReserveNew(asked: seq<Landmark>, trainNum: int, stoppingDistance: int, n: nat,
                                   ghost xs: seq<nat>, ghost rank: seq<nat>)
      returns (reply: Reply, ghost granted: bool, ghost cleared: seq<int>)
      requires track.Valid() && AllCallable(track.G(), n, rank, track.Owners(), trainNum, xs, stoppingDistance)
      requires AllReal(track.G(), n, xs) && NoFakes(track.G(), n) && Asks(asked, n, xs)
      modifies this, track.owner
      ensures Handled(track.G(), n, rank, old(track.Owners()), track.Owners(), trainNum, xs, stoppingDistance, granted,
                      cleared, reserveFailNode)
      ensures reply == Nothing <==>
                granted && DoAll(track.G(), n, rank, cleared, trainNum, xs, stoppingDistance, NULL).ok
      ensures reply == Nothing ==> AllCovered(track.G(), n, track.Owners(), trainNum, xs, stoppingDistance)
      ensures reply.Failed? ==> 0 <= reserveFailNode < n
                                && Locating.Named(track.nodes[..], reserveFailNode, reply.landmark)
      ensures reply.Failed? ==>
                SomeBlocked(track.G(), n, old(track.Owners()), trainNum, xs, stoppingDistance, reserveFailNode)
    {
      ghost var before := track.Owners();
      reserveFailNode := NULL;
      var canReserve := DryRuns(asked, trainNum, stoppingDistance, n, xs, rank);
      granted, cleared := canReserve, before;
      if canReserve {
        ReleaseAll(trainNum);
        cleared := track.Owners();
        ClearedStaysCallable(track.G(), n, rank, before, cleared, trainNum, xs, stoppingDistance);
        RealRuns(asked, trainNum, stoppingDistance, n, xs, rank);
      }
      ReplyMeans(track.G(), n, rank, before, track.Owners(), trainNum, xs, stoppingDistance, granted, cleared,
                 reserveFailNode);
      reply := ReplyFor(n);
    }
  }
}
