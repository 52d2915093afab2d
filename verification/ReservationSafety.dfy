/** What reservations keep: other trains' edges, and the two directions of a piece of track together. */
module ReservationSafety {
  import opened TrackGraph
  import opened Reservation

  // ---- other trains' edges ----

  predicate ForeignTo(owner: int, t: int)
  {
    owner != UNRESERVED && owner != t
  }

  /** No edge of another train has changed hands. */
  ghost predicate ForeignKept(before: seq<int>, after: seq<int>, t: int)
  {
    |before| == |after| && forall e :: 0 <= e < |before| && ForeignTo(before[e], t) ==> after[e] == before[e]
  }

  ghost predicate OpenAt(g: Graph, n: nat, owner: seq<int>, t: int, x: nat)
    requires WellFormed(g, n) && CentreIsBranch(g, n) && x < n && |owner| == |g.edge|
  {
    AllReservable(owner, Centre(g, n, x), t)
  }

  /** No double turnout behind a merge that a call at x with s left may come to holds an edge of another
      train. */
  ghost predicate OpenFrom(g: Graph, n: nat, owner: seq<int>, t: int, x: nat, s: int)
    requires WellFormed(g, n) && CentreIsBranch(g, n) && |owner| == |g.edge|
  {
    x < n && forall es {:trigger Follows(g, n, x, s, es)} ::
      Follows(g, n, x, s, es) ==> OpenAt(g, n, owner, t, Reached(g, n, x, s, es))
  }

  lemma OpenIsClear(g: Graph, n: nat, owner: seq<int>, t: int, x: nat, s: int)
    requires WellFormed(g, n) && CentreIsBranch(g, n) && |owner| == |g.edge| && OpenFrom(g, n, owner, t, x, s)
    ensures ClearFrom(g, n, owner, t, x, s) && OpenAt(g, n, owner, t, x)
  {
    forall es | Follows(g, n, x, s, es)
      ensures ClearAt(g, n, owner, t, Reached(g, n, x, s, es))
    {
      assert OpenAt(g, n, owner, t, Reached(g, n, x, s, es));
    }
    assert Follows(g, n, x, s, []) && Reached(g, n, x, s, []) == x;
  }

  lemma StaysOpen(g: Graph, n: nat, before: seq<int>, after: seq<int>, t: int, x: nat, s: int)
    requires WellFormed(g, n) && CentreIsBranch(g, n) && |before| == |g.edge|
    requires OpenFrom(g, n, before, t, x, s) && OnlyOurs(before, after, t)
    ensures OpenFrom(g, n, after, t, x, s)
  {
    forall es | Follows(g, n, x, s, es)
      ensures OpenAt(g, n, after, t, Reached(g, n, x, s, es))
    {
      assert OpenAt(g, n, before, t, Reached(g, n, x, s, es));
    }
  }

  lemma OpenOnward(g: Graph, n: nat, owner: seq<int>, t: int, x: nat, s: int, dir: nat, y: nat, s': int)
    requires WellFormed(g, n) && CentreIsBranch(g, n) && |owner| == |g.edge| && OpenFrom(g, n, owner, t, x, s)
    requires HasLeg(g, x, dir) && y == g.edge[EdgeId(x, dir)].dest < n
    requires s' == s - g.edge[EdgeId(x, dir)].dist && GoesOn(g, EdgeId(x, dir), s)
    ensures OpenFrom(g, n, owner, t, y, s')
  {
    forall es | Follows(g, n, y, s', es)
      ensures OpenAt(g, n, owner, t, Reached(g, n, y, s', es))
    {
      FollowsOn(g, n, x, s, dir, y, s', es);
    }
  }

  lemma {:induction false} LegKeepsForeign(g: Graph, n: nat, rank: seq<nat>, entry: seq<int>, owner: seq<int>, t: int,
                                           x: nat, dir: nat, s: int, dry: bool, fail: int)
    requires Callable(g, n, rank, entry, t, x, s) && Callable(g, n, rank, owner, t, x, s) && HasLeg(g, x, dir)
    requires Claims(g.node[x].ty) && !AlreadyHeld(g, entry, t, x, s)
    requires KeepsOwn(entry, owner, t) && owner[EdgeId(x, DIR_AHEAD)] == t && OpenFrom(g, n, owner, t, x, s)
    ensures ForeignKept(owner, AlongLeg(g, n, rank, entry, owner, t, x, dir, s, dry, fail).owner, t)
    decreases M1(s), M2(rank, entry, t, x, s), M3(g, x), 0
  {
    var d := g.edge[EdgeId(x, dir)];
    var y, s' := d.dest, s - d.dist;
    LegIs(g, n, rank, entry, owner, t, x, dir, s, dry, fail, y, s');
    if GoesOn(g, EdgeId(x, dir), s) {
      OpenOnward(g, n, owner, t, x, s, dir, y, s');
      ReserveKeepsForeign(g, n, rank, owner, t, y, s', dry, fail);
    }
  }

  lemma {:induction false} LegsKeepForeign(g: Graph, n: nat, rank: seq<nat>, entry: seq<int>, owner: seq<int>, t: int,
                                           x: nat, s: int, dry: bool, fail: int)
    requires Callable(g, n, rank, entry, t, x, s) && Callable(g, n, rank, owner, t, x, s) && HasLeg(g, x, DIR_AHEAD)
    requires Claims(g.node[x].ty) && !AlreadyHeld(g, entry, t, x, s)
    requires KeepsOwn(entry, owner, t) && owner[EdgeId(x, DIR_AHEAD)] == t && OpenFrom(g, n, owner, t, x, s)
    ensures ForeignKept(owner, AlongLegs(g, n, rank, entry, owner, t, x, s, dry, fail).owner, t)
    decreases M1(s), M2(rank, entry, t, x, s), M3(g, x), 1
  {
    LegKeepsForeign(g, n, rank, entry, owner, t, x, DIR_STRAIGHT, s, dry, fail);
    var r1 := AlongLeg(g, n, rank, entry, owner, t, x, DIR_STRAIGHT, s, dry, fail);
    if g.node[x].ty == Branch && r1.ok {
      StaysOpen(g, n, owner, r1.owner, t, x, s);
      LegKeepsForeign(g, n, rank, entry, r1.owner, t, x, DIR_CURVED, s, dry, r1.failNode);
    }
  }

  /** No request by one train changes an edge held by another. */
  lemma {:induction false} ReserveKeepsForeign(g: Graph, n: nat, rank: seq<nat>, owner: seq<int>, t: int, x: nat,
                                               s: int, dry: bool, fail: int)
    requires Callable(g, n, rank, owner, t, x, s) && OpenFrom(g, n, owner, t, x, s)
    ensures ForeignKept(owner, Reserve(g, n, rank, owner, t, x, s, dry, fail).owner, t)
    decreases M1(s), M2(rank, owner, t, x, s), M3(g, x), 2
  {
    if !AlreadyHeld(g, owner, t, x, s) && Claims(g.node[x].ty) && AllReservable(owner, Claim(g, n, x), t) {
      var claim, centre := Claim(g, n, x), Centre(g, n, x);
      var marked := Marked(owner, claim, centre, t);
      FrameIn(g, n, rank, owner, t, x, s);
      StaysOpen(g, n, owner, marked, t, x, s);
      LegsKeepForeign(g, n, rank, owner, marked, t, x, s, dry, fail);
      OpenIsClear(g, n, owner, t, x, s);
      var r := AlongLegs(g, n, rank, owner, marked, t, x, s, dry, fail);
      LeaveKeepsForeign(owner, r.owner, claim, centre, t, r.ok, dry);
    }
  }

  lemma LeaveKeepsForeign(owner: seq<int>, now: seq<int>, claim: seq<nat>, centre: seq<nat>, t: int, ok: bool,
                          dry: bool)
    requires ValidEdges(owner, claim) && ValidEdges(owner, centre) && |now| == |owner|
    requires AllReservable(owner, claim, t) && AllReservable(owner, centre, t)
    requires ForeignKept(Marked(owner, claim, centre, t), now, t)
    ensures ForeignKept(owner, Leave(owner, now, claim, centre, t, ok, dry), t)
  {
  }

  // ---- the two directions of a piece of track ----

  ghost predicate SameBothWays(g: Graph, n: nat, owner: seq<int>, x: nat, dir: nat)
    requires WellFormed(g, n) && x < n && |owner| == |g.edge|
  {
    HasLeg(g, x, dir) ==> assert Paired(g, n, x, dir); owner[EdgeId(x, dir)] == owner[Rev(g, EdgeId(x, dir))]
  }

  /** Each edge and its other direction have the same owner. */
  ghost predicate Symmetric(g: Graph, n: nat, owner: seq<int>)
    requires WellFormed(g, n) && |owner| == |g.edge|
  {
    forall x, dir {:trigger SameBothWays(g, n, owner, x, dir)} :: 0 <= x < n ==> SameBothWays(g, n, owner, x, dir)
  }

  /** With each edge, es lists its other direction. */
  ghost predicate BothWays(g: Graph, es: seq<nat>)
  {
    forall i :: 0 <= i < |es| ==> es[i] < |g.edge| && Rev(g, es[i]) in es && Rev(g, es[i]) < |g.edge|
                                  && Rev(g, Rev(g, es[i])) == es[i]
  }

  lemma MarkSymmetric(g: Graph, n: nat, owner: seq<int>, es: seq<nat>, v: int)
    requires WellFormed(g, n) && |owner| == |g.edge| && BothWays(g, es) && Symmetric(g, n, owner)
    ensures Symmetric(g, n, Mark(owner, es, v))
  {
    forall x, dir | 0 <= x < n
      ensures SameBothWays(g, n, Mark(owner, es, v), x, dir)
    {
      assert SameBothWays(g, n, owner, x, dir) && Paired(g, n, x, dir);
      if HasLeg(g, x, dir) {
        RevInside(g, n, es, x, dir);
      }
    }
  }

  lemma RevInside(g: Graph, n: nat, es: seq<nat>, x: nat, dir: nat)
    requires WellFormed(g, n) && BothWays(g, es) && x < n && HasLeg(g, x, dir) && Paired(g, n, x, dir)
    ensures EdgeId(x, dir) in es <==> Rev(g, EdgeId(x, dir)) in es
  {
    var e := EdgeId(x, dir);
    if e in es {
      var i :| 0 <= i < |es| && es[i] == e;
    }
    if Rev(g, e) in es {
      var i :| 0 <= i < |es| && es[i] == Rev(g, e);
    }
  }

  lemma UndoSymmetric(g: Graph, n: nat, now: seq<int>, es: seq<nat>, before: seq<int>)
    requires WellFormed(g, n) && |now| == |before| == |g.edge| && BothWays(g, es)
    requires Symmetric(g, n, now) && Symmetric(g, n, before)
    ensures Symmetric(g, n, Undo(now, es, before))
  {
    forall x, dir | 0 <= x < n
      ensures SameBothWays(g, n, Undo(now, es, before), x, dir)
    {
      assert SameBothWays(g, n, now, x, dir) && SameBothWays(g, n, before, x, dir) && Paired(g, n, x, dir);
      if HasLeg(g, x, dir) {
        RevInside(g, n, es, x, dir);
      }
    }
  }

  lemma ClaimBothWays(g: Graph, n: nat, x: nat)
    requires WellFormed(g, n) && x < n
    ensures BothWays(g, Claim(g, n, x))
  {
    var es := Claim(g, n, x);
    assert NodeOk(g, n, x) && SidesMatch(g, n, x);
    var b := g.node[x].reverse;
    assert Paired(g, n, x, DIR_STRAIGHT) && Paired(g, n, x, DIR_CURVED);
    if g.node[x].ty != NoNode {
      assert Paired(g, n, b, DIR_STRAIGHT) && Paired(g, n, b, DIR_CURVED);
    }
    match g.node[x].ty {
      case Sensor => assert es[0] in es && es[1] in es;
      case Enter => assert es[0] in es && es[1] in es;
      case Branch => assert es[0] in es && es[1] in es && es[2] in es && es[3] in es;
      case Merge => assert es[0] in es && es[1] in es && es[2] in es && es[3] in es && es[4] in es && es[5] in es;
      case _ =>
    }
  }

  lemma CentreBothWays(g: Graph, n: nat, x: nat)
    requires WellFormed(g, n) && CentreIsBranch(g, n) && x < n
    ensures BothWays(g, Centre(g, n, x))
  {
    var es := Centre(g, n, x);
    if |es| > 0 {
      assert NodeOk(g, n, x) && SidesMatch(g, n, x) && CentreBranchAt(g, n, x);
      assert LegOk(g, n, g.node[x].reverse, DIR_STRAIGHT);
      var c := CentreNode(g, x);
      assert Paired(g, n, c, DIR_STRAIGHT) && Paired(g, n, c, DIR_CURVED);
      assert es[0] in es && es[1] in es && es[2] in es && es[3] in es;
    }
  }

  lemma MarkedSymmetric(g: Graph, n: nat, owner: seq<int>, t: int, x: nat)
    requires WellFormed(g, n) && CentreIsBranch(g, n) && x < n && |owner| == |g.edge| && Symmetric(g, n, owner)
    ensures Symmetric(g, n, Marked(owner, Claim(g, n, x), Centre(g, n, x), t))
  {
    ClaimBothWays(g, n, x);
    CentreBothWays(g, n, x);
    var centre := Centre(g, n, x);
    MarkSymmetric(g, n, owner, centre, t);
    MarkSymmetric(g, n, if Taken(owner, centre, t) then Mark(owner, centre, t) else owner, Claim(g, n, x), t);
  }

  lemma LeaveSymmetric(g: Graph, n: nat, owner: seq<int>, now: seq<int>, t: int, x: nat, ok: bool, dry: bool)
    requires WellFormed(g, n) && CentreIsBranch(g, n) && x < n && |owner| == |now| == |g.edge|
    requires Symmetric(g, n, owner) && Symmetric(g, n, now)
    ensures Symmetric(g, n, Leave(owner, now, Claim(g, n, x), Centre(g, n, x), t, ok, dry))
  {
    var claim, centre := Claim(g, n, x), Centre(g, n, x);
    ClaimBothWays(g, n, x);
    CentreBothWays(g, n, x);
    MarkSymmetric(g, n, now, claim, UNRESERVED);
    MarkSymmetric(g, n, Mark(now, claim, UNRESERVED), centre, UNRESERVED);
    var cleared := if ok then now else Mark(Mark(now, claim, UNRESERVED), centre, UNRESERVED);
    UndoSymmetric(g, n, cleared, claim, owner);
    var undone := Undo(cleared, claim, owner);
    UndoSymmetric(g, n, undone, centre, owner);
    MarkSymmetric(g, n, undone, centre, UNRESERVED);
  }

  lemma {:induction false} LegSymmetric(g: Graph, n: nat, rank: seq<nat>, entry: seq<int>, owner: seq<int>, t: int,
                                        x: nat, dir: nat, s: int, dry: bool, fail: int)
    requires Callable(g, n, rank, entry, t, x, s) && Callable(g, n, rank, owner, t, x, s) && HasLeg(g, x, dir)
    requires Claims(g.node[x].ty) && !AlreadyHeld(g, entry, t, x, s)
    requires KeepsOwn(entry, owner, t) && owner[EdgeId(x, DIR_AHEAD)] == t && Symmetric(g, n, owner)
    ensures Symmetric(g, n, AlongLeg(g, n, rank, entry, owner, t, x, dir, s, dry, fail).owner)
    decreases M1(s), M2(rank, entry, t, x, s), M3(g, x), 0
  {
    var d := g.edge[EdgeId(x, dir)];
    var y, s' := d.dest, s - d.dist;
    LegIs(g, n, rank, entry, owner, t, x, dir, s, dry, fail, y, s');
    if GoesOn(g, EdgeId(x, dir), s) {
      ReserveSymmetric(g, n, rank, owner, t, y, s', dry, fail);
    }
  }

  lemma {:induction false} LegsSymmetric(g: Graph, n: nat, rank: seq<nat>, entry: seq<int>, owner: seq<int>, t: int,
                                         x: nat, s: int, dry: bool, fail: int)
    requires Callable(g, n, rank, entry, t, x, s) && Callable(g, n, rank, owner, t, x, s) && HasLeg(g, x, DIR_AHEAD)
    requires Claims(g.node[x].ty) && !AlreadyHeld(g, entry, t, x, s)
    requires KeepsOwn(entry, owner, t) && owner[EdgeId(x, DIR_AHEAD)] == t && Symmetric(g, n, owner)
    ensures Symmetric(g, n, AlongLegs(g, n, rank, entry, owner, t, x, s, dry, fail).owner)
    decreases M1(s), M2(rank, entry, t, x, s), M3(g, x), 1
  {
    LegSymmetric(g, n, rank, entry, owner, t, x, DIR_STRAIGHT, s, dry, fail);
    var r1 := AlongLeg(g, n, rank, entry, owner, t, x, DIR_STRAIGHT, s, dry, fail);
    if g.node[x].ty == Branch && r1.ok {
      StaysClear(g, n, owner, r1.owner, t, x, s);
      LegSymmetric(g, n, rank, entry, r1.owner, t, x, DIR_CURVED, s, dry, r1.failNode);
    }
  }

  /** Whatever its outcome, a request leaves each edge and its other direction with the same owner. */
  lemma {:induction false} ReserveSymmetric(g: Graph, n: nat, rank: seq<nat>, owner: seq<int>, t: int, x: nat, s: int,
                                            dry: bool, fail: int)
    requires Callable(g, n, rank, owner, t, x, s) && Symmetric(g, n, owner)
    ensures Symmetric(g, n, Reserve(g, n, rank, owner, t, x, s, dry, fail).owner)
    decreases M1(s), M2(rank, owner, t, x, s), M3(g, x), 2
  {
    if !AlreadyHeld(g, owner, t, x, s) && Claims(g.node[x].ty) && AllReservable(owner, Claim(g, n, x), t) {
      var marked := Marked(owner, Claim(g, n, x), Centre(g, n, x), t);
      FrameIn(g, n, rank, owner, t, x, s);
      MarkedSymmetric(g, n, owner, t, x);
      LegsSymmetric(g, n, rank, owner, marked, t, x, s, dry, fail);
      var r := AlongLegs(g, n, rank, owner, marked, t, x, s, dry, fail);
      LeaveSymmetric(g, n, owner, r.owner, t, x, r.ok, dry);
    }
  }

  // ---- a dry run foretells the real one ----

  /** The same edges belong to other trains, and the train holds at least as much in b as in a. */
  ghost predicate AtLeast(a: seq<int>, b: seq<int>, t: int)
  {
    KeepsOwn(a, b, t) && forall e :: 0 <= e < |a| ==> (ForeignTo(a[e], t) <==> ForeignTo(b[e], t))
  }

  lemma MarkedAtLeast(a: seq<int>, b: seq<int>, claim: seq<nat>, centre: seq<nat>, t: int)
    requires AtLeast(a, b, t) && ValidEdges(a, claim) && ValidEdges(a, centre) && t != UNRESERVED
    requires AllReservable(a, claim, t) && AllReservable(a, centre, t)
    ensures AllReservable(b, claim, t) && AllReservable(b, centre, t)
    ensures AtLeast(b, Marked(b, claim, centre, t), t)
    ensures AtLeast(Marked(a, claim, centre, t), Marked(b, claim, centre, t), t)
  {
  }

  lemma {:induction false} LegForetold(g: Graph, n: nat, rank: seq<nat>, entry: seq<int>, a: seq<int>, entry': seq<int>,
                                       b: seq<int>, t: int, x: nat, dir: nat, s: int, fail: int, fail': int)
    requires Callable(g, n, rank, entry, t, x, s) && Callable(g, n, rank, a, t, x, s) && HasLeg(g, x, dir)
    requires OpenFrom(g, n, a, t, x, s)
    requires Claims(g.node[x].ty) && !AlreadyHeld(g, entry, t, x, s)
    requires KeepsOwn(entry, a, t) && a[EdgeId(x, DIR_AHEAD)] == t
    requires Callable(g, n, rank, entry', t, x, s) && Callable(g, n, rank, b, t, x, s)
    requires !AlreadyHeld(g, entry', t, x, s)
    requires KeepsOwn(entry', b, t) && b[EdgeId(x, DIR_AHEAD)] == t && AtLeast(a, b, t)
    requires AlongLeg(g, n, rank, entry, a, t, x, dir, s, true, fail).ok
    ensures var r := AlongLeg(g, n, rank, entry', b, t, x, dir, s, false, fail'); r.ok && AtLeast(b, r.owner, t)
    decreases M1(s), M2(rank, entry, t, x, s), M3(g, x), 0
  {
    var d := g.edge[EdgeId(x, dir)];
    var y, s' := d.dest, s - d.dist;
    LegIs(g, n, rank, entry, a, t, x, dir, s, true, fail, y, s');
    LegIs(g, n, rank, entry', b, t, x, dir, s, false, fail', y, s');
    if GoesOn(g, EdgeId(x, dir), s) {
      OpenOnward(g, n, a, t, x, s, dir, y, s');
      ReserveForetold(g, n, rank, a, b, t, y, s', fail, fail');
    }
  }

  lemma FrameForetold(g: Graph, n: nat, rank: seq<nat>, a: seq<int>, b: seq<int>, t: int, x: nat, s: int)
    requires Callable(g, n, rank, a, t, x, s) && Callable(g, n, rank, b, t, x, s) && AtLeast(a, b, t)
    requires OpenFrom(g, n, a, t, x, s)
    requires Claims(g.node[x].ty) && AllReservable(a, Claim(g, n, x), t)
    ensures var claim := Claim(g, n, x); var centre := Centre(g, n, x);
            var ma := Marked(a, claim, centre, t); var mb := Marked(b, claim, centre, t);
            && AllReservable(b, claim, t) && AtLeast(ma, mb, t) && AtLeast(b, mb, t) && OpenFrom(g, n, ma, t, x, s)
            && Callable(g, n, rank, ma, t, x, s) && Callable(g, n, rank, mb, t, x, s) && KeepsOwn(a, ma, t)
               && KeepsOwn(b, mb, t)
            && |claim| >= 2 && claim[0] == EdgeId(x, DIR_AHEAD) && HasLeg(g, x, DIR_AHEAD) && ma[claim[0]] == t
               && mb[claim[0]] == t
  {
    var claim, centre := Claim(g, n, x), Centre(g, n, x);
    FrameIn(g, n, rank, a, t, x, s);
    OpenIsClear(g, n, a, t, x, s);
    MarkedAtLeast(a, b, claim, centre, t);
    FrameIn(g, n, rank, b, t, x, s);
    StaysOpen(g, n, a, Marked(a, claim, centre, t), t, x, s);
  }

  /** A dry run that succeeds means that the real request succeeds, and then holds at least what it
      held before, whenever the train holds at least as much by then. */
  lemma {:induction false} ReserveForetold(g: Graph, n: nat, rank: seq<nat>, a: seq<int>, b: seq<int>, t: int, x: nat,
                                           s: int, fail: int, fail': int)
    requires Callable(g, n, rank, a, t, x, s) && Callable(g, n, rank, b, t, x, s) && AtLeast(a, b, t)
    requires OpenFrom(g, n, a, t, x, s)
    requires Reserve(g, n, rank, a, t, x, s, true, fail).ok
    ensures var r := Reserve(g, n, rank, b, t, x, s, false, fail'); r.ok && AtLeast(b, r.owner, t)
    ensures Claims(g.node[x].ty) ==> Reserve(g, n, rank, b, t, x, s, false, fail').owner[EdgeId(x, DIR_AHEAD)] == t
    decreases M1(s), M2(rank, a, t, x, s), M3(g, x), 2
  {
    if !AlreadyHeld(g, b, t, x, s) && g.node[x].ty != Exit {
      var claim, centre := Claim(g, n, x), Centre(g, n, x);
      assert Claims(g.node[x].ty) && !AlreadyHeld(g, a, t, x, s) && AllReservable(a, claim, t);
      var ma, mb := Marked(a, claim, centre, t), Marked(b, claim, centre, t);
      FrameIn(g, n, rank, a, t, x, s);
      assert AlongLegs(g, n, rank, a, ma, t, x, s, true, fail).ok;
      FrameForetold(g, n, rank, a, b, t, x, s);
      LegsForetold(g, n, rank, a, ma, b, mb, t, x, s, fail, fail');
      var r := AlongLegs(g, n, rank, b, mb, t, x, s, false, fail');
      assert Reserve(g, n, rank, b, t, x, s, false, fail') == Result(true, r.owner, r.failNode);
      assert r.owner[claim[0]] == t;
    }
  }

  lemma {:induction false} LegsForetold(g: Graph, n: nat, rank: seq<nat>, entry: seq<int>, a: seq<int>,
                                        entry': seq<int>, b: seq<int>, t: int, x: nat, s: int, fail: int, fail': int)
    requires Callable(g, n, rank, entry, t, x, s) && Callable(g, n, rank, a, t, x, s) && HasLeg(g, x, DIR_AHEAD)
    requires OpenFrom(g, n, a, t, x, s)
    requires Claims(g.node[x].ty) && !AlreadyHeld(g, entry, t, x, s)
    requires KeepsOwn(entry, a, t) && a[EdgeId(x, DIR_AHEAD)] == t
    requires Callable(g, n, rank, entry', t, x, s) && Callable(g, n, rank, b, t, x, s)
    requires !AlreadyHeld(g, entry', t, x, s)
    requires KeepsOwn(entry', b, t) && b[EdgeId(x, DIR_AHEAD)] == t && AtLeast(a, b, t)
    requires AlongLegs(g, n, rank, entry, a, t, x, s, true, fail).ok
    ensures var r := AlongLegs(g, n, rank, entry', b, t, x, s, false, fail'); r.ok && AtLeast(b, r.owner, t)
    decreases M1(s), M2(rank, entry, t, x, s), M3(g, x), 1
  {
    var r1 := AlongLeg(g, n, rank, entry, a, t, x, DIR_STRAIGHT, s, true, fail);
    LegForetold(g, n, rank, entry, a, entry', b, t, x, DIR_STRAIGHT, s, fail, fail');
    if g.node[x].ty == Branch {
      var q1 := AlongLeg(g, n, rank, entry', b, t, x, DIR_STRAIGHT, s, false, fail');
      StaysClear(g, n, b, q1.owner, t, x, s);
      LegForetold(g, n, rank, entry, a, entry', q1.owner, t, x, DIR_CURVED, s, r1.failNode, q1.failNode);
    }
  }
}
