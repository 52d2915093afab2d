/** The two reservation messages of trackController: give everything up, and swap the old reservation for a new one. */
module ReservationRequests {
  import opened TrackGraph
  import opened Reservation
  import opened ReservationSafety
  import opened ReservationReports
  import opened ReservationReasons
  import opened ReservationExtent
  import opened ReservationCover

  /** Edge e is one clearNodeReservation looks at. */
  predicate Clearable(g: Graph, e: nat)
  {
    HasLeg(g, e / 2, e % 2) && Claims(g.node[e / 2].ty)
  }

  /** The owners after every node has been through clearNodeReservation. */
  ghost predicate Cleared(g: Graph, before: seq<int>, after: seq<int>, t: int)
  {
    && |before| == |after| == |g.edge|
    && forall e :: 0 <= e < |before| ==>
         after[e] == if before[e] == t && Clearable(g, e) then UNRESERVED else before[e]
  }

  /** What calls at each of the nodes rely on. */
  ghost predicate AllCallable(g: Graph, n: nat, rank: seq<nat>, owner: seq<int>, t: int, xs: seq<nat>, s: int)
  {
    Ready(g, n, rank, owner, t)
    && forall x {:trigger ClearFrom(g, n, owner, t, x, s)} :: x in xs ==> ClearFrom(g, n, owner, t, x, s)
  }

  lemma AllStayCallable(g: Graph, n: nat, rank: seq<nat>, before: seq<int>, after: seq<int>, t: int, xs: seq<nat>,
                        s: int)
    requires AllCallable(g, n, rank, before, t, xs, s) && OnlyOurs(before, after, t)
    ensures AllCallable(g, n, rank, after, t, xs, s)
  {
    forall x | x in xs
      ensures ClearFrom(g, n, after, t, x, s)
    {
      StaysClear(g, n, before, after, t, x, s);
    }
  }

  /** One dry run or real call for each of the nodes, in order, stopping at the first failure in a dry run. */
  ghost function TryAll(g: Graph, n: nat, rank: seq<nat>, owner: seq<int>, t: int, xs: seq<nat>, s: int,
                        fail: int): (r: Result)
    requires AllCallable(g, n, rank, owner, t, xs, s)
    ensures r.owner == owner
  {
    if |xs| == 0 then Result(true, owner, fail)
    else
      var r := Reserve(g, n, rank, owner, t, xs[0], s, true, fail);
      if r.ok then TryAll(g, n, rank, owner, t, xs[1..], s, r.failNode) else r
  }

  /** The real calls; ok says whether all of them succeeded, which the code does not look at. */
  ghost function DoAll(g: Graph, n: nat, rank: seq<nat>, owner: seq<int>, t: int, xs: seq<nat>, s: int,
                       fail: int): (r: Result)
    requires AllCallable(g, n, rank, owner, t, xs, s)
    ensures OnlyOurs(owner, r.owner, t)
    decreases |xs|
  {
    if |xs| == 0 then Result(true, owner, fail)
    else
      var r1 := Reserve(g, n, rank, owner, t, xs[0], s, false, fail);
      AllStayCallable(g, n, rank, owner, r1.owner, t, xs, s);
      var r2 := DoAll(g, n, rank, r1.owner, t, xs[1..], s, r1.failNode);
      Chain(owner, r1.owner, r2.owner, t);
      Result(r1.ok && r2.ok, r2.owner, r2.failNode)
  }

  lemma ClearedStaysCallable(g: Graph, n: nat, rank: seq<nat>, before: seq<int>, after: seq<int>, t: int, xs: seq<nat>,
                             s: int)
    requires AllCallable(g, n, rank, before, t, xs, s) && Cleared(g, before, after, t)
    ensures AllCallable(g, n, rank, after, t, xs, s) && OnlyOurs(before, after, t) && ForeignKept(before, after, t)
  {
    AllStayCallable(g, n, rank, before, after, t, xs, s);
  }

  /** No double turnout that these calls may come to holds an edge of another train. */
  ghost predicate AllOpen(g: Graph, n: nat, owner: seq<int>, t: int, xs: seq<nat>, s: int)
    requires WellFormed(g, n) && CentreIsBranch(g, n) && |owner| == |g.edge|
  {
    forall x {:trigger OpenFrom(g, n, owner, t, x, s)} :: x in xs ==> OpenFrom(g, n, owner, t, x, s)
  }

  lemma AllStayOpen(g: Graph, n: nat, before: seq<int>, after: seq<int>, t: int, xs: seq<nat>, s: int)
    requires WellFormed(g, n) && CentreIsBranch(g, n) && |before| == |g.edge|
    requires AllOpen(g, n, before, t, xs, s) && OnlyOurs(before, after, t)
    ensures AllOpen(g, n, after, t, xs, s)
  {
    forall x | x in xs
      ensures OpenFrom(g, n, after, t, x, s)
    {
      StaysOpen(g, n, before, after, t, x, s);
    }
  }

  /** Giving up all reservations keeps both directions together. */
  lemma ClearedSymmetric(g: Graph, n: nat, before: seq<int>, after: seq<int>, t: int)
    requires WellFormed(g, n) && |before| == |g.edge| && Cleared(g, before, after, t) && Symmetric(g, n, before)
    requires NoFakes(g, n)
    ensures Symmetric(g, n, after)
  {
    forall x, dir | 0 <= x < n
      ensures SameBothWays(g, n, after, x, dir)
    {
      assert SameBothWays(g, n, before, x, dir) && Paired(g, n, x, dir);
      if HasLeg(g, x, dir) {
        var e := EdgeId(x, dir);
        var r := Rev(g, e);
        var y := g.edge[r].src;
        assert HasLeg(g, y, r - 2 * y) && r == EdgeId(y, r - 2 * y);
        assert e / 2 == x && r / 2 == y;
        assert Clearable(g, e) && Clearable(g, r);
      }
    }
  }

  lemma {:induction false} DoAllKeepsForeign(g: Graph, n: nat, rank: seq<nat>, owner: seq<int>, t: int, xs: seq<nat>,
                                             s: int, fail: int)
    requires AllCallable(g, n, rank, owner, t, xs, s) && AllOpen(g, n, owner, t, xs, s)
    ensures ForeignKept(owner, DoAll(g, n, rank, owner, t, xs, s, fail).owner, t)
    decreases |xs|
  {
    if |xs| > 0 {
      ReserveKeepsForeign(g, n, rank, owner, t, xs[0], s, false, fail);
      var r1 := Reserve(g, n, rank, owner, t, xs[0], s, false, fail);
      AllStayOpen(g, n, owner, r1.owner, t, xs, s);
      AllStayCallable(g, n, rank, owner, r1.owner, t, xs, s);
      DoAllKeepsForeign(g, n, rank, r1.owner, t, xs[1..], s, r1.failNode);
    }
  }

  lemma {:induction false} DoAllSymmetric(g: Graph, n: nat, rank: seq<nat>, owner: seq<int>, t: int, xs: seq<nat>,
                                          s: int, fail: int)
    requires AllCallable(g, n, rank, owner, t, xs, s) && Symmetric(g, n, owner)
    ensures Symmetric(g, n, DoAll(g, n, rank, owner, t, xs, s, fail).owner)
    decreases |xs|
  {
    if |xs| > 0 {
      ReserveSymmetric(g, n, rank, owner, t, xs[0], s, false, fail);
      var r1 := Reserve(g, n, rank, owner, t, xs[0], s, false, fail);
      AllStayCallable(g, n, rank, owner, r1.owner, t, xs, s);
      DoAllSymmetric(g, n, rank, r1.owner, t, xs[1..], s, r1.failNode);
    }
  }

  /** The train holds all it needs beyond each of the nodes. */
  ghost predicate AllCovered(g: Graph, n: nat, owner: seq<int>, t: int, xs: seq<nat>, s: int)
    requires WellFormed(g, n)
  {
    forall x {:trigger Covered(g, n, owner, t, x, s)} :: x in xs ==> Covered(g, n, owner, t, x, s)
  }

  /** When all real calls succeed, the train keeps what it held and holds all it needs beyond each node. */
  lemma {:induction false} DoAllCovers(g: Graph, n: nat, rank: seq<nat>, owner: seq<int>, t: int, xs: seq<nat>, s: int,
                                       fail: int)
    requires AllCallable(g, n, rank, owner, t, xs, s) && DoAll(g, n, rank, owner, t, xs, s, fail).ok
    ensures var r := DoAll(g, n, rank, owner, t, xs, s, fail);
            KeepsOwn(owner, r.owner, t) && AllCovered(g, n, r.owner, t, xs, s)
    decreases |xs|
  {
    if |xs| > 0 {
      ReserveCovers(g, n, rank, owner, t, xs[0], s, fail);
      var r1 := Reserve(g, n, rank, owner, t, xs[0], s, false, fail);
      AllStayCallable(g, n, rank, owner, r1.owner, t, xs, s);
      DoAllCovers(g, n, rank, r1.owner, t, xs[1..], s, r1.failNode);
      var r := DoAll(g, n, rank, owner, t, xs, s, fail);
      Chain(owner, r1.owner, r.owner, t);
      StaysCovered(g, n, r1.owner, r.owner, t, xs[0], s);
      assert forall x :: x in xs ==> x == xs[0] || x in xs[1..];
    }
  }

  /** When all dry runs succeed on a, and b holds at least as much, then all real calls succeed on b. */
  lemma {:induction false} AllForetold(g: Graph, n: nat, rank: seq<nat>, a: seq<int>, b: seq<int>, t: int, xs: seq<nat>,
                                       s: int, fail: int, fail': int)
    requires AllCallable(g, n, rank, a, t, xs, s) && AllCallable(g, n, rank, b, t, xs, s) && AtLeast(a, b, t)
    requires AllOpen(g, n, a, t, xs, s) && TryAll(g, n, rank, a, t, xs, s, fail).ok
    ensures var r := DoAll(g, n, rank, b, t, xs, s, fail');
            r.ok && AtLeast(b, r.owner, t) && AllCovered(g, n, r.owner, t, xs, s)
    decreases |xs|
  {
    if |xs| > 0 {
      var d1 := Reserve(g, n, rank, a, t, xs[0], s, true, fail);
      ReserveForetold(g, n, rank, a, b, t, xs[0], s, fail, fail');
      var r1 := Reserve(g, n, rank, b, t, xs[0], s, false, fail');
      AllStayCallable(g, n, rank, b, r1.owner, t, xs, s);
      AllForetold(g, n, rank, a, r1.owner, t, xs[1..], s, d1.failNode, r1.failNode);
    }
    DoAllCovers(g, n, rank, b, t, xs, s, fail');
  }

  // ---- the whole message ----

  /** RELEASE_OLD_N_RESERVE_NEW: the dry runs decide; a denied request leaves the owners alone, a
      granted one clears the train's edges and makes the real calls. The reply names node fail, and is
      empty if that is NULL. */
  ghost predicate Handled(g: Graph, n: nat, rank: seq<nat>, before: seq<int>, after: seq<int>, t: int, xs: seq<nat>,
                          s: int, granted: bool, cleared: seq<int>, fail: int)
    requires AllCallable(g, n, rank, before, t, xs, s)
  {
    var tried := TryAll(g, n, rank, before, t, xs, s, NULL);
    && granted == tried.ok
    && (!granted ==> after == before && fail == tried.failNode)
    && (granted ==> Cleared(g, before, cleared, t) && AllCallable(g, n, rank, cleared, t, xs, s)
                    && var done := DoAll(g, n, rank, cleared, t, xs, s, tried.failNode);
                    after == done.owner && fail == done.failNode)
  }

  // ---- the reply ----

  ghost predicate AllReal(g: Graph, n: nat, xs: seq<nat>)
  {
    n <= |g.node| && forall i :: 0 <= i < |xs| ==> xs[i] < n && Reservable(g, xs[i])
  }

  lemma {:induction false} TryAllReports(g: Graph, n: nat, rank: seq<nat>, owner: seq<int>, t: int, xs: seq<nat>,
                                         s: int, fail: int)
    requires AllCallable(g, n, rank, owner, t, xs, s) && AllReal(g, n, xs) && NoFakes(g, n)
    ensures Reports(g, n, TryAll(g, n, rank, owner, t, xs, s, fail), fail)
  {
    if |xs| > 0 {
      ReserveReports(g, n, rank, owner, t, xs[0], s, true, fail);
      var r := Reserve(g, n, rank, owner, t, xs[0], s, true, fail);
      if r.ok {
        TryAllReports(g, n, rank, owner, t, xs[1..], s, r.failNode);
      }
    }
  }

  /** The real calls together report like a single one. */
  lemma {:induction false} DoAllReports(g: Graph, n: nat, rank: seq<nat>, owner: seq<int>, t: int, xs: seq<nat>, s: int,
                                        fail: int)
    requires AllCallable(g, n, rank, owner, t, xs, s) && AllReal(g, n, xs) && NoFakes(g, n)
    ensures Reports(g, n, DoAll(g, n, rank, owner, t, xs, s, fail), fail)
    decreases |xs|
  {
    if |xs| > 0 {
      ReserveReports(g, n, rank, owner, t, xs[0], s, false, fail);
      var r1 := Reserve(g, n, rank, owner, t, xs[0], s, false, fail);
      AllStayCallable(g, n, rank, owner, r1.owner, t, xs, s);
      DoAllReports(g, n, rank, r1.owner, t, xs[1..], s, r1.failNode);
    }
  }

  /** For one of the nodes asked for, an edge in the way starts from node fail and belongs to another train. */
  ghost predicate SomeBlocked(g: Graph, n: nat, owner: seq<int>, t: int, xs: seq<nat>, s: int, fail: int)
    requires WellFormed(g, n)
  {
    exists x {:trigger Blocked(g, n, owner, t, x, s, fail)} :: x in xs && Blocked(g, n, owner, t, x, s, fail)
  }

  lemma LaterBlocked(g: Graph, n: nat, before: seq<int>, after: seq<int>, t: int, xs: seq<nat>, s: int, fail: int)
    requires WellFormed(g, n) && |xs| > 0 && OnlyOurs(before, after, t)
    requires SomeBlocked(g, n, after, t, xs[1..], s, fail) || SomeBlocked(g, n, after, t, xs, s, fail)
    ensures SomeBlocked(g, n, before, t, xs, s, fail)
  {
    var x :| x in xs && Blocked(g, n, after, t, x, s, fail);
    WasBlocked(g, n, before, after, t, x, s, fail);
  }

  lemma {:induction false} TryAllRefused(g: Graph, n: nat, rank: seq<nat>, owner: seq<int>, t: int, xs: seq<nat>,
                                         s: int, fail: int)
    requires AllCallable(g, n, rank, owner, t, xs, s) && AllReal(g, n, xs) && NoFakes(g, n)
    ensures var r := TryAll(g, n, rank, owner, t, xs, s, fail); r.ok || SomeBlocked(g, n, owner, t, xs, s, r.failNode)
  {
    if |xs| > 0 {
      ReserveRefused(g, n, rank, owner, t, xs[0], s, true, fail);
      var r := Reserve(g, n, rank, owner, t, xs[0], s, true, fail);
      if r.ok {
        TryAllRefused(g, n, rank, owner, t, xs[1..], s, r.failNode);
        var q := TryAll(g, n, rank, owner, t, xs[1..], s, r.failNode);
        if !q.ok {
          LaterBlocked(g, n, owner, owner, t, xs, s, q.failNode);
        }
      }
    }
  }

  /** The node the real calls leave behind is that of the last of them to fail. */
  lemma {:induction false} DoAllRefused(g: Graph, n: nat, rank: seq<nat>, owner: seq<int>, t: int, xs: seq<nat>, s: int,
                                        fail: int)
    requires AllCallable(g, n, rank, owner, t, xs, s) && AllReal(g, n, xs) && NoFakes(g, n)
    ensures var r := DoAll(g, n, rank, owner, t, xs, s, fail); r.ok || SomeBlocked(g, n, owner, t, xs, s, r.failNode)
    decreases |xs|
  {
    if |xs| > 0 {
      ReserveRefused(g, n, rank, owner, t, xs[0], s, false, fail);
      ReserveReports(g, n, rank, owner, t, xs[0], s, false, fail);
      var r1 := Reserve(g, n, rank, owner, t, xs[0], s, false, fail);
      AllStayCallable(g, n, rank, owner, r1.owner, t, xs, s);
      DoAllReports(g, n, rank, r1.owner, t, xs[1..], s, r1.failNode);
      DoAllRefused(g, n, rank, r1.owner, t, xs[1..], s, r1.failNode);
      var r2 := DoAll(g, n, rank, r1.owner, t, xs[1..], s, r1.failNode);
      if !r2.ok {
        LaterBlocked(g, n, owner, r1.owner, t, xs, s, r2.failNode);
      }
    }
  }

  /** The reply is empty exactly when the request was granted and every real call succeeded, and then the
      train holds all it needs beyond every node it asked for, however the switches stand. Otherwise it
      names a node of the track from which an edge starts that is in the way of one of the nodes asked for and
      belonged to another train before the message, and unless the dry runs had succeeded nothing has
      changed. */
  lemma ReplyMeans(g: Graph, n: nat, rank: seq<nat>, before: seq<int>, after: seq<int>, t: int, xs: seq<nat>, s: int,
                   granted: bool, cleared: seq<int>, fail: int)
    requires AllCallable(g, n, rank, before, t, xs, s) && AllReal(g, n, xs) && NoFakes(g, n)
    requires Handled(g, n, rank, before, after, t, xs, s, granted, cleared, fail)
    ensures fail == NULL <==> granted && DoAll(g, n, rank, cleared, t, xs, s, NULL).ok
    ensures fail == NULL ==> AllCovered(g, n, after, t, xs, s)
    ensures fail != NULL ==> 0 <= fail < n && Reservable(g, fail) && SomeBlocked(g, n, before, t, xs, s, fail)
    ensures fail != NULL ==> after == before || TryAll(g, n, rank, before, t, xs, s, NULL).ok
  {
    TryAllReports(g, n, rank, before, t, xs, s, NULL);
    if granted {
      DoAllReports(g, n, rank, cleared, t, xs, s, NULL);
      if fail == NULL {
        DoAllCovers(g, n, rank, cleared, t, xs, s, NULL);
      } else {
        DoAllRefused(g, n, rank, cleared, t, xs, s, NULL);
        ClearedStaysCallable(g, n, rank, before, cleared, t, xs, s);
        if |xs| > 0 {
          LaterBlocked(g, n, before, cleared, t, xs, s, fail);
        }
      }
    } else {
      TryAllRefused(g, n, rank, before, t, xs, s, NULL);
    }
  }

  /** A train that has the track to itself is never refused. */
  lemma AloneIsReserved(g: Graph, n: nat, rank: seq<nat>, before: seq<int>, after: seq<int>, t: int, xs: seq<nat>,
                        s: int, granted: bool, cleared: seq<int>, fail: int)
    requires AllCallable(g, n, rank, before, t, xs, s) && AllReal(g, n, xs) && NoFakes(g, n)
    requires Handled(g, n, rank, before, after, t, xs, s, granted, cleared, fail)
    requires forall e :: 0 <= e < |before| ==> !ForeignTo(before[e], t)
    ensures granted && fail == NULL && AllCovered(g, n, after, t, xs, s)
  {
    ReplyMeans(g, n, rank, before, after, t, xs, s, granted, cleared, fail);
  }

  // ---- how much is taken ----

  /** The train holds all around every node that is within the stopping distance of one of these. */
  ghost predicate AllHeld(g: Graph, n: nat, owner: seq<int>, t: int, xs: seq<nat>, s: int)
    requires WellFormed(g, n)
  {
    forall x {:trigger Holds(g, n, owner, t, x, s)} :: x in xs ==> Holds(g, n, owner, t, x, s)
  }

  ghost predicate SomeInReach(g: Graph, n: nat, xs: seq<nat>, s: int, e: nat)
    requires WellFormed(g, n)
  {
    exists x {:trigger InReach(g, n, x, s, e)} :: x in xs && InReach(g, n, x, s, e)
  }

  lemma {:induction false} DoAllHolds(g: Graph, n: nat, rank: seq<nat>, owner: seq<int>, t: int, xs: seq<nat>, s: int,
                                      fail: int)
    requires AllCallable(g, n, rank, owner, t, xs, s) && DoAll(g, n, rank, owner, t, xs, s, fail).ok
    ensures KeepsOwn(owner, DoAll(g, n, rank, owner, t, xs, s, fail).owner, t)
    ensures AllHeld(g, n, DoAll(g, n, rank, owner, t, xs, s, fail).owner, t, xs, s)
    decreases |xs|
  {
    if |xs| > 0 {
      ReserveHolds(g, n, rank, owner, t, xs[0], s, fail);
      var r1 := Reserve(g, n, rank, owner, t, xs[0], s, false, fail);
      AllStayCallable(g, n, rank, owner, r1.owner, t, xs, s);
      DoAllHolds(g, n, rank, r1.owner, t, xs[1..], s, r1.failNode);
      var r := DoAll(g, n, rank, owner, t, xs, s, fail);
      Chain(owner, r1.owner, r.owner, t);
      StaysHeld(g, n, r1.owner, r.owner, t, xs[0], s);
      assert forall x :: x in xs ==> x == xs[0] || x in xs[1..];
    }
  }

  lemma {:induction false} DoAllTouches(g: Graph, n: nat, rank: seq<nat>, owner: seq<int>, t: int, xs: seq<nat>, s: int,
                                        fail: int, e: nat)
    requires AllCallable(g, n, rank, owner, t, xs, s) && e < |owner|
    requires DoAll(g, n, rank, owner, t, xs, s, fail).owner[e] != owner[e]
    ensures SomeInReach(g, n, xs, s, e)
    decreases |xs|
  {
    if |xs| > 0 {
      ReserveTouches(g, n, rank, owner, t, xs[0], s, false, fail);
      var r1 := Reserve(g, n, rank, owner, t, xs[0], s, false, fail);
      AllStayCallable(g, n, rank, owner, r1.owner, t, xs, s);
      if r1.owner[e] != owner[e] {
        assert InReach(g, n, xs[0], s, e);
      } else {
        DoAllTouches(g, n, rank, r1.owner, t, xs[1..], s, r1.failNode, e);
        var x :| x in xs[1..] && InReach(g, n, x, s, e);
        assert x in xs;
      }
    }
  }

  /** After an empty reply the train holds all around every node within the stopping distance of those it
      asked for, and whatever the reply, it has been given no edge out of their reach. */
  lemma RequestExtent(g: Graph, n: nat, rank: seq<nat>, before: seq<int>, after: seq<int>, t: int, xs: seq<nat>, s: int,
                      granted: bool, cleared: seq<int>, fail: int, e: nat)
    requires AllCallable(g, n, rank, before, t, xs, s) && AllReal(g, n, xs) && NoFakes(g, n)
    requires Handled(g, n, rank, before, after, t, xs, s, granted, cleared, fail)
    ensures fail == NULL ==> AllHeld(g, n, after, t, xs, s)
    ensures |after| == |before| && (e < |after| && after[e] == t != before[e] ==> SomeInReach(g, n, xs, s, e))
  {
    ReplyMeans(g, n, rank, before, after, t, xs, s, granted, cleared, fail);
    if granted {
      var tried := TryAll(g, n, rank, before, t, xs, s, NULL).failNode;
      TryAllReports(g, n, rank, before, t, xs, s, NULL);
      if fail == NULL {
        DoAllHolds(g, n, rank, cleared, t, xs, s, NULL);
      }
      if e < |after| && after[e] == t != before[e] {
        DoAllTouches(g, n, rank, cleared, t, xs, s, tried, e);
      }
    }
  }

  /** After any such message other trains keep their edges and each edge has its other direction's owner;
      after an empty reply the train holds all it needs beyond every node it asked for, and with any other
      reply nothing has changed unless a real call failed. */
  lemma RequestSafe(g: Graph, n: nat, rank: seq<nat>, before: seq<int>, after: seq<int>, t: int, xs: seq<nat>, s: int,
                    granted: bool, cleared: seq<int>, fail: int)
    requires AllCallable(g, n, rank, before, t, xs, s) && AllReal(g, n, xs) && NoFakes(g, n)
    requires AllOpen(g, n, before, t, xs, s) && Symmetric(g, n, before)
    requires Handled(g, n, rank, before, after, t, xs, s, granted, cleared, fail)
    ensures |after| == |before| && ForeignKept(before, after, t) && Symmetric(g, n, after)
    ensures AllOpen(g, n, after, t, xs, s)
    ensures fail == NULL ==> AllCovered(g, n, after, t, xs, s)
    ensures fail != NULL && after != before ==> granted && !DoAll(g, n, rank, cleared, t, xs, s, NULL).ok
  {
    ReplyMeans(g, n, rank, before, after, t, xs, s, granted, cleared, fail);
    if granted {
      var tried := TryAll(g, n, rank, before, t, xs, s, NULL).failNode;
      ClearedStaysCallable(g, n, rank, before, cleared, t, xs, s);
      ClearedSymmetric(g, n, before, cleared, t);
      AllStayOpen(g, n, before, cleared, t, xs, s);
      DoAllKeepsForeign(g, n, rank, cleared, t, xs, s, tried);
      DoAllSymmetric(g, n, rank, cleared, t, xs, s, tried);
      AllStayOpen(g, n, cleared, after, t, xs, s);
    }
  }

  // ---- is a granted request really reserved? ----

  /** A granted request whose dry runs succeed without the edges the train is about to give up is really
      reserved: every real call succeeds, the reply is empty, and the train ends up holding all it needs
      beyond every node it asked for. */
  lemma GrantedIsReserved(g: Graph, n: nat, rank: seq<nat>, before: seq<int>, after: seq<int>, t: int, xs: seq<nat>,
                          s: int, cleared: seq<int>, fail: int)
    requires AllCallable(g, n, rank, before, t, xs, s) && AllReal(g, n, xs) && NoFakes(g, n)
    requires AllOpen(g, n, before, t, xs, s)
    requires Handled(g, n, rank, before, after, t, xs, s, true, cleared, fail)
    requires TryAll(g, n, rank, cleared, t, xs, s, NULL).ok
    ensures DoAll(g, n, rank, cleared, t, xs, s, NULL).ok && fail == NULL
    ensures AllCovered(g, n, after, t, xs, s)
  {
    ClearedStaysCallable(g, n, rank, before, cleared, t, xs, s);
    AllStayOpen(g, n, before, cleared, t, xs, s);
    AllForetold(g, n, rank, cleared, cleared, t, xs, s, NULL, NULL);
    ReplyMeans(g, n, rank, before, after, t, xs, s, true, cleared, fail);
  }

  /** So it is for a train that held nothing. */
  lemma NewcomerIsReserved(g: Graph, n: nat, rank: seq<nat>, before: seq<int>, after: seq<int>, t: int, xs: seq<nat>,
                           s: int, cleared: seq<int>, fail: int)
    requires AllCallable(g, n, rank, before, t, xs, s) && AllReal(g, n, xs) && NoFakes(g, n)
    requires AllOpen(g, n, before, t, xs, s)
    requires Handled(g, n, rank, before, after, t, xs, s, true, cleared, fail)
    requires forall e :: 0 <= e < |before| ==> before[e] != t
    ensures fail == NULL && AllCovered(g, n, after, t, xs, s)
  {
    assert cleared == before;
    GrantedIsReserved(g, n, rank, before, after, t, xs, s, cleared, fail);
  }

  /** A situation in which a request for node x is granted and then lost: the edge ahead of x is free
      and leads to a branch nearer than the stopping distance reaches beyond; the train holds the
      branch's straight leg, another train the curved one. */
  ghost predicate LostOnGrant(g: Graph, n: nat, owner: seq<int>, t: int, x: nat, s: int)
    requires WellFormed(g, n) && x < n && |owner| == |g.edge|
  {
    && (g.node[x].ty == Enter || g.node[x].ty == Sensor)
    && (assert LegOk(g, n, x, DIR_AHEAD) && Paired(g, n, x, DIR_AHEAD);
        var e := EdgeId(x, DIR_AHEAD);
        var b := g.edge[e].dest;
        && owner[e] == UNRESERVED && owner[Rev(g, e)] == UNRESERVED && s < g.edge[e].dist
        && g.node[b].ty == Branch && owner[EdgeId(b, DIR_STRAIGHT)] == t && ForeignTo(owner[EdgeId(b, DIR_CURVED)], t))
  }

  /** The dry run believes the edges the train is about to give up: the request is granted, the real
      call fails, and the reply names the branch. */
  lemma GrantedButLost(g: Graph, n: nat, rank: seq<nat>, before: seq<int>, cleared: seq<int>, t: int, x: nat, s: int)
    requires Callable(g, n, rank, before, t, x, s) && LostOnGrant(g, n, before, t, x, s)
    requires Cleared(g, before, cleared, t)
    ensures AllCallable(g, n, rank, before, t, [x], s) && AllCallable(g, n, rank, cleared, t, [x], s)
    ensures !DoAll(g, n, rank, cleared, t, [x], s, NULL).ok
    ensures Handled(g, n, rank, before, cleared, t, [x], s, true, cleared, g.edge[EdgeId(x, DIR_AHEAD)].dest)
  {
    ClearedStaysCallable(g, n, rank, before, cleared, t, [x], s);
    DryRunGrants(g, n, rank, before, t, x, s, NULL);
    RealRunLoses(g, n, rank, before, cleared, t, x, s, NULL);
    assert [x][1..] == [];
    assert TryAll(g, n, rank, before, t, [x], s, NULL) == Result(true, before, NULL);
    var r := Reserve(g, n, rank, cleared, t, x, s, false, NULL);
    assert DoAll(g, n, rank, r.owner, t, [], s, r.failNode) == Result(true, cleared, r.failNode);
  }

  lemma DryRunGrants(g: Graph, n: nat, rank: seq<nat>, before: seq<int>, t: int, x: nat, s: int, fail: int)
    requires Callable(g, n, rank, before, t, x, s) && LostOnGrant(g, n, before, t, x, s)
    ensures Reserve(g, n, rank, before, t, x, s, true, fail) == Result(true, before, fail)
  {
    var claim := Claim(g, n, x);
    var e := EdgeId(x, DIR_AHEAD);
    var b := g.edge[e].dest;
    assert LegOk(g, n, x, DIR_AHEAD) && Paired(g, n, x, DIR_AHEAD) && claim == [e, Rev(g, e)];
    FrameIn(g, n, rank, before, t, x, s);
    var marked := Marked(before, claim, Centre(g, n, x), t);
    assert AlreadyHeld(g, marked, t, b, s - g.edge[e].dist) && GoesOn(g, e, s);
    LegLeadsTo(g, n, rank, before, marked, t, x, DIR_AHEAD, s, true, fail, b, s - g.edge[e].dist);
    assert AlongLeg(g, n, rank, before, marked, t, x, DIR_AHEAD, s, true, fail) == Result(true, marked, fail);
    assert AlongLegs(g, n, rank, before, marked, t, x, s, true, fail) == Result(true, marked, fail);
  }

  /** A branch whose curved leg belongs to another train is refused, and nothing is written. */
  lemma BranchRefused(g: Graph, n: nat, rank: seq<nat>, owner: seq<int>, t: int, b: nat, s: int, dry: bool, fail: int)
    requires Callable(g, n, rank, owner, t, b, s) && g.node[b].ty == Branch
    requires owner[EdgeId(b, DIR_STRAIGHT)] != t && !CanReserve(owner, EdgeId(b, DIR_CURVED), t)
    ensures Reserve(g, n, rank, owner, t, b, s, dry, fail) == Result(false, owner, b)
  {
    var claim := Claim(g, n, b);
    assert claim[0] == EdgeId(b, DIR_STRAIGHT) && claim[1] == EdgeId(b, DIR_CURVED) == claim[1..][0];
    assert LegOk(g, n, b, DIR_STRAIGHT) && LegOk(g, n, b, DIR_CURVED);
    assert !AllReservable(owner, claim, t) && FailNode(g, owner, claim[1..], t) == b;
  }

  /** Once the train has given its edges up and claimed the edge ahead of x, the straight leg of the
      branch beyond is free and the curved one still the other train's. */
  lemma BranchAfterClaim(g: Graph, n: nat, before: seq<int>, cleared: seq<int>, t: int, x: nat, s: int)
    requires WellFormed(g, n) && CentreIsBranch(g, n) && x < n && |before| == |g.edge| && t != UNRESERVED
    requires LostOnGrant(g, n, before, t, x, s) && Cleared(g, before, cleared, t)
    ensures var e := EdgeId(x, DIR_AHEAD); var b := g.edge[e].dest;
            && LegOk(g, n, x, DIR_AHEAD) && Paired(g, n, x, DIR_AHEAD) && Claim(g, n, x) == [e, Rev(g, e)]
               && Centre(g, n, x) == []
            && AllReservable(cleared, [e, Rev(g, e)], t)
            && cleared[e] == UNRESERVED && cleared[Rev(g, e)] == UNRESERVED
            && var marked := Mark(cleared, [e, Rev(g, e)], t);
            marked[EdgeId(b, DIR_STRAIGHT)] == UNRESERVED && ForeignTo(marked[EdgeId(b, DIR_CURVED)], t)
  {
    var e := EdgeId(x, DIR_AHEAD);
    var b := g.edge[e].dest;
    assert LegOk(g, n, x, DIR_AHEAD) && Paired(g, n, x, DIR_AHEAD);
    assert NodeOk(g, n, b);
    assert HasLeg(g, b, DIR_STRAIGHT) && EdgeId(b, DIR_STRAIGHT) / 2 == b && Clearable(g, EdgeId(b, DIR_STRAIGHT));
    assert g.edge[Rev(g, e)].src == g.node[b].reverse != b;
    assert IsLegOf(g, g.node[b].reverse, Rev(g, e));
  }

  /** A frame whose inner call fails without writing leaves free edges free. */
  lemma FrameUndone(cleared: seq<int>, claim: seq<nat>, t: int)
    requires ValidEdges(cleared, claim) && forall i :: 0 <= i < |claim| ==> cleared[claim[i]] == UNRESERVED
    ensures Leave(cleared, Mark(cleared, claim, t), claim, [], t, false, false) == cleared
  {
  }

  lemma RealRunLoses(g: Graph, n: nat, rank: seq<nat>, before: seq<int>, cleared: seq<int>, t: int, x: nat, s: int,
                     fail: int)
    requires Callable(g, n, rank, before, t, x, s) && Callable(g, n, rank, cleared, t, x, s)
    requires LostOnGrant(g, n, before, t, x, s) && Cleared(g, before, cleared, t)
    ensures Reserve(g, n, rank, cleared, t, x, s, false, fail)
            == Result(false, cleared, g.edge[EdgeId(x, DIR_AHEAD)].dest)
  {
    BranchAfterClaim(g, n, before, cleared, t, x, s);
    var claim, d := Claim(g, n, x), g.edge[EdgeId(x, DIR_AHEAD)];
    var marked, r := OneLegFrame(g, n, rank, cleared, t, x, s, false, fail, claim);
    LegLeadsTo(g, n, rank, cleared, marked, t, x, DIR_AHEAD, s, false, fail, d.dest, s - d.dist);
    BranchRefused(g, n, rank, marked, t, d.dest, s - d.dist, false, fail);
    FrameUndone(cleared, claim, t);
  }
}
