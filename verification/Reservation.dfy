/**
 reserveEdges: claiming the track a train may need to stop, with a dry-run mode that must leave no trace.
 The function Reserve says what one call does to the owners; the method runs it in place.
 */
module Reservation {
  import opened TrackGraph
  import opened Sequences

  /** Outcome of a call: success, the owners afterwards, and reserveFailNode. */
  datatype Result = Result(ok: bool, owner: seq<int>, failNode: int)

  predicate CanReserve(owner: seq<int>, e: nat, t: int)
    requires e < |owner|
  {
    owner[e] == UNRESERVED || owner[e] == t
  }

  predicate ValidEdges(owner: seq<int>, es: seq<nat>)
  {
    forall i :: 0 <= i < |es| ==> es[i] < |owner|
  }

  predicate AllReservable(owner: seq<int>, es: seq<nat>, t: int)
    requires ValidEdges(owner, es)
  {
    forall i :: 0 <= i < |es| ==> CanReserve(owner, es[i], t)
  }

  /** Writes v to the owner of each edge in es. */
  function Mark(owner: seq<int>, es: seq<nat>, v: int): (r: seq<int>)
    requires ValidEdges(owner, es)
    ensures |r| == |owner|
    ensures forall e {:trigger r[e]} :: 0 <= e < |owner| ==> r[e] == if e in es then v else owner[e]
  {
    if es == [] then owner
    else
      var r := Mark(owner, es[..|es| - 1], v)[es[|es| - 1] := v];
      assert es == es[..|es| - 1] + [es[|es| - 1]];
      r
  }

  /** Copies the owners of the edges in es back from an earlier state. */
  function Undo(owner: seq<int>, es: seq<nat>, before: seq<int>): (r: seq<int>)
    requires ValidEdges(owner, es) && |before| == |owner|
    ensures |r| == |owner|
    ensures forall e {:trigger r[e]} :: 0 <= e < |owner| ==> r[e] == if e in es then before[e] else owner[e]
  {
    if es == [] then owner
    else
      var last := es[|es| - 1];
      var r := Undo(owner, es[..|es| - 1], before)[last := before[last]];
      assert es == es[..|es| - 1] + [last];
      r
  }

  // ---- which edges one call claims ----

  function Rev(g: Graph, e: nat): nat
    requires e < |g.edge|
  {
    g.edge[e].reverse
  }

  predicate IsTurnout(ty: NodeType)
  {
    ty == Branch || ty == Merge
  }

  /** The node beyond the straight leg of merge m's turnout, whose number decides whether the
      double turnouts in the centre of the layout are claimed as well. */
  function CentreNode(g: Graph, m: nat): nat
    requires m < |g.node| && EdgeId(g.node[m].reverse, DIR_STRAIGHT) < |g.edge|
  {
    g.edge[EdgeId(g.node[m].reverse, DIR_STRAIGHT)].dest
  }

  /** The edges claimed first, in the order they are tested. */
  ghost function Claim(g: Graph, n: nat, x: nat): (es: seq<nat>)
    requires WellFormed(g, n) && x < n
    ensures forall i :: 0 <= i < |es| ==> es[i] < |g.edge|
  {
    assert NodeOk(g, n, x) && SidesMatch(g, n, x) && LegOk(g, n, x, DIR_STRAIGHT) && LegOk(g, n, x, DIR_CURVED);
    assert Paired(g, n, x, DIR_STRAIGHT) && Paired(g, n, x, DIR_CURVED);
    match g.node[x].ty
    case Sensor => [EdgeId(x, DIR_AHEAD), Rev(g, EdgeId(x, DIR_AHEAD))]
    case Enter => [EdgeId(x, DIR_AHEAD), Rev(g, EdgeId(x, DIR_AHEAD))]
    case Branch =>
      var e1, e2 := EdgeId(x, DIR_STRAIGHT), EdgeId(x, DIR_CURVED);
      [e1, e2, Rev(g, e1), Rev(g, e2)]
    case Merge =>
      var b := g.node[x].reverse;
      assert LegOk(g, n, b, DIR_STRAIGHT) && LegOk(g, n, b, DIR_CURVED);
      assert Paired(g, n, b, DIR_STRAIGHT) && Paired(g, n, b, DIR_CURVED);
      var e1, e3, e4 := EdgeId(x, DIR_AHEAD), EdgeId(b, DIR_STRAIGHT), EdgeId(b, DIR_CURVED);
      [e1, Rev(g, e1), e3, e4, Rev(g, e3), Rev(g, e4)]
    case _ => []
  }

  /** The double turnout claimed together with merge x, if there is one: curved and straight leg of
      the branch beyond, then their other directions. */
  ghost function Centre(g: Graph, n: nat, x: nat): (es: seq<nat>)
    requires WellFormed(g, n) && CentreIsBranch(g, n) && x < n
    ensures forall i :: 0 <= i < |es| ==> es[i] < |g.edge|
    ensures |es| == 0 || |es| == 4
  {
    if g.node[x].ty != Merge then []
    else
      assert NodeOk(g, n, x) && SidesMatch(g, n, x);
      assert LegOk(g, n, g.node[x].reverse, DIR_STRAIGHT);
      var c := CentreNode(g, x);
      if g.node[c].num > 100 then
        assert CentreBranchAt(g, n, x);
        assert LegOk(g, n, c, DIR_STRAIGHT) && LegOk(g, n, c, DIR_CURVED);
        assert Paired(g, n, c, DIR_STRAIGHT) && Paired(g, n, c, DIR_CURVED);
        var e7, e8 := EdgeId(c, DIR_CURVED), EdgeId(c, DIR_STRAIGHT);
        [e7, e8, Rev(g, e7), Rev(g, e8)]
      else []
  }

  ghost predicate CentreBranchAt(g: Graph, n: nat, x: nat)
    requires WellFormed(g, n) && x < n
  {
    g.node[x].ty == Merge ==>
      assert NodeOk(g, n, x) && SidesMatch(g, n, x);
      assert LegOk(g, n, g.node[x].reverse, DIR_STRAIGHT);
      g.node[CentreNode(g, x)].num > 100 ==> g.node[CentreNode(g, x)].ty == Branch
  }

  /** Numbers above 100 behind a turnout belong to branches (the centre of the layout). */
  ghost predicate CentreIsBranch(g: Graph, n: nat)
    requires WellFormed(g, n)
  {
    forall x {:trigger CentreBranchAt(g, n, x)} :: 0 <= x < n ==> CentreBranchAt(g, n, x)
  }

  // ---- one frame: claiming, and letting go again ----

  /** The centre edges are claimed when the first of them may be. */
  predicate Taken(owner: seq<int>, centre: seq<nat>, t: int)
    requires ValidEdges(owner, centre)
  {
    |centre| > 0 && CanReserve(owner, centre[0], t)
  }

  function Marked(owner: seq<int>, claim: seq<nat>, centre: seq<nat>, t: int): (r: seq<int>)
    requires ValidEdges(owner, claim) && ValidEdges(owner, centre)
    ensures |r| == |owner|
  {
    Mark(if Taken(owner, centre, t) then Mark(owner, centre, t) else owner, claim, t)
  }

  /** What is written when the frame that began in state before ends in state now. */
  function Leave(before: seq<int>, now: seq<int>, claim: seq<nat>, centre: seq<nat>, t: int, ok: bool,
                 dry: bool): (r: seq<int>)
    requires ValidEdges(before, claim) && ValidEdges(before, centre) && |before| == |now|
    ensures |r| == |now|
  {
    var cleared := if ok then now else Mark(Mark(now, claim, UNRESERVED), centre, UNRESERVED);
    if !dry then cleared
    else
      var undone := Undo(cleared, claim, before);
      if Taken(before, centre, t) then Undo(undone, centre, before) else Mark(undone, centre, UNRESERVED)
  }

  /** A frame of a dry run with nothing inside it puts the owners back exactly when there are no
      centre edges or they were claimed. Otherwise it leaves all centre edges free, the first of which
      belonged to another train. */
  lemma DryFrame(owner: seq<int>, claim: seq<nat>, centre: seq<nat>, t: int, ok: bool)
    requires ValidEdges(owner, claim) && ValidEdges(owner, centre)
    requires AllReservable(owner, claim, t)
    ensures var after := Leave(owner, Marked(owner, claim, centre, t), claim, centre, t, ok, true);
            && (after == owner <==> |centre| == 0 || CanReserve(owner, centre[0], t))
            && (after != owner ==> (forall i :: 0 <= i < |centre| ==> after[centre[i]] == UNRESERVED)
                                   && owner[centre[0]] != UNRESERVED && owner[centre[0]] != t)
  {
    if |centre| > 0 && !CanReserve(owner, centre[0], t) {
      assert Leave(owner, Marked(owner, claim, centre, t), claim, centre, t, ok, true)[centre[0]] == UNRESERVED;
    }
  }

  // ---- when the recursion is well-behaved ----

  ghost predicate ClearAt(g: Graph, n: nat, owner: seq<int>, t: int, x: nat)
    requires WellFormed(g, n) && CentreIsBranch(g, n) && x < n && |owner| == |g.edge|
  {
    |Centre(g, n, x)| > 0 ==> CanReserve(owner, Centre(g, n, x)[0], t)
  }

  /** The recursion goes on at the far end of edge e when room is still needed there, or when a
      turnout lies there. */
  predicate GoesOn(g: Graph, e: nat, s: int)
    requires e < |g.edge| && g.edge[e].dest < |g.node|
  {
    IsTurnout(g.node[g.edge[e].dest].ty) || s - g.edge[e].dist > 0
  }

  /** The legs of es lead on from node x, and a call with s left at x may follow all of them. */
  ghost predicate Follows(g: Graph, n: nat, x: nat, s: int, es: seq<nat>)
    requires WellFormed(g, n) && x < n
    decreases |es|
  {
    |es| == 0 ||
    (IsLegOf(g, x, es[0]) &&
     assert LegOk(g, n, x, es[0] - 2 * x);
     GoesOn(g, es[0], s) && Follows(g, n, g.edge[es[0]].dest, s - g.edge[es[0]].dist, es[1..]))
  }

  /** The node they lead to. */
  ghost function Reached(g: Graph, n: nat, x: nat, s: int, es: seq<nat>): (y: nat)
    requires WellFormed(g, n) && x < n && Follows(g, n, x, s, es)
    ensures y < n
    decreases |es|
  {
    if |es| == 0 then x
    else
      assert LegOk(g, n, x, es[0] - 2 * x);
      Reached(g, n, g.edge[es[0]].dest, s - g.edge[es[0]].dist, es[1..])
  }

  /** No merge a call at x with s left may come to has a double turnout behind it whose curved leg
      belongs to another train. */
  ghost predicate ClearFrom(g: Graph, n: nat, owner: seq<int>, t: int, x: nat, s: int)
    requires WellFormed(g, n) && CentreIsBranch(g, n) && |owner| == |g.edge|
  {
    x < n && forall es {:trigger Follows(g, n, x, s, es)} ::
      Follows(g, n, x, s, es) ==> ClearAt(g, n, owner, t, Reached(g, n, x, s, es))
  }

  /** rank witnesses that no cycle of the track has length zero. */
  ghost predicate RankedAt(g: Graph, n: nat, rank: seq<nat>, x: nat, dir: nat)
    requires Plannable(g, n) && x < n && |rank| == |g.node|
  {
    HasLeg(g, x, dir) ==>
      assert LegOk(g, n, x, dir);
      g.edge[EdgeId(x, dir)].dist == 0 ==> rank[g.edge[EdgeId(x, dir)].dest] < rank[x]
  }

  ghost predicate Ranked(g: Graph, n: nat, rank: seq<nat>)
    requires Plannable(g, n)
  {
    |rank| == |g.node| && forall x, dir {:trigger RankedAt(g, n, rank, x, dir)} :: 0 <= x < n ==>
      RankedAt(g, n, rank, x, dir)
  }

  /** What every call relies on. The asking train's number is not the mark for "unreserved". */
  ghost predicate Ready(g: Graph, n: nat, rank: seq<nat>, owner: seq<int>, t: int)
  {
    && WellFormed(g, n) && CentreIsBranch(g, n) && Ranked(g, n, rank) && |owner| == |g.edge|
    && t != UNRESERVED
  }

  /** And what a call at x with s left relies on. */
  ghost predicate Callable(g: Graph, n: nat, rank: seq<nat>, owner: seq<int>, t: int, x: nat, s: int)
  {
    Ready(g, n, rank, owner, t) && ClearFrom(g, n, owner, t, x, s)
  }

  /** The edges the train does not hold. */
  ghost function NotOwn(owner: seq<int>, t: int): (s: set<nat>)
    ensures forall e :: e in s <==> 0 <= e < |owner| && owner[e] != t
  {
    set e: nat | e < |owner| && owner[e] != t
  }

  lemma NotOwnShrinks(a: seq<int>, b: seq<int>, t: int)
    requires |a| == |b| && forall e :: 0 <= e < |a| && a[e] == t ==> b[e] == t
    ensures |NotOwn(b, t)| <= |NotOwn(a, t)|
    ensures (exists e :: 0 <= e < |a| && a[e] != t && b[e] == t) ==> |NotOwn(b, t)| < |NotOwn(a, t)|
  {
    var na, nb := NotOwn(a, t), NotOwn(b, t);
    SmallerSet(nb, na);
    if e :| 0 <= e < |a| && a[e] != t && b[e] == t {
      SmallerSet(nb, na - {e});
    }
  }

  /** Owners change only to the asking train or to nobody. */
  ghost predicate OnlyOurs(before: seq<int>, after: seq<int>, t: int)
  {
    |before| == |after| && forall e {:trigger after[e]} :: 0 <= e < |before| ==>
      after[e] == before[e] || after[e] == t || after[e] == UNRESERVED
  }

  lemma StaysClear(g: Graph, n: nat, before: seq<int>, after: seq<int>, t: int, x: nat, s: int)
    requires WellFormed(g, n) && CentreIsBranch(g, n) && |before| == |g.edge|
    requires ClearFrom(g, n, before, t, x, s) && OnlyOurs(before, after, t)
    ensures ClearFrom(g, n, after, t, x, s)
  {
    forall es | Follows(g, n, x, s, es)
      ensures ClearAt(g, n, after, t, Reached(g, n, x, s, es))
    {
      assert ClearAt(g, n, before, t, Reached(g, n, x, s, es));
    }
  }

  lemma ClearHere(g: Graph, n: nat, owner: seq<int>, t: int, x: nat, s: int)
    requires WellFormed(g, n) && CentreIsBranch(g, n) && |owner| == |g.edge| && ClearFrom(g, n, owner, t, x, s)
    ensures ClearAt(g, n, owner, t, x)
  {
    assert Follows(g, n, x, s, []) && Reached(g, n, x, s, []) == x;
  }

  /** What a call may come to along one of its legs, it may come to. */
  lemma FollowsOn(g: Graph, n: nat, x: nat, s: int, dir: nat, y: nat, s': int, es: seq<nat>)
    requires WellFormed(g, n) && x < n && HasLeg(g, x, dir) && y == g.edge[EdgeId(x, dir)].dest < n
    requires s' == s - g.edge[EdgeId(x, dir)].dist && GoesOn(g, EdgeId(x, dir), s) && Follows(g, n, y, s', es)
    ensures var longer := [EdgeId(x, dir)] + es;
            Follows(g, n, x, s, longer) && Reached(g, n, x, s, longer) == Reached(g, n, y, s', es)
  {
    assert ([EdgeId(x, dir)] + es)[1..] == es;
  }

  lemma ClearOnward(g: Graph, n: nat, owner: seq<int>, t: int, x: nat, s: int, dir: nat, y: nat, s': int)
    requires WellFormed(g, n) && CentreIsBranch(g, n) && |owner| == |g.edge| && ClearFrom(g, n, owner, t, x, s)
    requires HasLeg(g, x, dir) && y == g.edge[EdgeId(x, dir)].dest < n
    requires s' == s - g.edge[EdgeId(x, dir)].dist && GoesOn(g, EdgeId(x, dir), s)
    ensures ClearFrom(g, n, owner, t, y, s')
  {
    forall es | Follows(g, n, y, s', es)
      ensures ClearAt(g, n, owner, t, Reached(g, n, y, s', es))
    {
      FollowsOn(g, n, x, s, dir, y, s', es);
    }
  }

  // ---- reserveEdges as a function ----

  /** The call returns at once because the train already holds the edge and needs no more room. */
  predicate AlreadyHeld(g: Graph, owner: seq<int>, t: int, x: nat, s: int)
    requires x < |g.node| && EdgeId(x, DIR_AHEAD) < |owner|
  {
    (g.node[x].ty == Sensor || g.node[x].ty == Branch || g.node[x].ty == Merge)
    && owner[EdgeId(x, DIR_AHEAD)] == t && s < 0
  }

  predicate Claims(ty: NodeType)
  {
    ty == Sensor || ty == Enter || ty == Branch || ty == Merge
  }

  /** The source of the first edge in es that the train may not have. */
  function FailNode(g: Graph, owner: seq<int>, es: seq<nat>, t: int): int
    requires |owner| == |g.edge| && ValidEdges(owner, es)
  {
    if |es| == 0 then NULL
    else if !CanReserve(owner, es[0], t) then g.edge[es[0]].src
    else FailNode(g, owner, es[1..], t)
  }

  ghost function M1(s: int): nat
  {
    if s >= 0 then s + 1 else 0
  }

  ghost function M2(rank: seq<nat>, owner: seq<int>, t: int, x: nat, s: int): nat
    requires x < |rank|
  {
    if s >= 0 then rank[x] else |NotOwn(owner, t)|
  }

  ghost function M3(g: Graph, x: nat): nat
    requires x < |g.node|
  {
    if g.node[x].ty == Enter then 1 else 0
  }

  /** The measure of the recursion: the room still needed; then, while there is some, the rank of the
      node, and once there is none, the number of edges the train does not hold yet. */
  ghost predicate Smaller(g: Graph, rank: seq<nat>, owner': seq<int>, t: int, x': nat, s': int, owner: seq<int>, x: nat,
                          s: int)
    requires x' < |rank| && x < |rank| && x < |g.node| && x' < |g.node|
  {
    || M1(s') < M1(s)
    || (M1(s') == M1(s) && M2(rank, owner', t, x', s') < M2(rank, owner, t, x, s))
    || (M1(s') == M1(s) && M2(rank, owner', t, x', s') == M2(rank, owner, t, x, s) && M3(g, x') < M3(g, x))
  }

  /** A claimed node's first edges, and why the recursion along them ends. */
  lemma Onward(g: Graph, n: nat, rank: seq<nat>, owner: seq<int>, owner': seq<int>, t: int, x: nat, dir: nat, s: int)
    requires Ready(g, n, rank, owner, t) && x < n && HasLeg(g, x, dir) && Claims(g.node[x].ty)
    requires !AlreadyHeld(g, owner, t, x, s) && |owner'| == |owner|
    requires forall e :: 0 <= e < |owner| && owner[e] == t ==> owner'[e] == t
    requires owner'[EdgeId(x, DIR_AHEAD)] == t
    ensures var d := g.edge[EdgeId(x, dir)]; var s' := s - d.dist;
            && d.dest < n && g.node[d.dest].ty != Enter && g.node[d.dest].ty != NoNode
            && (GoesOn(g, EdgeId(x, dir), s) ==> Smaller(g, rank, owner', t, d.dest, s', owner, x, s))
  {
    var e := EdgeId(x, dir);
    var d := g.edge[e];
    assert LegOk(g, n, x, dir) && Paired(g, n, x, dir) && RankedAt(g, n, rank, x, dir);
    assert NodeOk(g, n, d.dest) && SidesMatch(g, n, d.dest);
    if s < 0 {
      NotOwnShrinks(owner, owner', t);
    }
  }

  ghost predicate KeepsOwn(before: seq<int>, after: seq<int>, t: int)
  {
    |before| == |after| && forall e {:trigger after[e]} :: 0 <= e < |before| && before[e] == t ==> after[e] == t
  }

  lemma FrameIn(g: Graph, n: nat, rank: seq<nat>, owner: seq<int>, t: int, x: nat, s: int)
    requires Callable(g, n, rank, owner, t, x, s) && Claims(g.node[x].ty)
    requires AllReservable(owner, Claim(g, n, x), t)
    ensures var claim := Claim(g, n, x); var marked := Marked(owner, claim, Centre(g, n, x), t);
            && Callable(g, n, rank, marked, t, x, s) && OnlyOurs(owner, marked, t) && KeepsOwn(owner, marked, t)
            && |claim| >= 2 && claim[0] == EdgeId(x, DIR_AHEAD) && marked[claim[0]] == t && HasLeg(g, x, DIR_AHEAD)
            && (g.node[x].ty == Branch ==> claim[1] == EdgeId(x, DIR_CURVED) && HasLeg(g, x, DIR_CURVED))
            && (|Centre(g, n, x)| > 0 ==> CanReserve(owner, Centre(g, n, x)[0], t))
  {
    var claim := Claim(g, n, x);
    ClearHere(g, n, owner, t, x, s);
    StaysClear(g, n, owner, Marked(owner, claim, Centre(g, n, x), t), t, x, s);
  }

  lemma FrameOut(owner: seq<int>, now: seq<int>, claim: seq<nat>, centre: seq<nat>, t: int, ok: bool, dry: bool)
    requires ValidEdges(owner, claim) && ValidEdges(owner, centre) && |now| == |owner|
    requires AllReservable(owner, claim, t) && (|centre| > 0 ==> CanReserve(owner, centre[0], t))
    requires var marked := Marked(owner, claim, centre, t);
             OnlyOurs(marked, now, t) && (dry ==> now == marked) && (ok ==> KeepsOwn(marked, now, t))
    ensures var out := Leave(owner, now, claim, centre, t, ok, dry);
            OnlyOurs(owner, out, t) && (dry ==> out == owner) && (ok ==> KeepsOwn(owner, out, t))
  {
  }

  lemma Chain(a: seq<int>, b: seq<int>, c: seq<int>, t: int)
    requires OnlyOurs(a, b, t) && OnlyOurs(b, c, t)
    ensures OnlyOurs(a, c, t) && (KeepsOwn(a, b, t) && KeepsOwn(b, c, t) ==> KeepsOwn(a, c, t))
  {
  }

  /** The recursive call along one leg of node x, if there is one. The frame of x began with the
      owners in entry; they are now as in owner. */
  ghost function AlongLeg(g: Graph, n: nat, rank: seq<nat>, entry: seq<int>, owner: seq<int>, t: int, x: nat, dir: nat,
                          s: int, dry: bool, fail: int): (r: Result)
    requires Callable(g, n, rank, entry, t, x, s) && Callable(g, n, rank, owner, t, x, s) && HasLeg(g, x, dir)
    requires Claims(g.node[x].ty) && !AlreadyHeld(g, entry, t, x, s)
    requires KeepsOwn(entry, owner, t) && owner[EdgeId(x, DIR_AHEAD)] == t
    ensures OnlyOurs(owner, r.owner, t)
    ensures dry ==> r.owner == owner
    ensures r.ok ==> KeepsOwn(owner, r.owner, t)
    decreases M1(s), M2(rank, entry, t, x, s), M3(g, x), 0
  {
    Onward(g, n, rank, entry, owner, t, x, dir, s);
    var e := EdgeId(x, dir);
    if GoesOn(g, e, s) then
      ClearOnward(g, n, owner, t, x, s, dir, g.edge[e].dest, s - g.edge[e].dist);
      Reserve(g, n, rank, owner, t, g.edge[e].dest, s - g.edge[e].dist, dry, fail)
    else Result(true, owner, fail)
  }

  /** Both recursive calls of a frame, the second only after the first succeeded. */
  ghost function AlongLegs(g: Graph, n: nat, rank: seq<nat>, entry: seq<int>, owner: seq<int>, t: int, x: nat,
                           s: int, dry: bool, fail: int): (r: Result)
    requires Callable(g, n, rank, entry, t, x, s) && Callable(g, n, rank, owner, t, x, s) && HasLeg(g, x, DIR_AHEAD)
    requires Claims(g.node[x].ty) && !AlreadyHeld(g, entry, t, x, s)
    requires KeepsOwn(entry, owner, t) && owner[EdgeId(x, DIR_AHEAD)] == t
    ensures OnlyOurs(owner, r.owner, t)
    ensures dry ==> r.owner == owner
    ensures r.ok ==> KeepsOwn(owner, r.owner, t)
    decreases M1(s), M2(rank, entry, t, x, s), M3(g, x), 1
  {
    var r1 := AlongLeg(g, n, rank, entry, owner, t, x, DIR_STRAIGHT, s, dry, fail);
    if g.node[x].ty == Branch && r1.ok then
      StaysClear(g, n, owner, r1.owner, t, x, s);
      var r2 := AlongLeg(g, n, rank, entry, r1.owner, t, x, DIR_CURVED, s, dry, r1.failNode);
      Chain(owner, r1.owner, r2.owner, t);
      r2
    else r1
  }

  /** reserveEdges, as a function of the owners before the call. */
  ghost function Reserve(g: Graph, n: nat, rank: seq<nat>, owner: seq<int>, t: int, x: nat, s: int, dry: bool,
                         fail: int): (r: Result)
    requires Callable(g, n, rank, owner, t, x, s)
    ensures OnlyOurs(owner, r.owner, t)
    ensures dry ==> r.owner == owner
    ensures r.ok ==> KeepsOwn(owner, r.owner, t)
    decreases M1(s), M2(rank, owner, t, x, s), M3(g, x), 2
  {
    if AlreadyHeld(g, owner, t, x, s) || g.node[x].ty == Exit then Result(true, owner, fail)
    else if !Claims(g.node[x].ty) then Result(false, owner, fail)
    else
      var claim, centre := Claim(g, n, x), Centre(g, n, x);
      if !AllReservable(owner, claim, t) then Result(false, owner, FailNode(g, owner, claim, t))
      else
        FrameIn(g, n, rank, owner, t, x, s);
        var r := AlongLegs(g, n, rank, owner, Marked(owner, claim, centre, t), t, x, s, dry, fail);
        FrameOut(owner, r.owner, claim, centre, t, r.ok, dry);
        Result(r.ok, Leave(owner, r.owner, claim, centre, t, r.ok, dry), r.failNode)
  }

  /** AlongLeg where the recursion goes on: s' is what is left of s at node y. */
  lemma LegLeadsTo(g: Graph, n: nat, rank: seq<nat>, entry: seq<int>, owner: seq<int>, t: int, x: nat, dir: nat,
                   s: int, dry: bool, fail: int, y: nat, s': int)
    requires Callable(g, n, rank, entry, t, x, s) && Callable(g, n, rank, owner, t, x, s) && HasLeg(g, x, dir)
    requires Claims(g.node[x].ty) && !AlreadyHeld(g, entry, t, x, s)
    requires KeepsOwn(entry, owner, t) && owner[EdgeId(x, DIR_AHEAD)] == t
    requires y == g.edge[EdgeId(x, dir)].dest < n && s' == s - g.edge[EdgeId(x, dir)].dist
    requires GoesOn(g, EdgeId(x, dir), s)
    ensures Callable(g, n, rank, owner, t, y, s') && Smaller(g, rank, owner, t, y, s', entry, x, s)
    ensures AlongLeg(g, n, rank, entry, owner, t, x, dir, s, dry, fail)
            == Reserve(g, n, rank, owner, t, y, s', dry, fail)
  {
    Onward(g, n, rank, entry, owner, t, x, dir, s);
    ClearOnward(g, n, owner, t, x, s, dir, y, s');
  }

  /** AlongLeg where it does not. */
  lemma LegEnds(g: Graph, n: nat, rank: seq<nat>, entry: seq<int>, owner: seq<int>, t: int, x: nat, dir: nat,
                s: int, dry: bool, fail: int)
    requires Callable(g, n, rank, entry, t, x, s) && Callable(g, n, rank, owner, t, x, s) && HasLeg(g, x, dir)
    requires Claims(g.node[x].ty) && !AlreadyHeld(g, entry, t, x, s)
    requires KeepsOwn(entry, owner, t) && owner[EdgeId(x, DIR_AHEAD)] == t
    requires g.edge[EdgeId(x, dir)].dest < n && !GoesOn(g, EdgeId(x, dir), s)
    ensures AlongLeg(g, n, rank, entry, owner, t, x, dir, s, dry, fail) == Result(true, owner, fail)
  {
    Onward(g, n, rank, entry, owner, t, x, dir, s);
  }

  /** AlongLeg is the inner call, or nothing. */
  lemma LegIs(g: Graph, n: nat, rank: seq<nat>, entry: seq<int>, owner: seq<int>, t: int, x: nat, dir: nat,
              s: int, dry: bool, fail: int, y: nat, s': int)
    requires Callable(g, n, rank, entry, t, x, s) && Callable(g, n, rank, owner, t, x, s) && HasLeg(g, x, dir)
    requires Claims(g.node[x].ty) && !AlreadyHeld(g, entry, t, x, s)
    requires KeepsOwn(entry, owner, t) && owner[EdgeId(x, DIR_AHEAD)] == t
    requires y == g.edge[EdgeId(x, dir)].dest && s' == s - g.edge[EdgeId(x, dir)].dist
    ensures LegOk(g, n, x, dir) && y < n && g.node[y].ty != NoNode
    ensures var r := AlongLeg(g, n, rank, entry, owner, t, x, dir, s, dry, fail);
            if GoesOn(g, EdgeId(x, dir), s) then
              && Smaller(g, rank, owner, t, y, s', entry, x, s) && Callable(g, n, rank, owner, t, y, s')
              && r == Reserve(g, n, rank, owner, t, y, s', dry, fail)
            else r == Result(true, owner, fail)
  {
    assert LegOk(g, n, x, dir);
    if GoesOn(g, EdgeId(x, dir), s) {
      LegLeadsTo(g, n, rank, entry, owner, t, x, dir, s, dry, fail, y, s');
    } else {
      LegEnds(g, n, rank, entry, owner, t, x, dir, s, dry, fail);
    }
  }

  /** Reserve is the frame's marks around the inner calls. */
  lemma FrameIs(g: Graph, n: nat, rank: seq<nat>, owner: seq<int>, t: int, x: nat, s: int, dry: bool, fail: int,
                claim: seq<nat>, marked: seq<int>)
    requires Callable(g, n, rank, owner, t, x, s) && Claims(g.node[x].ty) && !AlreadyHeld(g, owner, t, x, s)
    requires claim == Claim(g, n, x) && Centre(g, n, x) == [] && AllReservable(owner, claim, t)
    requires marked == Mark(owner, claim, t)
    ensures Callable(g, n, rank, marked, t, x, s) && KeepsOwn(owner, marked, t) && marked[EdgeId(x, DIR_AHEAD)] == t
    ensures HasLeg(g, x, DIR_AHEAD)
    ensures var r := AlongLegs(g, n, rank, owner, marked, t, x, s, dry, fail);
            Reserve(g, n, rank, owner, t, x, s, dry, fail)
              == Result(r.ok, Leave(owner, r.owner, claim, [], t, r.ok, dry), r.failNode)
  {
    FrameIn(g, n, rank, owner, t, x, s);
    assert Marked(owner, claim, [], t) == marked;
  }

  /** At a node with one leg they are the call along that leg. */
  lemma OneLegFrame(g: Graph, n: nat, rank: seq<nat>, owner: seq<int>, t: int, x: nat, s: int, dry: bool, fail: int,
                    claim: seq<nat>)
    returns (marked: seq<int>, r: Result)
    requires Callable(g, n, rank, owner, t, x, s) && Claims(g.node[x].ty) && g.node[x].ty != Branch
    requires !AlreadyHeld(g, owner, t, x, s)
    requires claim == Claim(g, n, x) && Centre(g, n, x) == [] && AllReservable(owner, claim, t)
    ensures marked == Mark(owner, claim, t) && Callable(g, n, rank, marked, t, x, s) && KeepsOwn(owner, marked, t)
    ensures marked[EdgeId(x, DIR_AHEAD)] == t && HasLeg(g, x, DIR_AHEAD)
    ensures r == AlongLeg(g, n, rank, owner, marked, t, x, DIR_AHEAD, s, dry, fail)
    ensures Reserve(g, n, rank, owner, t, x, s, dry, fail)
            == Result(r.ok, Leave(owner, r.owner, claim, [], t, r.ok, dry), r.failNode)
  {
    marked := Mark(owner, claim, t);
    FrameIs(g, n, rank, owner, t, x, s, dry, fail, claim, marked);
    OneLegIs(g, n, rank, owner, marked, t, x, s, dry, fail);
    r := AlongLeg(g, n, rank, owner, marked, t, x, DIR_AHEAD, s, dry, fail);
  }

  /** A node that is no branch has only one call. */
  lemma OneLegIs(g: Graph, n: nat, rank: seq<nat>, entry: seq<int>, owner: seq<int>, t: int, x: nat, s: int,
                 dry: bool, fail: int)
    requires Callable(g, n, rank, entry, t, x, s) && Callable(g, n, rank, owner, t, x, s) && HasLeg(g, x, DIR_AHEAD)
    requires Claims(g.node[x].ty) && g.node[x].ty != Branch && !AlreadyHeld(g, entry, t, x, s)
    requires KeepsOwn(entry, owner, t) && owner[EdgeId(x, DIR_AHEAD)] == t
    ensures AlongLegs(g, n, rank, entry, owner, t, x, s, dry, fail)
         == AlongLeg(g, n, rank, entry, owner, t, x, DIR_AHEAD, s, dry, fail)
  {
  }

  /** A branch whose straight leg leads to a turnout that is refused is refused itself. */
  lemma StraightLegRefused(g: Graph, n: nat, rank: seq<nat>, owner: seq<int>, t: int, b: nat, s: int, dry: bool,
                           fail: int, claim: seq<nat>, marked: seq<int>)
    requires Callable(g, n, rank, owner, t, b, s) && g.node[b].ty == Branch && !AlreadyHeld(g, owner, t, b, s)
    requires claim == Claim(g, n, b) && AllReservable(owner, claim, t) && marked == Mark(owner, claim, t)
    requires var d := g.edge[EdgeId(b, DIR_STRAIGHT)];
             && d.dest < n && IsTurnout(g.node[d.dest].ty) && Callable(g, n, rank, marked, t, d.dest, s - d.dist)
             && !Reserve(g, n, rank, marked, t, d.dest, s - d.dist, dry, fail).ok
    ensures !Reserve(g, n, rank, owner, t, b, s, dry, fail).ok
  {
    FrameIs(g, n, rank, owner, t, b, s, dry, fail, claim, marked);
    var d := g.edge[EdgeId(b, DIR_STRAIGHT)];
    LegLeadsTo(g, n, rank, owner, marked, t, b, DIR_STRAIGHT, s, dry, fail, d.dest, s - d.dist);
    FirstLegFails(g, n, rank, owner, marked, t, b, s, dry, fail);
  }

  /** When the call along the straight leg fails, so does the frame. */
  lemma FirstLegFails(g: Graph, n: nat, rank: seq<nat>, entry: seq<int>, owner: seq<int>, t: int, x: nat, s: int,
                      dry: bool, fail: int)
    requires Callable(g, n, rank, entry, t, x, s) && Callable(g, n, rank, owner, t, x, s) && HasLeg(g, x, DIR_AHEAD)
    requires Claims(g.node[x].ty) && !AlreadyHeld(g, entry, t, x, s)
    requires KeepsOwn(entry, owner, t) && owner[EdgeId(x, DIR_AHEAD)] == t
    requires !AlongLeg(g, n, rank, entry, owner, t, x, DIR_STRAIGHT, s, dry, fail).ok
    ensures !AlongLegs(g, n, rank, entry, owner, t, x, s, dry, fail).ok
  {
  }
}
