/** A small yard on which reserveEdges does what one would not expect: a granted request that is lost,
    one that succeeds although its dry run on the cleared track fails, and a dry run that frees the
    edge of another train. */
module ReservationExample {
  import opened TrackGraph
  import opened Reservation
  import opened ReservationSafety
  import opened ReservationReports
  import opened ReservationRequests

  const OURS: int := 44
  const THEIRS: int := 43
  const FREE: int := UNRESERVED

  // The number of branch 6 where it is an ordinary one, and where it belongs to the centre of the layout.
  const ORDINARY: int := 2
  const CENTRAL: int := 153

  // ---- the yard ----

  // From the entry 0 a train comes to branch 2. Its straight leg leads to branch 6 and from there to the
  // exits 8 and 10, its curved leg to the exit 4; the odd nodes are the other sides.

  function YardNode(number: int, x: int): Node
  {
    if x == 0 then Node(Enter, 1, 1) else if x == 1 then Node(Exit, 1, 0)
    else if x == 2 then Node(Branch, 1, 3) else if x == 3 then Node(Merge, 1, 2)
    else if x == 4 then Node(Exit, 2, 5) else if x == 5 then Node(Enter, 2, 4)
    else if x == 6 then Node(Branch, number, 7) else if x == 7 then Node(Merge, number, 6)
    else if x == 8 then Node(Exit, 3, 9) else if x == 9 then Node(Enter, 3, 8)
    else if x == 10 then Node(Exit, 4, 11) else Node(Enter, 4, 10)
  }

  function YardEdge(e: int): Edge
  {
    if e == 0 then Edge(0, 2, 6, 10) else if e == 6 then Edge(3, 1, 0, 10)
    else if e == 4 then Edge(2, 6, 14, 30) else if e == 14 then Edge(7, 3, 4, 30)
    else if e == 5 then Edge(2, 4, 10, 50) else if e == 10 then Edge(5, 3, 5, 50)
    else if e == 12 then Edge(6, 8, 18, 40) else if e == 18 then Edge(9, 7, 12, 40)
    else if e == 13 then Edge(6, 10, 22, 60) else if e == 22 then Edge(11, 7, 13, 60)
    else Edge(0, 0, 0, 0)
  }

  ghost predicate IsYard(g: Graph, number: int)
  {
    && |g.node| == 12 && |g.edge| == 24
    && (forall x :: 0 <= x < 12 ==> g.node[x] == YardNode(number, x))
    && (forall e :: 0 <= e < 24 ==> g.edge[e] == YardEdge(e))
  }

  /** There is such a graph. */
  lemma YardExists(number: int) returns (g: Graph)
    ensures IsYard(g, number)
  {
    g := Graph(seq(12, x => YardNode(number, x)), seq(24, e => YardEdge(e)));
  }

  lemma YardNodeOk(g: Graph, number: int, x: nat)
    requires IsYard(g, number) && x < 12
    ensures NodeOk(g, 12, x) && LegsDiffer(g, x)
  {
  }

  lemma YardLegOk(g: Graph, number: int, x: nat, dir: nat)
    requires IsYard(g, number) && x < 12
    ensures LegOk(g, 12, x, dir)
  {
  }

  lemma YardPlannable(g: Graph, number: int)
    requires IsYard(g, number)
    ensures Plannable(g, 12)
  {
    forall x | 0 <= x < 12
      ensures NodeOk(g, 12, x) && LegsDiffer(g, x)
    {
      YardNodeOk(g, number, x);
    }
    forall x, dir | 0 <= x < 12
      ensures LegOk(g, 12, x, dir)
    {
      YardLegOk(g, number, x, dir);
    }
  }

  /** The ten edges there are. */
  predicate IsYardEdge(e: int)
  {
    e == 0 || e == 6 || e == 4 || e == 14 || e == 5 || e == 10 || e == 12 || e == 18 || e == 13 || e == 22
  }

  lemma YardEdgePair(g: Graph, number: int, e: nat)
    requires IsYard(g, number) && IsYardEdge(e)
    ensures var d := g.edge[e];
            && IsYardEdge(d.reverse) && d.src < 12 && d.dest < 12
            && var r := g.edge[d.reverse];
            && r.src < 12 && r.reverse == e && r.dist == d.dist
            && r.src == YardNode(number, d.dest).reverse && r.dest == YardNode(number, d.src).reverse
            && 2 * r.src <= d.reverse <= 2 * r.src + 1
            && HasDir(YardNode(number, r.src).ty, d.reverse - 2 * r.src)
            && YardNode(number, d.src).ty != NoNode && YardNode(number, d.dest).ty != NoNode
  {
  }

  lemma YardHasLeg(g: Graph, number: int, x: nat, dir: nat)
    requires IsYard(g, number) && x < 12
    ensures HasLeg(g, x, dir) <==> dir < 2 && IsYardEdge(EdgeId(x, dir))
  {
  }

  lemma YardWellFormed(g: Graph, number: int)
    requires IsYard(g, number)
    ensures WellFormed(g, 12)
  {
    YardPlannable(g, number);
    forall x, dir | 0 <= x < 12
      ensures Paired(g, 12, x, dir)
    {
      if HasLeg(g, x, dir) {
        YardHasLeg(g, number, x, dir);
        YardEdgePair(g, number, EdgeId(x, dir));
      }
    }
    forall x | 0 <= x < 12
      ensures SidesMatch(g, 12, x)
    {
      YardNodeOk(g, number, x);
    }
  }

  /** The two merges, and what lies behind the straight legs of their turnouts. */
  lemma YardCentre(g: Graph, number: int, x: nat)
    requires IsYard(g, number) && WellFormed(g, 12) && x < 12
    ensures CentreBranchAt(g, 12, x)
    ensures CentreIsBranch(g, 12) ==> |Centre(g, 12, x)| == if x == 3 && number > 100 then 4 else 0
  {
    assert x == 3 || x == 7 || g.node[x].ty != Merge;
  }

  lemma YardCentreIsBranch(g: Graph, number: int)
    requires IsYard(g, number)
    ensures WellFormed(g, 12) && CentreIsBranch(g, 12) && NoFakes(g, 12)
  {
    YardWellFormed(g, number);
    forall x | 0 <= x < 12
      ensures CentreBranchAt(g, 12, x)
    {
      YardCentre(g, number, x);
    }
  }

  ghost predicate OrdinaryYard(g: Graph, rank: seq<nat>)
  {
    IsYard(g, ORDINARY) && rank == seq(12, _ => 0)
  }

  lemma YardReady(g: Graph, rank: seq<nat>, owner: seq<int>)
    requires OrdinaryYard(g, rank) && |owner| == 24
    ensures Ready(g, 12, rank, owner, OURS) && NoFakes(g, 12)
    ensures forall x :: 0 <= x < 12 ==> Centre(g, 12, x) == []
  {
    YardCentreIsBranch(g, ORDINARY);
    forall x | 0 <= x < 12
      ensures Centre(g, 12, x) == []
    {
      YardCentre(g, ORDINARY, x);
    }
    forall x, dir | 0 <= x < 12
      ensures RankedAt(g, 12, rank, x, dir)
    {
      YardHasLeg(g, ORDINARY, x, dir);
      assert HasLeg(g, x, dir) ==> YardEdge(EdgeId(x, dir)).dist > 0;
    }
  }

  /** There is no centre in it. */
  lemma YardCallable(g: Graph, rank: seq<nat>, owner: seq<int>, x: nat, s: int)
    requires OrdinaryYard(g, rank) && |owner| == 24 && x < 12
    ensures Callable(g, 12, rank, owner, OURS, x, s) && OpenFrom(g, 12, owner, OURS, x, s)
    ensures NoFakes(g, 12) && Centre(g, 12, x) == []
  {
    YardReady(g, rank, owner);
    forall es | Follows(g, 12, x, s, es)
      ensures ClearAt(g, 12, owner, OURS, Reached(g, 12, x, s, es))
      ensures OpenAt(g, 12, owner, OURS, Reached(g, 12, x, s, es))
    {
      assert Centre(g, 12, Reached(g, 12, x, s, es)) == [];
    }
  }

  // ---- calls in the ordinary yard, where the curved leg of branch 6 belongs to another train ----

  ghost predicate Busy(owner: seq<int>)
  {
    && |owner| == 24 && owner[13] == THEIRS && owner[22] == THEIRS
    && forall e :: 0 <= e < 24 && e != 13 && e != 22 ==> CanReserve(owner, e, OURS)
  }

  /** A list of edges that leaves the other train's edge alone. */
  ghost predicate Harmless(claim: seq<nat>)
  {
    forall i :: 0 <= i < |claim| ==> claim[i] < 24 && claim[i] != 13 && claim[i] != 22
  }

  /** Such edges can be claimed, and claiming them leaves the rest as it was. */
  lemma ClaimHarmless(owner: seq<int>, claim: seq<nat>)
    requires Busy(owner) && Harmless(claim)
    ensures AllReservable(owner, claim, OURS) && Busy(Mark(owner, claim, OURS))
  {
    var marked := Mark(owner, claim, OURS);
    forall e | 0 <= e < 24 && e != 13 && e != 22
      ensures CanReserve(marked, e, OURS)
    {
      assert marked[e] == OURS || (marked[e] == owner[e] && CanReserve(owner, e, OURS));
    }
  }

  lemma EntryClaim(g: Graph, x: nat)
    requires IsYard(g, ORDINARY) && WellFormed(g, 12) && (x == 0 || x == 5)
    ensures var claim := Claim(g, 12, x);
            Harmless(claim) && 4 !in claim && 12 !in claim && (x == 5 ==> 6 !in claim)
  {
  }

  lemma MergeClaim(g: Graph, number: int)
    requires IsYard(g, number) && WellFormed(g, 12)
    ensures Harmless(Claim(g, 12, 3)) && 4 in Claim(g, 12, 3)
  {
    var claim := Claim(g, 12, 3);
    assert claim[2] == 4;
  }

  lemma BranchClaim(g: Graph)
    requires IsYard(g, ORDINARY) && WellFormed(g, 12)
    ensures Harmless(Claim(g, 12, 2)) && 12 !in Claim(g, 12, 2)
  {
  }

  /** At merge 3 nothing but its own frame is needed. */
  lemma MergeReserved(g: Graph, rank: seq<nat>, owner: seq<int>, s: int, dry: bool, fail: int)
    requires OrdinaryYard(g, rank) && Busy(owner) && owner[6] != OURS && s < 0
    requires Callable(g, 12, rank, owner, OURS, 3, s)
    ensures var r := Reserve(g, 12, rank, owner, OURS, 3, s, dry, fail);
            r.ok && r.failNode == fail && (!dry ==> Busy(r.owner) && r.owner[4] == OURS)
  {
    YardCallable(g, rank, owner, 3, s);
    MergeClaim(g, ORDINARY);
    var claim := Claim(g, 12, 3);
    ClaimHarmless(owner, claim);
    var marked, r := OneLegFrame(g, 12, rank, owner, OURS, 3, s, dry, fail, claim);
    var d := g.edge[EdgeId(3, DIR_AHEAD)];
    LegIs(g, 12, rank, owner, marked, OURS, 3, DIR_AHEAD, s, dry, fail, d.dest, s - d.dist);
    assert r == Result(true, marked, fail);
  }

  /** From the side entry the train gets its edge, and the whole turnout 2. */
  lemma SideReserved(g: Graph, rank: seq<nat>, owner: seq<int>, dry: bool, fail: int)
    requires OrdinaryYard(g, rank) && Busy(owner) && owner[6] != OURS && Callable(g, 12, rank, owner, OURS, 5, 5)
    ensures var r := Reserve(g, 12, rank, owner, OURS, 5, 5, dry, fail);
            r.ok && r.failNode == fail && (!dry ==> Busy(r.owner) && r.owner[4] == OURS)
  {
    YardCallable(g, rank, owner, 5, 5);
    EntryClaim(g, 5);
    var claim := Claim(g, 12, 5);
    ClaimHarmless(owner, claim);
    var marked, r := OneLegFrame(g, 12, rank, owner, OURS, 5, 5, dry, fail, claim);
    assert marked[6] == owner[6];
    SideLeg(g);
    LegLeadsTo(g, 12, rank, owner, marked, OURS, 5, DIR_AHEAD, 5, dry, fail, 3, -45);
    MergeReserved(g, rank, marked, -45, dry, fail);
  }

  /** The side entry's leg leads to merge 3. */
  lemma SideLeg(g: Graph)
    requires IsYard(g, ORDINARY)
    ensures g.edge[EdgeId(5, DIR_AHEAD)].dest == 3 && g.edge[EdgeId(5, DIR_AHEAD)].dist == 50
    ensures GoesOn(g, EdgeId(5, DIR_AHEAD), 5)
  {
  }

  /** From entry 0 the train needs no more than its edge when it holds the straight leg of branch 2. */
  lemma EntryReserved(g: Graph, rank: seq<nat>, owner: seq<int>, dry: bool, fail: int)
    requires OrdinaryYard(g, rank) && Busy(owner) && owner[4] == OURS && Callable(g, 12, rank, owner, OURS, 0, 5)
    ensures var r := Reserve(g, 12, rank, owner, OURS, 0, 5, dry, fail); r.ok && r.failNode == fail
  {
    YardCallable(g, rank, owner, 0, 5);
    EntryClaim(g, 0);
    var claim := Claim(g, 12, 0);
    ClaimHarmless(owner, claim);
    var marked, r := OneLegFrame(g, 12, rank, owner, OURS, 0, 5, dry, fail, claim);
    var d := g.edge[EdgeId(0, DIR_AHEAD)];
    LegIs(g, 12, rank, owner, marked, OURS, 0, DIR_AHEAD, 5, dry, fail, d.dest, 5 - d.dist);
    assert AlreadyHeld(g, marked, OURS, 2, 5 - 10);
    assert r == Result(true, marked, fail);
  }

  /** Without that it needs branch 6 as well. */
  lemma BranchBlocked(g: Graph, rank: seq<nat>, owner: seq<int>, s: int, fail: int)
    requires OrdinaryYard(g, rank) && Busy(owner) && owner[4] != OURS && owner[12] != OURS
    requires Callable(g, 12, rank, owner, OURS, 2, s)
    ensures !Reserve(g, 12, rank, owner, OURS, 2, s, true, fail).ok
  {
    YardCallable(g, rank, owner, 2, s);
    BranchClaim(g);
    var claim := Claim(g, 12, 2);
    ClaimHarmless(owner, claim);
    var marked := Mark(owner, claim, OURS);
    YardCallable(g, rank, marked, 6, s - 30);
    BranchRefused(g, 12, rank, marked, OURS, 6, s - 30, true, fail);
    StraightLegRefused(g, 12, rank, owner, OURS, 2, s, true, fail, claim, marked);
  }

  lemma EntryRefused(g: Graph, rank: seq<nat>, owner: seq<int>, fail: int)
    requires OrdinaryYard(g, rank) && Busy(owner) && owner[4] != OURS && owner[12] != OURS
    requires Callable(g, 12, rank, owner, OURS, 0, 5)
    ensures !Reserve(g, 12, rank, owner, OURS, 0, 5, true, fail).ok
  {
    YardCallable(g, rank, owner, 0, 5);
    EntryClaim(g, 0);
    var claim := Claim(g, 12, 0);
    ClaimHarmless(owner, claim);
    var marked, r := OneLegFrame(g, 12, rank, owner, OURS, 0, 5, true, fail, claim);
    var d := g.edge[EdgeId(0, DIR_AHEAD)];
    LegIs(g, 12, rank, owner, marked, OURS, 0, DIR_AHEAD, 5, true, fail, d.dest, 5 - d.dist);
    assert marked[4] == owner[4] && marked[12] == owner[12];
    BranchBlocked(g, rank, marked, 5 - 10, fail);
    assert GoesOn(g, EdgeId(0, DIR_AHEAD), 5) && !r.ok;
  }

  // ---- granted requests ----

  /** The curved leg of branch 2 is another train's; we hold the straight one. */
  ghost predicate CurvedLegTaken(owner: seq<int>)
  {
    && |owner| == 24 && owner[4] == OURS && owner[14] == OURS && owner[5] == THEIRS && owner[10] == THEIRS
    && forall e :: 0 <= e < 24 && e != 4 && e != 14 && e != 5 && e != 10 ==> owner[e] == FREE
  }

  /** One more request: granted, although the real call cannot succeed. The train loses what it held, and
      the reply names branch 2. */
  lemma GrantCanLoseTrack(g: Graph, rank: seq<nat>, before: seq<int>, after: seq<int>)
    requires OrdinaryYard(g, rank) && CurvedLegTaken(before) && Cleared(g, before, after, OURS)
    ensures AllCallable(g, 12, rank, before, OURS, [0], 5) && AllCallable(g, 12, rank, after, OURS, [0], 5)
    ensures Handled(g, 12, rank, before, after, OURS, [0], 5, true, after, 2)
    ensures !DoAll(g, 12, rank, after, OURS, [0], 5, NULL).ok && before[4] == OURS && after[4] == FREE
  {
    YardCallable(g, rank, before, 0, 5);
    assert Clearable(g, 4);
    GrantedButLost(g, 12, rank, before, after, OURS, 0, 5);
  }

  /** The curved leg of branch 6 is another train's; we hold the straight leg of branch 2. */
  ghost predicate FarLegTaken(owner: seq<int>)
  {
    && |owner| == 24 && owner[4] == OURS && owner[14] == OURS && owner[13] == THEIRS && owner[22] == THEIRS
    && forall e :: 0 <= e < 24 && e != 4 && e != 14 && e != 13 && e != 22 ==> owner[e] == FREE
  }

  lemma BothCallable(g: Graph, rank: seq<nat>, owner: seq<int>)
    requires OrdinaryYard(g, rank) && |owner| == 24
    ensures AllCallable(g, 12, rank, owner, OURS, [5, 0], 5) && AllCallable(g, 12, rank, owner, OURS, [0], 5)
    ensures AllCallable(g, 12, rank, owner, OURS, [], 5)
  {
    YardCallable(g, rank, owner, 5, 5);
    YardCallable(g, rank, owner, 0, 5);
  }

  /** The two dry runs of a request from the side entry 5 and from entry 0. */
  lemma DryRunsOfTwo(g: Graph, rank: seq<nat>, owner: seq<int>)
    requires OrdinaryYard(g, rank) && Busy(owner) && owner[6] == FREE && owner[12] == FREE
    ensures AllCallable(g, 12, rank, owner, OURS, [5, 0], 5)
    ensures owner[4] == OURS ==> TryAll(g, 12, rank, owner, OURS, [5, 0], 5, NULL) == Result(true, owner, NULL)
    ensures owner[4] == FREE ==> !TryAll(g, 12, rank, owner, OURS, [5, 0], 5, NULL).ok
  {
    BothCallable(g, rank, owner);
    assert [5, 0][1..] == [0] && [0][1..] == [];
    SideReserved(g, rank, owner, true, NULL);
    if owner[4] == OURS {
      EntryReserved(g, rank, owner, true, NULL);
      assert TryAll(g, 12, rank, owner, OURS, [0], 5, NULL) == Result(true, owner, NULL);
    } else if owner[4] == FREE {
      EntryRefused(g, rank, owner, NULL);
      assert !TryAll(g, 12, rank, owner, OURS, [0], 5, NULL).ok;
    }
  }

  /** The two real calls. */
  lemma RealCallsOfTwo(g: Graph, rank: seq<nat>, owner: seq<int>) returns (after: seq<int>)
    requires OrdinaryYard(g, rank) && Busy(owner) && owner[6] == FREE
    ensures AllCallable(g, 12, rank, owner, OURS, [5, 0], 5)
    ensures DoAll(g, 12, rank, owner, OURS, [5, 0], 5, NULL) == Result(true, after, NULL)
  {
    BothCallable(g, rank, owner);
    assert [5, 0][1..] == [0] && [0][1..] == [];
    SideReserved(g, rank, owner, false, NULL);
    var r1 := Reserve(g, 12, rank, owner, OURS, 5, 5, false, NULL);
    BothCallable(g, rank, r1.owner);
    EntryReserved(g, rank, r1.owner, false, NULL);
    var r2 := Reserve(g, 12, rank, r1.owner, OURS, 0, 5, false, NULL);
    BothCallable(g, rank, r2.owner);
    assert DoAll(g, 12, rank, r2.owner, OURS, [], 5, NULL) == Result(true, r2.owner, NULL);
    assert DoAll(g, 12, rank, r1.owner, OURS, [0], 5, NULL) == Result(true, r2.owner, NULL);
    after := r2.owner;
  }

  lemma FarLegCleared(g: Graph, before: seq<int>, cleared: seq<int>)
    requires IsYard(g, ORDINARY) && FarLegTaken(before) && Cleared(g, before, cleared, OURS)
    ensures Busy(before) && before[4] == OURS && before[6] == FREE && before[12] == FREE
    ensures Busy(cleared) && cleared[4] == FREE && cleared[6] == FREE && cleared[12] == FREE
  {
    assert Clearable(g, 4) && Clearable(g, 14);
  }

  /** A request from the side entry 5 and from entry 0: granted, and every real call succeeds, although
      the dry runs on the cleared track do not all succeed. So the condition of GrantedIsReserved is not
      necessary: the first real call claims what the second would otherwise have to look beyond. */
  lemma GrantCanHoldAnyway(g: Graph, rank: seq<nat>, before: seq<int>, cleared: seq<int>) returns (after: seq<int>)
    requires OrdinaryYard(g, rank) && FarLegTaken(before) && Cleared(g, before, cleared, OURS)
    ensures AllCallable(g, 12, rank, before, OURS, [5, 0], 5) && AllCallable(g, 12, rank, cleared, OURS, [5, 0], 5)
    ensures NoFakes(g, 12) && AllReal(g, 12, [5, 0])
    ensures Handled(g, 12, rank, before, after, OURS, [5, 0], 5, true, cleared, NULL)
    ensures DoAll(g, 12, rank, cleared, OURS, [5, 0], 5, NULL).ok
    ensures !TryAll(g, 12, rank, cleared, OURS, [5, 0], 5, NULL).ok
  {
    FarLegCleared(g, before, cleared);
    YardReady(g, rank, before);
    DryRunsOfTwo(g, rank, before);
    DryRunsOfTwo(g, rank, cleared);
    after := RealCallsOfTwo(g, rank, cleared);
  }

  // ---- the centre of the layout ----

  lemma CentreOfThree(g: Graph)
    requires IsYard(g, CENTRAL) && WellFormed(g, 12) && CentreIsBranch(g, 12)
    ensures |Centre(g, 12, 3)| == 4 && Centre(g, 12, 3)[0] == 13
  {
    YardCentre(g, CENTRAL, 3);
  }

  /** What such a frame does to the owners. */
  lemma FrameFreesForeign(owner: seq<int>, claim: seq<nat>, centre: seq<nat>, ok: bool)
    requires Busy(owner) && Harmless(claim) && ValidEdges(owner, centre) && |centre| > 0 && centre[0] == 13
    ensures AllReservable(owner, claim, OURS)
    ensures Leave(owner, Marked(owner, claim, centre, OURS), claim, centre, OURS, ok, true)[13] == FREE
  {
    ClaimHarmless(owner, claim);
    DryFrame(owner, claim, centre, OURS, ok);
  }

  lemma StopsBehindMerge(g: Graph, s: int)
    requires IsYard(g, CENTRAL) && s <= 10
    ensures g.edge[EdgeId(3, DIR_AHEAD)].dest < 12 && !GoesOn(g, EdgeId(3, DIR_AHEAD), s)
  {
  }

  /** Where branch 6 belongs to the centre and its curved leg to another train: the frame of a dry run at
      merge 3 claims only edges that are free, goes no further, and yet frees that leg. */
  lemma DryRunCanFreeForeign(g: Graph, owner: seq<int>, s: int, ok: bool) returns (claim: seq<nat>, centre: seq<nat>)
    requires IsYard(g, CENTRAL) && Busy(owner) && s <= 10
    ensures WellFormed(g, 12) && CentreIsBranch(g, 12) && claim == Claim(g, 12, 3) && centre == Centre(g, 12, 3)
    ensures g.edge[EdgeId(3, DIR_AHEAD)].dest < 12 && !GoesOn(g, EdgeId(3, DIR_AHEAD), s)
    ensures ValidEdges(owner, claim) && ValidEdges(owner, centre) && AllReservable(owner, claim, OURS)
    ensures owner[13] == THEIRS
    ensures Leave(owner, Marked(owner, claim, centre, OURS), claim, centre, OURS, ok, true)[13] == FREE
  {
    YardCentreIsBranch(g, CENTRAL);
    MergeClaim(g, CENTRAL);
    CentreOfThree(g);
    StopsBehindMerge(g, s);
    claim, centre := Claim(g, 12, 3), Centre(g, 12, 3);
    FrameFreesForeign(owner, claim, centre, ok);
  }
}
