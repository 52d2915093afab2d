/** The entries of a returned route: what each step of its walk leaves there, in which order, and with which
    turnout settings. */
module RouteSettings {
  import opened TrackGraph
  import opened Landmarks
  import opened Splicing
  import opened Walks
  import opened RouteRebuild
  import RoutePlanning
  import RouteFinding
  import Locating

  // ---- tracks that can be driven back ----

  /** In direction dir a leg leads from x to y. */
  ghost predicate LegTo(g: Graph, x: nat, dir: nat, y: nat)
    requires Shape(g)
  {
    HasLeg(g, x, dir) && g.edge[EdgeId(x, dir)].dest == y
  }

  /** From the other side of the leg's end some leg leads to the other side of its start, whatever the
      record of the leg names as its reverse. */
  ghost predicate ReturnAt(g: Graph, n: nat, x: nat, dir: nat)
    requires Plannable(g, n) && x < n
  {
    HasLeg(g, x, dir) ==>
      assert LegOk(g, n, x, dir);
      exists d: nat :: LegTo(g, g.node[g.edge[EdgeId(x, dir)].dest].reverse, d, g.node[x].reverse)
  }

  ghost predicate MergeFacesBranch(g: Graph, n: nat, x: nat)
    requires Plannable(g, n) && x < n
  {
    assert NodeOk(g, n, x);
    g.node[x].ty == Merge ==> g.node[g.node[x].reverse].ty == Branch
  }

  ghost predicate Returnable(g: Graph, n: nat)
  {
    && Plannable(g, n)
    && (forall x, dir {:trigger ReturnAt(g, n, x, dir)} :: 0 <= x < n ==> ReturnAt(g, n, x, dir))
    && (forall x {:trigger MergeFacesBranch(g, n, x)} :: 0 <= x < n ==> MergeFacesBranch(g, n, x))
  }

  /** A complete track can be driven back. */
  lemma CompleteIsReturnable(g: Graph, n: nat)
    requires WellFormed(g, n)
    ensures Returnable(g, n)
  {
    forall x, dir | 0 <= x < n
      ensures ReturnAt(g, n, x, dir)
    {
      assert Paired(g, n, x, dir) && LegOk(g, n, x, dir);
      if HasLeg(g, x, dir) {
        var r := g.edge[EdgeId(x, dir)].reverse;
        var d := r - 2 * g.edge[r].src;
        assert LegTo(g, g.node[g.edge[EdgeId(x, dir)].dest].reverse, d, g.node[x].reverse);
      }
    }
    forall x | 0 <= x < n
      ensures MergeFacesBranch(g, n, x)
    {
      assert SidesMatch(g, n, x);
    }
  }

  /** A leg that is not spliced is not led back by one that is: the two legs of a branch end in
      different places. */
  lemma LegBackNotSpliced(g: Graph, n: nat, e: nat, x: nat, dir: nat, back: nat, d: nat)
    requires Spliceable(g, n, e) && x < n && HasLeg(g, x, dir) && EdgeId(x, dir) != e
    requires EdgeId(x, dir) != g.edge[e].reverse
    requires LegOk(g, n, x, dir) && back == g.node[g.edge[EdgeId(x, dir)].dest].reverse
    requires LegTo(g, back, d, g.node[x].reverse)
    ensures EdgeId(back, d) != e && EdgeId(back, d) != g.edge[e].reverse
  {
    LegIsEdge(g, n, e);
    assert NodeOk(g, n, x) && NodeOk(g, n, g.edge[EdgeId(x, dir)].dest);
    assert NodeOk(g, n, g.edge[e].src) && NodeOk(g, n, g.edge[e].dest) && LegsDiffer(g, x);
  }

  /** Away from the splice the leg back is the one there was. */
  lemma FarLegReturns(g: Graph, g': Graph, n: nat, e: nat, off: int, x: nat, dir: nat)
    requires Spliceable(g, n, e) && Returnable(g, n) && Changes(g, g', n, e, off) && Plannable(g', n + 2)
    requires x < n && HasLeg(g, x, dir) && EdgeId(x, dir) != e && EdgeId(x, dir) != g.edge[e].reverse
    ensures ReturnAt(g', n + 2, x, dir)
  {
    var y := g.edge[EdgeId(x, dir)].dest;
    assert LegOk(g, n, x, dir) && ReturnAt(g, n, x, dir) && NodeOk(g, n, y);
    var d: nat :| LegTo(g, g.node[y].reverse, d, g.node[x].reverse);
    LegBackNotSpliced(g, n, e, x, dir, g.node[y].reverse, d);
    assert LegTo(g', g.node[y].reverse, d, g.node[x].reverse);
  }

  /** The four legs of the splice lead back to each other. */
  lemma NearLegReturns(g: Graph, g': Graph, n: nat, e: nat, off: int, x: nat, dir: nat)
    requires Spliceable(g, n, e) && Returnable(g, n) && Changes(g, g', n, e, off) && Plannable(g', n + 2)
    requires x < n + 2 && HasLeg(g', x, dir)
    requires x < n ==> EdgeId(x, dir) == e || EdgeId(x, dir) == g.edge[e].reverse
    ensures ReturnAt(g', n + 2, x, dir)
  {
    LegIsEdge(g, n, e);
    var r := g.edge[e].reverse;
    assert LegOk(g', n + 2, x, dir) && NodeOk(g, n, g.edge[e].src) && NodeOk(g, n, g.edge[e].dest);
    assert LegTo(g', g.edge[e].src, EdgeDir(g, e), n) && LegTo(g', g.edge[r].src, EdgeDir(g, r), n + 1);
    assert LegTo(g', n, DIR_AHEAD, g.edge[e].dest) && LegTo(g', n + 1, DIR_AHEAD, g.edge[r].dest);
  }

  /** A splice leaves the track one that can be driven back, the wrong reverse of its second temporary
      node notwithstanding. */
  lemma SpliceReturnable(g: Graph, n: nat, e: nat, off: int)
    requires Spliceable(g, n, e) && Returnable(g, n) && n + 1 < |g.node| && 0 <= off <= g.edge[e].dist
    ensures Returnable(Splice(g, e, n, off), n + 2)
  {
    var g', n2 := Splice(g, e, n, off), n + 2;
    SpliceShape(g, n, e, off);
    SplicePlannable(g, n, e, off);
    forall x, dir | 0 <= x < n2
      ensures ReturnAt(g', n2, x, dir)
    {
      if HasLeg(g', x, dir) {
        if x < n && EdgeId(x, dir) != e && EdgeId(x, dir) != g.edge[e].reverse {
          FarLegReturns(g, g', n, e, off, x, dir);
        } else {
          NearLegReturns(g, g', n, e, off, x, dir);
        }
      }
    }
    forall x | 0 <= x < n2
      ensures MergeFacesBranch(g', n2, x)
    {
      assert x < n ==> NodeOk(g, n, x) && MergeFacesBranch(g, n, x);
    }
  }

  // ---- settings ----

  /** The setting with which the turnout facing merge u is passed on the way from prev. */
  ghost predicate NamesLeg(g: Graph, n: nat, u: nat, prev: nat, setting: int)
    requires Plannable(g, n) && u < n && prev < n && g.node[u].ty == Merge && g.node[prev].ty != NoNode
  {
    assert NodeOk(g, n, u) && NodeOk(g, n, prev);
    var turnout, from := g.node[u].reverse, g.node[prev].reverse;
    && g.node[turnout].ty == Branch
    && (setting == SWITCH_STRAIGHT <==> g.edge[EdgeId(turnout, DIR_STRAIGHT)].dest == from)
    && (setting == SWITCH_CURVED <==> g.edge[EdgeId(turnout, DIR_CURVED)].dest == from)
  }

  /** The setting recorded at a merge names the leg of the turnout over which the merge is entered. */
  lemma SettingNamesLegTaken(g: Graph, u: nat, prev: nat, dir: nat)
    requires Returnable(g, |g.node|) && u < |g.node| && prev < |g.node| && g.node[u].ty == Merge
    requires LegTo(g, prev, dir, u)
    ensures NamesLeg(g, |g.node|, u, prev, EntrySetting(g, u, prev))
  {
    assert NodeOk(g, |g.node|, u) && MergeFacesBranch(g, |g.node|, u) && LegsDiffer(g, g.node[u].reverse);
    assert ReturnAt(g, |g.node|, prev, dir);
    var d: nat :| LegTo(g, g.node[u].reverse, d, g.node[prev].reverse);
  }

  /** After turning round at a branch the merge is entered over the leg the train ran onto, always the
      curved one. */
  lemma SettingAfterReversal(g: Graph, u: nat, prev: nat)
    requires Returnable(g, |g.node|) && u < |g.node| && prev < |g.node| && g.node[u].ty == Merge
    requires g.node[prev].ty != NoNode && g.node[prev].reverse == u
    ensures EntrySetting(g, u, prev) == SWITCH_CURVED
  {
    assert NodeOk(g, |g.node|, u) && NodeOk(g, |g.node|, prev) && MergeFacesBranch(g, |g.node|, u);
    assert LegOk(g, |g.node|, prev, DIR_STRAIGHT);
  }

  // ---- on the route ----

  /** Every beginning of a walk is a walk. */
  lemma {:induction false} BeginningIsWalk(g: Graph, p: Policy, u: nat, w: seq<Step>, k: nat)
    requires Fits(g, p) && u < |g.node| && IsWalk(g, p, u, w) && k <= |w|
    ensures IsWalk(g, p, u, w[..k])
    decreases |w|
  {
    if k < |w| {
      BeginningIsWalk(g, p, u, w[..|w| - 1], k);
      assert w[..|w| - 1][..k] == w[..k];
    } else {
      assert w[..k] == w;
    }
  }

  /** Step k of a walk can be made where the walk has come to by then. */
  lemma StepIsEnabled(g: Graph, p: Policy, u: nat, w: seq<Step>, k: nat)
    requires Fits(g, p) && u < |g.node| && IsWalk(g, p, u, w) && k < |w|
    ensures IsWalk(g, p, u, w[..k]) && IsWalk(g, p, u, w[..k + 1])
    ensures var x := End(g, p, u, w[..k]);
            Enabled(g, p, x, w[k]) && End(g, p, u, w[..k + 1]) == Target(g, p, x, w[k])
  {
    BeginningIsWalk(g, p, u, w, k);
    BeginningIsWalk(g, p, u, w, k + 1);
    assert w[..k + 1][..k] == w[..k];
  }

  /** Where the entries for step k begin: a leg has one entry, a reversal two. */
  ghost function Place(w: seq<Step>, k: nat): nat
    requires k <= |w|
  {
    if k == 0 then 0 else Place(w, k - 1) + if w[k - 1].Leg? then 1 else 2
  }

  lemma {:induction false} PlaceOfBeginning(w: seq<Step>, v: seq<Step>, k: nat)
    requires k <= |v| <= |w| && v == w[..|v|]
    ensures Place(v, k) == Place(w, k)
  {
    if k > 0 {
      PlaceOfBeginning(w, v, k - 1);
    }
  }

  /** The entries made for one step stand in entries from place i on. */
  ghost predicate StandsAt(entries: seq<RouteNode>, i: nat, made: seq<RouteNode>)
    requires 1 <= |made| <= 2
  {
    && i + |made| <= |entries| && entries[i] == made[0]
    && (|made| == 2 ==> entries[i + 1] == made[1])
  }

  lemma StillStandsAt(entries: seq<RouteNode>, more: seq<RouteNode>, i: nat, made: seq<RouteNode>)
    requires 1 <= |made| <= 2
    ensures StandsAt(entries, i, made) ==> StandsAt(entries + more, i, made)
    ensures StandsAt(entries + made, |entries|, made)
  {
  }

  /** The entries of a beginning of the walk come first, those of the next step follow. */
  lemma {:induction false} EntriesOfStep(g: Graph, p: Policy, u: nat, w: seq<Step>, k: nat, i: nat,
                                         made: seq<RouteNode>)
    requires Fits(g, p) && u < |g.node| && IsWalk(g, p, u, w) && k < |w|
    requires IsWalk(g, p, u, w[..k]) && Enabled(g, p, End(g, p, u, w[..k]), w[k]) && i == |Entries(g, p, u, w[..k])|
    requires made == Entry(g, p, End(g, p, u, w[..k]), Before(g, p, u, w[..k]), w[k])
    ensures StandsAt(Entries(g, p, u, w), i, made)
    decreases |w|
  {
    var w' := w[..|w| - 1];
    var last := Entry(g, p, End(g, p, u, w'), Before(g, p, u, w'), w[|w| - 1]);
    if k < |w'| {
      assert w'[..k] == w[..k];
      EntriesOfStep(g, p, u, w', k, i, made);
      StillStandsAt(Entries(g, p, u, w'), last, i, made);
    } else {
      assert w' == w[..k];
      StillStandsAt(Entries(g, p, u, w'), last, i, made);
    }
  }

  lemma {:induction false} EntriesPlaced(g: Graph, p: Policy, u: nat, w: seq<Step>)
    requires Fits(g, p) && u < |g.node| && IsWalk(g, p, u, w)
    ensures |Entries(g, p, u, w)| == Place(w, |w|)
    decreases |w|
  {
    if |w| > 0 {
      var w' := w[..|w| - 1];
      EntriesPlaced(g, p, u, w');
      PlaceOfBeginning(w, w', |w'|);
    }
  }

  /** The train may use edge record e: it is free or the train's own. */
  ghost predicate MayUse(q: RoutePlanning.Query, e: nat)
    requires RoutePlanning.QueryOk(q)
  {
    e < |q.g.edge| && (q.p.owner[e] == UNRESERVED || q.p.owner[e] == q.p.train)
  }

  /** It may drive over the leg of x in this direction: it is not told to avoid it either. */
  ghost predicate MayDrive(q: RoutePlanning.Query, x: nat, dir: nat)
    requires RoutePlanning.QueryOk(q)
  {
    HasLeg(q.g, x, dir) && MayUse(q, EdgeId(x, dir)) && EdgeId(x, dir) != q.p.avoid1 && EdgeId(x, dir) != q.p.avoid2
  }

  /** It may turn round beyond x: at a branch, on the curved leg. */
  ghost predicate MayTurn(q: RoutePlanning.Query, x: nat)
    requires RoutePlanning.QueryOk(q)
  {
    && RealNode(q.g, x) && q.g.node[x].ty != Exit && q.p.safe[x] != INT_MAX
    && MayUse(q, if q.g.node[x].ty == Branch then EdgeId(x, DIR_CURVED) else EdgeId(x, DIR_AHEAD))
  }

  /** Where step s leads from x. */
  ghost predicate LeadsTo(q: RoutePlanning.Query, x: nat, s: Step, y: nat)
    requires RoutePlanning.QueryOk(q)
  {
    match s
    case Leg(dir) => MayDrive(q, x, dir) && q.g.edge[EdgeId(x, dir)].dest == y
    case Reverse => MayTurn(q, x) && q.g.node[x].reverse == y
  }

  /** What the entry for step k of walk w must say when the step is a leg: where it begins, how long it is,
      how the turnout there must stand, and never that the train is to turn round. */
  ghost predicate SettingRight(q: RoutePlanning.Query, w: seq<Step>, k: nat, entry: RouteNode)
    requires RoutePlanning.QueryOk(q) && k < |w| && w[k].Leg? && IsWalk(q.g, q.p, q.start, w[..k])
  {
    var x := End(q.g, q.p, q.start, w[..k]);
    && MayDrive(q, x, w[k].dir)
    && entry.landmark == LandmarkOf(q.g.node[x]) && entry.dist == q.g.edge[EdgeId(x, w[k].dir)].dist
    && (q.g.node[x].ty != Branch && q.g.node[x].ty != Merge ==> entry.num == 0)
    && (q.g.node[x].ty == Branch ==> entry.num == if w[k].dir == DIR_STRAIGHT then SWITCH_STRAIGHT else SWITCH_CURVED)
    && (q.g.node[x].ty == Merge ==>
          && (entry.num == SWITCH_STRAIGHT || entry.num == SWITCH_CURVED)
          && 0 < k && IsWalk(q.g, q.p, q.start, w[..k - 1])
          && var prev := End(q.g, q.p, q.start, w[..k - 1]);
          && q.g.node[prev].ty != NoNode
          && (w[k - 1].Leg? ==> NamesLeg(q.g, |q.g.node|, x, prev, entry.num))
          && (w[k - 1].Reverse? ==> q.g.node[prev].reverse == x && entry.num == SWITCH_CURVED))
  }

  /** What the two entries for a reversal must say: first how far to run on beyond the node, the turnout there
      curved, and only then that the train turns round and comes back as far. */
  ghost predicate ReversalRight(q: RoutePlanning.Query, w: seq<Step>, k: nat, first: RouteNode, second: RouteNode)
    requires RoutePlanning.QueryOk(q) && k < |w| && IsWalk(q.g, q.p, q.start, w[..k])
  {
    var x := End(q.g, q.p, q.start, w[..k]);
    && first == RouteNode(LandmarkOf(q.g.node[x]), SWITCH_CURVED, q.p.safe[x])
    && second == RouteNode(LandmarkOf(q.g.node[x]), REVERSE, q.p.safe[x])
  }

  /** What step k of walk w leaves among the entries of a route. */
  ghost predicate EntryRight(q: RoutePlanning.Query, w: seq<Step>, k: nat, entries: seq<RouteNode>)
    requires RoutePlanning.QueryOk(q) && k < |w|
  {
    && IsWalk(q.g, q.p, q.start, w[..k]) && IsWalk(q.g, q.p, q.start, w[..k + 1])
    && LeadsTo(q, End(q.g, q.p, q.start, w[..k]), w[k], End(q.g, q.p, q.start, w[..k + 1]))
    && var i := Place(w, k);
    if w[k].Leg? then i < |entries| && SettingRight(q, w, k, entries[i])
    else i + 1 < |entries| && ReversalRight(q, w, k, entries[i], entries[i + 1])
  }

  /** The entries of a whole route: those of each step in turn, and one for the goal. */
  ghost predicate AllEntriesRight(q: RoutePlanning.Query, w: seq<Step>, goal: nat, entries: seq<RouteNode>)
    requires RoutePlanning.QueryOk(q) && goal < |q.g.node|
  {
    && |entries| == Place(w, |w|) + 1 && entries[|entries| - 1] == RouteNode(LandmarkOf(q.g.node[goal]), 0, 0)
    && forall k: nat {:trigger EntryRight(q, w, k, entries)} :: k < |w| ==> EntryRight(q, w, k, entries)
  }

  /** How a merge is entered by the step before. */
  lemma MergeEntered(g: Graph, p: Policy, prev: nat, s: Step, x: nat)
    requires Fits(g, p) && Returnable(g, |g.node|) && prev < |g.node| && x < |g.node| && g.node[x].ty == Merge
    requires Enabled(g, p, prev, s) && Target(g, p, prev, s) == x
    ensures g.node[prev].ty != NoNode
    ensures s.Leg? ==> NamesLeg(g, |g.node|, x, prev, EntrySetting(g, x, prev))
    ensures s.Reverse? ==> g.node[prev].reverse == x && EntrySetting(g, x, prev) == SWITCH_CURVED
  {
    assert NodeOk(g, |g.node|, prev);
    match s {
      case Leg(dir) =>
        assert LegTo(g, prev, dir, x);
        SettingNamesLegTaken(g, x, prev, dir);
      case Reverse =>
        SettingAfterReversal(g, x, prev);
    }
  }

  /** The entry made for a leg. */
  lemma StepSetting(q: RoutePlanning.Query, w: seq<Step>, k: nat)
    requires RoutePlanning.QueryOk(q) && Returnable(q.g, |q.g.node|) && q.g.node[q.start].ty == Fake
    requires IsWalk(q.g, q.p, q.start, w) && k < |w| && w[k].Leg?
    requires IsWalk(q.g, q.p, q.start, w[..k]) && Enabled(q.g, q.p, End(q.g, q.p, q.start, w[..k]), w[k])
    ensures SettingRight(q, w, k,
                         Entry(q.g, q.p, End(q.g, q.p, q.start, w[..k]), Before(q.g, q.p, q.start, w[..k]), w[k])[0])
  {
    var g, p, u := q.g, q.p, q.start;
    var x := End(g, p, u, w[..k]);
    if g.node[x].ty == Merge {
      assert k > 0;
      StepIsEnabled(g, p, u, w, k - 1);
      assert w[..k][..k - 1] == w[..k - 1];
      MergeEntered(g, p, End(g, p, u, w[..k - 1]), w[k - 1], x);
    }
  }

  lemma StepPlaced(q: RoutePlanning.Query, w: seq<Step>, k: nat, made: seq<RouteNode>)
    requires RoutePlanning.QueryOk(q) && IsWalk(q.g, q.p, q.start, w) && k < |w|
    requires IsWalk(q.g, q.p, q.start, w[..k]) && Enabled(q.g, q.p, End(q.g, q.p, q.start, w[..k]), w[k])
    requires made == Entry(q.g, q.p, End(q.g, q.p, q.start, w[..k]), Before(q.g, q.p, q.start, w[..k]), w[k])
    ensures StandsAt(Entries(q.g, q.p, q.start, w), Place(w, k), made)
  {
    EntriesPlaced(q.g, q.p, q.start, w[..k]);
    PlaceOfBeginning(w, w[..k], k);
    EntriesOfStep(q.g, q.p, q.start, w, k, Place(w, k), made);
  }

  lemma StepRight(q: RoutePlanning.Query, w: seq<Step>, k: nat, made: seq<RouteNode>, entries: seq<RouteNode>)
    requires RoutePlanning.QueryOk(q) && k < |w| && IsWalk(q.g, q.p, q.start, w[..k])
    requires 1 <= |made| <= 2 && StandsAt(entries, Place(w, k), made) && IsWalk(q.g, q.p, q.start, w[..k + 1])
    requires LeadsTo(q, End(q.g, q.p, q.start, w[..k]), w[k], End(q.g, q.p, q.start, w[..k + 1]))
    requires if w[k].Leg? then SettingRight(q, w, k, made[0])
             else |made| == 2 && ReversalRight(q, w, k, made[0], made[1])
    ensures EntryRight(q, w, k, entries)
  {
  }

  /** Each step leaves the right entries in the right place. */
  lemma EntriesRight(q: RoutePlanning.Query, w: seq<Step>, goal: nat, k: nat, entries: seq<RouteNode>)
    requires RoutePlanning.QueryOk(q) && Returnable(q.g, |q.g.node|) && q.g.node[q.start].ty == Fake
    requires goal < |q.g.node| && IsWalk(q.g, q.p, q.start, w) && k < |w| && entries == FullRoute(q, w, goal)
    ensures EntryRight(q, w, k, entries)
  {
    StepIsEnabled(q.g, q.p, q.start, w, k);
    var made := Entry(q.g, q.p, End(q.g, q.p, q.start, w[..k]), Before(q.g, q.p, q.start, w[..k]), w[k]);
    StepPlaced(q, w, k, made);
    StillStandsAt(Entries(q.g, q.p, q.start, w), [RouteNode(LandmarkOf(q.g.node[goal]), 0, 0)], Place(w, k), made);
    if w[k].Leg? {
      StepSetting(q, w, k);
    }
    StepRight(q, w, k, made, entries);
  }

  /** The track findRoute plans on can be driven back. */
  lemma PlannedOnReturnable(s1: RouteFinding.Spot, s2: RouteFinding.Spot, n: nat, step: int)
    requires RouteFinding.FromOk(s1, n, step) && s2.before == s1.after && Spliceable(s2.before, n + 2, s2.e)
    requires s2.after == Splice(s2.before, s2.e, n + 2, s2.off) && 0 <= s2.off <= s2.before.edge[s2.e].dist
    ensures |s2.after.node| == n + 4 && Returnable(s2.after, n + 4) && s2.after.node[n].ty == Fake
  {
    CompleteIsReturnable(s1.before, n);
    SpliceReturnable(s1.before, n, s1.e, s1.off);
    SpliceReturnable(s1.after, n + 2, s2.e, s2.off);
    SpliceShape(s1.after, n + 2, s2.e, s2.off);
  }

  lemma FullRouteEntries(q: RoutePlanning.Query, w: seq<Step>, goal: nat)
    requires RoutePlanning.QueryOk(q) && Returnable(q.g, |q.g.node|) && q.g.node[q.start].ty == Fake
    requires goal < |q.g.node| && IsWalk(q.g, q.p, q.start, w)
    ensures AllEntriesRight(q, w, goal, FullRoute(q, w, goal))
  {
    var entries := FullRoute(q, w, goal);
    EntriesPlaced(q.g, q.p, q.start, w);
    forall k: nat | k < |w|
      ensures EntryRight(q, w, k, entries)
    {
      EntriesRight(q, w, goal, k, entries);
    }
  }

  /** What an answer of findRoute with a route says of the question asked of the planner. */
  lemma PlannedQuestion(g: Graph, owner: seq<int>, n: nat, from: Locating.Position, to: Locating.Position, step: int,
                        ask: RouteFinding.Asked, s1: RouteFinding.Spot, s2: RouteFinding.Spot,
                        q: RoutePlanning.Query, dist: int, entries: seq<RouteNode>)
    requires Plannable(g, n) && |owner| == |g.edge|
    requires RouteFinding.Answer(g, owner, n, from, to, step, ask, RouteFinding.Planned, s1, s2, q, dist, entries)
    ensures RoutePlanning.QueryOk(q) && n + 2 < |q.g.node| && RouteFinding.Describes(q, n + 2, dist, entries)
    ensures Returnable(q.g, |q.g.node|) && q.g.node[q.start].ty == Fake
  {
    PlannedOnReturnable(s1, s2, n, step);
  }

  /** On every route findRoute returns, the entries are those of a cheapest walk, step by step: each leg with
      its length and the setting of the turnout it is driven over, each reversal with the way on and the
      turning round, in that order. */
  lemma RouteSettingsRight(g: Graph, owner: seq<int>, n: nat, from: Locating.Position, to: Locating.Position, step: int,
                           ask: RouteFinding.Asked, s1: RouteFinding.Spot, s2: RouteFinding.Spot,
                           q: RoutePlanning.Query, dist: int, entries: seq<RouteNode>)
    returns (w: seq<Step>)
    requires Plannable(g, n) && |owner| == |g.edge| && dist != INT_MAX
    requires RouteFinding.Answer(g, owner, n, from, to, step, ask, RouteFinding.Planned, s1, s2, q, dist, entries)
    ensures RoutePlanning.QueryOk(q) && Reaches(q.g, q.p, q.start, n + 2, w) && WalkCost(q.g, q.p, q.start, w) == dist
    ensures RoutePlanning.IsShortest(q, n + 2, dist) && n + 2 < |q.g.node|
    ensures AllEntriesRight(q, w, n + 2, entries)
  {
    var goal := n + 2;
    PlannedQuestion(g, owner, n, from, to, step, ask, s1, s2, q, dist, entries);
    w := DescribedEntries(q, goal, dist, entries);
  }

  lemma DescribedEntries(q: RoutePlanning.Query, goal: nat, dist: int, entries: seq<RouteNode>) returns (w: seq<Step>)
    requires RoutePlanning.QueryOk(q) && goal < |q.g.node| && RouteFinding.Describes(q, goal, dist, entries)
    requires dist != INT_MAX && Returnable(q.g, |q.g.node|) && q.g.node[q.start].ty == Fake
    ensures Reaches(q.g, q.p, q.start, goal, w) && WalkCost(q.g, q.p, q.start, w) == dist
    ensures RoutePlanning.IsShortest(q, goal, dist) && AllEntriesRight(q, w, goal, entries)
  {
    w := WalkShown(q, goal, dist, entries);
    FullRouteEntries(q, w, goal);
  }

  lemma WalkShown(q: RoutePlanning.Query, goal: nat, dist: int, entries: seq<RouteNode>) returns (w: seq<Step>)
    requires RoutePlanning.QueryOk(q) && goal < |q.g.node| && RouteFinding.Describes(q, goal, dist, entries)
    requires dist != INT_MAX
    ensures Reaches(q.g, q.p, q.start, goal, w) && WalkCost(q.g, q.p, q.start, w) == dist
    ensures RoutePlanning.IsShortest(q, goal, dist) && entries == FullRoute(q, w, goal)
  {
    w :| Reaches(q.g, q.p, q.start, goal, w) && WalkCost(q.g, q.p, q.start, w) == dist
      && entries == FullRoute(q, w, goal);
  }

  // ---- nothing is shorter ----

  /** What a step from x costs: the length of the leg; twice the way on when it turns round. */
  ghost function Length(q: RoutePlanning.Query, x: nat, s: Step): int
    requires RoutePlanning.QueryOk(q) && x < |q.g.node| && (s.Leg? ==> EdgeId(x, s.dir) < |q.g.edge|)
  {
    match s
    case Leg(dir) => q.g.edge[EdgeId(x, dir)].dist
    case Reverse => 2 * q.p.safe[x]
  }

  /** From x the steps w lead through the nodes xs, in total as far as total. */
  ghost predicate Drives(q: RoutePlanning.Query, xs: seq<nat>, w: seq<Step>, total: int)
    requires RoutePlanning.QueryOk(q)
    decreases |w|
  {
    && |xs| == |w| + 1 && (forall i :: 0 <= i < |xs| ==> xs[i] < |q.g.node|)
    && if |w| == 0 then total == 0
       else
         var last := |w| - 1;
         LeadsTo(q, xs[last], w[last], xs[last + 1])
         && Drives(q, xs[..last + 1], w[..last], total - Length(q, xs[last], w[last]))
  }

  lemma {:induction false} DriveIsWalk(q: RoutePlanning.Query, xs: seq<nat>, w: seq<Step>, total: int)
    requires RoutePlanning.QueryOk(q) && Drives(q, xs, w, total) && xs[0] == q.start
    ensures Reaches(q.g, q.p, q.start, xs[|w|], w) && WalkCost(q.g, q.p, q.start, w) == total
    decreases |w|
  {
    if |w| > 0 {
      var last := |w| - 1;
      DriveIsWalk(q, xs[..last + 1], w[..last], total - Length(q, xs[last], w[last]));
    }
  }

  /** No drive over edges the train may use, turning round only where that is safe, is shorter than the
      route findRoute answers, and where there is one it does answer a route. */
  lemma NothingShorter(g: Graph, owner: seq<int>, n: nat, from: Locating.Position, to: Locating.Position, step: int,
                       ask: RouteFinding.Asked, s1: RouteFinding.Spot, s2: RouteFinding.Spot,
                       q: RoutePlanning.Query, dist: int, entries: seq<RouteNode>,
                       xs: seq<nat>, w: seq<Step>, total: int)
    requires Plannable(g, n) && |owner| == |g.edge|
    requires RouteFinding.Answer(g, owner, n, from, to, step, ask, RouteFinding.Planned, s1, s2, q, dist, entries)
    requires RoutePlanning.QueryOk(q) && Drives(q, xs, w, total) && xs[0] == q.start && xs[|w|] == n + 2
    ensures dist <= total && dist != INT_MAX
  {
    PlannedQuestion(g, owner, n, from, to, step, ask, s1, s2, q, dist, entries);
    DriveIsWalk(q, xs, w, total);
  }
}
