/** findNextSensors: the sensor a train will hit next, and those it hits instead after one fault. */
module SensorPrediction {
  import opened TrackGraph
  import opened Landmarks
  import Cycles

  datatype Prediction = Prediction(sensor: Landmark, dist: int, conditionLandmark: Landmark, condition: int)

  const NO_CONDITION: int := -1

  predicate IsStop(g: Graph, x: nat)
    requires x < |g.node|
  {
    g.node[x].ty == Sensor || g.node[x].ty == Exit
  }

  /** rank witnesses that every cycle of the track has a sensor on it. */
  ghost predicate DescendsAt(g: Graph, n: nat, rank: seq<nat>, x: nat, dir: nat)
    requires Plannable(g, n) && x < n && |rank| >= n
  {
    HasLeg(g, x, dir) && !IsStop(g, x) ==>
      assert LegOk(g, n, x, dir);
      rank[g.edge[EdgeId(x, dir)].dest] < rank[x]
  }

  ghost predicate Descends(g: Graph, n: nat, rank: seq<nat>)
  {
    && Plannable(g, n) && |rank| >= n
    && forall x, dir {:trigger DescendsAt(g, n, rank, x, dir)} :: 0 <= x < n ==> DescendsAt(g, n, rank, x, dir)
  }

  /** On every directed cycle there is a sensor. */
  ghost predicate SensorOnEveryCycle(g: Graph, n: nat)
    requires Plannable(g, n)
  {
    forall es {:trigger Cycles.IsCycle(g, n, es)} :: Cycles.IsCycle(g, n, es) ==> HasSensor(g, es)
  }

  ghost predicate HasSensor(g: Graph, es: seq<nat>)
  {
    exists i :: 0 <= i < |es| && es[i] < |g.edge| && g.edge[es[i]].src < |g.node| && IsStop(g, g.edge[es[i]].src)
  }

  /** Then there is such a ranking. */
  lemma DescentExists(g: Graph, n: nat) returns (rank: seq<nat>)
    requires Plannable(g, n) && SensorOnEveryCycle(g, n)
    ensures Descends(g, n, rank)
  {
    var chosen := seq(|g.edge|, e requires 0 <= e < |g.edge| => g.edge[e].src < |g.node| && !IsStop(g, g.edge[e].src));
    forall es | Cycles.IsCycle(g, n, es)
      ensures !Cycles.AllChosen(chosen, es)
    {
      assert HasSensor(g, es);
    }
    rank := Cycles.RankFromCycles(g, n, chosen);
    forall x, dir | 0 <= x < n
      ensures DescendsAt(g, n, rank, x, dir)
    {
      assert Cycles.LeadsDown(g, n, chosen, rank, x, dir) && LegOk(g, n, x, dir);
    }
  }

  /** The numbers of all branches have an entry in switchStatus. */
  ghost predicate SwitchesFit(g: Graph, n: nat, switches: seq<int>)
    requires n <= |g.node|
  {
    forall x {:trigger g.node[x]} :: 0 <= x < n && g.node[x].ty == Branch ==> 0 <= g.node[x].num < |switches|
  }

  /** A track and the settings of its switches. */
  datatype Rails = Rails(g: Graph, n: nat, rank: seq<nat>, switches: seq<int>)

  ghost predicate RailsOk(r: Rails)
  {
    Descends(r.g, r.n, r.rank) && SwitchesFit(r.g, r.n, r.switches)
  }

  /** A real node of the track. */
  ghost predicate OnRails(r: Rails, x: nat)
  {
    x < r.n <= |r.g.node| && r.g.node[x].ty != NoNode
  }

  // ---- where a train goes ----

  /** The direction in which a train leaves node x; branch wrong (if any) stands the other way. */
  ghost function Way(r: Rails, wrong: int, x: nat): (dir: nat)
    requires RailsOk(r) && OnRails(r, x)
    ensures !IsStop(r.g, x) ==> HasLeg(r.g, x, dir)
  {
    if r.g.node[x].ty != Branch then DIR_AHEAD
    else if (r.switches[r.g.node[x].num] == SWITCH_CURVED) != (x == wrong) then DIR_CURVED
    else DIR_STRAIGHT
  }

  /** The node at the far end of a leg. */
  ghost function Beyond(r: Rails, x: nat, dir: nat): (y: nat)
    requires RailsOk(r) && x < r.n && HasLeg(r.g, x, dir)
    ensures OnRails(r, y) && r.g.edge[EdgeId(x, dir)].dest == y
    ensures !IsStop(r.g, x) ==> r.rank[y] < r.rank[x]
  {
    assert LegOk(r.g, r.n, x, dir) && DescendsAt(r.g, r.n, r.rank, x, dir);
    r.g.edge[EdgeId(x, dir)].dest
  }

  ghost function LegLength(r: Rails, x: nat, dir: nat): int
    requires EdgeId(x, dir) < |r.g.edge|
  {
    r.g.edge[EdgeId(x, dir)].dist
  }

  ghost function Next(r: Rails, wrong: int, x: nat): (y: nat)
    requires RailsOk(r) && OnRails(r, x) && !IsStop(r.g, x)
    ensures OnRails(r, y) && r.rank[y] < r.rank[x]
  {
    Beyond(r, x, Way(r, wrong, x))
  }

  ghost function NextLength(r: Rails, wrong: int, x: nat): int
    requires RailsOk(r) && OnRails(r, x) && !IsStop(r.g, x)
  {
    LegLength(r, x, Way(r, wrong, x))
  }

  /** The first sensor or exit a train at x comes to, how far it is, and the branches on the way
      there, last first. */
  ghost function StopOf(r: Rails, wrong: int, x: nat): (y: nat)
    requires RailsOk(r) && OnRails(r, x)
    ensures OnRails(r, y) && IsStop(r.g, y)
    decreases r.rank[x]
  {
    if IsStop(r.g, x) then x else StopOf(r, wrong, Next(r, wrong, x))
  }

  ghost function Far(r: Rails, wrong: int, x: nat): int
    requires RailsOk(r) && OnRails(r, x)
    decreases r.rank[x]
  {
    if IsStop(r.g, x) then 0 else NextLength(r, wrong, x) + Far(r, wrong, Next(r, wrong, x))
  }

  /** b is a branch and its rank is at most k. */
  ghost predicate BranchUpTo(r: Rails, b: nat, k: nat)
  {
    OnRails(r, b) && r.g.node[b].ty == Branch && b < |r.rank| && r.rank[b] <= k
  }

  ghost function BranchesOn(r: Rails, x: nat): (bs: seq<nat>)
    requires RailsOk(r) && OnRails(r, x)
    ensures forall i :: 0 <= i < |bs| ==> BranchUpTo(r, bs[i], r.rank[x])
    ensures forall i, j :: 0 <= i < j < |bs| ==> bs[i] != bs[j]
    decreases r.rank[x]
  {
    if IsStop(r.g, x) then []
    else
      var bs := BranchesOn(r, Next(r, NULL, x));
      if r.g.node[x].ty == Branch then bs + [x] else bs
  }

  // ---- the same, as a drive ----

  /** A drive: the nodes a train passes from its first node to the first sensor or exit. */
  ghost predicate IsDrive(r: Rails, wrong: int, w: seq<nat>)
    requires RailsOk(r)
  {
    && |w| > 0 && (forall i :: 0 <= i < |w| ==> OnRails(r, w[i]))
    && IsStop(r.g, w[|w| - 1])
    && forall i :: 0 <= i < |w| - 1 ==> !IsStop(r.g, w[i]) && w[i + 1] == Next(r, wrong, w[i])
  }

  ghost function DriveLength(r: Rails, wrong: int, w: seq<nat>): int
    requires RailsOk(r) && IsDrive(r, wrong, w)
  {
    if |w| == 1 then 0 else NextLength(r, wrong, w[0]) + DriveLength(r, wrong, w[1..])
  }

  /** Every drive from a node ends at the same place and is equally long. */
  lemma {:induction false} DriveEnds(r: Rails, wrong: int, w: seq<nat>)
    requires RailsOk(r) && IsDrive(r, wrong, w)
    ensures StopOf(r, wrong, w[0]) == w[|w| - 1] && Far(r, wrong, w[0]) == DriveLength(r, wrong, w)
  {
    if |w| > 1 {
      DriveEnds(r, wrong, w[1..]);
    }
  }

  /** The branches listed are those the drive passes. */
  lemma {:induction false} DriveBranches(r: Rails, w: seq<nat>)
    requires RailsOk(r) && IsDrive(r, NULL, w)
    ensures forall b :: b in BranchesOn(r, w[0]) <==> b in w && r.g.node[b].ty == Branch
  {
    if |w| > 1 {
      DriveBranches(r, w[1..]);
      assert w == [w[0]] + w[1..];
    }
  }

  /** There is such a drive from every node. */
  lemma {:induction false} DriveExists(r: Rails, wrong: int, x: nat) returns (w: seq<nat>)
    requires RailsOk(r) && OnRails(r, x)
    ensures IsDrive(r, wrong, w) && w[0] == x
    decreases r.rank[x]
  {
    if IsStop(r.g, x) {
      w := [x];
    } else {
      var v := DriveExists(r, wrong, Next(r, wrong, x));
      w := [x] + v;
    }
  }

  /** So on a track with a sensor on every cycle there is a drive from every node, however the switches
      stand and whichever of them stands wrong. */
  lemma DriveOnTrack(g: Graph, n: nat, switches: seq<int>, wrong: int, x: nat) returns (r: Rails, w: seq<nat>)
    requires Plannable(g, n) && SensorOnEveryCycle(g, n) && SwitchesFit(g, n, switches) && x < n
    requires g.node[x].ty != NoNode
    ensures r.g == g && r.n == n && r.switches == switches && RailsOk(r)
    ensures IsDrive(r, wrong, w) && w[0] == x
  {
    var rank := DescentExists(g, n);
    r := Rails(g, n, rank, switches);
    w := DriveExists(r, wrong, x);
  }

  /** A branch not on the way makes no difference to it. */
  lemma {:induction false} OffTheWay(r: Rails, b: nat, x: nat)
    requires RailsOk(r) && OnRails(r, x) && b !in BranchesOn(r, x)
    ensures StopOf(r, b, x) == StopOf(r, NULL, x) && Far(r, b, x) == Far(r, NULL, x)
    decreases r.rank[x]
  {
    if !IsStop(r.g, x) {
      if r.g.node[x].ty == Branch {
        assert BranchesOn(r, x)[|BranchesOn(r, x)| - 1] == x;
      }
      assert Next(r, b, x) == Next(r, NULL, x);
      OffTheWay(r, b, Next(r, NULL, x));
    }
  }

  // ---- the predictions ----

  /** What a train at x that has driven d reaches when branch b stands wrong. */
  ghost function SwitchFault(r: Rails, x: nat, d: int, b: nat): Prediction
    requires RailsOk(r) && OnRails(r, x) && OnRails(r, b)
  {
    Prediction(LandmarkOf(r.g.node[StopOf(r, b, x)]), d + Far(r, b, x), LandmarkOf(r.g.node[b]), SWITCH_CURVED)
  }

  /** The sensor at s does not fire: the train is seen at the stop after it. */
  ghost function SensorFault(r: Rails, s: nat, d: int): Prediction
    requires RailsOk(r) && OnRails(r, s) && r.g.node[s].ty == Sensor
  {
    var y := Beyond(r, s, DIR_AHEAD);
    Prediction(LandmarkOf(r.g.node[StopOf(r, NULL, y)]), d + LegLength(r, s, DIR_AHEAD) + Far(r, NULL, y),
               LandmarkOf(r.g.node[s]), NO_CONDITION)
  }

  ghost function SwitchFaults(r: Rails, x: nat, d: int, bs: seq<nat>): (ps: seq<Prediction>)
    requires RailsOk(r) && OnRails(r, x) && forall i :: 0 <= i < |bs| ==> OnRails(r, bs[i])
    ensures |ps| == |bs|
  {
    seq(|bs|, i requires 0 <= i < |bs| => SwitchFault(r, x, d, bs[i]))
  }

  ghost function MissedSensor(r: Rails, x: nat, d: int): (ps: seq<Prediction>)
    requires RailsOk(r) && OnRails(r, x)
  {
    var s := StopOf(r, NULL, x);
    if r.g.node[s].ty == Sensor then [SensorFault(r, s, d + Far(r, NULL, x))] else []
  }

  ghost predicate AllUpTo(r: Rails, bs: seq<nat>, k: nat)
  {
    forall i :: 0 <= i < |bs| ==> BranchUpTo(r, bs[i], k)
  }

  /** The secondary predictions for a train at x that has driven d: the missed sensor first, then one
      for each branch on the way, the last branch first. */
  ghost function Secondaries(r: Rails, x: nat, d: int): (ps: seq<Prediction>)
    requires RailsOk(r) && OnRails(r, x)
    ensures |ps| == |BranchesOn(r, x)| + if r.g.node[StopOf(r, NULL, x)].ty == Sensor then 1 else 0
  {
    MissedSensor(r, x, d) + SwitchFaults(r, x, d, BranchesOn(r, x))
  }

  /** The wrong way at x when x is itself a branch. */
  lemma FaultHere(r: Rails, x: nat, d: int)
    requires RailsOk(r) && OnRails(r, x) && r.g.node[x].ty == Branch
    ensures var y := Next(r, x, x);
            SwitchFault(r, x, d, x) == Prediction(LandmarkOf(r.g.node[StopOf(r, NULL, y)]),
                                                  d + NextLength(r, x, x) + Far(r, NULL, y),
                                                  LandmarkOf(r.g.node[x]), SWITCH_CURVED)
  {
    OffTheWay(r, x, Next(r, x, x));
  }

  /** A fault further on, seen from one node earlier. */
  lemma FaultFurtherOn(r: Rails, x: nat, d: int, b: nat)
    requires RailsOk(r) && OnRails(r, x) && !IsStop(r.g, x) && OnRails(r, b) && x != b
    ensures SwitchFault(r, x, d, b) == SwitchFault(r, Next(r, NULL, x), d + NextLength(r, NULL, x), b)
  {
    assert Way(r, b, x) == Way(r, NULL, x);
  }

  lemma ShiftFaults(r: Rails, x: nat, d: int, bs: seq<nat>)
    requires RailsOk(r) && OnRails(r, x) && !IsStop(r.g, x) && AllUpTo(r, bs, r.rank[Next(r, NULL, x)])
    ensures SwitchFaults(r, x, d, bs) == SwitchFaults(r, Next(r, NULL, x), d + NextLength(r, NULL, x), bs)
  {
    var y, e := Next(r, NULL, x), d + NextLength(r, NULL, x);
    forall i | 0 <= i < |bs|
      ensures SwitchFaults(r, x, d, bs)[i] == SwitchFaults(r, y, e, bs)[i]
    {
      FaultFurtherOn(r, x, d, bs[i]);
    }
  }

  lemma SecondariesAtStop(r: Rails, x: nat, d: int)
    requires RailsOk(r) && OnRails(r, x) && IsStop(r.g, x)
    ensures Secondaries(r, x, d) == if r.g.node[x].ty == Sensor then [SensorFault(r, x, d)] else []
  {
  }

  /** How the list grows when the recursion comes back to x. */
  lemma SecondariesStep(r: Rails, x: nat, d: int)
    requires RailsOk(r) && OnRails(r, x) && !IsStop(r.g, x)
    ensures Secondaries(r, x, d) == Secondaries(r, Next(r, NULL, x), d + NextLength(r, NULL, x))
                                    + if r.g.node[x].ty == Branch then [SwitchFault(r, x, d, x)] else []
  {
    var y, e := Next(r, NULL, x), d + NextLength(r, NULL, x);
    var bs := BranchesOn(r, y);
    ShiftFaults(r, x, d, bs);
    assert MissedSensor(r, x, d) == MissedSensor(r, y, e);
    if r.g.node[x].ty == Branch {
      assert SwitchFaults(r, x, d, bs + [x]) == SwitchFaults(r, x, d, bs) + [SwitchFault(r, x, d, x)];
    }
  }

  /** Whichever single branch stands wrong, the train is next seen where entry 0 says or where one of
      the secondary entries says, the one that names that branch. */
  lemma EveryFaultForeseen(r: Rails, x: nat, d: int, b: nat)
    requires RailsOk(r) && OnRails(r, x) && OnRails(r, b) && r.g.node[b].ty == Branch
    ensures if b in BranchesOn(r, x) then SwitchFault(r, x, d, b) in Secondaries(r, x, d)
            else StopOf(r, b, x) == StopOf(r, NULL, x) && Far(r, b, x) == Far(r, NULL, x)
  {
    var bs := BranchesOn(r, x);
    if b in bs {
      var i :| 0 <= i < |bs| && bs[i] == b;
      assert SwitchFaults(r, x, d, bs)[i] == SwitchFault(r, x, d, b);
    } else {
      OffTheWay(r, b, x);
    }
  }

  // ---- what the predictions mean on the track ----

  /** A train at x leaves over leg e: at a branch the curved one when its switch is set so, or, if it is the one
      that stands wrong, when it is not. */
  ghost predicate LeavesOver(g: Graph, switches: seq<int>, wrong: int, x: nat, e: nat)
    requires x < |g.node|
  {
    && IsLegOf(g, x, e) && e < |g.edge|
    && (g.node[x].ty == Branch ==>
          && 0 <= g.node[x].num < |switches|
          && (x != wrong ==> (e == EdgeId(x, DIR_CURVED) <==> switches[g.node[x].num] == SWITCH_CURVED))
          && (x == wrong ==> (e == EdgeId(x, DIR_CURVED) <==> switches[g.node[x].num] != SWITCH_CURVED)))
  }

  /** The legs es are those a train takes from x to y, past no sensor before y, over len in all. */
  ghost predicate Runs(g: Graph, switches: seq<int>, wrong: int, x: nat, es: seq<nat>, y: nat, len: int)
    decreases |es|
  {
    && x < |g.node|
    && if |es| == 0 then x == y && len == 0
       else
         && !IsStop(g, x) && LeavesOver(g, switches, wrong, x, es[0])
         && Runs(g, switches, wrong, g.edge[es[0]].dest, es[1..], y, len - g.edge[es[0]].dist)
  }

  /** A train at x comes to the sensor or exit y next, len further on. */
  ghost predicate NextStop(r: Rails, wrong: int, x: nat, y: nat, len: int)
  {
    y < |r.g.node| && IsStop(r.g, y) && exists es :: Runs(r.g, r.switches, wrong, x, es, y, len)
  }

  lemma {:induction false} StopIsNext(r: Rails, wrong: int, x: nat) returns (es: seq<nat>)
    requires RailsOk(r) && OnRails(r, x)
    ensures Runs(r.g, r.switches, wrong, x, es, StopOf(r, wrong, x), Far(r, wrong, x))
    decreases r.rank[x]
  {
    if IsStop(r.g, x) {
      es := [];
    } else {
      var y, e := Next(r, wrong, x), EdgeId(x, Way(r, wrong, x));
      var rest := StopIsNext(r, wrong, y);
      es := [e] + rest;
      assert es[1..] == rest;
    }
  }

  /** There is only one. */
  lemma {:induction false} OnlyOneNext(r: Rails, wrong: int, x: nat, es: seq<nat>, y: nat, len: int)
    requires RailsOk(r) && OnRails(r, x) && y < |r.g.node| && IsStop(r.g, y)
    requires Runs(r.g, r.switches, wrong, x, es, y, len)
    ensures y == StopOf(r, wrong, x) && len == Far(r, wrong, x)
    decreases |es|
  {
    if |es| > 0 {
      assert es[0] == EdgeId(x, Way(r, wrong, x));
      OnlyOneNext(r, wrong, Next(r, wrong, x), es[1..], y, len - r.g.edge[es[0]].dist);
    }
  }

  /** Where a train comes next is decided, and it is what the prediction is made of. */
  lemma NextStopIs(r: Rails, wrong: int, x: nat, y: nat, len: int)
    requires RailsOk(r) && OnRails(r, x)
    ensures NextStop(r, wrong, x, y, len) <==> y == StopOf(r, wrong, x) && len == Far(r, wrong, x)
  {
    var es := StopIsNext(r, wrong, x);
    if NextStop(r, wrong, x, y, len) {
      var es' :| Runs(r.g, r.switches, wrong, x, es', y, len);
      OnlyOneNext(r, wrong, x, es', y, len);
    }
  }

  /** The entry for a sensor that does not fire: where the train, past the sensor s it comes to first, is seen
      next, and how far that is from where it was. */
  ghost predicate MissedRight(r: Rails, x: nat, d: int, p: Prediction)
  {
    exists s: nat, len: int, y: nat, len': int :: MissedBy(r, x, d, p, s, len, y, len')
  }

  ghost predicate MissedBy(r: Rails, x: nat, d: int, p: Prediction, s: nat, len: int, y: nat, len': int)
  {
    && NextStop(r, NULL, x, s, len) && r.g.node[s].ty == Sensor && EdgeId(s, DIR_AHEAD) < |r.g.edge|
    && var leg := r.g.edge[EdgeId(s, DIR_AHEAD)];
    && NextStop(r, NULL, leg.dest, y, len')
    && p == Prediction(LandmarkOf(r.g.node[y]), d + len + leg.dist + len', LandmarkOf(r.g.node[s]), NO_CONDITION)
  }

  /** The entry for branch b: where the train is seen next when just that branch stands wrong. */
  ghost predicate SwitchRight(r: Rails, x: nat, d: int, p: Prediction, b: nat)
  {
    exists y: nat, len: int {:trigger NextStop(r, b, x, y, len)} ::
      && NextStop(r, b, x, y, len) && b < |r.g.node|
      && p == Prediction(LandmarkOf(r.g.node[y]), d + len, LandmarkOf(r.g.node[b]), SWITCH_CURVED)
  }

  lemma MissedIsRight(r: Rails, x: nat, d: int)
    requires RailsOk(r) && OnRails(r, x) && r.g.node[StopOf(r, NULL, x)].ty == Sensor
    ensures MissedRight(r, x, d, SensorFault(r, StopOf(r, NULL, x), d + Far(r, NULL, x)))
  {
    var s := StopOf(r, NULL, x);
    var y, p := Beyond(r, s, DIR_AHEAD), SensorFault(r, s, d + Far(r, NULL, x));
    NextStopIs(r, NULL, x, s, Far(r, NULL, x));
    NextStopIs(r, NULL, y, StopOf(r, NULL, y), Far(r, NULL, y));
    assert MissedBy(r, x, d, p, s, Far(r, NULL, x), StopOf(r, NULL, y), Far(r, NULL, y));
  }

  /** The entry for a missed sensor is there exactly when the train comes to a sensor before an exit. */
  lemma MissedSensorRight(r: Rails, x: nat, d: int)
    requires RailsOk(r) && OnRails(r, x)
    ensures |MissedSensor(r, x, d)| <= 1
    ensures |MissedSensor(r, x, d)| == 1 <==>
              exists s: nat, len: int :: NextStop(r, NULL, x, s, len) && r.g.node[s].ty == Sensor
    ensures |MissedSensor(r, x, d)| == 1 ==> MissedRight(r, x, d, MissedSensor(r, x, d)[0])
  {
    var s := StopOf(r, NULL, x);
    NextStopIs(r, NULL, x, s, Far(r, NULL, x));
    if r.g.node[s].ty == Sensor {
      MissedIsRight(r, x, d);
    } else {
      forall z: nat, len: int | NextStop(r, NULL, x, z, len)
        ensures z == s
      {
        NextStopIs(r, NULL, x, z, len);
      }
    }
  }

  lemma SwitchFaultsRight(r: Rails, x: nat, d: int, bs: seq<nat>, i: nat)
    requires RailsOk(r) && OnRails(r, x) && (forall j :: 0 <= j < |bs| ==> OnRails(r, bs[j])) && i < |bs|
    ensures SwitchRight(r, x, d, SwitchFaults(r, x, d, bs)[i], bs[i])
  {
    SwitchIsRight(r, x, d, bs[i]);
  }

  lemma SwitchIsRight(r: Rails, x: nat, d: int, b: nat)
    requires RailsOk(r) && OnRails(r, x) && OnRails(r, b)
    ensures SwitchRight(r, x, d, SwitchFault(r, x, d, b), b)
  {
    NextStopIs(r, b, x, StopOf(r, b, x), Far(r, b, x));
  }

  lemma InSum(a: seq<Prediction>, b: seq<Prediction>, i: nat)
    requires i < |a| + |b|
    ensures (a + b)[i] == if i < |a| then a[i] else b[i - |a|]
  {
  }

  /** The secondary entries, as Secondaries puts them together: the missed sensor first, if the train comes to
      one before an exit, then one for each branch it passes. */
  lemma SecondariesRight(r: Rails, x: nat, d: int, missed: seq<Prediction>, bs: seq<nat>, i: nat)
    requires RailsOk(r) && OnRails(r, x) && missed == MissedSensor(r, x, d) && i < |missed| + |bs|
    requires forall j :: 0 <= j < |bs| ==> OnRails(r, bs[j])
    ensures |missed| <= 1
    ensures |missed| == 1 <==> exists s: nat, len: int :: NextStop(r, NULL, x, s, len) && r.g.node[s].ty == Sensor
    ensures var p := (missed + SwitchFaults(r, x, d, bs))[i];
            if i < |missed| then MissedRight(r, x, d, p) else SwitchRight(r, x, d, p, bs[i - |missed|])
  {
    MissedSensorRight(r, x, d);
    InSum(missed, SwitchFaults(r, x, d, bs), i);
    if i >= |missed| {
      SwitchFaultsRight(r, x, d, bs, i - |missed|);
    }
  }

  /** The branches come in the order in which they are listed: the last one passed first. */
  lemma {:induction false} BranchesInOrder(r: Rails, w: seq<nat>, i: nat, j: nat) returns (p: nat, q: nat)
    requires RailsOk(r) && IsDrive(r, NULL, w) && i < j < |BranchesOn(r, w[0])|
    ensures p < q < |w| && w[p] == BranchesOn(r, w[0])[j] && w[q] == BranchesOn(r, w[0])[i]
  {
    var rest := w[1..];
    var bs := BranchesOn(r, rest[0]);
    if j < |bs| {
      p, q := BranchesInOrder(r, rest, i, j);
      p, q := p + 1, q + 1;
    } else {
      DriveBranches(r, rest);
      assert bs[i] in bs;
      p := 0;
      q :| 0 <= q < |rest| && rest[q] == bs[i];
      q := q + 1;
    }
  }
}
