/** findNextSensors in place: the recursion that fills the caller's predictions, and the splice around it. */
module SensorFinding {
  import opened TrackGraph
  import opened TrackState
  import opened Landmarks
  import opened SensorPrediction
  import opened SpliceInPlace
  import opened Splicing
  import Locating

  // ---- predictions on the track with the position spliced in ----

  /** The ranks after a splice: the old ones doubled, and the two new nodes just above what lies
      beyond them. */
  ghost function SplicedRank(r: Rails, e: nat): (rank: seq<nat>)
    requires RailsOk(r) && Spliceable(r.g, r.n, e)
    ensures |rank| == r.n + 2 && (forall x :: 0 <= x < r.n ==> rank[x] == 2 * r.rank[x])
  {
    LegIsEdge(r.g, r.n, e);
    seq(r.n, x requires 0 <= x < r.n => 2 * r.rank[x])
    + [2 * r.rank[r.g.edge[e].dest] + 1, 2 * r.rank[r.g.edge[r.g.edge[e].reverse].dest] + 1]
  }

  ghost function SplicedRails(r: Rails, e: nat, off: int): (r': Rails)
    requires RailsOk(r) && Spliceable(r.g, r.n, e) && r.n + 1 < |r.g.node| && 0 <= off <= r.g.edge[e].dist
    ensures RailsOk(r') && r'.g == Splice(r.g, e, r.n, off) && r'.n == r.n + 2 && r'.switches == r.switches
  {
    var r' := Rails(Splice(r.g, e, r.n, off), r.n + 2, SplicedRank(r, e), r.switches);
    SpliceShape(r.g, r.n, e, off);
    SplicePlannable(r.g, r.n, e, off);
    SplicedDescends(r, e, off, r');
    r'
  }

  lemma SplicedDescends(r: Rails, e: nat, off: int, r': Rails)
    requires RailsOk(r) && Spliceable(r.g, r.n, e) && r.n + 1 < |r.g.node| && Plannable(r'.g, r.n + 2)
    requires Changes(r.g, r'.g, r.n, e, off) && r'.n == r.n + 2 && r'.rank == SplicedRank(r, e)
    ensures Descends(r'.g, r'.n, r'.rank)
  {
    LegIsEdge(r.g, r.n, e);
    forall x, dir | 0 <= x < r'.n
      ensures DescendsAt(r'.g, r'.n, r'.rank, x, dir)
    {
      assert LegOk(r'.g, r'.n, x, dir);
      if x < r.n {
        assert LegOk(r.g, r.n, x, dir) && DescendsAt(r.g, r.n, r.rank, x, dir);
      }
    }
  }

  /** r2 is r with a position spliced into edge e. */
  ghost predicate IsSpliced(r: Rails, e: nat, off: int, r2: Rails)
  {
    && RailsOk(r) && RailsOk(r2) && r2.n == r.n + 2 && r2.switches == r.switches
    && e < |r.g.edge| && r.g.edge[e].src < r.n && Changes(r.g, r2.g, r.n, e, off)
    && r.g.edge[r.g.edge[e].reverse].dist == r.g.edge[e].dist
  }

  /** A train on an old node sees the same as before. */
  lemma {:induction false} SplicedDrive(r: Rails, e: nat, off: int, r2: Rails, wrong: int, x: nat)
    requires IsSpliced(r, e, off, r2) && wrong < r.n && x < r.n && OnRails(r, x)
    ensures OnRails(r2, x) && StopOf(r2, wrong, x) == StopOf(r, wrong, x) && Far(r2, wrong, x) == Far(r, wrong, x)
    ensures wrong == NULL ==> BranchesOn(r2, x) == BranchesOn(r, x)
    decreases r.rank[x]
  {
    if !IsStop(r.g, x) {
      var y := Next(r, wrong, x);
      SplicedDrive(r, e, off, r2, wrong, y);
      assert Way(r2, wrong, x) == Way(r, wrong, x);
      var z := Next(r2, wrong, x);
      if z >= r.n {
        assert Way(r2, wrong, z) == DIR_AHEAD;
        assert Next(r2, wrong, z) == y;
      }
    }
  }

  /** A train on a temporary node sees what lies beyond it. */
  lemma FakeDrive(r: Rails, e: nat, off: int, r2: Rails, wrong: int, x: nat)
    requires IsSpliced(r, e, off, r2) && wrong < r.n && r.n <= x < r.n + 2
    ensures OnRails(r2, x) && r2.g.node[x].ty == Fake
    ensures var y := r2.g.edge[EdgeId(x, DIR_AHEAD)].dest;
            && y < r.n && OnRails(r, y) && StopOf(r2, wrong, x) == StopOf(r, wrong, y)
            && Far(r2, wrong, x) == LegLength(r2, x, DIR_AHEAD) + Far(r, wrong, y)
            && (wrong == NULL ==> BranchesOn(r2, x) == BranchesOn(r, y))
  {
    assert LegOk(r2.g, r2.n, x, DIR_AHEAD);
    SplicedDrive(r, e, off, r2, wrong, r2.g.edge[EdgeId(x, DIR_AHEAD)].dest);
  }

  /** Two legs through a temporary node make up the leg that was there before. */
  lemma LegThroughFake(r: Rails, e: nat, off: int, r2: Rails, x: nat, dir: nat)
    requires IsSpliced(r, e, off, r2) && x < r.n && HasLeg(r.g, x, dir)
    ensures HasLeg(r2.g, x, dir)
    ensures var y, z := Beyond(r, x, dir), Beyond(r2, x, dir);
            if z < r.n then z == y && LegLength(r2, x, dir) == LegLength(r, x, dir)
            else r2.g.edge[EdgeId(z, DIR_AHEAD)].dest == y
                 && LegLength(r2, x, dir) + LegLength(r2, z, DIR_AHEAD) == LegLength(r, x, dir)
  {
    assert LegOk(r.g, r.n, x, dir);
  }

  /** The fault of a sensor that does not fire is the same with the position spliced in. */
  lemma SplicedSensorFault(r: Rails, e: nat, off: int, r2: Rails, s: nat, d: int)
    requires IsSpliced(r, e, off, r2) && s < r.n && OnRails(r, s) && r.g.node[s].ty == Sensor
    ensures OnRails(r2, s) && r2.g.node[s].ty == Sensor && SensorFault(r2, s, d) == SensorFault(r, s, d)
  {
    LegThroughFake(r, e, off, r2, s, DIR_AHEAD);
    var y, z := Beyond(r, s, DIR_AHEAD), Beyond(r2, s, DIR_AHEAD);
    if z < r.n {
      SplicedDrive(r, e, off, r2, NULL, y);
    } else {
      FakeDrive(r, e, off, r2, NULL, z);
    }
    assert r2.g.node[StopOf(r, NULL, y)] == r.g.node[StopOf(r, NULL, y)];
  }

  lemma SplicedSwitchFault(r: Rails, e: nat, off: int, r2: Rails, b: nat)
    requires IsSpliced(r, e, off, r2) && OnRails(r, b)
    ensures OnRails(r2, r.n) && OnRails(r, r.g.edge[e].dest) && OnRails(r2, b)
    ensures SwitchFault(r2, r.n, 0, b) == SwitchFault(r, r.g.edge[e].dest, r.g.edge[e].dist - off, b)
  {
    FakeDrive(r, e, off, r2, b, r.n);
  }

  lemma SplicedSwitchFaults(r: Rails, e: nat, off: int, r2: Rails, bs: seq<nat>)
    requires IsSpliced(r, e, off, r2) && OnRails(r2, r.n) && OnRails(r, r.g.edge[e].dest)
    requires forall i :: 0 <= i < |bs| ==> OnRails(r, bs[i])
    ensures forall i :: 0 <= i < |bs| ==> OnRails(r2, bs[i])
    ensures SwitchFaults(r2, r.n, 0, bs) == SwitchFaults(r, r.g.edge[e].dest, r.g.edge[e].dist - off, bs)
  {
    forall i | 0 <= i < |bs|
      ensures OnRails(r2, bs[i])
      ensures SwitchFault(r2, r.n, 0, bs[i]) == SwitchFault(r, r.g.edge[e].dest, r.g.edge[e].dist - off, bs[i])
    {
      SplicedSwitchFault(r, e, off, r2, bs[i]);
    }
    var there, here := SwitchFaults(r2, r.n, 0, bs), SwitchFaults(r, r.g.edge[e].dest, r.g.edge[e].dist - off, bs);
    assert forall i :: 0 <= i < |bs| ==> there[i] == here[i];
  }

  lemma SplicedMissedSensor(r: Rails, e: nat, off: int, r2: Rails)
    requires IsSpliced(r, e, off, r2)
    ensures OnRails(r2, r.n) && OnRails(r, r.g.edge[e].dest)
    ensures var y, rest := r.g.edge[e].dest, r.g.edge[e].dist - off;
            && StopOf(r2, NULL, r.n) == StopOf(r, NULL, y) && Far(r2, NULL, r.n) == rest + Far(r, NULL, y)
            && MissedSensor(r2, r.n, 0) == MissedSensor(r, y, rest)
  {
    var y, rest := r.g.edge[e].dest, r.g.edge[e].dist - off;
    FakeDrive(r, e, off, r2, NULL, r.n);
    var s := StopOf(r, NULL, y);
    if r.g.node[s].ty == Sensor {
      SplicedSensorFault(r, e, off, r2, s, rest + Far(r, NULL, y));
    }
  }

  /** What findNextSensors computes on the spliced track is what a train sees on the track itself
      that stands at the end of edge e and has the rest of that edge behind it. */
  lemma SplicedSecondaries(r: Rails, e: nat, off: int, r2: Rails)
    requires IsSpliced(r, e, off, r2)
    ensures OnRails(r2, r.n) && OnRails(r, r.g.edge[e].dest)
    ensures var y, rest := r.g.edge[e].dest, r.g.edge[e].dist - off;
            && StopOf(r2, NULL, r.n) == StopOf(r, NULL, y) && Far(r2, NULL, r.n) == rest + Far(r, NULL, y)
            && Secondaries(r2, r.n, 0) == Secondaries(r, y, rest)
  {
    SplicedMissedSensor(r, e, off, r2);
    FakeDrive(r, e, off, r2, NULL, r.n);
    SplicedSwitchFaults(r, e, off, r2, BranchesOn(r, r.g.edge[e].dest));
  }

  // ---- the recursion ----

  ghost function Entries(predictions: array<Prediction>): seq<Prediction>
    reads predictions
  {
    predictions[..]
  }

  /** What a call before any fault at node x, d from the position, finds. */
  datatype Found = Found(sensor: Landmark, dist: int, secondaries: seq<Prediction>)

  ghost function Finds(r: Rails, x: nat, d: int): Found
    requires RailsOk(r) && OnRails(r, x)
  {
    Found(LandmarkOf(r.g.node[StopOf(r, NULL, x)]), d + Far(r, NULL, x), Secondaries(r, x, d))
  }

  lemma FindsAtStop(r: Rails, x: nat, d: int)
    requires RailsOk(r) && OnRails(r, x) && IsStop(r.g, x)
    ensures Finds(r, x, d)
            == Found(LandmarkOf(r.g.node[x]), d, if r.g.node[x].ty == Sensor then [SensorFault(r, x, d)] else [])
  {
    SecondariesAtStop(r, x, d);
  }

  lemma StopStep(r: Rails, x: nat, d: int, y: nat, e: int)
    requires RailsOk(r) && OnRails(r, x) && !IsStop(r.g, x)
    requires y == Next(r, NULL, x) && e == d + NextLength(r, NULL, x)
    ensures OnRails(r, y) && StopOf(r, NULL, x) == StopOf(r, NULL, y) && d + Far(r, NULL, x) == e + Far(r, NULL, y)
  {
  }

  lemma SameStop(r: Rails, x: nat, d: int, y: nat, e: int, f: Found, f': Found)
    requires RailsOk(r) && OnRails(r, x) && !IsStop(r.g, x) && OnRails(r, y) && f == Finds(r, x, d)
    requires f' == Finds(r, y, e)
    requires y == Next(r, NULL, x) && e == d + NextLength(r, NULL, x)
    ensures f.sensor == f'.sensor && f.dist == f'.dist
  {
    StopStep(r, x, d, y, e);
  }

  lemma MoreSecondaries(r: Rails, x: nat, d: int, ps: seq<Prediction>, ps': seq<Prediction>, p: Prediction)
    requires RailsOk(r) && OnRails(r, x) && !IsStop(r.g, x) && ps == Secondaries(r, x, d)
    requires ps' == Secondaries(r, Next(r, NULL, x), d + NextLength(r, NULL, x)) && p == SwitchFault(r, x, d, x)
    ensures ps == ps' + if r.g.node[x].ty == Branch then [p] else []
  {
    SecondariesStep(r, x, d);
  }

  lemma FindsNext(r: Rails, x: nat, d: int, y: nat, e: int)
    requires RailsOk(r) && OnRails(r, x) && !IsStop(r.g, x)
    requires y == Next(r, NULL, x) && e == d + NextLength(r, NULL, x)
    ensures OnRails(r, y) && r.rank[y] < r.rank[x]
    ensures var f := Finds(r, y, e);
            Finds(r, x, d) == if r.g.node[x].ty == Branch then More(f, SwitchFault(r, x, d, x)) else f
  {
    var f, f', p := Finds(r, x, d), Finds(r, y, e), SwitchFault(r, x, d, x);
    SameStop(r, x, d, y, e, f, f');
    MoreSecondaries(r, x, d, f.secondaries, f'.secondaries, p);
    JoinFound(f, f', if r.g.node[x].ty == Branch then [p] else []);
  }

  /** The same stop, and the same list but for ps at its end. */
  lemma JoinFound(f: Found, f': Found, ps: seq<Prediction>)
    requires f.sensor == f'.sensor && f.dist == f'.dist && f.secondaries == f'.secondaries + ps && |ps| <= 1
    ensures f == if ps == [] then f' else More(f', ps[0])
  {
  }

  function More(f: Found, p: Prediction): Found
  {
    f.(secondaries := f.secondaries + [p])
  }

  /** Entry 0 gets the sensor and the distance (its condition is not written), the secondary
      predictions are written from place 1 + k on. */
  ghost function Filled(before: seq<Prediction>, k: nat, f: Found): (after: seq<Prediction>)
    requires k + |f.secondaries| < |before|
    ensures |after| == |before|
  {
    seq(|before|, i requires 0 <= i < |before| =>
      if i == 0 then before[0].(sensor := f.sensor, dist := f.dist)
      else if k < i <= k + |f.secondaries| then f.secondaries[i - 1 - k] else before[i])
  }

  lemma FilledMore(before: seq<Prediction>, k: nat, f: Found, p: Prediction)
    requires k + |f.secondaries| + 1 < |before|
    ensures Filled(before, k, f)[1 + k + |f.secondaries| := p] == Filled(before, k, More(f, p))
  {
  }

  lemma FilledNone(before: seq<Prediction>, k: nat, sensor: Landmark, dist: int)
    requires k < |before|
    ensures Filled(before, k, Found(sensor, dist, [])) == before[0 := before[0].(sensor := sensor, dist := dist)]
  {
  }

  /** The caller's array has room for the predictions from x. */
  ghost predicate RoomAt(r: Rails, x: nat, room: nat)
    requires RailsOk(r)
  {
    OnRails(r, x) ==> |BranchesOn(r, x)| + 1 < room
  }

  ghost predicate RoomForAll(r: Rails, room: nat)
    requires RailsOk(r)
  {
    forall x {:trigger RoomAt(r, x, room)} :: 0 <= x < r.n ==> RoomAt(r, x, room)
  }

  /** The same, whatever the ranking; what RoomForAll says does not depend on it. */
  ghost predicate RoomOnTrack(g: Graph, n: nat, switches: seq<int>, room: nat)
  {
    forall rank {:trigger Rails(g, n, rank, switches)} ::
      RailsOk(Rails(g, n, rank, switches)) ==> RoomForAll(Rails(g, n, rank, switches), room)
  }

  /** The position lies off along edge e, and the predictions are those for a train with the rest of e
      before it. */
  ghost predicate Predicted(r: Rails, pos: Locating.Position, before: seq<Prediction>, count: int,
                            after: seq<Prediction>, e: nat, off: int, a: nat, b: nat, run: seq<nat>)
    requires RailsOk(r)
  {
    && Locating.Located(r.g, r.n, r.n, pos, e, off, a, b, run) && OnRails(r, r.g.edge[e].dest)
    && var y, rest := r.g.edge[e].dest, r.g.edge[e].dist - off;
    && count == 1 + |Secondaries(r, y, rest)| <= |before|
    && after == Filled(before, 0, Finds(r, y, rest))
  }

  /** The rails after splicing an edge found by locateNode. */
  lemma FoundRails(r: Rails, e: nat, off: int) returns (r2: Rails)
    requires RailsOk(r) && WellFormed(r.g, r.n) && r.n + 1 < |r.g.node| && IsEdge(r.g, r.n, e)
    requires 0 <= off <= r.g.edge[e].dist
    ensures Spliceable(r.g, r.n, e) && r2.g == Splice(r.g, e, r.n, off) && IsSpliced(r, e, off, r2)
    ensures OnRails(r2, r.n)
  {
    EdgeSpliceable(r.g, r.n, e);
    r2 := SplicedRails(r, e, off);
    SpliceShape(r.g, r.n, e, off);
    LegIsEdge(r.g, r.n, e);
  }

  /** What they predict. */
  lemma FoundPredictions(r: Rails, e: nat, off: int, r2: Rails, room: nat)
    requires IsSpliced(r, e, off, r2) && RoomForAll(r, room)
    ensures OnRails(r2, r.n) && OnRails(r, r.g.edge[e].dest)
    ensures var f := Finds(r, r.g.edge[e].dest, r.g.edge[e].dist - off);
            Finds(r2, r.n, 0) == f && |f.secondaries| < room
  {
    SplicedSecondaries(r, e, off, r2);
    var y := r.g.edge[e].dest;
    assert RoomAt(r, y, room);
    assert r2.g.node[StopOf(r, NULL, y)] == r.g.node[StopOf(r, NULL, y)];
  }

  class SensorFinder {
    const track: Track
    const switchStatus: array<int>
    var secondaryPredictionCount: nat

    constructor (track: Track, switchStatus: array<int>)
      ensures this.track == track && this.switchStatus == switchStatus && secondaryPredictionCount == 0
    {
      this.track := track;
      this.switchStatus := switchStatus;
      secondaryPredictionCount := 0;
    }

    /** r describes this server's track and switches. */
    ghost predicate Sees(r: Rails)
      reads track.nodes, track.edges, switchStatus
    {
      track.Valid() && RailsOk(r) && r.g == track.G() && r.switches == switchStatus[..]
    }

    /** The leg along which a train leaves x, and the other one. */
    method Legs(x: nat, ghost r: Rails) returns (along: Edge, other: Edge)
      requires Sees(r) && OnRails(r, x) && !IsStop(r.g, x)
      ensures along.dest == Next(r, NULL, x) && along.dist == NextLength(r, NULL, x)
      ensures other.dest == Next(r, x, x) && other.dist == NextLength(r, x, x)
    {
      var dir, back := DIR_AHEAD, DIR_AHEAD;
      if track.nodes[x].ty == Branch {
        if switchStatus[track.nodes[x].num] == SWITCH_CURVED {
          dir, back := DIR_CURVED, DIR_STRAIGHT;
        } else {
          dir, back := DIR_STRAIGHT, DIR_CURVED;
        }
      }
      along, other := track.edges[EdgeId(x, dir)], track.edges[EdgeId(x, back)];
    }

    /** findNextSensorsHelper after a fault: one prediction is appended. */
    method AfterFault(x: nat, predictions: array<Prediction>, distance: int, errorLandmark: Landmark,
                      errorCondition: int, ghost r: Rails, ghost before: seq<Prediction>, ghost k: nat)
      requires Sees(r) && OnRails(r, x) && k + 1 < |before|
      requires Entries(predictions) == before && secondaryPredictionCount == k
      modifies this`secondaryPredictionCount, predictions
      ensures secondaryPredictionCount == k + 1
      ensures Entries(predictions) == before[1 + k := Prediction(LandmarkOf(r.g.node[StopOf(r, NULL, x)]),
                                                                 distance + Far(r, NULL, x),
                                                                 errorLandmark, errorCondition)]
      decreases r.rank[x]
    {
      var v := track.nodes[x];
      if v.ty == Sensor || v.ty == Exit {
        predictions[1 + secondaryPredictionCount] := Prediction(LandmarkOf(v), distance, errorLandmark, errorCondition);
        secondaryPredictionCount := secondaryPredictionCount + 1;
      } else {
        var edge, _ := Legs(x, r);
        AfterFault(edge.dest, predictions, distance + edge.dist, errorLandmark, errorCondition, r, before, k);
      }
    }

    /** The first sensor is reached and does not fire. */
    method PastSensor(x: nat, predictions: array<Prediction>, distance: int, ghost r: Rails,
                      ghost before: seq<Prediction>, ghost k: nat)
      requires Sees(r) && OnRails(r, x) && r.g.node[x].ty == Sensor && k + 1 < |before|
      requires Entries(predictions) == before && secondaryPredictionCount == k
      modifies this`secondaryPredictionCount, predictions
      ensures secondaryPredictionCount == k + 1
      ensures Entries(predictions) == before[1 + k := SensorFault(r, x, distance)]
    {
      var edge := track.edges[EdgeId(x, DIR_AHEAD)];
      assert edge.dest == Beyond(r, x, DIR_AHEAD);
      AfterFault(edge.dest, predictions, distance + edge.dist, LandmarkOf(track.nodes[x]), NO_CONDITION, r, before, k);
    }

    /** findNextSensorsHelper at the first sensor or exit. */
    method AtFirstStop(x: nat, predictions: array<Prediction>, distance: int, ghost r: Rails,
                       ghost before: seq<Prediction>, ghost k: nat)
      returns (ghost f: Found)
      requires Sees(r) && OnRails(r, x) && IsStop(r.g, x) && k + |Finds(r, x, distance).secondaries| < |before|
      requires Entries(predictions) == before && secondaryPredictionCount == k
      modifies this`secondaryPredictionCount, predictions
      ensures f == Finds(r, x, distance) && k + |f.secondaries| < |before|
      ensures secondaryPredictionCount == k + |f.secondaries| && Entries(predictions) == Filled(before, k, f)
    {
      var v := track.nodes[x];
      FindsAtStop(r, x, distance);
      f := Found(LandmarkOf(v), distance, []);
      FilledNone(before, k, LandmarkOf(v), distance);
      predictions[0] := predictions[0].(sensor := LandmarkOf(v), dist := distance);
      assert Entries(predictions) == Filled(before, k, f);
      if v.ty == Sensor {
        PastSensor(x, predictions, distance, r, Filled(before, k, f), k);
        FilledMore(before, k, f, SensorFault(r, x, distance));
        f := More(f, SensorFault(r, x, distance));
      }
    }

    /** A branch comes back from the leg it stands on: the other leg. */
    method OtherLeg(x: nat, predictions: array<Prediction>, distance: int, edge: Edge, ghost r: Rails,
                    ghost before: seq<Prediction>, ghost k: nat)
      requires Sees(r) && OnRails(r, x) && r.g.node[x].ty == Branch && k + 1 < |before|
      requires edge.dest == Next(r, x, x) && edge.dist == NextLength(r, x, x)
      requires Entries(predictions) == before && secondaryPredictionCount == k
      modifies this`secondaryPredictionCount, predictions
      ensures secondaryPredictionCount == k + 1
      ensures Entries(predictions) == before[1 + k := SwitchFault(r, x, distance, x)]
    {
      FaultHere(r, x, distance);
      AfterFault(edge.dest, predictions, distance + edge.dist, LandmarkOf(track.nodes[x]), SWITCH_CURVED, r, before, k);
    }

    /** The recursion comes back to node x: at a branch the prediction for its other leg is appended. */
    method OnTheWayBack(x: nat, predictions: array<Prediction>, distance: int, other: Edge, ghost r: Rails,
                        ghost before: seq<Prediction>, ghost k: nat, ghost f: Found)
      returns (ghost f': Found)
      requires Sees(r) && OnRails(r, x) && !IsStop(r.g, x) && k + |f.secondaries| < |before|
      requires r.g.node[x].ty == Branch ==>
                 k + |f.secondaries| + 1 < |before| && other.dest == Next(r, x, x) && other.dist == NextLength(r, x, x)
      requires Entries(predictions) == Filled(before, k, f) && secondaryPredictionCount == k + |f.secondaries|
      modifies this`secondaryPredictionCount, predictions
      ensures f' == if r.g.node[x].ty == Branch then More(f, SwitchFault(r, x, distance, x)) else f
      ensures k + |f'.secondaries| < |before|
      ensures secondaryPredictionCount == k + |f'.secondaries| && Entries(predictions) == Filled(before, k, f')
    {
      f' := f;
      if track.nodes[x].ty == Branch {
        OtherLeg(x, predictions, distance, other, r, Filled(before, k, f), k + |f.secondaries|);
        FilledMore(before, k, f, SwitchFault(r, x, distance, x));
        f' := More(f, SwitchFault(r, x, distance, x));
      }
    }

    /** findNextSensorsHelper before any fault: entry 0 is written, and the secondary predictions are
        appended. */
    method BeforeFault(x: nat, predictions: array<Prediction>, distance: int, ghost r: Rails,
                       ghost before: seq<Prediction>, ghost k: nat)
      returns (ghost f: Found)
      requires Sees(r) && OnRails(r, x) && k + |Finds(r, x, distance).secondaries| < |before|
      requires Entries(predictions) == before && secondaryPredictionCount == k
      modifies this`secondaryPredictionCount, predictions
      ensures f == Finds(r, x, distance) && k + |f.secondaries| < |before|
      ensures secondaryPredictionCount == k + |f.secondaries| && Entries(predictions) == Filled(before, k, f)
      decreases r.rank[x]
    {
      var v := track.nodes[x];
      if v.ty == Sensor || v.ty == Exit {
        f := AtFirstStop(x, predictions, distance, r, before, k);
      } else {
        var edge, other := Legs(x, r);
        FindsNext(r, x, distance, edge.dest, distance + edge.dist);
        f := BeforeFault(edge.dest, predictions, distance + edge.dist, r, before, k);
        f := OnTheWayBack(x, predictions, distance, other, r, before, k, f);
      }
    }

    /** The part of findNextSensors that runs once the position has been found. */
    method FromPosition(fromEdge: nat, offset: int, predictions: array<Prediction>, n: nat, ghost r: Rails,
                        ghost r2: Rails, ghost owner: seq<int>, ghost before: seq<Prediction>)
      requires Sees(r) && r.n == n && track.Owners() == owner && |owner| == |r.g.edge| && track.owner != switchStatus
      requires Spliceable(r.g, n, fromEdge) && n + 1 < |r.g.node| && r2.g == Splice(r.g, fromEdge, n, offset)
      requires IsSpliced(r, fromEdge, offset, r2) && OnRails(r2, n) && |Finds(r2, n, 0).secondaries| < |before|
      requires Entries(predictions) == before
      modifies this`secondaryPredictionCount, predictions, track.nodes, track.edges, track.owner
      ensures Agree(track.G(), r.g, n) && SameOwners(track.Owners(), owner, n)
      ensures secondaryPredictionCount == |Finds(r2, n, 0).secondaries|
      ensures Entries(predictions) == Filled(before, 0, Finds(r2, n, 0))
    {
      var src, back := SpliceIn(track, fromEdge, n, offset, r.g, owner);
      ghost var owner2 := track.Owners();
      AgreeSelf(r2.g, n);
      secondaryPredictionCount := 0;
      ghost var f := BeforeFault(n, predictions, 0, r2, before, 0);
      ghost var after := Entries(predictions);
      TakeOut(track, src, back, n, r.g, owner, r2.g, owner2);
      assert Entries(predictions) == after;
    }

    /** findNextSensors, the position found. */
    method Predict(pos: Locating.Position, predictions: array<Prediction>, n: nat, e: nat, off: int, ghost a: nat,
                   ghost b: nat,
                   ghost run: seq<nat>, ghost r: Rails, ghost owner: seq<int>, ghost before: seq<Prediction>)
      returns (count: int)
      requires Sees(r) && r.n == n && WellFormed(r.g, n) && n + 1 < |r.g.node| && track.Owners() == owner
      requires Locating.Located(r.g, n, n, pos, e, off, a, b, run)
      requires Entries(predictions) == before && RoomForAll(r, |before|) && track.owner != switchStatus
      modifies this`secondaryPredictionCount, predictions, track.nodes, track.edges, track.owner
      ensures Agree(track.G(), r.g, n) && SameOwners(track.Owners(), owner, n)
      ensures count > 0 && Predicted(r, pos, before, count, Entries(predictions), e, off, a, b, run)
    {
      ghost var r2 := FoundRails(r, e, off);
      FoundPredictions(r, e, off, r2, |before|);
      FromPosition(e, off, predictions, n, r, r2, owner, before);
      count := 1 + secondaryPredictionCount;
    }

    /** findNextSensors, on a track with a sensor on every cycle. A count of -1 says that the position is not
        on the track; otherwise the predictions are those for a train with the rest of edge e before it. The
        track ends up as it was. */
    method FindNextSensors(pos: Locating.Position, predictions: array<Prediction>, n: nat, ghost g: Graph,
                           ghost owner: seq<int>, ghost before: seq<Prediction>)
      returns (count: int, ghost r: Rails, ghost e: nat, ghost off: int, ghost a: nat, ghost b: nat,
               ghost run: seq<nat>)
      requires track.Valid() && track.G() == g && WellFormed(g, n) && n + 1 < |g.node| && track.Owners() == owner
      requires SensorOnEveryCycle(g, n) && SwitchesFit(g, n, switchStatus[..]) && Locating.Askable(g.node, n, pos)
      requires Entries(predictions) == before && RoomOnTrack(g, n, switchStatus[..], |before|)
      requires track.owner != switchStatus
      modifies this`secondaryPredictionCount, predictions, track.nodes, track.edges, track.owner
      ensures Agree(track.G(), g, n) && SameOwners(track.Owners(), owner, n)
      ensures RailsOk(r) && r.g == g && r.n == n && r.switches == old(switchStatus[..])
      ensures count == -1 ==> Locating.Unlocatable(g, n, n, pos) && Entries(predictions) == before
      ensures count != -1 ==> Predicted(r, pos, before, count, Entries(predictions), e, off, a, b, run)
    {
      ghost var rank := DescentExists(g, n);
      r := Rails(g, n, rank, switchStatus[..]);
      assert RoomForAll(r, |before|);
      var fromEdge, offset, x, y, es := Locating.LocateNode(track, n, pos, n);
      if fromEdge == NULL {
        AgreeSelf(g, n);
        return -1, r, 0, 0, 0, 0, [];
      }
      e, off, a, b, run := fromEdge, offset, x, y, es;
      count := Predict(pos, predictions, n, fromEdge, offset, x, y, es, r, owner, before);
    }
  }
}
