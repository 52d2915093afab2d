/** updateStopNode: where along its route a train must begin to stop (kernel/train/DriverHelper.c). */
module StopPlanning {
  import opened Landmarks
  import opened RouteRebuild

  /** Length of the legs from node i to node k. */
  ghost function Stretch(nodes: seq<RouteNode>, i: nat, k: nat): int
    requires i <= k <= |nodes|
    decreases k - i
  {
    if i == k then 0 else nodes[i].dist + Stretch(nodes, i + 1, k)
  }

  lemma {:induction false} StretchSum(nodes: seq<RouteNode>, i: nat, j: nat, k: nat)
    requires i <= j <= k <= |nodes|
    ensures Stretch(nodes, i, k) == Stretch(nodes, i, j) + Stretch(nodes, j, k)
    decreases j - i
  {
    if i < j {
      StretchSum(nodes, i + 1, j, k);
    }
  }

  predicate IsSensor(v: RouteNode)
  {
    v.landmark.ty == SensorMark
  }

  /** k is the first place from prev on where the train reverses, or the last node of the route. */
  ghost predicate IsStopNode(nodes: seq<RouteNode>, prev: nat, k: int)
  {
    var last := |nodes| - 1;
    && ((prev <= k < last && nodes[k].num == REVERSE) || k == last)
    && forall i :: prev <= i < last && i < k ==> nodes[i].num != REVERSE
  }

  /** i is the last node from which the stretch to the stop node is long enough for the stopping distance. */
  ghost predicate FarEnough(nodes: seq<RouteNode>, prev: nat, k: int, stop: int, i: nat)
  {
    prev <= i < k < |nodes| && Stretch(nodes, i, k) >= stop && forall m :: i < m < k ==> Stretch(nodes, m, k) < stop
  }

  /** No node from prev on is far enough. */
  ghost predicate TooShort(nodes: seq<RouteNode>, prev: nat, k: int, stop: int)
  {
    k < |nodes| && forall m :: prev <= m < k ==> Stretch(nodes, m, k) < stop
  }

  /** j is the last sensor from prev to i. */
  ghost predicate LastSensor(nodes: seq<RouteNode>, prev: nat, i: nat, j: nat)
    requires i < |nodes|
  {
    prev <= j <= i && IsSensor(nodes[j]) && forall m :: j < m <= i ==> !IsSensor(nodes[m])
  }

  ghost predicate NoSensor(nodes: seq<RouteNode>, prev: nat, i: nat)
    requires i < |nodes|
  {
    forall m :: prev <= m <= i ==> !IsSensor(nodes[m])
  }

  /** When legs have no negative length, only the whole stretch counts. */
  lemma TooShortMeans(nodes: seq<RouteNode>, prev: nat, k: nat, stop: int)
    requires prev < k < |nodes| && forall i :: 0 <= i < |nodes| ==> nodes[i].dist >= 0
    ensures TooShort(nodes, prev, k, stop) <==> Stretch(nodes, prev, k) < stop
  {
    forall m | prev <= m < k
      ensures Stretch(nodes, m, k) <= Stretch(nodes, prev, k)
    {
      StretchSum(nodes, prev, m, k);
      NotNegative(nodes, prev, m);
    }
  }

  lemma {:induction false} NotNegative(nodes: seq<RouteNode>, i: nat, k: nat)
    requires i <= k <= |nodes| && forall i :: 0 <= i < |nodes| ==> nodes[i].dist >= 0
    ensures Stretch(nodes, i, k) >= 0
    decreases k - i
  {
    if i < k {
      NotNegative(nodes, i + 1, k);
    }
  }

  /** What is written when the place to stop for is found: from which sensor on, and how far behind it,
      the train must begin to stop. Without a sensor the code also adds the leg before the stretch. */
  datatype StopPoint = StopPoint(box: int, val: int, useLastSensor: bool, distance: int)

  ghost predicate IsStopPoint(nodes: seq<RouteNode>, prev: nat, k: nat, stop: int, i: nat, before: int,
                              sinceLastSensor: int, p: StopPoint)
    requires prev <= i < k < |nodes|
  {
    && (forall j {:trigger LastSensor(nodes, prev, i, j)} :: 0 <= j < |nodes| && LastSensor(nodes, prev, i, j) ==>
          p == StopPoint(nodes[j].landmark.num1, nodes[j].landmark.num2, false, Stretch(nodes, j, k) - stop))
    && (NoSensor(nodes, prev, i) ==>
          p == StopPoint(-1, -1, true,
                         (if prev == 0 then before else nodes[prev - 1].dist)
                         + Stretch(nodes, prev, k) - stop + sinceLastSensor))
  }

  class Driver {
    var nodes: seq<RouteNode>
    var previousStopNode: nat
    var stopNode: int
    var stopSensorBox: int
    var stopSensorVal: int
    var useLastSensorNow: bool
    var stopNow: bool
    var speedAfterReverse: int
    var distancePassStopSensorToStop: int
    var distanceFromLastSensorAtPreviousStopNode: int
    var currentStoppingDistance: nat

    /** The distance to stop in; nothing is taken for 1. */
    function Stop(): (s: int)
      reads `currentStoppingDistance
      ensures s > 0
    {
      if currentStoppingDistance == 0 then 1 else currentStoppingDistance
    }

    /** The first loop: stop at the first reversal, if there is one before the end. */
    method FindStopNode()
      modifies `stopNode
      ensures IsStopNode(nodes, previousStopNode, stopNode)
    {
      stopNode := |nodes| - 1;
      var i := previousStopNode;
      while i < |nodes| - 1
        invariant i >= previousStopNode && stopNode == |nodes| - 1
        invariant forall m :: previousStopNode <= m < |nodes| - 1 && m < i ==> nodes[m].num != REVERSE
      {
        if nodes[i].num == REVERSE {
          stopNode := i;
          return;
        }
        i := i + 1;
      }
    }

    /** The inner loop: back from node i to the last sensor, adding up the legs passed on the way.
        before is what the code reads in front of the route's first node. */
    method FindSensor(i: nat, excess: int, before: int, ghost stop: int) returns (p: StopPoint)
      requires previousStopNode <= i < stopNode < |nodes| && excess == Stretch(nodes, i, stopNode) - stop
      ensures IsStopPoint(nodes, previousStopNode, stopNode, stop, i, before, distanceFromLastSensorAtPreviousStopNode,
                          p)
    {
      var previousStop, j := excess, i as int;
      while j >= previousStopNode
        invariant previousStopNode - 1 <= j <= i && forall m :: j < m <= i ==> !IsSensor(nodes[m])
        invariant j >= previousStopNode ==> previousStop == Stretch(nodes, j, stopNode) - stop
        invariant j < previousStopNode ==>
                    previousStop == (if previousStopNode == 0 then before else nodes[previousStopNode - 1].dist)
                                    + Stretch(nodes, previousStopNode, stopNode) - stop
        decreases j
      {
        if IsSensor(nodes[j]) {
          return StopPoint(nodes[j].landmark.num1, nodes[j].landmark.num2, false, previousStop);
        }
        previousStop := previousStop + if j == 0 then before else nodes[j - 1].dist;
        j := j - 1;
      }
      p := StopPoint(-1, -1, true, previousStop + distanceFromLastSensorAtPreviousStopNode);
    }

    /** Writing the stop point. */
    method SetStopPoint(p: StopPoint)
      modifies `stopSensorBox, `stopSensorVal, `useLastSensorNow, `distancePassStopSensorToStop
      ensures stopSensorBox == p.box && stopSensorVal == p.val && distancePassStopSensorToStop == p.distance
      ensures useLastSensorNow == (old(useLastSensorNow) || p.useLastSensor)
    {
      stopSensorBox, stopSensorVal, distancePassStopSensorToStop := p.box, p.val, p.distance;
      if p.useLastSensor {
        useLastSensorNow := true;
      }
    }

    /** updateStopNode. Either node i is the last one far enough before the stop node, and p the stop
        point for it; or the stretch is too short, and the train must stop now. */
    method UpdateStopNode(before: int) returns (ghost found: bool, ghost i: nat, ghost p: StopPoint)
      modifies `stopNode, `stopSensorBox, `stopSensorVal, `useLastSensorNow, `stopNow, `speedAfterReverse,
               `distancePassStopSensorToStop
      ensures IsStopNode(nodes, previousStopNode, stopNode)
      ensures found ==> FarEnough(nodes, previousStopNode, stopNode, Stop(), i) && stopNow == old(stopNow)
      ensures found ==> IsStopPoint(nodes, previousStopNode, stopNode, Stop(), i, before,
                                    distanceFromLastSensorAtPreviousStopNode, p)
      ensures found ==> stopSensorBox == p.box && stopSensorVal == p.val && distancePassStopSensorToStop == p.distance
                        && useLastSensorNow == (old(useLastSensorNow) || p.useLastSensor)
      ensures !found ==> TooShort(nodes, previousStopNode, stopNode, Stop()) && stopNow
      ensures !found ==> stopSensorBox == old(stopSensorBox) && stopSensorVal == old(stopSensorVal)
                         && useLastSensorNow == old(useLastSensorNow)
                         && distancePassStopSensorToStop == old(distancePassStopSensorToStop)
      ensures speedAfterReverse ==
              if stopNode >= 0 && stopNode == |nodes| - 2 && nodes[stopNode].num == REVERSE then 0 else -1
    {
      FindStopNode();
      ghost var node := stopNode;
      found, i, p := false, 0, StopPoint(0, 0, false, 0);
      var stop, k := Stop(), stopNode - 1;
      while k >= previousStopNode && stop > 0
        invariant stopNode == node < |nodes|
        invariant stopNode - 1 < previousStopNode || previousStopNode - 1 <= k < stopNode
        invariant !found ==> stop > 0 && (k >= previousStopNode ==> stop == Stop() - Stretch(nodes, k + 1, stopNode))
        invariant !found ==>
                    forall m :: previousStopNode <= m < stopNode && k < m ==> Stretch(nodes, m, stopNode) < Stop()
        invariant !found ==> stopNow == old(stopNow)
                             && stopSensorBox == old(stopSensorBox) && stopSensorVal == old(stopSensorVal)
                             && useLastSensorNow == old(useLastSensorNow)
                             && distancePassStopSensorToStop == old(distancePassStopSensorToStop)
        invariant found ==> stop <= 0 && stopNow == old(stopNow)
                            && FarEnough(nodes, previousStopNode, stopNode, Stop(), i)
        invariant found ==> IsStopPoint(nodes, previousStopNode, stopNode, Stop(), i, before,
                                        distanceFromLastSensorAtPreviousStopNode, p)
        invariant found ==> stopSensorBox == p.box && stopSensorVal == p.val
                            && distancePassStopSensorToStop == p.distance
                            && useLastSensorNow == (old(useLastSensorNow) || p.useLastSensor)
        decreases k, stop > 0
      {
        stop := stop - nodes[k].dist;
        if stop <= 0 {
          var point := FindSensor(k, -stop, before, Stop());
          SetStopPoint(point);
          found, i, p := true, k, point;
        } else {
          k := k - 1;
        }
      }
      if stop > 0 {
        stopNow := true;
      }
      var stopAfterReverse := stopNode >= 0 && stopNode == |nodes| - 2 && nodes[stopNode].num == REVERSE;
      speedAfterReverse := if stopAfterReverse then 0 else -1;
    }
  }
}
