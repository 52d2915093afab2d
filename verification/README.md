# Model of the choochoo kernel, its train track server, and the RTX queues

A Dafny model of an ARM microkernel with a model-railway application on top (`kernel/`), and of
the queues of an older real-time executive (`os/`), with proofs of what their code guarantees.

A pointer to a track node is its index, a pointer to an edge record is twice the index of its node
plus the direction, a pointer to a task, a slot, a memory block or a process is its index; NULL is -1.
Code that works in place is modelled in place: classes over arrays of the same records, with methods
that follow the code's branches. Each such method is proved against a function, or a predicate, on
values; the lemmas about that function say what it means. Where a structure is linked through `next`
fields, `LinkedLists.Chain` ties the links to the sequence they stand for.

How the files belong together:

- **Track server.** `TrackGraph`, `Track`, `Walks`: the rail graph, its storage, the walks of a train.
  `Splice`, `SpliceInPlace`, `SpliceDistance`: putting a position into the graph as two temporary nodes,
  and taking it out. `Landmarks`, `Locate`, `LocateExample`: from two landmarks and an offset to an edge.
  `SafeReverse`, `SafeDistances`, `RoutePlanning`, `RouteRebuild`, `FindRoute`, `RouteSettings`: route planning.
  `Reservation`, `ReserveEdges`, `ReservationSafety`, `ReservationReports`, `ReservationReasons`,
  `ReservationCover`, `ReservationExtent`, `ReservationLeftovers`, `Requests`, `ReservationExample`: reserving track.
  `Sensors`, `FindSensors`: sensor prediction. `Cycles`, `ZeroCycles`: why the two recursions end.
  `StopNode`: where to stop.
- **Microkernel.** `KernelState`: state and system calls as functions. `KernelPlacement`, `KernelRuns`,
  `KernelMessages`, `KernelAnswers`: what holds over all runs, and what each call answers. `ReadyMask`, `KernelLinks`, `KernelInPlace`: the bit mask, the
  shared links, and the kernel running on them.
- **Clock server.** `ClockRuns`, `ClockServer`.
- **RTX.** `DelayedMail`, `Mailbox`: delayed mail. `ProcessQueues`: the process queues.
- `Numbers`: printing and reading numbers.
- Shared: `MachineWords`, `Sequences`, `LinkedLists`, `TimedQueues`.

What the track may be: any graph whose nodes turn round in pairs, whose edges come in two directions that
name each other, whose branch legs end in different places, and whose lengths are not negative
(`TrackGraph.WellFormed`). The generated tables of `kernel/track/track_data.c` are not part of this model.

Where the code does something other than one would expect, the model follows the code:

- The record of the second temporary node names the wrong edge as its reverse (`Track.c:263`).
- A frame of `reserveEdges` that could not have the centre turnout still writes to its owners when it
  leaves (`Track.c:216-231`); `Reservation.DryFrame` gives the exact condition, and the theorems about
  whole calls assume it of the merges the call may come to (`ClearFrom`, `OpenFrom`).
- The dry runs of a reservation request count track the train is about to give up, so a granted
  request can fail and leave the train with nothing (`ReservationRequests.GrantedButLost`). It cannot when
  the dry runs also succeed with the train's own edges free (`GrantedIsReserved`), a condition that is
  not necessary (`ReservationExample.GrantCanHoldAnyway`); what tells is the reply (`ReplyMeans`).
- A real call that is refused gives back what its own frames have taken, but not the track that the call along
  the straight leg of a branch has taken beyond it when the curved leg is then refused
  (`ReservationLeftovers.LeftBehind`); without a branch on the way nothing is left (`RefusedTakesNothing`).
- Between the two legs of a branch its distance for turning round is put back (`Track.c:433-435`), so only the
  straight leg can mark a branch (`SafeDistances.Settled`).
- A reply that is not empty does not mean that nothing has changed: it also follows a granted request one
  of whose real calls failed, after the train's reservations have been cleared (`Track.c:764-785`).
- The condition noted for a wrongly standing switch is always "curved" (`Track.c:378`, `Track.c:387`).
- `traverse` can return entries that are no path when both legs of a branch reach the target
  (`LocateExample.LegsMixed`).
- After turning round at a branch the route says that its merge is entered over the curved leg, which is
  the leg the train ran onto (`Track.c:629-641`).
- `kernel_awaitevent` loses its caller when the event is invalid or taken.
- Without a sensor before the place found, `updateStopNode` reads the node before the stretch
  (`DriverHelper.c:164`), which for the first node of a route lies outside it; what is read there is
  the parameter `before`.
- A mail received by the RTX timer process that is not marked as delayed is dropped, and mail of equal
  time stays in order; the clock server puts a new waiter before those of equal time.
- The guards of `pull_process` and `grab_pcb_from_single_queue` compare a queue number with a priority and
  never hold for any queue.
- `a2i` and `strgetui` accept the character that stands for the base itself as a digit.

## Model

| member | source | states |
|---|---|---|
| `Splicing.SpliceIds` | kernel/track/Track.c:243-275 | the two records fakeNode rewrites through `src->edge[dirType]` and `dest->reverse->edge[dirTypeReverse]` are exactly the edge and its other direction |
| `Splicing.SpliceShape` | kernel/track/Track.c:243-275 | record by record, what a splice changes and that nothing else changes |
| `Splicing.SplicePlannable` | kernel/track/Track.c:243-275 | a splice keeps everything route planning relies on, now for two more nodes |
| `Splicing.FarEdgeReversible` | kernel/track/Track.c:243-275 | an edge away from the splice keeps both its directions |
| `Splicing.NearEdgesReversible` | kernel/track/Track.c:251-274 | three of the four records of a splice have both their directions |
| `Splicing.FarHalfNotReversible` | kernel/track/Track.c:263 | the fourth, the record of the second temporary node, never has: it names the wrong edge as its reverse |
| `Splicing.SpliceAgain` | kernel/track/Track.c:476-505 | after one splice every edge but that one can be spliced again |
| `SpliceDistances.SpliceKeepsDistances` | kernel/track/Track.c:243-275 | between any two old nodes, over any set of open edges, a distance can be driven after a splice if and only if it could before |
| `SpliceDistances.TwoSplicesKeepDistances` | kernel/track/Track.c:476-505 | the same after two splices |
| `SpliceDistances.SpliceKeepsUsable` | kernel/track/Track.c:243-275 | each part of the spliced edge may be used by exactly the trains that may use the whole, and so every train can drive the same distances as before |
| `SpliceDistances.Expand` | kernel/track/Track.c:243-275 | every path in the old graph has one of the same length in the new graph |
| `SpliceDistances.Collapse` | kernel/track/Track.c:243-275 | every path between old nodes in the new graph has one of the same length in the old graph |
| `SpliceInPlace.FakeNode` | kernel/track/Track.c:243-275 | the in-place writes make exactly the graph and the owners of one splice |
| `SpliceInPlace.EdgeType` | kernel/track/TrackHelper.c:176-184 | the direction in which a leg leaves its source: that record of the source is the leg itself |
| `SpliceInPlace.Restore` | kernel/track/Track.c:681-686 | putting a saved node back rewrites that record and no other |
| `SpliceInPlace.PutBackTwo` | kernel/track/Track.c:681-686 | putting back the two saved nodes undoes every change made to the two edges, whatever happened to the spare nodes |
| `SpliceInPlace.SpliceIn` | kernel/track/Track.c:476-481 | saving both end nodes and splicing: putting the copies back will undo it, whatever else happens to the spare nodes |
| `SpliceInPlace.TakeOut` | kernel/track/Track.c:681-686 | after it nodes, edges and owners of the track are what they were when the nodes were saved |
| `Locating.LandmarkNamesNode` | kernel/track/TrackHelper.c:54-87 | a landmark made from a node names that node's type and number again |
| `Locating.FindNode` | kernel/track/TrackHelper.c:90-103 | the first node of the given type and number, NULL exactly if there is none |
| `Locating.Traverse` | kernel/track/TrackHelper.c:107-143 | the recursion returns the length and leaves the edge buffer exactly as Trace says, the second leg of a branch overwriting what the first wrote |
| `Locating.LenIsTrace` | kernel/track/TrackHelper.c:107-143 | the length returned does not depend on the buffer |
| `Locating.TraverseComplete` | kernel/track/TrackHelper.c:107-143 | a length is returned if and only if some run of edges within the depth reaches the target without passing a sensor or an exit |
| `Locating.TraversePath` | kernel/track/TrackHelper.c:107-143 | the buffer then holds a connected path to the target if and only if no branch on the way has both legs reaching it (condition Clean) |
| `Locating.TraceEdges` | kernel/track/TrackHelper.c:107-143 | whatever path they make, the entries returned are real edges |
| `Locating.TraceFromAnyBuffer` | kernel/track/TrackHelper.c:107-143 | what a search that succeeds leaves in its entries does not depend on what the uninitialised buffer held |
| `LocateExample.LegsMixed` | kernel/track/TrackHelper.c:134-143 | a track on which the entries are no path: the two legs of a branch meet again before the target, and edges of both are returned |
| `Locating.FindOffset` | kernel/track/TrackHelper.c:151-171 | the one edge and offset at which the given offset, clamped to 0 and the total length, lies along the edges found; where two edges meet, on the later one |
| `Locating.PlaceUnique` | kernel/track/TrackHelper.c:151-171 | there is only one such place |
| `Locating.FoundAt` | kernel/track/TrackHelper.c:151-171 | the three ways in which the scan ends all give that place |
| `Locating.LocateNode` | kernel/track/TrackHelper.c:145-174 | an edge and an offset on it between the two landmarks, or -1 exactly when no place fits the position, two unknown landmarks included |
| `Locating.LocatedUnique` | kernel/track/TrackHelper.c:145-174 | the answer is determined by the position and the track, whether or not the edges found make a path |
| `SafeReverse.Propagate` | kernel/track/Track.c:423-444 | computeSafeReverseDistHelper ends on every graph, cycles and zero lengths included: marked nodes never end up unmarked (what it stores: SafeDistances) |
| `SafeReverse.PropagateInRange` | kernel/track/Track.c:423-444 | every value stays between 0 and trainLength + 60, or is INT_MAX |
| `SafeReverse.PropagateAll` | kernel/track/Track.c:447-454 | the range is kept by the whole computation |
| `SafeReverse.MarksStay` | kernel/track/Track.c:447-454 | no turn of the loop takes a mark back, although it overwrites the merge it starts from |
| `SafeReverse.MergesMarked` | kernel/track/Track.c:423-454 | in the end a merge is marked if and only if the leg behind it is shorter than trainLength + 60 |
| `SafeReverse.ComputeSafeReverseDistHelper` | kernel/track/Track.c:423-444 | the in-place recursion leaves exactly the distances of Propagate, roll-back of a branch's mark between its legs included |
| `SafeReverse.ComputeSafeReverseDist` | kernel/track/Track.c:447-454 | the in-place loop over all merges computes PropagateAll |
| `SafeDistances.PropagateSettles` | kernel/track/Track.c:423-444 | each call settles every node it has dealt with, the roll-back at branches included: it holds nothing, or what is left of trainLength + 60 after a run of legs from some merge when there is room for that, or a mark when there is not |
| `SafeDistances.PropagateGrows` | kernel/track/Track.c:428-431 | no call lowers a distance |
| `SafeDistances.TurnGrows` | kernel/track/Track.c:447-454 | one turn of the loop lowers nothing, gives its merge the whole trainLength + 60 or a mark, and the far end of the merge's leg at least what is left |
| `SafeDistances.ClearanceAt` | kernel/track/Track.c:423-454 | every value findRoute stores: 0; or trainLength + 60 less the length of a run of legs from some merge to that node, when the leg ahead is at least so long and does not end too soon at a turnout; or INT_MAX, when such a rest would not fit, and then the rest beyond the leg has been handed on. A merge has trainLength + 60, or INT_MAX exactly when its leg is shorter, and hands on at least the rest |
| `SafeDistances.PlannedClearances` | kernel/track/Track.c:457-687 | that is what the reversals of every planned route rest on |
| `RoutePlanning.NearestQueued` | kernel/track/Track.c:528-542 | the queued node with the smallest distance, the first among equals |
| `RoutePlanning.Neighbours` | kernel/track/Track.c:550-604 | the list of moves holds exactly the enabled moves to queued nodes, with their costs: legs that are free or own and not avoided, and turning round where that is allowed |
| `RoutePlanning.WalkNotShorter` | kernel/track/Track.c:527-613 | no enabled walk to a node that is still queued is shorter than the nearest queued distance |
| `RoutePlanning.Settle` | kernel/track/Track.c:544-548 | taking the nearest node off the queue keeps labels truthful and tight |
| `RoutePlanning.Improve` | kernel/track/Track.c:606-612 | relaxing a move keeps every label the cost of a real walk and every predecessor link the last step of that walk |
| `RoutePlanning.RelaxAll` | kernel/track/Track.c:606-612 | after all neighbours, every move out of the settled node is accounted for |
| `RoutePlanning.SearchIsShortest` | kernel/track/Track.c:526-613 | when the search stops, early stop at the goal included, the goal's label is the least cost of all enabled walks, INT_MAX exactly when there is none |
| `RoutePlanning.Dijkstra` | kernel/track/Track.c:526-613 | the search loop: the least cost over all enabled walks from start to goal, INT_MAX exactly when there is none, with predecessor links for a walk of that cost |
| `RouteRebuild.EntriesTotal` | kernel/track/Track.c:620-659 | the distances of a walk's entries, each reversal counting twice, add up to the walk's cost |
| `RouteRebuild.EntriesFor` | kernel/track/Track.c:624-655 | the entries written for one node are those of the step the walk makes there, in driving order (what they say: RouteSettings.RouteSettingsRight) |
| `RouteRebuild.WriteBackwards` | kernel/track/Track.c:615-659 | following the predecessor links writes the entries of the whole walk and never runs below index 0 of the 300 places |
| `RouteRebuild.CopyOut` | kernel/track/Track.c:661-665 | the output is the written part, from its first place |
| `RouteRebuild.Rebuild` | kernel/track/Track.c:615-679 | the result shows the walk found, its last distance 0 and its total the goal's distance; no walk gives length 0 |
| `RouteFinding.ClearScratch` | kernel/track/Track.c:509-517 | all scratch fields of real nodes are reset |
| `RouteFinding.Prepare` | kernel/track/Track.c:509-521 | scratch fields reset, reversal distances computed, start at distance 0 |
| `RouteFinding.QueryFits` | kernel/track/Track.c:509-613 | with legs and reversals bounded, no sum of the search reaches INT_MAX |
| `RouteFinding.RouteTotal` | kernel/track/Track.c:615-679 | the entries of a full route add up to the cost of its walk |
| `RouteFinding.SearchRoute` | kernel/track/Track.c:526-679 | search and rebuilding together: the result describes a cheapest walk or says that there is none |
| `RouteFinding.PlanRoute` | kernel/track/Track.c:509-679 | the same from cleared scratch fields |
| `RouteFinding.WithBothPositions` | kernel/track/Track.c:500-686 | with the second position spliced in, planned and taken out again: an optimal answer, and the track as before |
| `RouteFinding.WithFromPosition` | kernel/track/Track.c:483-686 | the second position found or reported; the track as before on every way out |
| `RouteFinding.FindRoute` | kernel/track/Track.c:457-687 | the whole of findRoute: the two error answers exactly when a position cannot be located, otherwise a cheapest walk between the two spliced positions, and the track put back |
| `RouteFinding.AnswerDecided` | kernel/track/Track.c:483-498 | which answer it is depends on the request alone: an error exactly when the second position cannot be located, FarHalf exactly when it lies on the edge of the second temporary node |
| `RouteSettings.CompleteIsReturnable` | kernel/track/Track.c:634-641 | on a complete track every leg has a leg back, found by its ends |
| `RouteSettings.SpliceReturnable` | kernel/track/Track.c:243-275 | so it has after a splice, although the second temporary node names a wrong reverse |
| `RouteSettings.SettingNamesLegTaken` | kernel/track/Track.c:634-641 | the setting written for a merge is straight if and only if the straight leg of its turnout ends where the train comes from, curved if and only if the curved leg does |
| `RouteSettings.SettingAfterReversal` | kernel/track/Track.c:634-641 | after turning round at a branch it is curved, for the leg the train ran onto |
| `RouteSettings.EntriesOfStep` | kernel/track/Track.c:624-659 | where on the route the one or two entries for each step of the walk are |
| `RouteSettings.EntriesRight` | kernel/track/Track.c:624-659 | each step of the walk leaves, where its entries belong: for a leg its landmark, its length and the setting of the turnout it is driven over, never REVERSE; for a reversal first the way on with a curved switch and then REVERSE, both with the distance to run on |
| `RouteSettings.RouteSettingsRight` | kernel/track/Track.c:457-687 | every route findRoute returns is that of a cheapest walk, entry by entry: one for each leg, two for each reversal with REVERSE the second, the goal last; every leg and every reversal uses only track that is free or the train's own and not to be avoided |
| `RouteSettings.NothingShorter` | kernel/track/Track.c:525-613 | no drive over such track, turning round only where that is safe, is shorter than the distance findRoute returns; where there is one it does return a route |
| `Reservation.DryFrame` | kernel/track/Track.c:173-230 | one frame of a dry run puts the owners back if and only if there is no centre turnout or its curved leg could be had; otherwise it leaves all its edges free, the first of them another train's |
| `Reservation.FrameIn` | kernel/track/Track.c:70-110 | what a frame may rely on once it has marked its edges |
| `Reservation.FrameOut` | kernel/track/Track.c:93-100 | what a frame leaves behind |
| `Reservation.Onward` | kernel/track/Track.c:89-92 | why the recursion ends: room left, then rank along zero-length edges, then the set of edges not yet held |
| `Reservation.Reserve` | kernel/track/Track.c:58-241 | reserveEdges as a function: it ends, touches no owner but to the train's number or free, a dry run leaves every owner as it was, a success keeps everything the train held (when it is refused: ReservationReasons; what it takes: ReservationExtent, ReservationCover) |
| `ZeroCycles.RankExists` | kernel/track/Track.c:58-241 | the ranking the recursion needs exists whenever every directed cycle has positive length |
| `ZeroCycles.ZeroChainShort` | kernel/track/Track.c:58-241 | a chain of zero-length edges is shorter than the track has nodes |
| `ReserveInPlace.TrackServer.CanReserveEdge` | kernel/track/Track.c:46-56 | free or own; the node before a refused edge is remembered |
| `ReserveInPlace.TrackServer.CanReserveAll` | kernel/track/Track.c:75 | the first refusal of a frame ends the test |
| `ReserveInPlace.TrackServer.ClaimOf` | kernel/track/Track.c:70-164 | the edges a frame claims, by node type |
| `ReserveInPlace.TrackServer.CentreOf` | kernel/track/Track.c:178-186 | the four edges of the centre turnout behind a merge |
| `ReserveInPlace.TrackServer.EnterFrame` | kernel/track/Track.c:166-202 | saving and marking |
| `ReserveInPlace.TrackServer.LeaveFrame` | kernel/track/Track.c:209-232 | freeing after a failure, restoring in a dry run |
| `ReserveInPlace.TrackServer.ReserveEdges` | kernel/track/Track.c:58-241 | the in-place recursion computes Reserve, owners and remembered node alike |
| `ReserveInPlace.TrackServer.ClearNodeReservation` | kernel/track/Track.c:29-43 | frees the train's own edges of one node, by node type |
| `ReserveInPlace.TrackServer.ReleaseAll` | kernel/track/Track.c:734-741 | RELEASE_ALL_RESERVATION: exactly the train's own edges become free |
| `ReserveInPlace.TrackServer.DryRuns` | kernel/track/Track.c:744-754 | the dry runs for the nodes the landmarks name, in order, up to the first failure |
| `ReserveInPlace.TrackServer.RealRuns` | kernel/track/Track.c:771-778 | the real calls for the same nodes, none of their results looked at |
| `ReserveInPlace.TrackServer.ReplyFor` | kernel/track/Track.c:779-785 | the reply is empty exactly when no node is remembered; otherwise its landmark names the type and number of that node |
| `ReserveInPlace.TrackServer.ReleaseOldAndReserveNew` | kernel/track/Track.c:742-787 | the whole message: the reply is empty if and only if the request was granted and every real call succeeded, and then the train holds all it needs within the stopping distance; otherwise it names the node that failed, from which an edge in the way starts that was another train's before the message |
| `ReservationSafety.ReserveKeepsForeign` | kernel/track/Track.c:58-241 | no call ever changes the owner of an edge that belongs to another train |
| `ReservationSafety.ReserveSymmetric` | kernel/track/Track.c:58-241 | both directions of every piece of track keep having one owner |
| `ReservationSafety.ReserveForetold` | kernel/track/Track.c:58-241 | a real call succeeds wherever the dry run on no better owners did, and ends up holding at least as much |
| `ReservationReports.ReserveReports` | kernel/track/Track.c:45-241 | a call succeeds if and only if it leaves the remembered node alone; a failure sets it to a node of the track |
| `ReservationReasons.ReserveRefused` | kernel/track/Track.c:46-241 | a call that is refused has a reason: at some node it may come to, an edge of that node, or of the other side of the turnout there, belonged to another train before the call, and the node remembered is the one that edge starts from; so without such an edge every call succeeds |
| `ReservationReasons.FailNodeIsSource` | kernel/track/Track.c:46-56 | of several such edges of one frame the first tested is remembered |
| `ReservationCover.NeededWithin` | kernel/track/Track.c:84-87 | what a train needs beyond a node includes every way, however the switches stand, whose last edge begins within the stopping distance |
| `ReservationCover.ReserveCovers` | kernel/track/Track.c:58-241 | a real call that succeeds leaves the train holding every edge it needs within the stopping distance, and the first leg of each turnout just beyond |
| `ReservationExtent.FollowsWithin` | kernel/track/Track.c:84-87 | a call comes to a node only within the stopping distance, or when it is a turnout |
| `ReservationExtent.ReserveHolds` | kernel/track/Track.c:58-241 | a real call that succeeds leaves the train holding both directions of every leg of every node within the stopping distance, at a merge also the legs of the turnout's other side and of the double turnout behind it |
| `ReservationExtent.ReserveTouches` | kernel/track/Track.c:58-241 | whatever its outcome, a call changes owners only there |
| `ReservationExtent.FailureFrees` | kernel/track/Track.c:93-96 | a real call that fails has changed nothing, or leaves everything around its node free |
| `ReservationLeftovers.RefusedTakesNothing` | kernel/track/Track.c:58-241 | a real call that is refused leaves the train no edge it did not have, provided it comes to no branch |
| `ReservationLeftovers.LeftBehind` | kernel/track/Track.c:111-160 | at a branch that is not so: whenever the way beyond its straight leg can be had and that beyond the curved one cannot, the call is refused and the train keeps the track beyond the straight leg |
| `ReservationRequests.ClearedSymmetric` | kernel/track/Track.c:29-43 | giving everything up keeps both directions together |
| `ReservationRequests.DoAllCovers` | kernel/track/Track.c:771-778 | so do several real calls that all succeed, for each of their nodes |
| `ReservationRequests.ReplyMeans` | kernel/track/Track.c:742-787 | the reply is empty if and only if the request was granted and every real call succeeded, and then the train holds all it needs within the stopping distance of every node it asked for; otherwise it names a node from which an edge starts that is in the way and belonged to another train before the message, and nothing has changed unless the dry runs had succeeded |
| `ReservationRequests.AloneIsReserved` | kernel/track/Track.c:742-787 | a train that meets no other train's edge is always granted what it asks for |
| `ReservationRequests.RequestExtent` | kernel/track/Track.c:742-787 | after an empty reply the train holds all around every node within the stopping distance of those asked for; whatever the reply, it is given no edge out of their reach |
| `ReservationRequests.RequestSafe` | kernel/track/Track.c:742-787 | after any request: other trains keep their edges and both directions have one owner; after an empty reply the train holds all it needs; with any other nothing has changed unless a real call failed |
| `ReservationRequests.AllForetold` | kernel/track/Track.c:744-778 | when all dry runs succeed, all real calls on at least as good owners succeed, and the train holds all it needs within the stopping distance |
| `ReservationRequests.GrantedIsReserved` | kernel/track/Track.c:742-787 | a granted request whose dry runs also succeed with the train's own edges free is really reserved, for any train: every real call succeeds, the reply is empty, and the train holds all it needs within the stopping distance |
| `ReservationRequests.NewcomerIsReserved` | kernel/track/Track.c:742-787 | so it is for a train that held nothing |
| `ReservationRequests.GrantedButLost` | kernel/track/Track.c:742-787 | the dry run counts edges the train is about to give up: in every situation LostOnGrant a request is granted, its real call fails, and the reply names the branch |
| `ReservationExample.GrantCanLoseTrack` | kernel/track/Track.c:742-787 | such a situation, concretely: a granted request after which the train holds nothing |
| `ReservationExample.GrantCanHoldAnyway` | kernel/track/Track.c:742-787 | the condition of GrantedIsReserved is not necessary: a granted request with an empty reply whose dry runs on the cleared track do not all succeed |
| `ReservationExample.DryRunCanFreeForeign` | kernel/track/Track.c:178-230 | a track, a merge and owners with which a dry frame that claims only free edges and goes no further frees another train's edge |
| `SensorPrediction.DriveEnds` | kernel/track/Track.c:351-394 | every drive along the switch settings from a node ends at the same first sensor or exit and is equally long |
| `SensorPrediction.DescentExists` | kernel/track/Track.c:351-394 | a track with a sensor on every directed cycle has the ranking the recursion descends |
| `SensorPrediction.DriveExists` | kernel/track/Track.c:351-394 | with such a ranking there is such a drive from every node |
| `SensorPrediction.DriveOnTrack` | kernel/track/Track.c:351-394 | so there is one from every node of a track with a sensor on every cycle, however the switches stand |
| `SensorPrediction.DriveBranches` | kernel/track/Track.c:368-389 | the branches noted are those the drive passes |
| `SensorPrediction.OffTheWay` | kernel/track/Track.c:368-389 | how a branch beside the drive stands makes no difference to it |
| `SensorPrediction.FaultHere` | kernel/track/Track.c:376-388 | the other leg of a branch leads where a drive with just that branch standing wrong leads |
| `SensorPrediction.SecondariesStep` | kernel/track/Track.c:368-393 | the list grows by one entry for each branch, on the way back from the recursion |
| `SensorPrediction.EveryFaultForeseen` | kernel/track/Track.c:351-394 | whichever single branch stands wrong, the train is next seen where entry 0 or the entry naming that branch says |
| `SensorPrediction.NextStopIs` | kernel/track/Track.c:351-394 | the stop and the distance predicted are those of the one run of legs that follows the switches, with one branch standing wrong if so asked, to the first sensor or exit |
| `SensorPrediction.SecondariesRight` | kernel/track/Track.c:351-394 | entry by entry: the missed sensor, if one comes before an exit, with the next stop beyond it and the whole distance there; then each branch with the stop and the distance when just that branch stands wrong |
| `SensorPrediction.BranchesInOrder` | kernel/track/Track.c:368-389 | the branches are listed last passed first |
| `SensorPrediction.Secondaries` | kernel/track/Track.c:351-394 | as many entries as branches passed, and one more if the drive ends at a sensor |
| `SensorFinding.SplicedDrive` | kernel/track/Track.c:411-415 | splicing the position in changes neither where a train on an old node stops, nor how far, nor the branches |
| `SensorFinding.SplicedSecondaries` | kernel/track/Track.c:411-415 | what is computed on the spliced track is what a train sees on the track itself with the rest of the edge before it |
| `SensorFinding.SensorFinder.AfterFault` | kernel/track/Track.c:351-358 | after a fault one prediction is appended: the next stop, its exact distance, the given condition |
| `SensorFinding.SensorFinder.AtFirstStop` | kernel/track/Track.c:352-367 | entry 0 gets stop and distance; past a sensor the missed-sensor entry follows |
| `SensorFinding.SensorFinder.BeforeFault` | kernel/track/Track.c:351-394 | the recursion before any fault writes entry 0 and appends exactly Secondaries |
| `SensorFinding.SensorFinder.FindNextSensors` | kernel/track/Track.c:396-421 | on a track with a sensor on every cycle: -1 exactly when the position is not on the track; otherwise the count and all entries, and the track put back |
| `KernelState.FirstReady` | kernel/TaskQueue.c:24-41 | the first queue with a task in it |
| `KernelPlacement.SchedulePlaced` | kernel/kernel.c:157-161 | taking the next task and making it active leaves everyone else in place |
| `KernelPlacement.SendPlaced` | kernel/kernel.c:235-272 | kernel_send leaves every task in its place, whichever branch it takes |
| `KernelPlacement.ReceivePlaced` | kernel/kernel.c:274-299 | so does kernel_receive |
| `KernelPlacement.ReplyPlaced` | kernel/kernel.c:301-327 | so does kernel_reply |
| `KernelPlacement.AwaitEventPlaced` | kernel/kernel.c:335-351 | kernel_awaitevent leaves every task in its place if and only if the event exists and nobody waits for it: otherwise the caller is lost |
| `KernelPlacement.ExitPlaced` | kernel/kernel.c:230-233 | kernel_exit takes the caller off all queues for good |
| `KernelPlacement.InterruptPlaced` | kernel/kernel.c:139-146 | an interrupt moves the task waiting for it, if any, to its ready queue |
| `KernelPlacement.CreatePlaced` | kernel/kernel.c:199-218 | a new task is in its ready queue |
| `KernelRuns.CallPlaced` | kernel/kernel.c:175-192 | every system call that keeps to the rules leaves every task in its place |
| `KernelRuns.Loop` | kernel/kernel.c:157-193 | one turn of the run loop as a function; every task is in its place again at the head of the loop |
| `KernelRuns.OnePlaceEach` | kernel/kernel.c:157-193 | READY if and only if in the ready queue of its priority, RECEIVE_BLOCK if and only if in the mailbox of the task it sends to, EVENT_BLOCK if and only if in the slot of its event; in no other queue, once in each; a SEND_BLOCK task has an empty mailbox |
| `KernelRuns.BestIsChosen` | kernel/TaskQueue.c:24-41 | the task chosen is the oldest of the best priority that has any |
| `KernelRuns.SomeoneIsReady` | kernel/kernel.c:157 | with the idle task never blocking, scheduler_get finds somebody |
| `KernelRuns.IdleStaysReady` | kernel/kernel.c:157-193 | nothing other tasks or interrupts do blocks the idle task |
| `KernelRuns.Booted` | kernel/kernel.c:66-76 | the state kernel_init leaves |
| `KernelMessages.CallConserves` | kernel/kernel.c:235-327 | for every receiver, mailbox before plus message accepted is message handed over plus mailbox after; blocked states count accordingly |
| `KernelMessages.LogGrows` | kernel/kernel.c:235-327 | what one call conserves, the whole history conserves |
| `KernelMessages.EveryRun` | kernel/kernel.c:149-196 | over every run: at the head of the loop every task is in exactly its place and some task is ready |
| `KernelMessages.EveryRunInOrder` | kernel/kernel.c:235-327 | over every run: messages are handed to each receiver in the order in which they were accepted, each is handed over once and answered once |
| `KernelMessages.SentAndAnswered` | kernel/kernel.c:235-327 | when a task runs, each message it has sent has been received once and answered once |
| `KernelMessages.StartIsSilent` | kernel/kernel.c:66-76 | tasks created before the loop starts change nothing about that |
| `KernelMessages.CopiedBytes` | kernel/memory.c:33-37 | what every byte is after the copy, overlaps included: its counterpart, or the repeated beginning where the copy runs into itself |
| `KernelMessages.HandedOver` | kernel/kernel.c:248-264 | exactly min(offered, wanted) bytes are copied, that length and the sender's number are reported, the receiver is ready, the sender waits |
| `KernelMessages.Replied` | kernel/kernel.c:301-327 | the two errors exactly when they apply; otherwise exactly min(offered, wanted) bytes copied and reported to the sender |
| `KernelMessages.DirectIsThroughMailbox` | kernel/kernel.c:248-264 | handing over directly to a waiting receiver is the same as joining its empty mailbox and being received at once |
| `KernelMessages.SendWordsRoundTrip` | kernel/syscall.c:46-58 | a task number of 128 or more is refused; otherwise the kernel takes apart what Send packs: the receiver meant, and the lengths meant exactly when both fit in sixteen bits |
| `KernelAnswers.AtTrap` | kernel/kernel.c:157-161 | in one turn of the loop the task chosen is the first of its queue and leaves it; all else is as it was |
| `KernelAnswers.PlainAnswers` | kernel/kernel.c:220-228 | in every turn of the loop: MyTid answers the caller's number, MyParentTid its parent's, Idle the measurement, Pass nothing; the caller is ready again, last of its queue, and nothing else has changed |
| `KernelAnswers.CreateAnswers` | kernel/kernel.c:199-218 | Create answers the number of the new task, the next there is: child of its creator, of the priority asked for, last of that queue but before its creator |
| `KernelAnswers.WaitingCalls` | kernel/kernel.c:230-351 | Receive without mail, Exit and AwaitEvent stop the caller in just their ways |
| `KernelAnswers.SendAnswers` | kernel/kernel.c:235-272 | Send to nobody or to a zombie answers -2; to a task that does not wait it puts the caller last in its mailbox |
| `KernelAnswers.DirectSend` | kernel/kernel.c:248-264 | Send to a waiting task: what both tasks, the ready queue and every byte are afterwards |
| `KernelAnswers.ReceiveAnswers` | kernel/kernel.c:274-299 | Receive with mail: the same for the oldest message |
| `KernelAnswers.ReplyAnswers` | kernel/kernel.c:301-327 | Reply answers -2, -3 or 0 exactly in its case, and what then becomes of the sender and of every byte |
| `KernelAnswers.Interrupted` | kernel/kernel.c:137-146 | an interrupt costs the running task its turn only; the task waiting for the event gets its value and is ready behind it |
| `KernelAnswers.TurnKeepsParents` | kernel/kernel.c:199-218 | nobody's parent or priority changes in a turn, and only Create adds a task |
| `KernelAnswers.ParentIsCreator` | kernel/kernel.c:199-218 | over every run: the parent of a task is the task running when it was created, its priority the one asked for |
| `KernelAnswers.StartParents` | kernel/kernel.c:66-76 | the tasks created before the loop, in order, have no parent |
| `KernelAnswers.ParentAnswered` | kernel/kernel.c:225-228 | over every run MyParentTid answers the number of the task whose Create made the caller, and 0xdeadbeef to those created before the loop |
| `ReadyMask.SetOne` | kernel/TaskQueue.c:46 | setting one bit of the mask changes no other |
| `ReadyMask.ClearOne` | kernel/TaskQueue.c:33 | clearing one bit changes no other |
| `ReadyMask.PositionOfBit` | kernel/TaskQueue.c:10-14 | the De Bruijn table undoes the multiplication for every single bit |
| `ReadyMask.LowestBit` | kernel/TaskQueue.c:26 | isolating, multiplying and looking up gives the lowest set bit, for every mask |
| `ReadyMask.NoBit` | kernel/TaskQueue.c:26 | an empty mask leads to queue 0 |
| `KernelLinks.ReadyAppended` | kernel/TaskQueue.c:43-54 | appending keeps all chains, queue ends and queues of the whole structure |
| `KernelLinks.ReadyTaken` | kernel/TaskQueue.c:27-37 | taking the first task keeps them too |
| `KernelLinks.MaskFindsFirst` | kernel/TaskQueue.c:24-41 | the mask leads to the same queue as looking at one queue after the other |
| `KernelLinks.MailTaken` | kernel/kernel.c:279-281 | taking the first sender keeps all chains, though its own link is left stale |
| `KernelLinks.MailJoined` | kernel/kernel.c:266-270 | a sender whose link is empty joins the end of a mailbox |
| `KernelInPlace.Microkernel.AppendTask` | kernel/TaskQueue.c:43-54 | append_task: the task is last in the queue of its priority |
| `KernelInPlace.Microkernel.NextReadyTask` | kernel/TaskQueue.c:24-41 | next_ready_task by mask and table: the oldest task of the best priority, unlinked; NULL exactly when all queues are empty |
| `KernelInPlace.Microkernel.CopyBytes` | kernel/memory.c:33-37 | the copying loop |
| `KernelInPlace.Microkernel.LastSender` | kernel/kernel.c:266-269 | walking to the end of a mailbox |
| `KernelInPlace.Microkernel.KernelSend` | kernel/kernel.c:235-272 | kernel_send on the linked structures does what Send says |
| `KernelInPlace.Microkernel.KernelReceive` | kernel/kernel.c:274-299 | kernel_receive does what Receive says |
| `KernelInPlace.Microkernel.KernelReply` | kernel/kernel.c:301-327 | kernel_reply does what Reply says |
| `KernelInPlace.Microkernel.KernelAwaitEvent` | kernel/kernel.c:335-351 | kernel_awaitevent does what AwaitEvent says, errors included |
| `KernelInPlace.Microkernel.HandleInterrupt` | kernel/kernel.c:139-146 | the wake-up does what Interrupt says |
| `KernelInPlace.Microkernel.KernelCreateTask` | kernel/kernel.c:199-218 | kernel_createtask does what CreateTask says; the number is the next one |
| `KernelInPlace.Microkernel.MakeTaskReady` | kernel/Scheduler.c:31-35 | scheduler_move2ready |
| `KernelInPlace.Microkernel.SetRunning` | kernel/Scheduler.c:26-29 | scheduler_set_running |
| `KernelInPlace.Microkernel.constructor` | kernel/kernel.c:66-76 | kernel_init |
| `KernelInPlace.Microkernel.Dispatch` | kernel/kernel.c:175-192 | every system call, with the move back to the ready queue for those up to SYSCALL_REPLY (what each answers: KernelAnswers) |
| `KernelInPlace.Microkernel.RunTurn` | kernel/kernel.c:157-193 | one turn of kernel_runloop does what Loop says, and ends the loop exactly when no task is ready |
| `ClockRuns.DelayMeans` | kernel/task/TimeServer.c:21-26 | Delay asks for so many ticks from now, if and only if that time fits in 24 bits |
| `ClockRuns.DelayUntilMeans` | kernel/task/TimeServer.c:34-39 | DelayUntil asks for the tick given |
| `ClockRuns.RunSorted` | kernel/task/TimeServer.c:62-113 | at the head of the serve loop the waiting list is sorted and every deadline lies ahead |
| `ClockRuns.NowIsTicks` | kernel/task/TimeServer.c:62-113 | over every run the clock is the number of messages from the notifier |
| `ClockRuns.AnswersInRun` | kernel/task/TimeServer.c:62-113 | over every run: who asks for the time is told the number of ticks so far, at once and alone; the notifier is answered before anybody is woken; who is woken is woken at the tick it is |
| `ClockRuns.ServeCounts` | kernel/task/TimeServer.c:62-113 | what one message does to each waiter: added if it asks, woken when its time has come |
| `ClockRuns.AnsweredOnce` | kernel/task/TimeServer.c:62-113 | over every run each request is answered exactly once, at tick max(deadline, tick of the request), and waits exactly until then |
| `ClockRuns.NobodyElse` | kernel/task/TimeServer.c:62-113 | nobody who did not ask is woken or kept waiting |
| `ClockRuns.DelayFires` | kernel/task/TimeServer.c:21-113 | so Delay returns once, exactly so many ticks later, and DelayUntil at its tick or at once |
| `ClockInPlace.InsertSplits` | kernel/task/TimeServer.c:83-89 | where the walk of the insertion stops is where the sorted insertion puts the waiter |
| `ClockInPlace.RegisterRepresents` | kernel/task/TimeServer.c:91-102 | taking the first free slot keeps both lists and the 32 slots together |
| `ClockInPlace.ReleaseRepresents` | kernel/task/TimeServer.c:106-112 | giving a slot back keeps both lists and the 32 slots together |
| `ClockInPlace.ClockServer.constructor` | kernel/task/TimeServer.c:46-58 | all 32 slots free, nobody waiting |
| `ClockInPlace.ClockServer.Register` | kernel/task/TimeServer.c:83-102 | the insertion in place |
| `ClockInPlace.ClockServer.WakeDue` | kernel/task/TimeServer.c:105-112 | exactly the due tasks are replied to, in order, and their slots freed |
| `ClockInPlace.ClockServer.ServeOne` | kernel/task/TimeServer.c:62-113 | one pass of the serve loop: replies and new state are those of Answers and Serve |
| `DelayedMail.InsertSorted` | os/message_passing/Mailbox.c:74-102 | inserting by time keeps the queue sorted |
| `DelayedMail.InsertStable` | os/message_passing/Mailbox.c:74-102 | a mail joins behind all others of its time and moves none of other times |
| `DelayedMail.TickGood` | os/timer/timer0.c:29-67 | at the end of a tick no due mail remains, and every mail sent was due exactly now |
| `DelayedMail.RunGood` | os/timer/timer0.c:29-67 | the same over every run |
| `DelayedMail.SentInOrder` | os/timer/timer0.c:29-67 | over every run, from what arrives alone: the mails sent for time t are exactly those marked as delayed that arrived in a tick t - delay, with their block and destination, in order of arrival, once t has come; until then exactly those are queued |
| `DelayedMail.SentOnTime` | os/timer/timer0.c:29-67 | and what tick t sends is exactly that, neither early nor late |
| `DelayedMail.RunExists` | os/timer/timer0.c:29-67 | any mail that arrives makes such a run |
| `MailInPlace.InsertRepresents` | os/message_passing/Mailbox.c:74-102 | linking a block in keeps the list |
| `MailInPlace.Mailbox.PutMailIn` | os/message_passing/Mailbox.c:13-42 | the block becomes the last and gets the sender's number; other blocks are untouched |
| `MailInPlace.Mailbox.GetMailOut` | os/message_passing/Mailbox.c:45-64 | the first block leaves, with its sender, the delayed sender for delayed mail |
| `MailInPlace.Mailbox.InsertMailByTime` | os/message_passing/Mailbox.c:74-102 | all four branches insert where InsertByTime says |
| `MailInPlace.TimerProcess.ReceiveAll` | os/timer/timer0.c:35-47 | all received mail marked as delayed is queued with its firing time, the tick plus its delay (DelayedMail.SentInOrder) |
| `MailInPlace.TimerProcess.SendDue` | os/timer/timer0.c:50-63 | every due mail is sent, in order |
| `MailInPlace.TimerProcess.OneTick` | os/timer/timer0.c:29-67 | one turn of the timer process: mails sent and new state are those of Fired and Tick |
| `ProcessQueues.OneQueueChanges` | os/initialization/ProcessQueue.c:115-249 | changing one queue leaves all others as they are |
| `ProcessQueues.RunInOrder` | os/initialization/ProcessQueue.c:115-452 | after every run of joins and departures each queue is in the order in which its processes joined it |
| `ProcessQueues.ForemostWaitedLongest` | os/initialization/ProcessQueue.c:388-452 | so after every run the process taken joined its queue before all others of the best priority that are there |
| `ProcessQueues.ArrivalKept` | os/initialization/ProcessQueue.c:115-249 | taking out and appending keep a queue in order of arrival |
| `ProcessQueues.ChangeKeepsPlaces` | os/initialization/ProcessQueue.c:115-249 | joining the queue append_process chooses keeps every process where its kind belongs: interrupt processes, those waiting for memory, those waiting for a message, and the others by priority |
| `ProcessQueues.BestIsTaken` | os/initialization/ProcessQueue.c:276-284 | so the process next_ready_process takes has the best priority of all that could run |
| `ProcessQueues.ProcessTable.AppendProcess` | os/initialization/ProcessQueue.c:115-173 | the process joins the end of the queue for its state and priority |
| `ProcessQueues.ProcessTable.Unlink` | os/initialization/ProcessQueue.c:229-245 | a process leaves from any place; first and last pointers stay right |
| `ProcessQueues.ProcessTable.PullProcess` | os/initialization/ProcessQueue.c:176-197 | the first process leaves; NULL for an empty queue |
| `ProcessQueues.ProcessTable.GrabPcb` | os/initialization/ProcessQueue.c:212-249 | the first process with the number leaves; NULL exactly if there is none |
| `ProcessQueues.ProcessTable.NextReadyProcess` | os/initialization/ProcessQueue.c:276-284 | the first process of the best priority that has any |
| `ProcessQueues.ProcessTable.NextBlockedMemoryProcess` | os/initialization/ProcessQueue.c:388-452 | exactly the longest-waiting process of the best priority leaves, the others keep their order; NULL exactly if none has priority LOWEST or better |
| `StopPlanning.TooShortMeans` | kernel/train/DriverHelper.c:143-195 | with no negative lengths, the stretch is too short if and only if its whole length is |
| `StopPlanning.Driver.FindStopNode` | kernel/train/DriverHelper.c:122-129 | the first reversal from previousStopNode on, or the last node |
| `StopPlanning.Driver.FindSensor` | kernel/train/DriverHelper.c:156-165 | the last sensor before the place found, and the distance behind it; without a sensor the code also counts the leg before the stretch |
| `StopPlanning.Driver.UpdateStopNode` | kernel/train/DriverHelper.c:120-203 | distancePassStopSensorToStop is the length from the last sensor to the stop node less the stopping distance (1 for 0); stopNow is set exactly when no node is far enough |
| `Numbers.DigitsValue` | kernel/task/IoHelper.c:79-95 | the digits printed stand for the number |
| `Numbers.DigitsLength` | kernel/task/IoHelper.c:84 | a number has more than e digits exactly when it reaches the e-th power of the base |
| `Numbers.HighestPower` | kernel/task/IoHelper.c:84 | the divisor loop finds the largest power of the base not above the number (1 for 0) and never leaves 32 bits |
| `Numbers.UI2A` | kernel/task/IoHelper.c:79-95 | ui2a writes the digits without leading zeros and a terminating zero, and touches nothing before them |
| `Numbers.PrintDigits` | kernel/task/IoHelper.c:85-93 | the digit loop |
| `Numbers.I2A` | kernel/task/IoHelper.c:97-103 | a minus sign and the magnitude |
| `Numbers.SignedTextFits` | kernel/task/IoHelper.c:97-107 | every signed number fits in the twelve bytes of the buffer |
| `Numbers.TextFits` | kernel/task/IoHelper.c:79-107 | so does every unsigned one in base 10 to 16 |
| `Numbers.A2I` | kernel/task/IoHelper.c:53-65 | a2i reads the value of the longest accepted run, as a 32-bit int holds it, and returns the character behind it |
| `Numbers.StrGetUI` | kernel/task/IoHelper.c:67-77 | strgetui stops at the first character not accepted, with the value before it, as a 32-bit int holds it |
| `Numbers.ReadsBack` | kernel/task/IoHelper.c:46-95 | reading what was printed gives the number again, in every base from 2 to 16, if and only if it is below 2 to the 31 |
| `Numbers.ReadsOnlyDigits` | kernel/task/IoHelper.c:58-63 | a2i reads exactly the digits of the base if and only if they are not followed by the character that stands for the base itself |
| `Numbers.TooLargeDigit` | kernel/task/IoHelper.c:58-63 | it does accept that character: 1a in base 10 is read as twenty |

## Left out

- RouteFinding.FindRoute: when the second position lies on the edge of the second temporary node, the model answers `FarHalf` with no route, exactly in that case, and says nothing about the route the code computes there, because that record names a wrong reverse; distances are bounded so that no sum reaches INT_MAX, and a position whose second landmark names a node must have a first one that does.
- RouteFinding.WithFromPosition: the same; the scratch fields of nodes are not among what is put back.
- Locating.LocateNode: a first landmark that names no node together with a second one that does is excluded; the code follows a NULL pointer then.
- Reservation.Reserve: the numbers above 100 behind a turnout must belong to branches, and no centre turnout behind a merge the call may come to may be another train's (`ClearFrom`).
- ReservationLeftovers.RefusedTakesNothing: one direction only; with a branch on the way it depends on what the other calls take, and `LeftBehind` gives the situations at one branch.
- SafeDistances.ClearanceAt: a run with more left over does not overtake a mark set before, so no node but the far end of a merge's leg is promised the largest rest.
- ReservationSafety.ReserveKeepsForeign: assumes the same of all edges the centre block may write to (`OpenFrom`).
- ReservationRequests.GrantedIsReserved: one direction only, because the other one is false (GrantCanHoldAnyway).
- ReservationRequests.ReplyMeans: assumes that no temporary nodes are left on the track and that the request names nodes of it; a landmark that names none makes the code follow a NULL pointer.
- SensorFinding.SensorFinder.FindNextSensors: needs a sensor on every cycle and room in the caller's array; each switch number must have an entry in the status table.
- KernelRuns.Loop: a message to oneself and a request out of range stop the kernel in an assertion and are excluded, as is creating more than 128 tasks.
- KernelState.CreateTask: stacks, entry points and the allocator that hands out one stack for each of 128 tasks are not modelled.
- KernelMessages.HandedOver: the saved argument words of a task are kept apart from memory, though they lie on its stack.
- KernelInPlace.Microkernel.HandleInterrupt: which event fires with which value is given; devices and the interrupt controller are not modelled.
- KernelInPlace.Microkernel.RunTurn: the measurement of idle time is a parameter, and `kernel_quit` is not modelled.
- ClockInPlace.ClockServer.Register: a free slot must exist; the code follows an invalid pointer otherwise.
- ClockRuns.AnsweredOnce: the tick counter is not bounded.
- DelayedMail.SentInOrder: firing times are not bounded to 32 bits.
- MailInPlace.TimerProcess.OneTick: what the receivers do with a block after it has been sent is not modelled.
- Numbers.A2I: an int that overflows wraps round, as it does on the machine; the language leaves it undefined.
- calculateDistance (`Track.c:278-343`): its path buffer is shorter than its search depth.
- The remaining messages of the track server, its switch commands and its preset routes: forwarding.
- Train drivers, calibration, velocity and position estimates: floating point and device timing.
- The sensor courier, name server, lock server, input and output servers, user interface, games: simple stores and forwarding.
- The RTX scheduler, memory pool, message primitives and interrupt entry: register-level code.
- Context switching, traps, caches and device registers: assembly.
