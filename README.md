# Verified model of the Node2D search node and the waypoint follower (navigation2)

This project models two small, sequential pieces of the navigation2 stack in Dafny and proves their properties.

- **`Node2D`** (`node_2d.dfy`, module `Node2D`) is the 2-D search-graph node of the SMAC planner. It contains:
  - the static mapping between a grid cell `(x, y)` and its linear index `x + y * width`, computed in unsigned 32-bit arithmetic;
  - the inverse mapping `getCoords`, which rejects any angle-bin count other than 1;
  - the node itself: a class with the costmap cost, the accumulated cost, the node's own index, and the `visited` / `queued` search flags that `visited()` and `queued()` update in place.
- **`WaypointFollowing`** (`waypoint_follower.dfy`) is the sequencing logic of the `WaypointFollower` action server. Its `followWaypoints` loop:
  - sends one navigation goal per waypoint;
  - records missed waypoints, whether the navigation failed or the task executor failed;
  - wraps around for another loop or succeeds when the list is exhausted;
  - terminates on failure when `stop_on_failure` is set.

  The callbacks `resultCallback`, `goalResponseCallback` and `dynamicParametersCallback` update the follower's fields.

The waypoint follower is modelled on two levels:

- **Pure level.** `Iterate` is one pass of the loop body. `Step` adds the client events handled by `spin_some`. `FollowFrom` runs the loop over a sequence of passes. The lemmas about the whole run are stated over these functions.
- **Class level.** `WaypointFollower` has the fields the callbacks assign. Its methods `LoopBody`, `SpinSome` and `FollowWaypoints` run the loop imperatively, and each is proved equal to the pure functions.

The environment of the loop is an input. Each `Tick` gives three things:
- the goal-handle id when a goal is sent;
- the task executor's answer;
- the client events delivered during the spin.

Running out of ticks stands for `rclcpp::ok()` turning false.

`getCoords` fails for every angle count other than 1, zero included (node_2d.hpp:189, 195-197).

## Model

| member | source | states |
|---|---|---|
| Node2D.GetIndex | smac_planner/include/smac_planner/node_2d.hpp:179-183 | the 32-bit index of a cell with `x < width` and no overflow divides back into column `x` and row `y` |
| Node2D.GetCoords | smac_planner/include/smac_planner/node_2d.hpp:192-200 | fails exactly when `angles != 1`; otherwise the column is below the width and `x + y * width` equals the index |
| Node2D.IndexInGrid | smac_planner/include/smac_planner/node_2d.hpp:179-183 | for a cell of a `width x height` grid with at most 2^32 cells, the index does not wrap and is below `width * height` |
| Node2D.IndexRoundTrip | smac_planner/include/smac_planner/node_2d.hpp:179-200 | `getCoords(getIndex(x, y, width), width, 1) == (x, y)` when `x < width` and the index does not overflow |
| Node2D.CoordsRoundTrip | smac_planner/include/smac_planner/node_2d.hpp:179-200 | every index maps to coordinates whose index is the same index again |
| Node2D.IndexInjective | smac_planner/include/smac_planner/node_2d.hpp:179-183 | two cells of one grid have the same index if and only if they are the same cell |
| Node2D.IndexWrapsOutsideGrid | smac_planner/include/smac_planner/node_2d.hpp:179-183 | without the in-grid condition the 32-bit sum wraps: cells (0, 2) and (0, 0) of a grid 2^31 wide share an index |
| Node2D.ApplyFlagEvent | smac_planner/include/smac_planner/node_2d.hpp:125-146 | `visited()` leaves the node visited and not queued; `queued()` leaves it queued with its visited flag unchanged |
| Node2D.VisitedIsPermanent | smac_planner/include/smac_planner/node_2d.hpp:125-146 | after any sequence of `visited()`/`queued()` calls the node is visited if and only if it was before or one call was `visited()` |
| Node2D.QueuedFollowsLastEvent | smac_planner/include/smac_planner/node_2d.hpp:125-146 | after a non-empty sequence of calls the node is queued if and only if the last call was `queued()` |
| Node2D.Node2D.constructor | smac_planner/include/smac_planner/node_2d.hpp:59-64 | the new node holds the given costmap cost and cell index |
| Node2D.Node2D.SetAccumulatedCost | smac_planner/include/smac_planner/node_2d.hpp:90-102 | the getter returns the cost just set; nothing else changes |
| Node2D.Node2D.Visited | smac_planner/include/smac_planner/node_2d.hpp:125-129 | sets visited, clears queued; costs, index and parent unchanged |
| Node2D.Node2D.Queued | smac_planner/include/smac_planner/node_2d.hpp:143-146 | sets queued; visited flag, costs, index and parent unchanged |
| Node2D.Node2D.Equals | smac_planner/include/smac_planner/node_2d.hpp:76-79 | nodes compare equal when their indices are; every node equals itself |
| Node2D.EqualsIsEquivalence | smac_planner/include/smac_planner/node_2d.hpp:76-79 | equality by index is reflexive, symmetric and transitive |
| Node2D.Node2D.GetAccumulatedCost | smac_planner/include/smac_planner/node_2d.hpp:90-93 | returns the stored accumulated cost; `SetAccumulatedCost` states its effect through it, so a get after a set returns the value set |
| Node2D.Node2D.GetCost | smac_planner/include/smac_planner/node_2d.hpp:108-111 | returns the stored costmap cost; the constructor's contract states through it that a new node reports the cost it was built with |
| Node2D.Node2D.GetIndex | smac_planner/include/smac_planner/node_2d.hpp:152-155 | returns the node's own cell index, the key `Equals` compares; the constructor's contract states through it that a new node reports the index it was built with |
| Node2D.EqualsIffSameCell | smac_planner/include/smac_planner/node_2d.hpp:76-79 | two nodes compare equal (equal indices) if and only if they lie on the same grid cell |
| WaypointFollowing.ResultToStatus | nav2_waypoint_follower/src/waypoint_follower.cpp:314-328 | SUCCEEDED gives SUCCEEDED; ABORTED and CANCELED give FAILED; anything else gives UNKNOWN; never PROCESSING; only ABORTED copies the result's error code |
| WaypointFollowing.OnEvent | nav2_waypoint_follower/src/waypoint_follower.cpp:302-341 | a result for the current goal id gives `ResultToStatus` of the status; a result for another goal id changes nothing; a rejected goal (null handle) sets FAILED; an accepted goal changes nothing |
| WaypointFollowing.Deliver | nav2_waypoint_follower/src/waypoint_follower.cpp:297 | the callbacks run by `spin_some`, in order; no sequence of them puts the status into PROCESSING unless it already was |
| WaypointFollowing.StaleResultsIgnored | nav2_waypoint_follower/src/waypoint_follower.cpp:306-312 | any sequence of results for other goal ids leaves the goal status unchanged |
| WaypointFollowing.DeliveredResultIsNotProcessing | nav2_waypoint_follower/src/waypoint_follower.cpp:314-328 | once a result for the current goal arrives in a spin, the status at the end of the spin is not PROCESSING (it may be UNKNOWN, on which the loop waits; see `UnknownStatusStalls`) |
| WaypointFollowing.LastSetting | nav2_waypoint_follower/src/waypoint_follower.cpp:349-362 | a parameter is only taken from an entry of the matching type |
| WaypointFollowing.LastSettingWins | nav2_waypoint_follower/src/waypoint_follower.cpp:349-362 | a matching parameter with no later match for the same name and type is the one that takes effect |
| WaypointFollowing.NoSettingKeeps | nav2_waypoint_follower/src/waypoint_follower.cpp:349-362 | without a parameter of that name and type the setting is left unchanged |
| WaypointFollowing.LastSettingAppend | nav2_waypoint_follower/src/waypoint_follower.cpp:343-366 | two parameter updates in a row have the effect of one update with both lists |
| WaypointFollowing.Start | nav2_waypoint_follower/src/waypoint_follower.cpp:157-180 | an empty pose list succeeds at once with no missed waypoint; otherwise the loop starts in loop 0 at the requested index with a goal to send |
| WaypointFollowing.Advance | nav2_waypoint_follower/src/waypoint_follower.cpp:274-295 | moving on advances the overall position by one waypoint; it succeeds exactly when the last waypoint of the last loop is done; it never terminates |
| WaypointFollowing.Iterate | nav2_waypoint_follower/src/waypoint_follower.cpp:201-295 | the loop-body rules: sending a goal sets PROCESSING and clears `new_goal`; PROCESSING/UNKNOWN change nothing; FAILED and failed tasks append a missed waypoint with the right error code and terminate exactly under `stop_on_failure`; the index stays below the list length and the loop count stays at most the loop limit |
| WaypointFollowing.Step | nav2_waypoint_follower/src/waypoint_follower.cpp:201-298 | one pass keeps the index and loop-count invariant and appends at most one missed waypoint |
| WaypointFollowing.FollowFrom | nav2_waypoint_follower/src/waypoint_follower.cpp:182-299 | over any number of passes the invariant holds, the missed list only grows (the old one is a prefix), by at most one per pass, and a finished action stays finished |
| WaypointFollowing.FollowWaypointsRun | nav2_waypoint_follower/src/waypoint_follower.cpp:150-299 | a run records no more missed waypoints than it makes passes |
| WaypointFollowing.EmptyRequestSucceeds | nav2_waypoint_follower/src/waypoint_follower.cpp:171-174 | an empty pose list ends in success with an empty missed-waypoint list |
| WaypointFollowing.MissedWaypointsNamePoses | nav2_waypoint_follower/src/waypoint_follower.cpp:220-256 | every recorded missed waypoint carries a valid index and the pose at that index |
| WaypointFollowing.NoTerminationWithoutStopOnFailure | nav2_waypoint_follower/src/waypoint_follower.cpp:227-266 | with `stop_on_failure` off the action is never terminated |
| WaypointFollowing.TerminationFollowsMissedWaypoint | nav2_waypoint_follower/src/waypoint_follower.cpp:220-266 | a terminated action had `stop_on_failure` set, recorded a missed waypoint for the index it stopped on, and ends with error code 0 |
| WaypointFollowing.SuccessCompletesEveryLoop | nav2_waypoint_follower/src/waypoint_follower.cpp:274-288 | a successful action ends in loop `number_of_loops` at overall position `number_of_loops + 1` times the number of poses (so a run that started at `goal_index` handled that many waypoints minus `goal_index`), with error code 0 |
| WaypointFollowing.UnknownStatusStalls | nav2_waypoint_follower/src/waypoint_follower.cpp:274-275 | while the status is UNKNOWN or PROCESSING and no client event arrives, any number of passes leaves the whole state unchanged |
| WaypointFollowing.ProgressIsMonotone | nav2_waypoint_follower/src/waypoint_follower.cpp:274-295 | the overall position (loop count times list length plus index) never decreases |
| WaypointFollowing.WaypointFollower.constructor | nav2_waypoint_follower/src/waypoint_follower.cpp:58-59 | the follower holds the configured `stop_on_failure` and `loop_rate` |
| WaypointFollowing.WaypointFollower.ResultCallback | nav2_waypoint_follower/src/waypoint_follower.cpp:302-329 | the new status is `OnEvent` of the old one; a result for another goal id leaves it unchanged |
| WaypointFollowing.WaypointFollower.GoalResponseCallback | nav2_waypoint_follower/src/waypoint_follower.cpp:331-341 | a null goal handle sets the status to FAILED; otherwise nothing changes |
| WaypointFollowing.WaypointFollower.DynamicParametersCallback | nav2_waypoint_follower/src/waypoint_follower.cpp:343-366 | `loop_rate` takes the last integer `loop_rate` and `stop_on_failure` the last bool `stop_on_failure`; nothing else changes; success is always reported |
| WaypointFollowing.WaypointFollower.SpinSome | nav2_waypoint_follower/src/waypoint_follower.cpp:297 | the client events are handled in order, as `Deliver` states |
| WaypointFollowing.WaypointFollower.LoopBody | nav2_waypoint_follower/src/waypoint_follower.cpp:201-295 | the imperative loop body yields exactly the state `Iterate` specifies |
| WaypointFollowing.WaypointFollower.FollowWaypoints | nav2_waypoint_follower/src/waypoint_follower.cpp:150-300 | the loop ends in the state `FollowWaypointsRun` specifies; the empty request succeeds; missed waypoints name poses of the request; without `stop_on_failure` the action is not terminated |

## Left out

- Node2D.Node2D.constructor: promises only the cost and the index. The constructor's body is not part of this model, so the initial flags, the initial accumulated cost and the parent are left unspecified.
- The getters `getAccumulatedCost`, `getCost`, `wasVisited`, `isQueued` and `getIndex()` return non-const references (node_2d.hpp:90, 108, 117, 135, 152), so a caller can write the fields through them. The model's getters only read. `VisitedIsPermanent` and the frames of `Visited` and `Queued` therefore hold only for changes made through `visited()`, `queued()` and `setAccumulatedCost`.
- Node2D.GetCoords: requires a non-zero width when `angles == 1`. The source divides by `width` unchecked (node_2d.hpp:199), and a division by zero there has no defined behaviour to model.
- Members of `Node2D` that are only declared are not part of this model: `reset`, `isNodeValid`, `getTraversalCost`, `getHeuristicCost`, `initNeighborhood` and `getNeighbors`. The static `neutral_cost` and the neighbour offset table are defined elsewhere. So is the A* loop that uses the node.
- Floating point: `Coordinates` and the costs are floats in the source. Coordinates are modelled as exact naturals. A float holds them exactly only up to 2^24. Costs are `real`, with no rounding.
- The `parent` pointer is a plain field; none of the modelled operations updates it.
- Lifecycle callbacks, parameter declaration and plugin loading (waypoint_follower.cpp:30-148) are ROS plumbing and are not modelled. The constructor of `WaypointFollower` stands for the two parameter reads of `on_configure`.
- The action-server-inactive early return (lines 162-165) is not modelled.
- Cancel and preempt handling (lines 184-199) are not modelled.
- Feedback publishing, the `WallRate` sleep and the executor spin's timing are not modelled. The spin is modelled only as the ordered delivery of client events.
- The task executor and the navigation client are outside code. Their answers are inputs in each `Tick`.
- Parameter updates that arrive while a run is in progress are not interleaved with the loop. `stop_on_failure` is fixed for the duration of one `FollowWaypoints` call.
- A result callback for a rejected goal dereferences a null goal handle in the source. The model instead compares the result's id with the id of the last goal sent.
- `goal_index` is a `uint32_t`. Its increment never overflows for pose lists shorter than 2^32, and the model does not represent wrap-around there.
- The value of `TASK_EXECUTOR_FAILED` (601) comes from the nav2_msgs FollowWaypoints action definition, which is not part of this model.
- The requested `goal_index` must be below the number of poses (`ValidGoal`). The source indexes `poses[goal_index]` without checking it, and an out-of-range index has no defined behaviour to model.
