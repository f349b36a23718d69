/** A model of the waypoint-sequencing logic of nav2's WaypointFollower action
    server: the loop that sends one navigation goal per waypoint, records missed
    waypoints, loops over the list and terminates on failure, and the callbacks
    that feed it the navigation client's answers and new parameter values. */
module WaypointFollowing {

  datatype Option<T> = None | Some(value: T)

  /** Status of the navigation goal currently in flight (current_goal_status_). */
  datatype ActionStatus = Unknown | Processing | Failed | Succeeded
  datatype GoalStatus = GoalStatus(status: ActionStatus, errorCode: int)

  /** Result code the navigation action client reports with a result. */
  datatype ResultCode = ResultUnknown | ResultSucceeded | ResultCanceled | ResultAborted

  /** Error code recorded for a waypoint whose task execution failed
      (FollowWaypoints action definition of nav2_msgs). */
  const TASK_EXECUTOR_FAILED: int := 601

  datatype MissedWaypoint<P> = MissedWaypoint(index: nat, goal: P, errorCode: int)

  /** The follow-waypoints request: poses are opaque to the follower. */
  datatype Goal<P> = Goal(poses: seq<P>, goalIndex: nat, numberOfLoops: nat)

  /** How the action ends: still executing (the loop was left because the
      process is shutting down), succeeded_current or terminate_current. */
  datatype ServerOutcome = Executing | SucceededCurrent | TerminatedCurrent

  /** What the navigation client reports while the executor spins. */
  datatype ClientEvent =
    | GoalResponse(accepted: bool)
    | Result(goalId: nat, code: ResultCode, errorCode: int)

  /** The environment of one loop iteration: the id of the goal handle if a goal
      is sent, the task executor's answer if it is consulted, and the client
      events delivered by spin_some at the end of the iteration. */
  datatype Tick = Tick(sentGoalId: nat, taskExecuted: bool, events: seq<ClientEvent>)

  /** A request the loop can serve: it indexes poses[goalIndex] without a check. */
  predicate ValidGoal<P>(goal: Goal<P>)
  {
    |goal.poses| == 0 || goal.goalIndex < |goal.poses|
  }

  // ---------------------------------------------------------------- callbacks

  /** resultCallback for a result of the current goal: maps the client's result
      code onto the goal status. */
  function ResultToStatus(current: GoalStatus, code: ResultCode, resultErrorCode: int): (r: GoalStatus)
    ensures r.status == Succeeded <==> code == ResultSucceeded
    ensures r.status == Failed <==> code == ResultAborted || code == ResultCanceled
    ensures r.status == Unknown <==> code == ResultUnknown
    ensures r.status != Processing
    ensures code != ResultAborted ==> r.errorCode == current.errorCode
    ensures code == ResultAborted ==> r.errorCode == resultErrorCode
  {
    match code
    case ResultSucceeded => current.(status := Succeeded)
    case ResultAborted => GoalStatus(Failed, resultErrorCode)
    case ResultCanceled => current.(status := Failed)
    case ResultUnknown => current.(status := Unknown)
  }

  /** Effect of one client event on the goal status; results for any goal other
      than the current one are ignored, and so is an accepted goal response. */
  function OnEvent(status: GoalStatus, currentGoalId: nat, e: ClientEvent): (r: GoalStatus)
    ensures e.Result? && e.goalId != currentGoalId ==> r == status
    ensures e.Result? && e.goalId == currentGoalId ==> r == ResultToStatus(status, e.code, e.errorCode)
    ensures e.GoalResponse? ==> r == if e.accepted then status else status.(status := Failed)
  {
    match e
    case GoalResponse(accepted) => if accepted then status else status.(status := Failed)
    case Result(id, code, err) => if id == currentGoalId then ResultToStatus(status, code, err) else status
  }

  /** The goal status after the events are handled in order. */
  function Deliver(status: GoalStatus, currentGoalId: nat, events: seq<ClientEvent>): (r: GoalStatus)
    // no callback puts the follower into PROCESSING; only sending a goal does
    ensures r.status == Processing ==> status.status == Processing
    decreases |events|
  {
    if events == [] then status
    else OnEvent(Deliver(status, currentGoalId, events[..|events| - 1]), currentGoalId, events[|events| - 1])
  }

  /** Events that concern other goals leave the status alone. */
  lemma {:induction false} StaleResultsIgnored(status: GoalStatus, currentGoalId: nat, events: seq<ClientEvent>)
    requires forall i :: 0 <= i < |events| ==> events[i].Result? && events[i].goalId != currentGoalId
    ensures Deliver(status, currentGoalId, events) == status
    decreases |events|
  {
    if events != [] {
      StaleResultsIgnored(status, currentGoalId, events[..|events| - 1]);
    }
  }

  /** After any result for the current goal the status is final for the step
      loop: it is never PROCESSING again until a new goal is sent. */
  lemma {:induction false} DeliveredResultIsNotProcessing(status: GoalStatus, currentGoalId: nat, events: seq<ClientEvent>, i: nat)
    requires i < |events| && events[i].Result? && events[i].goalId == currentGoalId
    ensures Deliver(status, currentGoalId, events).status != Processing
    decreases |events|
  {
    var n := |events| - 1;
    if i < n {
      DeliveredResultIsNotProcessing(status, currentGoalId, events[..n], i);
    }
  }

  // ------------------------------------------------------- dynamic parameters

  datatype ParameterValue = IntegerValue(i: int) | BoolValue(b: bool) | OtherValue
  datatype ParameterType = IntegerType | BoolType | OtherType
  datatype Parameter = Parameter(name: string, value: ParameterValue)

  function TypeOf(v: ParameterValue): ParameterType
  {
    match v
    case IntegerValue(_) => IntegerType
    case BoolValue(_) => BoolType
    case OtherValue => OtherType
  }

  predicate Sets(p: Parameter, name: string, t: ParameterType)
  {
    p.name == name && TypeOf(p.value) == t
  }

  /** The value of the last parameter in the list with that name and type. */
  function LastSetting(ps: seq<Parameter>, name: string, t: ParameterType): (r: Option<ParameterValue>)
    ensures r.Some? ==> TypeOf(r.value) == t
    decreases |ps|
  {
    if ps == [] then None
    else if Sets(ps[|ps| - 1], name, t) then Some(ps[|ps| - 1].value)
    else LastSetting(ps[..|ps| - 1], name, t)
  }

  /** A setting takes effect when no later parameter sets the same name and type. */
  lemma {:induction false} LastSettingWins(ps: seq<Parameter>, name: string, t: ParameterType, i: nat)
    requires i < |ps| && Sets(ps[i], name, t)
    requires forall j :: i < j < |ps| ==> !Sets(ps[j], name, t)
    ensures LastSetting(ps, name, t) == Some(ps[i].value)
    decreases |ps|
  {
    if i < |ps| - 1 {
      LastSettingWins(ps[..|ps| - 1], name, t, i);
    }
  }

  /** Without a parameter of that name and type nothing is set. */
  lemma {:induction false} NoSettingKeeps(ps: seq<Parameter>, name: string, t: ParameterType)
    requires forall j :: 0 <= j < |ps| ==> !Sets(ps[j], name, t)
    ensures LastSetting(ps, name, t) == None
    decreases |ps|
  {
    if ps != [] {
      NoSettingKeeps(ps[..|ps| - 1], name, t);
    }
  }

  /** Two parameter updates in a row act like one update with both lists. */
  lemma {:induction false} LastSettingAppend(a: seq<Parameter>, b: seq<Parameter>, name: string, t: ParameterType)
    ensures LastSetting(a + b, name, t) ==
      if LastSetting(b, name, t).Some? then LastSetting(b, name, t) else LastSetting(a, name, t)
    decreases |b|
  {
    if b != [] {
      var n := |b| - 1;
      assert (a + b)[..|a + b| - 1] == a + b[..n];
      LastSettingAppend(a, b[..n], name, t);
    } else {
      assert a + b == a;
    }
  }

  const LOOP_RATE_NAME: string := "loop_rate"
  const STOP_ON_FAILURE_NAME: string := "stop_on_failure"

  function LoopRateAfter(rate: int, ps: seq<Parameter>): int
  {
    match LastSetting(ps, LOOP_RATE_NAME, IntegerType)
    case Some(v) => v.i
    case None => rate
  }

  function StopOnFailureAfter(stop: bool, ps: seq<Parameter>): bool
  {
    match LastSetting(ps, STOP_ON_FAILURE_NAME, BoolType)
    case Some(v) => v.b
    case None => stop
  }

  lemma LastSettingSnoc(ps: seq<Parameter>, i: nat, name: string, t: ParameterType)
    requires i < |ps|
    ensures LastSetting(ps[..i + 1], name, t) ==
      if Sets(ps[i], name, t) then Some(ps[i].value) else LastSetting(ps[..i], name, t)
  {
    assert ps[..i + 1][..i] == ps[..i];
  }

  // ------------------------------------------------------------ the step loop

  /** The state the loop of followWaypoints works on: its locals goal_index,
      current_loop_no and new_goal, the result's missed waypoints, how the
      action ended, and the follower's current_goal_status_ and the id of the
      goal handle it waits for. */
  datatype Progress<P> = Progress(
    goalIndex: nat,
    currentLoopNo: nat,
    newGoal: bool,
    missed: seq<MissedWaypoint<P>>,
    outcome: ServerOutcome,
    status: GoalStatus,
    goalId: nat)

  predicate Inv<P>(p: Progress<P>, goal: Goal<P>)
  {
    && (p.outcome == Executing ==> p.goalIndex < |goal.poses|)
    && p.currentLoopNo <= goal.numberOfLoops
  }

  /** How far along the request is: the number of waypoints completed so far
      counting every loop. */
  function Position<P>(p: Progress<P>, goal: Goal<P>): nat
  {
    p.currentLoopNo * |goal.poses| + p.goalIndex
  }

  /** Every missed waypoint names a pose of the request by its index. */
  ghost predicate MissedWellFormed<P>(missed: seq<MissedWaypoint<P>>, goal: Goal<P>)
  {
    forall k :: 0 <= k < |missed| ==>
      missed[k].index < |goal.poses| && missed[k].goal == goal.poses[missed[k].index]
  }

  /** The start of followWaypoints: an empty request succeeds at once,
      otherwise the loop starts on the requested waypoint with a goal to send. */
  function Start<P>(goal: Goal<P>, status: GoalStatus, goalId: nat): (r: Progress<P>)
    requires ValidGoal(goal)
    ensures Inv(r, goal) && r.missed == [] && r.currentLoopNo == 0
    ensures r.outcome == SucceededCurrent <==> |goal.poses| == 0
    ensures r.outcome == Executing ==> r.newGoal && r.goalIndex == goal.goalIndex
  {
    if |goal.poses| == 0 then Progress(0, 0, false, [], SucceededCurrent, status, goalId)
    else Progress(goal.goalIndex, 0, true, [], Executing, status, goalId)
  }

  /** Ends the action: the current goal's error code is cleared. */
  function Finish<P>(p: Progress<P>, outcome: ServerOutcome): Progress<P>
  {
    p.(outcome := outcome, status := p.status.(errorCode := 0))
  }

  /** The waypoint has been handled: move to the next one, starting another
      loop or succeeding when the list is exhausted. */
  function Advance<P>(p: Progress<P>, goal: Goal<P>): (r: Progress<P>)
    requires p.outcome == Executing && Inv(p, goal)
    ensures Inv(r, goal) && r.newGoal && r.missed == p.missed
    ensures r.outcome == SucceededCurrent <==>
      p.goalIndex + 1 == |goal.poses| && p.currentLoopNo == goal.numberOfLoops
    ensures r.outcome != TerminatedCurrent
    ensures r.outcome == Executing ==> Position(r, goal) == Position(p, goal) + 1
    ensures r.outcome == SucceededCurrent ==> Position(p, goal) + 1 == (goal.numberOfLoops + 1) * |goal.poses|
  {
    var next := p.goalIndex + 1;
    if next >= |goal.poses| then
      if p.currentLoopNo == goal.numberOfLoops then
        Finish(p.(goalIndex := next, newGoal := true), SucceededCurrent)
      else
        p.(goalIndex := 0, newGoal := true, currentLoopNo := p.currentLoopNo + 1)
    else
      p.(goalIndex := next, newGoal := true)
  }

  /** The body of the loop of followWaypoints, up to the spin of the executor. */
  function Iterate<P>(p: Progress<P>, goal: Goal<P>, stopOnFailure: bool, tick: Tick): (r: Progress<P>)
    requires p.outcome == Executing && Inv(p, goal)
    ensures Inv(r, goal)
    ensures |p.missed| <= |r.missed| <= |p.missed| + 1 && r.missed[..|p.missed|] == p.missed
    // termination records the current waypoint as missed and stays on it
    ensures r.outcome == TerminatedCurrent ==>
      && r.goalIndex == p.goalIndex && |r.missed| == |p.missed| + 1
      && r.missed[|p.missed|].index == p.goalIndex
    // sending a goal marks it PROCESSING, so nothing else happens in that pass
    ensures p.newGoal ==> r == p.(newGoal := false, status := p.status.(status := Processing), goalId := tick.sentGoalId)
    // while the goal is in flight nothing changes
    ensures !p.newGoal && p.status.status in {Processing, Unknown} ==> r == p
    // a failed goal is recorded with its error code; with stop_on_failure the action ends
    ensures !p.newGoal && p.status.status == Failed ==>
      && r.missed == p.missed + [MissedWaypoint(p.goalIndex, goal.poses[p.goalIndex], p.status.errorCode)]
      && (r.outcome == TerminatedCurrent <==> stopOnFailure)
      && (stopOnFailure ==> r.status.errorCode == 0)
    // a reached waypoint whose task fails is recorded; with stop_on_failure the action ends
    ensures !p.newGoal && p.status.status == Succeeded ==>
      && r.missed == (if tick.taskExecuted then p.missed
                      else p.missed + [MissedWaypoint(p.goalIndex, goal.poses[p.goalIndex], TASK_EXECUTOR_FAILED)])
      && (r.outcome == TerminatedCurrent <==> !tick.taskExecuted && stopOnFailure)
    // otherwise the follower moves on to the next waypoint
    ensures !p.newGoal && p.status.status in {Failed, Succeeded} && r.outcome != TerminatedCurrent ==>
      r == Advance(p.(missed := r.missed), goal)
  {
    if p.newGoal then
      p.(newGoal := false, status := p.status.(status := Processing), goalId := tick.sentGoalId)
    else
      var i := p.goalIndex;
      match p.status.status
      case Failed =>
        var q := p.(missed := p.missed + [MissedWaypoint(i, goal.poses[i], p.status.errorCode)]);
        if stopOnFailure then Finish(q, TerminatedCurrent) else Advance(q, goal)
      case Succeeded =>
        var q := if tick.taskExecuted then p
                 else p.(missed := p.missed + [MissedWaypoint(i, goal.poses[i], TASK_EXECUTOR_FAILED)]);
        if !tick.taskExecuted && stopOnFailure then Finish(q, TerminatedCurrent) else Advance(q, goal)
      case _ => p
  }

  /** One pass of the loop: the body, then, unless it returned, the client
      events delivered while the executor spins. */
  function Step<P>(p: Progress<P>, goal: Goal<P>, stopOnFailure: bool, tick: Tick): (r: Progress<P>)
    requires p.outcome == Executing && Inv(p, goal)
    ensures Inv(r, goal)
    ensures |p.missed| <= |r.missed| <= |p.missed| + 1 && r.missed[..|p.missed|] == p.missed
  {
    var q := Iterate(p, goal, stopOnFailure, tick);
    if q.outcome == Executing then q.(status := Deliver(q.status, q.goalId, tick.events)) else q
  }

  /** The loop run over a sequence of passes, stopping when the action ends. */
  function FollowFrom<P>(p: Progress<P>, goal: Goal<P>, stopOnFailure: bool, ticks: seq<Tick>): (r: Progress<P>)
    requires Inv(p, goal)
    ensures Inv(r, goal)
    ensures |p.missed| <= |r.missed| && r.missed[..|p.missed|] == p.missed
    ensures |r.missed| <= |p.missed| + |ticks|
    ensures p.outcome != Executing ==> r == p
    decreases |ticks|
  {
    if ticks == [] || p.outcome != Executing then p
    else FollowFrom(Step(p, goal, stopOnFailure, ticks[0]), goal, stopOnFailure, ticks[1..])
  }

  /** followWaypoints from the request to the end of the loop. */
  function FollowWaypointsRun<P>(goal: Goal<P>, stopOnFailure: bool, status: GoalStatus, goalId: nat, ticks: seq<Tick>): (r: Progress<P>)
    requires ValidGoal(goal)
    ensures Inv(r, goal)
    ensures |r.missed| <= |ticks|
  {
    FollowFrom(Start(goal, status, goalId), goal, stopOnFailure, ticks)
  }

  /** An empty request succeeds at once with no missed waypoint, whatever happens next. */
  lemma EmptyRequestSucceeds<P>(goal: Goal<P>, stopOnFailure: bool, status: GoalStatus, goalId: nat, ticks: seq<Tick>)
    requires |goal.poses| == 0
    ensures FollowWaypointsRun(goal, stopOnFailure, status, goalId, ticks).outcome == SucceededCurrent
    ensures FollowWaypointsRun(goal, stopOnFailure, status, goalId, ticks).missed == []
  {
  }

  /** Every missed waypoint the run records names a pose of the request by its index. */
  lemma {:induction false} MissedWaypointsNamePoses<P>(p: Progress<P>, goal: Goal<P>, stopOnFailure: bool, ticks: seq<Tick>)
    requires Inv(p, goal) && MissedWellFormed(p.missed, goal)
    ensures MissedWellFormed(FollowFrom(p, goal, stopOnFailure, ticks).missed, goal)
    decreases |ticks|
  {
    if ticks != [] && p.outcome == Executing {
      var q := Step(p, goal, stopOnFailure, ticks[0]);
      assert MissedWellFormed(q.missed, goal);
      MissedWaypointsNamePoses(q, goal, stopOnFailure, ticks[1..]);
    }
  }

  /** Without stop_on_failure the action is never terminated: failures are
      only recorded. */
  lemma {:induction false} NoTerminationWithoutStopOnFailure<P>(p: Progress<P>, goal: Goal<P>, ticks: seq<Tick>)
    requires Inv(p, goal) && p.outcome == Executing
    ensures FollowFrom(p, goal, false, ticks).outcome != TerminatedCurrent
    decreases |ticks|
  {
    if ticks != [] {
      var q := Step(p, goal, false, ticks[0]);
      if q.outcome == Executing {
        NoTerminationWithoutStopOnFailure(q, goal, ticks[1..]);
      }
    }
  }

  /** A terminated action was asked to stop on failure, ends with a cleared
      error code, and its last recorded missed waypoint is the one it stopped on. */
  lemma {:induction false} TerminationFollowsMissedWaypoint<P>(p: Progress<P>, goal: Goal<P>, stopOnFailure: bool, ticks: seq<Tick>)
    requires Inv(p, goal) && p.outcome == Executing
    ensures var r := FollowFrom(p, goal, stopOnFailure, ticks);
      r.outcome == TerminatedCurrent ==>
        && stopOnFailure && r.status.errorCode == 0 && |r.missed| > |p.missed|
        && r.missed[|r.missed| - 1].index == r.goalIndex
    decreases |ticks|
  {
    if ticks != [] {
      var q := Step(p, goal, stopOnFailure, ticks[0]);
      if q.outcome == Executing {
        TerminationFollowsMissedWaypoint(q, goal, stopOnFailure, ticks[1..]);
        assert |q.missed| >= |p.missed| by {
          assert q.missed == Iterate(p, goal, stopOnFailure, ticks[0]).missed;
        }
      }
    }
  }

  /** A successful action went through every loop: it ends in the last loop at
      overall position (number_of_loops + 1) * |poses|, with a cleared error
      code. A run that starts at goal_index has handled that position minus
      goal_index waypoints. */
  lemma {:induction false} SuccessCompletesEveryLoop<P>(p: Progress<P>, goal: Goal<P>, stopOnFailure: bool, ticks: seq<Tick>)
    requires Inv(p, goal) && p.outcome == Executing
    ensures var r := FollowFrom(p, goal, stopOnFailure, ticks);
      r.outcome == SucceededCurrent ==>
        && r.currentLoopNo == goal.numberOfLoops
        && Position(r, goal) == (goal.numberOfLoops + 1) * |goal.poses|
        && r.status.errorCode == 0
    decreases |ticks|
  {
    if ticks != [] {
      var q := Step(p, goal, stopOnFailure, ticks[0]);
      if q.outcome == Executing {
        SuccessCompletesEveryLoop(q, goal, stopOnFailure, ticks[1..]);
      }
    }
  }

  /** The position in the request never moves backwards. */
  lemma {:induction false} ProgressIsMonotone<P>(p: Progress<P>, goal: Goal<P>, stopOnFailure: bool, ticks: seq<Tick>)
    requires Inv(p, goal)
    ensures Position(p, goal) <= Position(FollowFrom(p, goal, stopOnFailure, ticks), goal)
    decreases |ticks|
  {
    if ticks != [] && p.outcome == Executing {
      var q := Step(p, goal, stopOnFailure, ticks[0]);
      assert Position(p, goal) <= Position(q, goal);
      ProgressIsMonotone(q, goal, stopOnFailure, ticks[1..]);
    }
  }

  /** A goal whose result came back UNKNOWN, like one still PROCESSING, holds
      the loop where it is: while no further client event arrives, no number
      of passes changes anything, since only PROCESSING and UNKNOWN keep the
      follower from moving on and no pass sends a new goal. */
  lemma {:induction false} UnknownStatusStalls<P>(p: Progress<P>, goal: Goal<P>, stopOnFailure: bool, ticks: seq<Tick>)
    requires Inv(p, goal) && p.outcome == Executing && !p.newGoal
    requires p.status.status == Unknown || p.status.status == Processing
    requires forall k :: 0 <= k < |ticks| ==> ticks[k].events == []
    ensures FollowFrom(p, goal, stopOnFailure, ticks) == p
    decreases |ticks|
  {
    if ticks != [] {
      assert Step(p, goal, stopOnFailure, ticks[0]) == p;
      UnknownStatusStalls(p, goal, stopOnFailure, ticks[1..]);
    }
  }

  // --------------------------------------------------------------- the server

  /** The waypoint follower with the state its callbacks update in place. */
  class WaypointFollower {
    var stopOnFailure: bool
    var loopRate: int
    var currentGoalStatus: GoalStatus
    /** Id of the goal handle of the last goal sent (future_goal_handle_). */
    var futureGoalId: nat

    /** The follower as configured from its stop_on_failure and loop_rate parameters. */
    constructor (stopOnFailure: bool, loopRate: int)
      ensures this.stopOnFailure == stopOnFailure && this.loopRate == loopRate
    {
      this.stopOnFailure := stopOnFailure;
      this.loopRate := loopRate;
      this.currentGoalStatus := GoalStatus(Unknown, 0);
      this.futureGoalId := 0;
    }

    method ResultCallback(goalId: nat, code: ResultCode, resultErrorCode: int)
      modifies this`currentGoalStatus
      ensures currentGoalStatus == OnEvent(old(currentGoalStatus), futureGoalId, Result(goalId, code, resultErrorCode))
      ensures goalId != futureGoalId ==> currentGoalStatus == old(currentGoalStatus)
    {
      if goalId != futureGoalId {
        return;
      }
      match code
      case ResultSucceeded =>
        currentGoalStatus := currentGoalStatus.(status := Succeeded);
      case ResultAborted =>
        currentGoalStatus := currentGoalStatus.(status := Failed);
        currentGoalStatus := currentGoalStatus.(errorCode := resultErrorCode);
      case ResultCanceled =>
        currentGoalStatus := currentGoalStatus.(status := Failed);
      case ResultUnknown =>
        currentGoalStatus := currentGoalStatus.(status := Unknown);
    }

    /** A goal the navigation server did not accept counts as failed. */
    method GoalResponseCallback(accepted: bool)
      modifies this`currentGoalStatus
      ensures currentGoalStatus == OnEvent(old(currentGoalStatus), futureGoalId, GoalResponse(accepted))
      ensures !accepted ==> currentGoalStatus.status == Failed
    {
      if !accepted {
        currentGoalStatus := currentGoalStatus.(status := Failed);
      }
    }

    /** Takes the integer loop_rate and the bool stop_on_failure from the list;
        every other parameter is ignored. Always reports success. */
    method DynamicParametersCallback(parameters: seq<Parameter>) returns (successful: bool)
      modifies this`loopRate, this`stopOnFailure
      ensures loopRate == LoopRateAfter(old(loopRate), parameters)
      ensures stopOnFailure == StopOnFailureAfter(old(stopOnFailure), parameters)
      ensures successful
    {
      for i := 0 to |parameters|
        invariant loopRate == LoopRateAfter(old(loopRate), parameters[..i])
        invariant stopOnFailure == StopOnFailureAfter(old(stopOnFailure), parameters[..i])
      {
        LastSettingSnoc(parameters, i, LOOP_RATE_NAME, IntegerType);
        LastSettingSnoc(parameters, i, STOP_ON_FAILURE_NAME, BoolType);
        var parameter := parameters[i];
        match parameter.value
        case IntegerValue(v) =>
          if parameter.name == LOOP_RATE_NAME {
            loopRate := v;
          }
        case BoolValue(v) =>
          if parameter.name == STOP_ON_FAILURE_NAME {
            stopOnFailure := v;
          }
        case OtherValue =>
      }
      assert parameters[..|parameters|] == parameters;
      successful := true;
    }

    /** Handles the client events spin_some delivers, in order. */
    method SpinSome(events: seq<ClientEvent>)
      modifies this`currentGoalStatus
      ensures currentGoalStatus == Deliver(old(currentGoalStatus), futureGoalId, events)
    {
      for j := 0 to |events|
        invariant currentGoalStatus == Deliver(old(currentGoalStatus), futureGoalId, events[..j])
      {
        assert events[..j + 1][..j] == events[..j];
        match events[j]
        case GoalResponse(accepted) => GoalResponseCallback(accepted);
        case Result(id, code, err) => ResultCallback(id, code, err);
      }
      assert events[..|events|] == events;
    }

    function State<P>(goalIndex: nat, currentLoopNo: nat, newGoal: bool,
                      missed: seq<MissedWaypoint<P>>, outcome: ServerOutcome): Progress<P>
      reads this
    {
      Progress(goalIndex, currentLoopNo, newGoal, missed, outcome, currentGoalStatus, futureGoalId)
    }

    /** One pass of the loop of followWaypoints up to the spin of the executor:
        sends a goal when one is due, then acts on the status of the goal in flight. */
    method LoopBody<P>(goal: Goal<P>, tick: Tick, goalIndex: nat, currentLoopNo: nat, newGoal: bool,
                       missed: seq<MissedWaypoint<P>>)
      returns (goalIndex': nat, currentLoopNo': nat, newGoal': bool,
               missed': seq<MissedWaypoint<P>>, outcome: ServerOutcome)
      requires Inv(State(goalIndex, currentLoopNo, newGoal, missed, Executing), goal)
      modifies this`currentGoalStatus, this`futureGoalId
      ensures State(goalIndex', currentLoopNo', newGoal', missed', outcome) ==
        Iterate(old(State(goalIndex, currentLoopNo, newGoal, missed, Executing)), goal, stopOnFailure, tick)
    {
      goalIndex', currentLoopNo', newGoal', missed', outcome := goalIndex, currentLoopNo, newGoal, missed, Executing;
      if newGoal' {
        newGoal' := false;
        futureGoalId := tick.sentGoalId;
        currentGoalStatus := currentGoalStatus.(status := Processing);
      }

      if currentGoalStatus.status == Failed {
        missed' := missed' + [MissedWaypoint(goalIndex', goal.poses[goalIndex'], currentGoalStatus.errorCode)];
        if stopOnFailure {
          outcome := TerminatedCurrent;
          currentGoalStatus := currentGoalStatus.(errorCode := 0);
          return;
        }
      } else if currentGoalStatus.status == Succeeded {
        var isTaskExecuted := tick.taskExecuted;
        if !isTaskExecuted {
          missed' := missed' + [MissedWaypoint(goalIndex', goal.poses[goalIndex'], TASK_EXECUTOR_FAILED)];
        }
        if !isTaskExecuted && stopOnFailure {
          outcome := TerminatedCurrent;
          currentGoalStatus := currentGoalStatus.(errorCode := 0);
          return;
        }
      }

      if currentGoalStatus.status != Processing && currentGoalStatus.status != Unknown {
        goalIndex' := goalIndex' + 1;
        newGoal' := true;
        if goalIndex' >= |goal.poses| {
          if currentLoopNo' == goal.numberOfLoops {
            outcome := SucceededCurrent;
            currentGoalStatus := currentGoalStatus.(errorCode := 0);
            return;
          }
          goalIndex' := 0;
          currentLoopNo' := currentLoopNo' + 1;
        }
      }
    }

    /** Serves one follow-waypoints request. Each element of ticks is one pass
        of the loop; running out of them stands for the process shutting down. */
    method FollowWaypoints<P>(goal: Goal<P>, ticks: seq<Tick>)
      returns (missed: seq<MissedWaypoint<P>>, outcome: ServerOutcome)
      requires ValidGoal(goal)
      modifies this`currentGoalStatus, this`futureGoalId
      ensures var r := FollowWaypointsRun(goal, stopOnFailure, old(currentGoalStatus), old(futureGoalId), ticks);
        && missed == r.missed && outcome == r.outcome
        && currentGoalStatus == r.status && futureGoalId == r.goalId
      ensures |goal.poses| == 0 ==> outcome == SucceededCurrent && missed == []
      ensures MissedWellFormed(missed, goal)
      ensures !stopOnFailure ==> outcome != TerminatedCurrent
    {
      ghost var run := FollowWaypointsRun(goal, stopOnFailure, currentGoalStatus, futureGoalId, ticks);
      ghost var start: Progress<P> := Start(goal, currentGoalStatus, futureGoalId);
      MissedWaypointsNamePoses(start, goal, stopOnFailure, ticks);
      if |goal.poses| > 0 && !stopOnFailure {
        NoTerminationWithoutStopOnFailure(start, goal, ticks);
      }

      var currentLoopNo: nat := 0;
      missed := [];
      if |goal.poses| == 0 {
        outcome := SucceededCurrent;
        return;
      }
      var goalIndex: nat := goal.goalIndex;
      var newGoal := true;
      outcome := Executing;

      var k := 0;
      while k < |ticks|
        invariant 0 <= k <= |ticks|
        invariant outcome == Executing
        invariant Inv(State(goalIndex, currentLoopNo, newGoal, missed, outcome), goal)
        invariant FollowFrom(State(goalIndex, currentLoopNo, newGoal, missed, outcome), goal, stopOnFailure, ticks[k..]) == run
      {
        var tick := ticks[k];
        ghost var before: Progress<P> := State(goalIndex, currentLoopNo, newGoal, missed, outcome);
        assert ticks[k..][1..] == ticks[k + 1..];
        goalIndex, currentLoopNo, newGoal, missed, outcome := LoopBody(goal, tick, goalIndex, currentLoopNo, newGoal, missed);
        if outcome != Executing {
          return;
        }
        SpinSome(tick.events);
        assert State(goalIndex, currentLoopNo, newGoal, missed, outcome) == Step(before, goal, stopOnFailure, tick);
        k := k + 1;
      }
    }
  }
}
