/** The PathFollow behaviour: a NavMeshAgent sent from waypoint to waypoint of a fixed
    list, waiting at each, wrapping around or stopping at the end. Waypoints without a
    Transform are skipped by the mutual recursion of MoveToNextWaypoint and
    AdvanceToNextWaypoint. */
module PathFollowing {
  import opened Geometry

  /** A waypoint: the position of its Transform (None when the Transform is null) and
      how long to wait there. */
  datatype Waypoint = Waypoint(waypointTransform: Option<Vec3>, waitTime: real)

  /** The NavMeshAgent as far as this behaviour drives it: the index of the waypoint
      last passed to SetDestination, and isStopped. */
  datatype NavAgent = NavAgent(destination: Option<nat>, isStopped: bool)

  /** Where the skipping recursion ends: a destination is sent for waypoint `index`, or
      the end of a non-looping path is reached and the agent is stopped. */
  datatype Outcome = Sent(index: nat) | Stopped

  /** Index of the first waypoint with a Transform, or |wps| when there is none. */
  function FirstTarget(wps: seq<Waypoint>): (v: nat)
    ensures v <= |wps|
    ensures v < |wps| ==> wps[v].waypointTransform.Some?
    ensures forall k :: 0 <= k < v ==> wps[k].waypointTransform.None?
  {
    if |wps| == 0 then 0
    else if wps[0].waypointTransform.Some? then 0
    else 1 + FirstTarget(wps[1..])
  }

  /** The skipping recursion ends: a path that loops must hold at least one waypoint
      with a Transform (an empty list never recurses). */
  predicate Settles(wps: seq<Waypoint>, loop: bool) {
    !loop || |wps| == 0 || FirstTarget(wps) < |wps|
  }

  /** Ranking for the recursion started at index i: waypoints left before the first
      target (cyclically) when looping, waypoints left before the end otherwise. */
  function Rank(wps: seq<Waypoint>, loop: bool, i: int): nat {
    if !(0 <= i < |wps|) then 0
    else if loop then
      var v := FirstTarget(wps);
      if i <= v then v - i else v + |wps| - i
    else |wps| - i
  }

  /** Ranking for an advance from index i: that of the index it moves to. */
  function AdvanceRank(wps: seq<Waypoint>, loop: bool, i: int): nat {
    if i + 1 < |wps| then Rank(wps, loop, i + 1)
    else if loop then Rank(wps, loop, 0)
    else 0
  }

  /** MoveToNextWaypoint from index i, on values. A destination is always a waypoint
      with a Transform, and only a path that does not loop stops. */
  function Settle(wps: seq<Waypoint>, loop: bool, i: int): (r: Outcome)
    requires Settles(wps, loop) && 0 <= i < |wps|
    ensures r.Sent? ==> r.index < |wps| && wps[r.index].waypointTransform.Some?
    ensures r.Stopped? ==> !loop
    decreases Rank(wps, loop, i), 1
  {
    if wps[i].waypointTransform.Some? then Sent(i) else AdvanceFrom(wps, loop, i)
  }

  /** AdvanceToNextWaypoint from index i, on values. As for Settle: a destination has a
      Transform, and only a path that does not loop stops. */
  function AdvanceFrom(wps: seq<Waypoint>, loop: bool, i: int): (r: Outcome)
    requires Settles(wps, loop) && 0 <= i < |wps|
    ensures r.Sent? ==> r.index < |wps| && wps[r.index].waypointTransform.Some?
    ensures r.Stopped? ==> !loop
    decreases AdvanceRank(wps, loop, i), 2
  {
    if i + 1 < |wps| then Settle(wps, loop, i + 1)
    else if loop then Settle(wps, loop, 0)
    else Stopped
  }

  /** Every waypoint met going from i up to (not including) j, wrapping past the end
      when j < i, lacks a Transform. */
  ghost predicate SkipsOnlyEmpty(wps: seq<Waypoint>, i: int, j: int)
    requires 0 <= i < |wps| && 0 <= j < |wps|
  {
    if i <= j then forall k :: i <= k < j ==> wps[k].waypointTransform.None?
    else
      && (forall k :: i <= k < |wps| ==> wps[k].waypointTransform.None?)
      && (forall k :: 0 <= k < j ==> wps[k].waypointTransform.None?)
  }

  /** The recursion from i sends the agent to the first waypoint with a Transform met
      going forward from i (wrapping only when looping), skipping only waypoints without
      one; it stops only on a non-looping path with no Transform from i to the end. */
  lemma {:induction false} SettleFindsNextTarget(wps: seq<Waypoint>, loop: bool, i: int)
    requires Settles(wps, loop) && 0 <= i < |wps|
    ensures match Settle(wps, loop, i)
      case Sent(j) =>
        && j < |wps| && wps[j].waypointTransform.Some?
        && SkipsOnlyEmpty(wps, i, j)
        && (!loop ==> i <= j)
      case Stopped =>
        !loop && forall k :: i <= k < |wps| ==> wps[k].waypointTransform.None?
    decreases Rank(wps, loop, i)
  {
    if wps[i].waypointTransform.None? {
      if i + 1 < |wps| {
        SettleFindsNextTarget(wps, loop, i + 1);
      } else if loop {
        SettleFindsNextTarget(wps, loop, 0);
      }
    }
  }

  /** The path stops exactly when it does not loop and no waypoint from i on has a
      Transform; a looping path therefore always gets a destination. */
  lemma StopsOnlyPastLastTarget(wps: seq<Waypoint>, loop: bool, i: int)
    requires Settles(wps, loop) && 0 <= i < |wps|
    ensures Settle(wps, loop, i) == Stopped <==>
      !loop && forall k :: i <= k < |wps| ==> wps[k].waypointTransform.None?
  {
    SettleFindsNextTarget(wps, loop, i);
  }

  /** Advancing from index i sends the agent to i + 1 when that waypoint exists and has
      a Transform. From the last index it wraps to waypoint 0 when looping; otherwise it
      stops on the last index, and advancing again from there stops again with the same
      index and agent: the end of a non-looping path is a fixed point. */
  lemma AdvanceWrapsOrClamps(wps: seq<Waypoint>, loop: bool, i: int, a: NavAgent)
    requires Settles(wps, loop) && 0 <= i < |wps|
    ensures i + 1 < |wps| && wps[i + 1].waypointTransform.Some? ==> AdvanceFrom(wps, loop, i) == Sent(i + 1)
    ensures i + 1 == |wps| && loop && wps[0].waypointTransform.Some? ==> AdvanceFrom(wps, loop, i) == Sent(0)
    ensures i + 1 == |wps| && !loop ==>
      var o := AdvanceFrom(wps, loop, i);
      && o == Stopped
      && IndexAfter(o, |wps|) == i
      && AdvanceFrom(wps, loop, IndexAfter(o, |wps|)) == Stopped
      && AgentAfter(o, AgentAfter(o, a)) == AgentAfter(o, a)
  {
  }

  /** The waypoint index once the recursion has ended. */
  function IndexAfter(o: Outcome, count: nat): int {
    match o
    case Sent(j) => j
    case Stopped => count - 1
  }

  /** The agent once the recursion has ended: a new destination, or stopped. */
  function AgentAfter(o: Outcome, a: NavAgent): NavAgent {
    match o
    case Sent(j) => a.(destination := Some(j))
    case Stopped => a.(isStopped := true)
  }

  /** Mathf.Clamp01 */
  function Clamp01(x: real): (r: real)
    ensures 0.0 <= r <= 1.0
    ensures 0.0 <= x <= 1.0 ==> r == x
    ensures x > 1.0 ==> r == 1.0
    ensures x < 0.0 ==> r == 0.0
  {
    if x < 0.0 then 0.0 else if x > 1.0 then 1.0 else x
  }

  /** The value UpdateAnimatorMoveParameter sends to the animator: the agent's speed
      as a fraction of its maximum, clamped to [0, 1]; 0 when the maximum is not
      positive. */
  function NormalizedSpeed(speed: real, maxSpeed: real): (r: real)
    ensures 0.0 <= r <= 1.0
    ensures maxSpeed <= 0.0 ==> r == 0.0
    ensures maxSpeed > 0.0 && 0.0 <= speed <= maxSpeed ==> r * maxSpeed == speed
    ensures maxSpeed > 0.0 && speed >= maxSpeed ==> r == 1.0
  {
    if maxSpeed > 0.0 then Clamp01(speed / maxSpeed) else 0.0
  }

  /** The arrival test of Update: a wait starts only when none is running, the path is
      computed and the agent is within reach of the waypoint. */
  predicate ArrivedAtWaypoint(isWaiting: bool, pathPending: bool, remainingDistance: real,
                              waypointReachedDistance: real)
  {
    !isWaiting && !pathPending && remainingDistance <= waypointReachedDistance
  }

  class PathFollow {
    const waypoints: seq<Waypoint>
    const loop: bool
    const waypointReachedDistance: real
    /** The GameObject has an Animator. */
    const hasAnimator: bool
    /** The NavMeshAgent component, None when missing. */
    var agent: Option<NavAgent>
    var currentWaypointIndex: int
    var isWaiting: bool
    var maxSpeed: real

    /** The index is always a valid position in the list (0 for an empty list), and a
        looping path has somewhere to go. */
    ghost predicate Valid()
      reads this
    {
      && Settles(waypoints, loop)
      && (if |waypoints| == 0 then currentWaypointIndex == 0 else 0 <= currentWaypointIndex < |waypoints|)
    }

    constructor (waypoints: seq<Waypoint>, loop: bool, waypointReachedDistance: real,
                 hasAnimator: bool, agent: Option<NavAgent>)
      requires Settles(waypoints, loop)
      ensures Valid()
      ensures this.waypoints == waypoints && this.loop == loop
      ensures this.waypointReachedDistance == waypointReachedDistance && this.hasAnimator == hasAnimator
      ensures this.agent == agent && currentWaypointIndex == 0 && !isWaiting && maxSpeed == 0.0
    {
      this.waypoints := waypoints;
      this.loop := loop;
      this.waypointReachedDistance := waypointReachedDistance;
      this.hasAnimator := hasAnimator;
      this.agent := agent;
      currentWaypointIndex := 0;
      isWaiting := false;
      maxSpeed := 0.0;
    }

    /** Start: records the agent's speed and heads for the current waypoint. */
    method Start(agentSpeed: real)
      requires Valid()
      modifies this`maxSpeed, this`agent, this`currentWaypointIndex
      ensures Valid()
      ensures old(agent).None? ==>
        agent == old(agent) && maxSpeed == old(maxSpeed) && currentWaypointIndex == old(currentWaypointIndex)
      ensures old(agent).Some? ==> maxSpeed == agentSpeed
      ensures old(agent).Some? && |waypoints| == 0 ==>
        agent == old(agent) && currentWaypointIndex == old(currentWaypointIndex)
      ensures old(agent).Some? && |waypoints| > 0 ==>
        var o := Settle(waypoints, loop, old(currentWaypointIndex));
        currentWaypointIndex == IndexAfter(o, |waypoints|) && agent == Some(AgentAfter(o, old(agent).value))
    {
      if agent.None? {
        return;
      }
      maxSpeed := agentSpeed;
      if |waypoints| == 0 {
        return;
      }
      MoveToNextWaypoint();
    }

    /** Update: refreshes the animator's Move parameter and, on arrival, starts the
        wait (whose first half runs at once). Returns the value sent to the animator
        and, when a wait started, its duration. */
    method Update(pathPending: bool, remainingDistance: real, velocityMagnitude: real)
      returns (moveParameter: Option<real>, waitStarted: Option<real>)
      requires Valid()
      modifies this`isWaiting
      ensures Valid()
      ensures moveParameter ==
        if |waypoints| > 0 && agent.Some? && hasAnimator then Some(NormalizedSpeed(velocityMagnitude, maxSpeed))
        else None
      ensures waitStarted.Some? <==>
        |waypoints| > 0 && agent.Some? &&
        ArrivedAtWaypoint(old(isWaiting), pathPending, remainingDistance, waypointReachedDistance)
      ensures waitStarted.Some? ==> isWaiting && waitStarted.value == waypoints[currentWaypointIndex].waitTime
      ensures waitStarted.None? ==> isWaiting == old(isWaiting)
    {
      moveParameter, waitStarted := None, None;
      if |waypoints| == 0 || agent.None? {
        return;
      }
      moveParameter := UpdateAnimatorMoveParameter(velocityMagnitude);
      if !isWaiting && !pathPending {
        if remainingDistance <= waypointReachedDistance {
          var waitTime := BeginWaitAtWaypoint();
          waitStarted := Some(waitTime);
        }
      }
    }

    /** MoveToNextWaypoint: nothing on an empty list; otherwise the destination is set
        to the current waypoint, or, when its Transform is null, the path advances. */
    method MoveToNextWaypoint()
      requires Valid() && agent.Some?
      modifies this`agent, this`currentWaypointIndex
      ensures Valid()
      ensures |waypoints| == 0 ==> agent == old(agent) && currentWaypointIndex == old(currentWaypointIndex)
      ensures |waypoints| > 0 ==>
        var o := Settle(waypoints, loop, old(currentWaypointIndex));
        currentWaypointIndex == IndexAfter(o, |waypoints|) && agent == Some(AgentAfter(o, old(agent).value))
      decreases Rank(waypoints, loop, currentWaypointIndex), 1
    {
      if |waypoints| == 0 {
        return;
      }
      if waypoints[currentWaypointIndex].waypointTransform.None? {
        AdvanceToNextWaypoint();
        return;
      }
      agent := Some(agent.value.(destination := Some(currentWaypointIndex)));
    }

    /** AdvanceToNextWaypoint: the next index, wrapping to 0 when looping; past the end
        of a non-looping path the index stays on the last waypoint and the agent stops. */
    method AdvanceToNextWaypoint()
      requires Valid() && agent.Some? && |waypoints| > 0
      modifies this`agent, this`currentWaypointIndex
      ensures Valid()
      ensures var o := AdvanceFrom(waypoints, loop, old(currentWaypointIndex));
        currentWaypointIndex == IndexAfter(o, |waypoints|) && agent == Some(AgentAfter(o, old(agent).value))
      decreases AdvanceRank(waypoints, loop, currentWaypointIndex), 2
    {
      currentWaypointIndex := currentWaypointIndex + 1;
      if currentWaypointIndex >= |waypoints| {
        if loop {
          currentWaypointIndex := 0;
          MoveToNextWaypoint();
        } else {
          currentWaypointIndex := |waypoints| - 1;
          agent := Some(agent.value.(isStopped := true));
        }
      } else {
        MoveToNextWaypoint();
      }
    }

    /** First half of the WaitAtWaypoint coroutine, up to its yield: marks the wait and
        returns the current waypoint's wait time. */
    method BeginWaitAtWaypoint() returns (waitTime: real)
      requires Valid() && |waypoints| > 0
      modifies this`isWaiting
      ensures Valid()
      ensures isWaiting && waitTime == waypoints[currentWaypointIndex].waitTime
    {
      isWaiting := true;
      waitTime := waypoints[currentWaypointIndex].waitTime;
    }

    /** Second half of the WaitAtWaypoint coroutine, after the wait: advances exactly
        once and clears the wait. */
    method EndWaitAtWaypoint()
      requires Valid() && agent.Some? && |waypoints| > 0
      modifies this`agent, this`currentWaypointIndex, this`isWaiting
      ensures Valid() && !isWaiting
      ensures var o := AdvanceFrom(waypoints, loop, old(currentWaypointIndex));
        currentWaypointIndex == IndexAfter(o, |waypoints|) && agent == Some(AgentAfter(o, old(agent).value))
    {
      AdvanceToNextWaypoint();
      isWaiting := false;
    }

    /** UpdateAnimatorMoveParameter: the value set on the animator, None without one. */
    method UpdateAnimatorMoveParameter(velocityMagnitude: real) returns (value: Option<real>)
      ensures value == if hasAnimator then Some(NormalizedSpeed(velocityMagnitude, maxSpeed)) else None
      ensures value.Some? <==> hasAnimator
      ensures value.Some? ==> 0.0 <= value.value <= 1.0 && (maxSpeed <= 0.0 ==> value.value == 0.0)
      ensures value.Some? && maxSpeed > 0.0 && 0.0 <= velocityMagnitude <= maxSpeed ==>
        value.value * maxSpeed == velocityMagnitude
    {
      if !hasAnimator {
        return None;
      }
      var normalizedSpeed := 0.0;
      if maxSpeed > 0.0 {
        normalizedSpeed := velocityMagnitude / maxSpeed;
        normalizedSpeed := Clamp01(normalizedSpeed);
      }
      value := Some(normalizedSpeed);
    }

    /** StopMovement: stops the agent, if there is one; nothing else changes. */
    method StopMovement()
      requires Valid()
      modifies this`agent
      ensures Valid()
      ensures agent == if old(agent).Some? then Some(old(agent).value.(isStopped := true)) else None
    {
      if agent.Some? {
        agent := Some(agent.value.(isStopped := true));
      }
    }

    /** ResumeMovement: un-stops the agent and, unless a wait is running, re-issues the
        move to the current waypoint. */
    method ResumeMovement()
      requires Valid()
      modifies this`agent, this`currentWaypointIndex
      ensures Valid()
      ensures old(agent).None? ==> agent == old(agent) && currentWaypointIndex == old(currentWaypointIndex)
      ensures old(agent).Some? && (isWaiting || |waypoints| == 0) ==>
        agent == Some(old(agent).value.(isStopped := false)) && currentWaypointIndex == old(currentWaypointIndex)
      ensures old(agent).Some? && !isWaiting && |waypoints| > 0 ==>
        var o := Settle(waypoints, loop, old(currentWaypointIndex));
        && currentWaypointIndex == IndexAfter(o, |waypoints|)
        && agent == Some(AgentAfter(o, old(agent).value.(isStopped := false)))
    {
      if agent.Some? {
        agent := Some(agent.value.(isStopped := false));
        if !isWaiting {
          MoveToNextWaypoint();
        }
      }
    }

    /** ResetPath: back to waypoint 0, no wait running, the agent un-stopped and sent
        on from waypoint 0. */
    method ResetPath()
      requires Valid()
      modifies this`agent, this`currentWaypointIndex, this`isWaiting
      ensures Valid() && !isWaiting
      ensures old(agent).None? ==> agent == old(agent) && currentWaypointIndex == 0
      ensures old(agent).Some? && |waypoints| == 0 ==>
        agent == Some(old(agent).value.(isStopped := false)) && currentWaypointIndex == 0
      ensures old(agent).Some? && |waypoints| > 0 ==>
        var o := Settle(waypoints, loop, 0);
        && currentWaypointIndex == IndexAfter(o, |waypoints|)
        && agent == Some(AgentAfter(o, old(agent).value.(isStopped := false)))
    {
      currentWaypointIndex := 0;
      isWaiting := false;
      if agent.Some? {
        agent := Some(agent.value.(isStopped := false));
        MoveToNextWaypoint();
      }
    }
  }

  /** ResetPath does not end a wait already running: on a two-waypoint path, a reset
      during the wait at waypoint 0 returns the index to 0 and re-sends the agent there,
      and when the wait ends the pending advance moves the path on to waypoint 1. */
  method ResetDuringWait() returns (index: int, destination: Option<nat>)
    ensures index == 1 && destination == Some(1)
  {
    var wps := [Waypoint(Some(Zero), 1.0), Waypoint(Some(Down), 1.0)];
    var pf := new PathFollow(wps, false, 0.5, false, Some(NavAgent(None, false)));
    pf.Start(3.5);
    var waitTime := pf.BeginWaitAtWaypoint();
    pf.ResetPath();
    assert pf.currentWaypointIndex == 0 && pf.agent.value.destination == Some(0);
    pf.EndWaitAtWaypoint();
    index, destination := pf.currentWaypointIndex, pf.agent.value.destination;
  }
}
