# Ground-height resolution and waypoint following, modelled in Dafny

This project models the two behaviours of a Unity scene that carry logic of their own:

- **Grounder** keeps an object standing on the ground. Every frame it casts a probe ray
  straight down from `raycastHeight` above the object. It asks the physics engine first
  (`Physics.Raycast`, with the ground layer mask, or every layer when the mask is empty).
  When that misses and manual mode is on with a mesh present, it scans the mesh's
  triangles itself with the Möller–Trumbore test and keeps the nearest accepted hit. On a
  hit it moves only Y, to `hit.y + offsetY`, optionally through `Mathf.SmoothDamp`. On no
  hit it leaves the object where it is.
- **PathFollow** drives a NavMeshAgent along a fixed list of waypoints. It waits at each
  one, then advances. At the end it wraps to the first waypoint (loop) or stays on the
  last one with the agent stopped. Waypoints whose Transform is null are skipped by the
  mutual recursion of `MoveToNextWaypoint` and `AdvanceToNextWaypoint`.

Files:

- `geometry.dfy` (module `Geometry`): `Vec3` over `real`, rays, and the engine's
  transform, normalisation and distance calls as function-valued inputs.
- `mesh_raycast.dfy` (module `MeshRaycast`): the per-triangle test
  `IntersectTriangle`, the world-space `Candidate` of each triangle, one iteration
  `Step`, and the scan state `Scan` after the first n triangles. `Fold` is the same
  iteration over any list of candidates; the scan's properties are proved once on
  `Fold` and carried over to `Scan` by `ScanIsFold`. The imperative `RaycastMesh` loop
  steps the index list by 3 and is proved equal to `Scan`.
- `grounder.dfy` (module `Grounding`): the mask default, the probe ray, the
  source-selection function `SurfaceHit` with its lemmas, and the class `Grounder`. Its
  fields are `position` (`transform.position`), `yVel`, `lastHitPoint` and `hadHit`.
  Its methods `MoverY` and `ActualizarAlturaSobreSuelo` are proved against
  `MoverYResult` and `SurfaceHit`.
- `path_follow.dfy` (module `PathFollowing`): `Settle` and `AdvanceFrom` restate the
  skipping recursion as functions on values. Their termination argument is `Rank`. The
  class `PathFollow` holds the index, the waiting flag and the agent record, and its
  methods are proved against those functions.

Modelling choices:

- `Physics.Raycast` is an input of type `(Ray, real, bv32) -> Option<Vec3>`.
  `Mathf.SmoothDamp`, with the frame time folded in, is an input of type
  `(real, real, real, real) -> (real, real)`.
- The mesh Transform's four maps, `Vector3.Normalize` and `Vector3.Distance` are
  function fields of datatypes the caller supplies.
- `float.PositiveInfinity` in `MeshHit.distance` is the `Infinity` case of `Distance`.
  Every finite distance is below it.
- The LayerMask is its 32-bit value (`bv32`), so `~0` is `0xFFFF_FFFF`.
- The NavMeshAgent is the record `NavAgent(destination, isStopped)`. `destination` is
  the index of the waypoint last passed to `SetDestination`. A missing agent is `None`,
  so the source's null checks are kept.
- `pathPending`, `remainingDistance`, `velocity.magnitude` and `agent.speed` are method
  inputs.
- The `WaitAtWaypoint` coroutine is split into two atomic steps. `BeginWaitAtWaypoint`
  is the part up to the `yield`; `StartCoroutine` runs it inside `Update`.
  `EndWaitAtWaypoint` is the part after the wait.

Notes on the code as modelled:

- The manual scan compares world-space distances: `Vector3.Distance` of the ray origin
  and the world hit point (Grounder.cs:159-163).
- The comparison is a strict `<`, so among equally near triangles the earliest wins.
- Smoothing is `Mathf.SmoothDamp`, called with `_yVel` by reference; the model returns
  the new velocity with the new height.

## Model

| member | source | states |
|---|---|---|
| `MeshRaycast.IntersectTriangle` | Assets/Scripts/Grounder.cs:140-153 | a triangle is accepted iff its determinant lies outside (-EPS, EPS), 0 <= u <= 1, v >= 0, u + v <= 1 and tHit > EPS; the accepted value is tHit, which is > EPS |
| `MeshRaycast.DegenerateTriangleNeverHit` | Assets/Scripts/Grounder.cs:140-144 | a triangle with two equal corners (v0 = v1, v0 = v2 or v1 = v2) has determinant 0, so the parallel guard skips it |
| `MeshRaycast.Candidate` | Assets/Scripts/Grounder.cs:136-161 | an accepted triangle gives a world-space hit whose distance is finite |
| `MeshRaycast.Step` | Assets/Scripts/Grounder.cs:163-167 | one iteration either keeps the state or makes the candidate the best hit; a hit is never lost, the best distance never grows, and a candidate exactly as near as the best is ignored |
| `MeshRaycast.Scan` | Assets/Scripts/Grounder.cs:119-169 | after any number of triangles the scan reports a hit iff its best distance is finite, and without a hit the record is still the initial one |
| `MeshRaycast.Fold` | Assets/Scripts/Grounder.cs:119-169 | over any list of candidates, the iteration reports a hit iff its best distance is finite, and without a hit the record is still the initial one |
| `MeshRaycast.FoldMissesOnlyWhenNothingPresent` | Assets/Scripts/Grounder.cs:119-169 | over a list whose present candidates have finite distances, the iteration reports no hit iff no candidate is present |
| `MeshRaycast.FoldKeepsNearest` | Assets/Scripts/Grounder.cs:163-167 | after a hit, the best distance is at most that of every present candidate |
| `MeshRaycast.FoldKeepsEarliestOnTies` | Assets/Scripts/Grounder.cs:163-167 | after a hit, the best hit is one present candidate and every earlier present candidate is strictly farther |
| `MeshRaycast.ScanIsFold` | Assets/Scripts/Grounder.cs:134-169 | the scan over the first n triangles equals the iteration over their candidates in index order |
| `MeshRaycast.ScanMissesOnlyWhenNothingAccepted` | Assets/Scripts/Grounder.cs:119-121 | the scan reports no hit iff no triangle is accepted, and then the record is the initial one with distance +infinity |
| `MeshRaycast.ScanKeepsNearest` | Assets/Scripts/Grounder.cs:163-167 | after a hit, the best distance is finite and at most the world distance of every accepted triangle |
| `MeshRaycast.ScanKeepsEarliestOnTies` | Assets/Scripts/Grounder.cs:163-167 | after a hit, the best hit is the hit of one accepted triangle, and every earlier accepted triangle is strictly farther (strict `<`: the earliest wins a tie) |
| `MeshRaycast.RaycastMesh` | Assets/Scripts/Grounder.cs:117-171 | no mesh gives false with distance +infinity; otherwise the loop over the index list in steps of 3 returns exactly `Scan` over every triangle: true iff some triangle is accepted, then a hit no farther than any accepted one |
| `Grounding.EffectiveMask` | Assets/Scripts/Grounder.cs:53 | an empty ground mask becomes all layers; any other mask is used unchanged; the result is never empty |
| `Grounding.ProbeRay` | Assets/Scripts/Grounder.cs:47-51 | the probe starts at the position raised by raycastHeight on Y with X and Z unchanged, and points straight down |
| `Grounding.SurfaceHit` | Assets/Scripts/Grounder.cs:47-79 | a physics hit is the answer as is; with the manual scan disabled the physics result is the answer; a point the physics query did not report comes from an enabled manual scan that hit |
| `Grounding.AcceleratedHitWins` | Assets/Scripts/Grounder.cs:55-63 | when the physics query hits, its point is the ground point, whatever the manual-scan settings are |
| `Grounding.NoSurfaceIffBothMiss` | Assets/Scripts/Grounder.cs:55-79 | no ground point iff the physics query misses and either manual mode is not enabled (flag, filter and mesh) or no triangle is accepted |
| `Grounding.FallbackHitIsNearestTriangle` | Assets/Scripts/Grounder.cs:65-75 | a ground point found after the physics query misses comes from an enabled manual scan and is the point of an accepted triangle no farther than any other |
| `Grounding.MoverYResult` | Assets/Scripts/Grounder.cs:82-90 | X and Z are kept; without smoothing Y is exactly targetY and the velocity is untouched; with smoothing Y and the velocity are SmoothDamp's outputs |
| `Grounding.Grounder.constructor` | Assets/Scripts/Grounder.cs:17-29 | a new Grounder starts with zero velocity, no hit and the last hit point at the origin |
| `Grounding.Grounder.MoverY` | Assets/Scripts/Grounder.cs:82-90 | the new position and velocity are those of `MoverYResult` |
| `Grounding.Grounder.ActualizarAlturaSobreSuelo` | Assets/Scripts/Grounder.cs:45-80 | hadHit is whether `SurfaceHit` finds ground; on a hit, lastHitPoint is the hit and Y moves to hit.y + offsetY through `MoverYResult`; on no hit, position, velocity and lastHitPoint are unchanged |
| `PathFollowing.Settle` | Assets/Scripts/PathFollow.cs:90-105 | the move from index i ends with a destination that is a waypoint with a Transform, or with a stop, and only a non-looping path stops |
| `PathFollowing.AdvanceFrom` | Assets/Scripts/PathFollow.cs:121-146 | the advance from index i ends with a destination that is a waypoint with a Transform, or with a stop, and only a non-looping path stops |
| `PathFollowing.SettleFindsNextTarget` | Assets/Scripts/PathFollow.cs:90-146 | the skipping recursion from index i sends the agent to the first waypoint with a Transform going forward from i, wrapping only when looping, and skips only null ones; it stops only on a non-looping path with no Transform from i to the end |
| `PathFollowing.StopsOnlyPastLastTarget` | Assets/Scripts/PathFollow.cs:126-139 | the recursion stops iff the path does not loop and no waypoint from i on has a Transform; a looping path always gets a destination |
| `PathFollowing.AdvanceWrapsOrClamps` | Assets/Scripts/PathFollow.cs:121-146 | advancing sends the agent to i + 1 when that waypoint exists and has a Transform; from the last index it goes to waypoint 0 when looping (if it has a Transform); otherwise it stops on the last index, and advancing again from there stops again with the same index and agent (a fixed point) |
| `PathFollowing.Clamp01` | Assets/Scripts/PathFollow.cs:159 | the result lies in [0, 1]: negative inputs give 0, inputs above 1 give 1, and inputs in [0, 1] are returned unchanged |
| `PathFollowing.NormalizedSpeed` | Assets/Scripts/PathFollow.cs:154-160 | the animator value lies in [0, 1]; it is 0 when maxSpeed <= 0; it is speed / maxSpeed below the maximum and 1 at or above it |
| `PathFollowing.PathFollow.constructor` | Assets/Scripts/PathFollow.cs:25-26 | the index starts at 0 with no wait running, and the index invariant holds |
| `PathFollowing.PathFollow.Start` | Assets/Scripts/PathFollow.cs:46-70 | without an agent nothing changes; otherwise maxSpeed becomes the agent's speed and, for a non-empty list, the recursion runs from the current index |
| `PathFollowing.PathFollow.Update` | Assets/Scripts/PathFollow.cs:72-88 | with a non-empty list and an agent, the animator receives `NormalizedSpeed`; a wait starts iff none is running, the path is not pending and the remaining distance is within reach; starting it sets isWaiting |
| `PathFollowing.PathFollow.MoveToNextWaypoint` | Assets/Scripts/PathFollow.cs:90-105 | nothing on an empty list; otherwise the index and agent become those of `Settle` from the current index; the index invariant is kept |
| `PathFollowing.PathFollow.AdvanceToNextWaypoint` | Assets/Scripts/PathFollow.cs:121-146 | the index and agent become those of `AdvanceFrom` the current index (next index, wrap to 0, or clamp to Count - 1 and stop); the index invariant is kept |
| `PathFollowing.PathFollow.BeginWaitAtWaypoint` | Assets/Scripts/PathFollow.cs:107-113 | the wait is marked as running and its duration is the current waypoint's waitTime; the index invariant is kept |
| `PathFollowing.PathFollow.EndWaitAtWaypoint` | Assets/Scripts/PathFollow.cs:115-119 | after the wait the path advances exactly once (as `AdvanceFrom`) and the wait is cleared |
| `PathFollowing.PathFollow.UpdateAnimatorMoveParameter` | Assets/Scripts/PathFollow.cs:148-164 | no value without an animator; otherwise `NormalizedSpeed` of the velocity magnitude, in [0, 1] and 0 when maxSpeed <= 0 |
| `PathFollowing.PathFollow.StopMovement` | Assets/Scripts/PathFollow.cs:167-171 | only the agent's isStopped changes, to true, and only when there is an agent; the index invariant is kept |
| `PathFollowing.PathFollow.ResumeMovement` | Assets/Scripts/PathFollow.cs:173-181 | with an agent: it is un-stopped, and only when no wait is running is the move to the current waypoint re-issued (as `Settle`) |
| `PathFollowing.PathFollow.ResetPath` | Assets/Scripts/PathFollow.cs:183-192 | the index returns to 0 and the wait is cleared; with an agent it is un-stopped and the recursion runs from waypoint 0 |
| `PathFollowing.ResetDuringWait` | Assets/Scripts/PathFollow.cs:183-192 | `ResetPath` clears the waiting flag but does not stop a running `WaitAtWaypoint`: on a two-waypoint path, a reset during the wait at waypoint 0 is followed, when the wait ends, by an advance to waypoint 1 |

## Left out

- `Grounder.Awake` and `AddMeshCollidersRecursively` (with `groundRoot` and `autoAddMeshColliders`) add MeshCollider components to the scene; they are engine setup, not logic.
- The internals of `Physics.Raycast` (including `QueryTriggerInteraction.Ignore`), `Mathf.SmoothDamp`, the Transform maps, `Vector3.Normalize` and `Vector3.Distance` are foreign engine calls. They are inputs, so the model does not prove smoothing convergence or that a hit point lies on its triangle.
- IEEE-754 behaviour (rounding, NaN, overflow) is not modelled: floats are `real`, and only the +infinity start value of the scan is kept.
- Gizmo drawing (`OnDrawGizmosSelected`, `OnDrawGizmos`) and the `Debug.Log` messages are editor output only.
- NavMesh path planning and the `WaitForSeconds` timing belong to the engine. `pathPending`, `remainingDistance` and the velocity are inputs, and the coroutine is two atomic steps with the delay between them left to the caller.
- `Animator.StringToHash` and `SetFloat` are engine calls. `UpdateAnimatorMoveParameter` returns the value it would set.
- The `enabled = false` that `Awake` and `Start` apply when the agent is missing is not modelled. A missing agent is `None`. The public methods, `Start` and `Update` check for it as the source does. `MoveToNextWaypoint`, `AdvanceToNextWaypoint` and `EndWaitAtWaypoint` require an agent, which every caller in the source guarantees.
- `PathFollowing.PathFollow.MoveToNextWaypoint`: requires, through `Valid()`, that a looping path holds at least one waypoint with a Transform. With `loop` set and every Transform null, the source recurses between `MoveToNextWaypoint` and `AdvanceToNextWaypoint` without end, until the stack overflows; the model does not represent that run.
- `PathFollowing.PathFollow.AdvanceToNextWaypoint`: requires a non-empty list and an agent, which every caller in the source guarantees (`Update` returns early otherwise).
- The agent records the index of the waypoint sent to `SetDestination`, not that waypoint's world position.
- The animation scripts (`GirlAnimation`, `OldManAnimation`, `AnimationLooper` and its three subclasses) and the serialised `PathWaypoints` holder are not part of this model. Its `orientAgent` field is never read by `PathFollow`.
