/** The Grounder behaviour: once per frame it probes straight down from above the
    object, takes the ground height from the physics query or, failing that, from the
    manual mesh scan, and moves only the object's Y coordinate onto it. */
module Grounding {
  import opened Geometry
  import opened MeshRaycast

  /** Physics.Raycast(ray, out hit, maxDistance, layerMask, QueryTriggerInteraction.Ignore):
      the point hit, or None. */
  type PhysicsRaycast = (Ray, real, bv32) -> Option<Vec3>

  /** Mathf.SmoothDamp(current, target, ref velocity, smoothTime), frame time included:
      the new value and the new velocity. */
  type SmoothDamp = (real, real, real, real) -> (real, real)

  /** The serialised settings of a Grounder, fixed for its lifetime. The LayerMask is
      its 32-bit value. */
  datatype Settings = Settings(
    offsetY: real,
    raycastHeight: real,
    raycastDistance: real,
    groundMask: bv32,
    smooth: bool,
    smoothTime: real,
    useManualMeshRaycast: bool,
    meshForManualRaycast: Option<MeshFilter>)

  /** `~0`: every layer. */
  const AllLayers: bv32 := 0xFFFF_FFFF

  /** The mask handed to the physics query: every layer when none is configured,
      otherwise the configured mask unchanged. It never selects no layer at all. */
  function EffectiveMask(groundMask: bv32): (mask: bv32)
    ensures mask != 0
    ensures groundMask & mask == groundMask
    ensures groundMask == 0 ==> mask == AllLayers
    ensures groundMask != 0 ==> mask == groundMask
  {
    if groundMask == 0 then !0 else groundMask
  }

  /** The probe: from the object's position raised by raycastHeight, straight down. */
  function ProbeRay(pos: Vec3, raycastHeight: real): (ray: Ray)
    ensures ray.origin.x == pos.x && ray.origin.z == pos.z
    ensures ray.origin.y - pos.y == raycastHeight
    ensures ray.direction.x == 0.0 && ray.direction.z == 0.0 && ray.direction.y < 0.0
  {
    Ray(Vec3(pos.x, pos.y + raycastHeight, pos.z), Down)
  }

  /** The manual scan is attempted: the flag is set and the filter and its mesh exist. */
  predicate ManualScanEnabled(s: Settings) {
    s.useManualMeshRaycast && s.meshForManualRaycast.Some? && s.meshForManualRaycast.value.sharedMesh.Some?
  }

  /** The manual mesh, when one is configured, is one the scan can index. */
  predicate MeshReady(s: Settings) {
    s.meshForManualRaycast.Some? && s.meshForManualRaycast.value.sharedMesh.Some? ==>
      WellFormed(s.meshForManualRaycast.value.sharedMesh.value)
  }

  /** The query the manual scan runs for an object at pos. */
  function ManualQuery(s: Settings, pos: Vec3, ops: VectorOps): MeshQuery
    requires ManualScanEnabled(s)
  {
    QueryOf(s.meshForManualRaycast.value, ProbeRay(pos, s.raycastHeight), ops)
  }

  /** The ground point found for an object at pos, tried in order: the physics query,
      then (if enabled) the manual scan; None when neither reports a hit. A physics hit
      is taken as is; without the manual scan the physics result is the answer; and a
      point the physics query did not report is a hit point of the manual mesh. */
  function SurfaceHit(s: Settings, pos: Vec3, physics: PhysicsRaycast, ops: VectorOps): (r: Option<Vec3>)
    requires MeshReady(s)
    ensures var p := physics(ProbeRay(pos, s.raycastHeight), s.raycastDistance, EffectiveMask(s.groundMask));
      && (p.Some? || !ManualScanEnabled(s) ==> r == p)
      && (r.Some? && p.None? ==>
            ManualScanEnabled(s) && Scan(ManualQuery(s, pos, ops), TriangleCount(ManualQuery(s, pos, ops).mesh)).hitAny)
  {
    var ray := ProbeRay(pos, s.raycastHeight);
    var accelerated := physics(ray, s.raycastDistance, EffectiveMask(s.groundMask));
    if accelerated.Some? then accelerated
    else if ManualScanEnabled(s) then
      var q := ManualQuery(s, pos, ops);
      var scan := Scan(q, TriangleCount(q.mesh));
      if scan.hitAny then Some(scan.bestHit.point) else None
    else None
  }

  /** When the physics query hits, its point is the result whatever the manual-scan
      settings are: the scan is not consulted. */
  lemma AcceleratedHitWins(s: Settings, pos: Vec3, physics: PhysicsRaycast, ops: VectorOps,
                           useManual: bool, mesh: Option<MeshFilter>)
    requires MeshReady(s)
    requires MeshReady(s.(useManualMeshRaycast := useManual, meshForManualRaycast := mesh))
    requires physics(ProbeRay(pos, s.raycastHeight), s.raycastDistance, EffectiveMask(s.groundMask)).Some?
    ensures SurfaceHit(s, pos, physics, ops)
         == physics(ProbeRay(pos, s.raycastHeight), s.raycastDistance, EffectiveMask(s.groundMask))
    ensures SurfaceHit(s, pos, physics, ops)
         == SurfaceHit(s.(useManualMeshRaycast := useManual, meshForManualRaycast := mesh), pos, physics, ops)
  {
  }

  /** No ground is found exactly when the physics query misses and either the manual
      scan is not enabled or it accepts no triangle. */
  lemma NoSurfaceIffBothMiss(s: Settings, pos: Vec3, physics: PhysicsRaycast, ops: VectorOps)
    requires MeshReady(s)
    ensures SurfaceHit(s, pos, physics, ops).None? <==>
      && physics(ProbeRay(pos, s.raycastHeight), s.raycastDistance, EffectiveMask(s.groundMask)).None?
      && (ManualScanEnabled(s) ==>
            var q := ManualQuery(s, pos, ops);
            forall k :: 0 <= k < TriangleCount(q.mesh) ==> Candidate(q, k).None?)
  {
    if ManualScanEnabled(s) {
      var q := ManualQuery(s, pos, ops);
      ScanMissesOnlyWhenNothingAccepted(q, TriangleCount(q.mesh));
    }
  }

  /** A ground point that does not come from the physics query comes from the manual
      scan: it is the point of an accepted triangle no farther than any other. */
  lemma FallbackHitIsNearestTriangle(s: Settings, pos: Vec3, physics: PhysicsRaycast, ops: VectorOps)
    requires MeshReady(s)
    requires physics(ProbeRay(pos, s.raycastHeight), s.raycastDistance, EffectiveMask(s.groundMask)).None?
    requires SurfaceHit(s, pos, physics, ops).Some?
    ensures ManualScanEnabled(s)
    ensures var q := ManualQuery(s, pos, ops);
      exists k :: 0 <= k < TriangleCount(q.mesh) && Candidate(q, k).Some? &&
        Candidate(q, k).value.point == SurfaceHit(s, pos, physics, ops).value &&
        forall j :: 0 <= j < TriangleCount(q.mesh) && Candidate(q, j).Some? ==>
          Candidate(q, k).value.distance.value <= Candidate(q, j).value.distance.value
  {
    var q := ManualQuery(s, pos, ops);
    var n := TriangleCount(q.mesh);
    ScanKeepsNearest(q, n);
    ScanKeepsEarliestOnTies(q, n);
  }

  /** Position and SmoothDamp velocity after MoverY. */
  datatype Motion = Motion(position: Vec3, yVel: real)

  /** What MoverY leaves behind: X and Z as they were; Y exactly targetY without
      smoothing, the SmoothDamp output with it; the velocity touched only when smoothing. */
  function MoverYResult(s: Settings, currentPos: Vec3, yVel: real, targetY: real, damp: SmoothDamp): (m: Motion)
    ensures m.position.x == currentPos.x && m.position.z == currentPos.z
    ensures !s.smooth ==> m.position.y == targetY && m.yVel == yVel
    ensures s.smooth ==> (m.position.y, m.yVel) == damp(currentPos.y, targetY, yVel, s.smoothTime)
  {
    if s.smooth then
      var (y, v) := damp(currentPos.y, targetY, yVel, s.smoothTime);
      Motion(Vec3(currentPos.x, y, currentPos.z), v)
    else
      Motion(Vec3(currentPos.x, targetY, currentPos.z), yVel)
  }

  class Grounder {
    const settings: Settings
    /** transform.position */
    var position: Vec3
    var yVel: real
    var lastHitPoint: Vec3
    var hadHit: bool

    constructor (settings: Settings, position: Vec3)
      requires MeshReady(settings)
      ensures this.settings == settings && this.position == position
      ensures yVel == 0.0 && lastHitPoint == Zero && !hadHit
    {
      this.settings := settings;
      this.position := position;
      yVel := 0.0;
      lastHitPoint := Zero;
      hadHit := false;
    }

    /** Moves the object to targetY on Y only, through SmoothDamp when smoothing. */
    method MoverY(currentPos: Vec3, targetY: real, damp: SmoothDamp)
      modifies this`position, this`yVel
      ensures Motion(position, yVel) == MoverYResult(settings, currentPos, old(yVel), targetY, damp)
    {
      var newY := targetY;
      if settings.smooth {
        var (y, v) := damp(currentPos.y, targetY, yVel, settings.smoothTime);
        newY, yVel := y, v;
      }
      position := Vec3(currentPos.x, newY, currentPos.z);
    }

    /** One frame (LateUpdate): on a hit, record it and move Y to the hit's height plus
      offsetY; on no hit, clear hadHit and leave position, velocity and the last hit
      point alone. */
    method ActualizarAlturaSobreSuelo(physics: PhysicsRaycast, ops: VectorOps, damp: SmoothDamp)
      requires MeshReady(settings)
      modifies this`position, this`yVel, this`lastHitPoint, this`hadHit
      ensures var hit := SurfaceHit(settings, old(position), physics, ops);
        && hadHit == hit.Some?
        && (hit.Some? ==>
              && lastHitPoint == hit.value
              && Motion(position, yVel)
                 == MoverYResult(settings, old(position), old(yVel), hit.value.y + settings.offsetY, damp))
        && (hit.None? ==>
              position == old(position) && yVel == old(yVel) && lastHitPoint == old(lastHitPoint))
    {
      var pos := position;
      var ray := ProbeRay(pos, settings.raycastHeight);
      var mask := EffectiveMask(settings.groundMask);

      var hit := physics(ray, settings.raycastDistance, mask);
      if hit.Some? {
        hadHit := true;
        lastHitPoint := hit.value;
        var targetY := hit.value.y + settings.offsetY;
        MoverY(pos, targetY, damp);
        return;
      }

      if settings.useManualMeshRaycast && settings.meshForManualRaycast.Some?
         && settings.meshForManualRaycast.value.sharedMesh.Some?
      {
        var found, mHit := RaycastMesh(settings.meshForManualRaycast.value, ray, ops);
        if found {
          hadHit := true;
          lastHitPoint := mHit.point;
          var targetY := mHit.point.y + settings.offsetY;
          MoverY(pos, targetY, damp);
          return;
        }
      }

      hadHit := false;
    }
  }
}
