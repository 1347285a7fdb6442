/** The brute-force ray/mesh query of the Grounder behaviour: a Möller–Trumbore test
    against every triangle of one mesh, keeping the nearest accepted hit. */
module MeshRaycast {
  import opened Geometry

  /** The acceptance tolerance of the scan (1e-6f in the source). */
  const EPS: real := 1.0 / 1000000.0

  /** Mesh.vertices (local space) and Mesh.triangles (three vertex indices per triangle). */
  datatype Mesh = Mesh(vertices: seq<Vec3>, triangles: seq<int>)

  /** A MeshFilter: its Transform and its sharedMesh, which may be null. */
  datatype MeshFilter = MeshFilter(transform: Transform, sharedMesh: Option<Mesh>)

  /** What the scan's indexing relies on: whole triangles, every index a vertex. */
  predicate WellFormed(mesh: Mesh) {
    && |mesh.triangles| % 3 == 0
    && forall i :: 0 <= i < |mesh.triangles| ==> 0 <= mesh.triangles[i] < |mesh.vertices|
  }

  function TriangleCount(mesh: Mesh): nat {
    |mesh.triangles| / 3
  }

  /** Corner c (0, 1 or 2) of triangle k. */
  function Corner(mesh: Mesh, k: nat, c: nat): Vec3
    requires WellFormed(mesh) && k < TriangleCount(mesh) && c < 3
  {
    mesh.vertices[mesh.triangles[3 * k + c]]
  }

  /** A float distance that may be +infinity, as MeshHit.distance starts out. */
  datatype Distance = Finite(value: real) | Infinity

  /** `d < best` with +infinity above every finite value. */
  predicate Closer(d: real, best: Distance) {
    best.Infinity? || d < best.value
  }

  datatype MeshHit = MeshHit(point: Vec3, normal: Vec3, distance: Distance)

  /** `new MeshHit { distance = float.PositiveInfinity }` */
  const NoHit: MeshHit := MeshHit(Zero, Zero, Infinity)

  // The Möller–Trumbore quantities for a ray (ro, rd) and a triangle (v0, v1, v2).

  function Det(rd: Vec3, v0: Vec3, v1: Vec3, v2: Vec3): real {
    Dot(Sub(v1, v0), Cross(rd, Sub(v2, v0)))
  }

  /** The determinant lies inside the tolerance band: ray and triangle plane are parallel. */
  predicate Parallel(rd: Vec3, v0: Vec3, v1: Vec3, v2: Vec3) {
    -EPS < Det(rd, v0, v1, v2) < EPS
  }

  /** First barycentric coordinate of the crossing point. */
  function BaryU(ro: Vec3, rd: Vec3, v0: Vec3, v1: Vec3, v2: Vec3): real
    requires !Parallel(rd, v0, v1, v2)
  {
    Dot(Sub(ro, v0), Cross(rd, Sub(v2, v0))) * (1.0 / Det(rd, v0, v1, v2))
  }

  /** Second barycentric coordinate of the crossing point. */
  function BaryV(ro: Vec3, rd: Vec3, v0: Vec3, v1: Vec3, v2: Vec3): real
    requires !Parallel(rd, v0, v1, v2)
  {
    Dot(rd, Cross(Sub(ro, v0), Sub(v1, v0))) * (1.0 / Det(rd, v0, v1, v2))
  }

  /** Ray parameter of the crossing point. */
  function RayParam(ro: Vec3, rd: Vec3, v0: Vec3, v1: Vec3, v2: Vec3): real
    requires !Parallel(rd, v0, v1, v2)
  {
    Dot(Sub(v2, v0), Cross(Sub(ro, v0), Sub(v1, v0))) * (1.0 / Det(rd, v0, v1, v2))
  }

  /** The per-triangle test of the scan, with its early exits. It accepts exactly the
      triangles that are not parallel to the ray, whose crossing point lies inside
      them (0 <= u <= 1, v >= 0, u + v <= 1) and in front of the origin (t > EPS). */
  function IntersectTriangle(ro: Vec3, rd: Vec3, v0: Vec3, v1: Vec3, v2: Vec3): (tHit: Option<real>)
    ensures tHit.Some? <==>
      && !Parallel(rd, v0, v1, v2)
      && 0.0 <= BaryU(ro, rd, v0, v1, v2) <= 1.0
      && BaryV(ro, rd, v0, v1, v2) >= 0.0
      && BaryU(ro, rd, v0, v1, v2) + BaryV(ro, rd, v0, v1, v2) <= 1.0
      && RayParam(ro, rd, v0, v1, v2) > EPS
    ensures tHit.Some? ==> tHit.value == RayParam(ro, rd, v0, v1, v2) && tHit.value > EPS
  {
    if Parallel(rd, v0, v1, v2) then None
    else
      var u := BaryU(ro, rd, v0, v1, v2);
      if u < 0.0 || u > 1.0 then None
      else
        var v := BaryV(ro, rd, v0, v1, v2);
        if v < 0.0 || u + v > 1.0 then None
        else
          var t := RayParam(ro, rd, v0, v1, v2);
          if t > EPS then Some(t) else None
  }

  /** A triangle with two equal corners, whichever two, has determinant 0 and is never
      hit. */
  lemma DegenerateTriangleNeverHit(ro: Vec3, rd: Vec3, v0: Vec3, v1: Vec3, v2: Vec3)
    ensures Det(rd, v0, v0, v2) == 0.0 && IntersectTriangle(ro, rd, v0, v0, v2) == None
    ensures Det(rd, v0, v1, v0) == 0.0 && IntersectTriangle(ro, rd, v0, v1, v0) == None
    ensures Det(rd, v0, v1, v1) == 0.0 && IntersectTriangle(ro, rd, v0, v1, v1) == None
  {
  }

  /** One query of the scan: the mesh's transform, the mesh, the world-space ray and the
      vector services. */
  datatype MeshQuery = MeshQuery(frame: Transform, mesh: Mesh, worldRay: Ray, ops: VectorOps)

  /** The query RaycastMesh runs for a filter whose sharedMesh is present. */
  function QueryOf(mf: MeshFilter, worldRay: Ray, ops: VectorOps): MeshQuery
    requires mf.sharedMesh.Some?
  {
    MeshQuery(mf.transform, mf.sharedMesh.value, worldRay, ops)
  }

  /** The world-space hit contributed by triangle k, if the triangle is accepted: the
      test runs in mesh-local space, then point, normal and distance are mapped back. */
  function Candidate(q: MeshQuery, k: nat): (c: Option<MeshHit>)
    requires WellFormed(q.mesh) && k < TriangleCount(q.mesh)
    ensures c.Some? ==> c.value.distance.Finite?
  {
    var t := q.frame;
    var ro := t.inverseTransformPoint(q.worldRay.origin);
    var rd := t.inverseTransformDirection(q.worldRay.direction);
    var v0, v1, v2 := Corner(q.mesh, k, 0), Corner(q.mesh, k, 1), Corner(q.mesh, k, 2);
    match IntersectTriangle(ro, rd, v0, v1, v2)
    case None => None
    case Some(tHit) =>
      var localPoint := Add(ro, Scale(rd, tHit));
      var localNormal := q.ops.normalize(Cross(Sub(v1, v0), Sub(v2, v0)));
      var worldPoint := t.transformPoint(localPoint);
      var worldNormal := q.ops.normalize(t.transformDirection(localNormal));
      Some(MeshHit(worldPoint, worldNormal, Finite(q.ops.distance(q.worldRay.origin, worldPoint))))
  }

  /** The state the scan carries from triangle to triangle. */
  datatype ScanResult = ScanResult(hitAny: bool, bestHit: MeshHit)

  /** One iteration: a candidate replaces the best hit only when strictly closer. The
      state either stays or becomes a hit on the candidate; a hit is never lost, the best
      distance never grows, and a candidate only as near as the best so far is ignored. */
  function Step(s: ScanResult, c: Option<MeshHit>): (r: ScanResult)
    ensures r == s || (c.Some? && r == ScanResult(true, c.value))
    ensures s.hitAny ==> r.hitAny
    ensures s.bestHit.distance.Finite? ==>
      r.bestHit.distance.Finite? && r.bestHit.distance.value <= s.bestHit.distance.value
    ensures c.Some? && c.value.distance == s.bestHit.distance ==> r == s
  {
    match c
    case None => s
    case Some(h) =>
      if h.distance.Finite? && Closer(h.distance.value, s.bestHit.distance) then ScanResult(true, h)
      else s
  }

  /** Every candidate in the list that is present has a finite distance. */
  predicate AllFinite(cs: seq<Option<MeshHit>>) {
    forall k :: 0 <= k < |cs| && cs[k].Some? ==> cs[k].value.distance.Finite?
  }

  /** Step applied to each candidate in turn, from the initial record. The result
      reports a hit exactly when its best distance is finite, and without a hit it is
      still the initial record. */
  function Fold(cs: seq<Option<MeshHit>>): (r: ScanResult)
    ensures r.hitAny <==> r.bestHit.distance.Finite?
    ensures !r.hitAny ==> r.bestHit == NoHit
  {
    if |cs| == 0 then ScanResult(false, NoHit)
    else Step(Fold(cs[..|cs| - 1]), cs[|cs| - 1])
  }

  /** The fold reports no hit exactly when no candidate is present. */
  lemma {:induction false} FoldMissesOnlyWhenNothingPresent(cs: seq<Option<MeshHit>>)
    requires AllFinite(cs)
    ensures !Fold(cs).hitAny <==> forall k :: 0 <= k < |cs| ==> cs[k].None?
  {
    if |cs| > 0 {
      var init := cs[..|cs| - 1];
      assert AllFinite(init) by {
        forall k | 0 <= k < |init| && init[k].Some?
          ensures init[k].value.distance.Finite?
        {
          assert init[k] == cs[k];
        }
      }
      FoldMissesOnlyWhenNothingPresent(init);
      assert forall k :: 0 <= k < |init| ==> init[k] == cs[k];
    }
  }

  /** After a hit, the best distance is at most that of every present candidate. */
  lemma {:induction false} FoldKeepsNearest(cs: seq<Option<MeshHit>>)
    requires AllFinite(cs)
    ensures Fold(cs).hitAny ==>
      forall k :: 0 <= k < |cs| && cs[k].Some? ==>
        Fold(cs).bestHit.distance.value <= cs[k].value.distance.value
  {
    if |cs| > 0 {
      var init := cs[..|cs| - 1];
      assert forall k :: 0 <= k < |init| ==> init[k] == cs[k];
      assert AllFinite(init);
      FoldKeepsNearest(init);
      FoldMissesOnlyWhenNothingPresent(init);
    }
  }

  /** After a hit, the best hit is one present candidate, and every earlier present
      candidate is strictly farther: on a tie the earliest one wins. */
  lemma {:induction false} FoldKeepsEarliestOnTies(cs: seq<Option<MeshHit>>)
    requires AllFinite(cs)
    ensures Fold(cs).hitAny ==>
      exists k :: 0 <= k < |cs| && cs[k] == Some(Fold(cs).bestHit) &&
        forall j :: 0 <= j < k && cs[j].Some? ==> cs[j].value.distance.value > Fold(cs).bestHit.distance.value
  {
    if |cs| > 0 {
      var n := |cs|;
      var init := cs[..n - 1];
      assert forall k :: 0 <= k < |init| ==> init[k] == cs[k];
      assert AllFinite(init);
      var prev := Fold(init);
      var best := Fold(cs).bestHit;
      if Fold(cs) == prev {
        FoldKeepsEarliestOnTies(init);
        if prev.hitAny {
          var k :| 0 <= k < n - 1 && init[k] == Some(best) &&
            forall j :: 0 <= j < k && init[j].Some? ==> init[j].value.distance.value > best.distance.value;
          assert cs[k] == Some(best);
        }
      } else {
        FoldMissesOnlyWhenNothingPresent(init);
        FoldKeepsNearest(init);
        assert cs[n - 1] == Some(best);
      }
    }
  }

  /** The candidates of the first n triangles, in index order. */
  function Candidates(q: MeshQuery, n: nat): (cs: seq<Option<MeshHit>>)
    requires WellFormed(q.mesh) && n <= TriangleCount(q.mesh)
    ensures |cs| == n
    ensures AllFinite(cs)
  {
    if n == 0 then [] else Candidates(q, n - 1) + [Candidate(q, n - 1)]
  }

  /** Entry k of the list is triangle k's candidate. */
  lemma {:induction false} CandidatesAt(q: MeshQuery, n: nat, k: nat)
    requires WellFormed(q.mesh) && k < n <= TriangleCount(q.mesh)
    ensures Candidates(q, n)[k] == Candidate(q, k)
  {
    if k < n - 1 {
      CandidatesAt(q, n - 1, k);
    }
  }

  /** The scan state after the first n triangles. It reports a hit exactly when its best
      distance is finite, and without a hit it is still the initial record. */
  function Scan(q: MeshQuery, n: nat): (r: ScanResult)
    requires WellFormed(q.mesh) && n <= TriangleCount(q.mesh)
    ensures r.hitAny <==> r.bestHit.distance.Finite?
    ensures !r.hitAny ==> r.bestHit == NoHit
  {
    if n == 0 then ScanResult(false, NoHit)
    else Step(Scan(q, n - 1), Candidate(q, n - 1))
  }

  /** The scan of the first n triangles is the fold over their candidates. */
  lemma {:induction false} ScanIsFold(q: MeshQuery, n: nat)
    requires WellFormed(q.mesh) && n <= TriangleCount(q.mesh)
    ensures Scan(q, n) == Fold(Candidates(q, n))
  {
    if n > 0 {
      ScanIsFold(q, n - 1);
      assert Candidates(q, n)[..n - 1] == Candidates(q, n - 1);
    }
  }

  /** The scan reports no hit exactly when no triangle is accepted, and then leaves the
      initial record (distance +infinity) untouched. */
  lemma {:induction false} ScanMissesOnlyWhenNothingAccepted(q: MeshQuery, n: nat)
    requires WellFormed(q.mesh) && n <= TriangleCount(q.mesh)
    ensures !Scan(q, n).hitAny <==> forall k :: 0 <= k < n ==> Candidate(q, k).None?
    ensures !Scan(q, n).hitAny ==> Scan(q, n).bestHit == NoHit
  {
    ScanIsFold(q, n);
    FoldMissesOnlyWhenNothingPresent(Candidates(q, n));
    forall k | 0 <= k < n
      ensures Candidates(q, n)[k] == Candidate(q, k)
    {
      CandidatesAt(q, n, k);
    }
  }

  /** When the scan hits, its distance is finite and at most that of every accepted
      triangle. */
  lemma {:induction false} ScanKeepsNearest(q: MeshQuery, n: nat)
    requires WellFormed(q.mesh) && n <= TriangleCount(q.mesh)
    ensures Scan(q, n).hitAny ==>
      && Scan(q, n).bestHit.distance.Finite?
      && forall k :: 0 <= k < n && Candidate(q, k).Some? ==>
           Scan(q, n).bestHit.distance.value <= Candidate(q, k).value.distance.value
  {
    ScanIsFold(q, n);
    FoldKeepsNearest(Candidates(q, n));
    forall k | 0 <= k < n
      ensures Candidates(q, n)[k] == Candidate(q, k)
    {
      CandidatesAt(q, n, k);
    }
  }

  /** When the scan hits, the best hit is the hit of one accepted triangle, and every
      earlier accepted triangle is strictly farther: on a tie the earliest one wins. */
  lemma {:induction false} ScanKeepsEarliestOnTies(q: MeshQuery, n: nat)
    requires WellFormed(q.mesh) && n <= TriangleCount(q.mesh)
    ensures Scan(q, n).hitAny ==>
      exists k :: 0 <= k < n && Candidate(q, k) == Some(Scan(q, n).bestHit) &&
        forall j :: 0 <= j < k && Candidate(q, j).Some? ==>
          Candidate(q, j).value.distance.value > Scan(q, n).bestHit.distance.value
  {
    ScanIsFold(q, n);
    var cs := Candidates(q, n);
    FoldKeepsEarliestOnTies(cs);
    forall k | 0 <= k < n
      ensures cs[k] == Candidate(q, k)
    {
      CandidatesAt(q, n, k);
    }
  }

  /** RaycastMesh: returns false with distance +infinity when the filter has no mesh;
      otherwise scans the index list three at a time and returns the state of Scan over
      every triangle: a hit iff some triangle is accepted, and then the nearest one, the
      earliest among equally near ones. */
  method RaycastMesh(mf: MeshFilter, worldRay: Ray, ops: VectorOps) returns (hitAny: bool, bestHit: MeshHit)
    requires mf.sharedMesh.Some? ==> WellFormed(mf.sharedMesh.value)
    ensures mf.sharedMesh.None? ==> !hitAny && bestHit == NoHit
    ensures mf.sharedMesh.Some? ==>
      ScanResult(hitAny, bestHit) == Scan(QueryOf(mf, worldRay, ops), TriangleCount(mf.sharedMesh.value))
    ensures mf.sharedMesh.Some? ==>
      var q := QueryOf(mf, worldRay, ops);
      && (hitAny <==> exists k :: 0 <= k < TriangleCount(q.mesh) && Candidate(q, k).Some?)
      && (!hitAny ==> bestHit.distance == Infinity)
      && (hitAny ==> forall k :: 0 <= k < TriangleCount(q.mesh) && Candidate(q, k).Some? ==>
            bestHit.distance.Finite? && bestHit.distance.value <= Candidate(q, k).value.distance.value)
  {
    bestHit := NoHit;
    hitAny := false;
    if mf.sharedMesh.None? {
      return;
    }
    var mesh := mf.sharedMesh.value;
    ghost var q := QueryOf(mf, worldRay, ops);

    var t := mf.transform;
    var ro := t.inverseTransformPoint(worldRay.origin);
    var rd := t.inverseTransformDirection(worldRay.direction);

    var verts := mesh.vertices;
    var tris := mesh.triangles;

    var i := 0;
    while i < |tris|
      invariant 0 <= i <= |tris| && i % 3 == 0
      invariant ScanResult(hitAny, bestHit) == Scan(q, i / 3)
    {
      var v0 := verts[tris[i]];
      var v1 := verts[tris[i + 1]];
      var v2 := verts[tris[i + 2]];
      assert v0 == Corner(mesh, i / 3, 0) && v1 == Corner(mesh, i / 3, 1) && v2 == Corner(mesh, i / 3, 2);

      var accepted := IntersectTriangle(ro, rd, v0, v1, v2);
      if accepted.Some? {
        var tHit := accepted.value;
        var localPoint := Add(ro, Scale(rd, tHit));
        var localNormal := ops.normalize(Cross(Sub(v1, v0), Sub(v2, v0)));
        var worldPoint := t.transformPoint(localPoint);
        var worldNormal := ops.normalize(t.transformDirection(localNormal));
        var worldDist := ops.distance(worldRay.origin, worldPoint);
        if Closer(worldDist, bestHit.distance) {
          bestHit := MeshHit(worldPoint, worldNormal, Finite(worldDist));
          hitAny := true;
        }
      }
      i := i + 3;
    }
    ScanMissesOnlyWhenNothingAccepted(q, i / 3);
    ScanKeepsNearest(q, i / 3);
  }
}
