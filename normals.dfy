/** The accumulation phase of setNorms: every triangle's face normal, the
    cross product of its two edges from the first corner, is added to the
    normal of each of its three corners.

    Faces are a flat index sequence, three indices per triangle; vertices and
    normals are flat coordinate arrays, three slots per vertex. */
module NormalEstimator {

  /** A three-component vector (gl-matrix's vec3). */
  datatype Vec3 = Vec3(x: real, y: real, z: real)

  function Add(a: Vec3, b: Vec3): Vec3
  {
    Vec3(a.x + b.x, a.y + b.y, a.z + b.z)
  }

  /** vec3.sub(out, a, b): a - b. */
  function Sub(a: Vec3, b: Vec3): (r: Vec3)
    ensures Add(r, b) == a
  {
    Vec3(a.x - b.x, a.y - b.y, a.z - b.z)
  }

  /** vec3.cross(out, a, b), component by component as gl-matrix computes it. */
  function Cross(a: Vec3, b: Vec3): Vec3
  {
    Vec3(a.y * b.z - a.z * b.y, a.z * b.x - a.x * b.z, a.x * b.y - a.y * b.x)
  }

  function Dot(a: Vec3, b: Vec3): real
  {
    a.x * b.x + a.y * b.y + a.z * b.z
  }

  /** The cross product is perpendicular to both of its factors. */
  lemma CrossPerpendicular(a: Vec3, b: Vec3)
    ensures Dot(Cross(a, b), a) == 0.0 && Dot(Cross(a, b), b) == 0.0
  {
    assert Dot(Cross(a, b), a)
        == (a.y * b.z - a.z * b.y) * a.x + (a.z * b.x - a.x * b.z) * a.y + (a.x * b.y - a.y * b.x) * a.z;
    assert Dot(Cross(a, b), b)
        == (a.y * b.z - a.z * b.y) * b.x + (a.z * b.x - a.x * b.z) * b.y + (a.x * b.y - a.y * b.x) * b.z;
  }

  /** v added m times to the zero vector. */
  function Times(m: nat, v: Vec3): Vec3
  {
    if m == 0 then Vec3(0.0, 0.0, 0.0) else Add(Times(m - 1, v), v)
  }

  /** d added k times to zero. */
  function Copies(k: nat, d: real): real
  {
    if k == 0 then 0.0 else Copies(k - 1, d) + d
  }

  /** The height component of m copies of v is m copies of its height. */
  lemma {:induction false} TimesHeight(m: nat, v: Vec3)
    ensures Times(m, v).z == Copies(m, v.z)
  {
    if m > 0 {
      TimesHeight(m - 1, v);
    }
  }

  /** a copies and m more copies make a + m copies. */
  lemma {:induction false} CopiesAdd(a: nat, m: nat, d: real)
    ensures Copies(a, d) + Copies(m, d) == Copies(a + m, d)
  {
    if m > 0 {
      CopiesAdd(a, m - 1, d);
    }
  }

  /** At least one copy of a positive d is at least d. */
  lemma {:induction false} CopiesAtLeast(k: nat, d: real)
    requires k >= 1 && d > 0.0
    ensures Copies(k, d) >= d
  {
    if k > 1 {
      CopiesAtLeast(k - 1, d);
    }
  }

  /** Every flat array of three slots per vertex holds vertex i at slots
      3i, 3i+1 and 3i+2. */
  predicate HasVertex(a: seq<real>, i: nat)
  {
    3 * i + 2 < |a|
  }

  /** vec3.fromValues(a[3i], a[3i+1], a[3i+2]). */
  function VertexAt(a: seq<real>, i: nat): Vec3
    requires HasVertex(a, i)
  {
    Vec3(a[3 * i], a[3 * i + 1], a[3 * i + 2])
  }

  /** Every index of the face sequence names a vertex of both arrays. */
  predicate IndicesIn(faces: seq<nat>, a: seq<real>)
  {
    forall k :: 0 <= k < |faces| ==> HasVertex(a, faces[k])
  }

  /** The normal of triangle (a, b, c): (V(b) - V(a)) x (V(c) - V(a)). */
  function FaceNormal(verts: seq<real>, a: nat, b: nat, c: nat): Vec3
    requires HasVertex(verts, a) && HasVertex(verts, b) && HasVertex(verts, c)
  {
    Cross(Sub(VertexAt(verts, b), VertexAt(verts, a)), Sub(VertexAt(verts, c), VertexAt(verts, a)))
  }

  /** The face normal is perpendicular to both edges it is built from. */
  lemma FaceNormalPerpendicular(verts: seq<real>, a: nat, b: nat, c: nat)
    requires HasVertex(verts, a) && HasVertex(verts, b) && HasVertex(verts, c)
    ensures Dot(FaceNormal(verts, a, b, c), Sub(VertexAt(verts, b), VertexAt(verts, a))) == 0.0
    ensures Dot(FaceNormal(verts, a, b, c), Sub(VertexAt(verts, c), VertexAt(verts, a))) == 0.0
  {
    CrossPerpendicular(Sub(VertexAt(verts, b), VertexAt(verts, a)), Sub(VertexAt(verts, c), VertexAt(verts, a)));
  }

  /** The three `+=` on the slots of vertex i. */
  function AddAt(nrm: seq<real>, i: nat, v: Vec3): (r: seq<real>)
    requires HasVertex(nrm, i)
    ensures |r| == |nrm|
    ensures VertexAt(r, i) == Add(VertexAt(nrm, i), v)
  {
    nrm[3 * i := nrm[3 * i] + v.x][3 * i + 1 := nrm[3 * i + 1] + v.y][3 * i + 2 := nrm[3 * i + 2] + v.z]
  }

  /** v added to the normal of every corner in turn. */
  function AddCorners(nrm: seq<real>, corners: seq<nat>, v: Vec3): (r: seq<real>)
    requires forall k :: 0 <= k < |corners| ==> HasVertex(nrm, corners[k])
    ensures |r| == |nrm|
    decreases |corners|
  {
    if corners == [] then nrm
    else
      var next := AddAt(nrm, corners[0], v);
      forall k | 0 <= k < |corners| - 1
        ensures HasVertex(next, corners[1..][k])
      {
        assert corners[1..][k] == corners[k + 1] && HasVertex(nrm, corners[k + 1]);
      }
      AddCorners(next, corners[1..], v)
  }

  /** One iteration of the accumulation loop: the face normal of (a, b, c)
      added to the normals of a, b and c, in that order. */
  function AddFace(nrm: seq<real>, verts: seq<real>, a: nat, b: nat, c: nat): (r: seq<real>)
    requires HasVertex(verts, a) && HasVertex(verts, b) && HasVertex(verts, c)
    requires HasVertex(nrm, a) && HasVertex(nrm, b) && HasVertex(nrm, c)
    ensures |r| == |nrm|
  {
    AddCorners(nrm, [a, b, c], FaceNormal(verts, a, b, c))
  }

  /** AddFace is the three AddAt of the loop body, in order. */
  lemma AddFaceSteps(nrm: seq<real>, verts: seq<real>, a: nat, b: nat, c: nat)
    requires HasVertex(verts, a) && HasVertex(verts, b) && HasVertex(verts, c)
    requires HasVertex(nrm, a) && HasVertex(nrm, b) && HasVertex(nrm, c)
    ensures AddFace(nrm, verts, a, b, c)
            == AddAt(AddAt(AddAt(nrm, a, FaceNormal(verts, a, b, c)), b, FaceNormal(verts, a, b, c)),
                     c, FaceNormal(verts, a, b, c))
  {
    var v := FaceNormal(verts, a, b, c);
    var n1 := AddAt(nrm, a, v);
    var n2 := AddAt(n1, b, v);
    assert [a, b, c][1..] == [b, c] && [b, c][1..] == [c] && [c][1..] == [];
    assert AddCorners(n2, [c], v) == AddCorners(AddAt(n2, c, v), [], v);
    assert AddCorners(n1, [b, c], v) == AddCorners(n2, [c], v);
  }

  /** How often vertex i is a corner of triangle (a, b, c). */
  function Occurrences(i: nat, a: nat, b: nat, c: nat): nat
  {
    (if a == i then 1 else 0) + (if b == i then 1 else 0) + (if c == i then 1 else 0)
  }

  /** Vertex i's normal after AddFace: its old normal plus the face normal
      once per occurrence of i among the corners. */
  lemma AddFaceAt(nrm: seq<real>, verts: seq<real>, a: nat, b: nat, c: nat, i: nat)
    requires HasVertex(verts, a) && HasVertex(verts, b) && HasVertex(verts, c)
    requires HasVertex(nrm, a) && HasVertex(nrm, b) && HasVertex(nrm, c) && HasVertex(nrm, i)
    ensures VertexAt(AddFace(nrm, verts, a, b, c), i)
            == Add(VertexAt(nrm, i), Times(Occurrences(i, a, b, c), FaceNormal(verts, a, b, c)))
  {
    var v := FaceNormal(verts, a, b, c);
    var base := VertexAt(nrm, i);
    AddFaceSteps(nrm, verts, a, b, c);
    var n1 := AddAt(nrm, a, v);
    var n2 := AddAt(n1, b, v);
    var m1 := if a == i then 1 else 0;
    var m2 := m1 + if b == i then 1 else 0;
    AddTimes(base, 0, v);
    assert VertexAt(n1, i) == Add(base, Times(m1, v));
    AddTimes(base, m1, v);
    assert VertexAt(n2, i) == Add(base, Times(m2, v));
    AddTimes(base, m2, v);
  }

  /** Adding one more copy of v. */
  lemma AddTimes(base: Vec3, m: nat, v: Vec3)
    ensures Add(Add(base, Times(m, v)), v) == Add(base, Times(m + 1, v))
    ensures Add(base, Times(0, v)) == base
  {
  }

  lemma AddAssoc(a: Vec3, b: Vec3, c: Vec3)
    ensures Add(Add(a, b), c) == Add(a, Add(b, c))
  {
  }

  /** The normals after the first t triangles of faces have been added. */
  function Accumulated(nrm: seq<real>, verts: seq<real>, faces: seq<nat>, t: nat): (r: seq<real>)
    requires 3 * t <= |faces| && IndicesIn(faces, verts) && IndicesIn(faces, nrm)
    ensures |r| == |nrm|
  {
    if t == 0 then nrm
    else
      var prev := Accumulated(nrm, verts, faces, t - 1);
      assert IndicesIn(faces, prev);
      AddFace(prev, verts, faces[3 * (t - 1)], faces[3 * (t - 1) + 1], faces[3 * (t - 1) + 2])
  }

  /** The accumulation after triangle t is AddFace of it on the accumulation
      before it. */
  lemma AccumulatedNext(nrm: seq<real>, verts: seq<real>, faces: seq<nat>, t: nat, a: nat, b: nat, c: nat)
    requires 3 * t + 3 <= |faces| && IndicesIn(faces, verts) && IndicesIn(faces, nrm)
    requires a == faces[3 * t] && b == faces[3 * t + 1] && c == faces[3 * t + 2]
    ensures IndicesIn(faces, Accumulated(nrm, verts, faces, t))
    ensures Accumulated(nrm, verts, faces, t + 1) == AddFace(Accumulated(nrm, verts, faces, t), verts, a, b, c)
  {
    SameLengthIndices(faces, nrm, Accumulated(nrm, verts, faces, t));
  }

  /** The array after one more iteration is the accumulation over one more
      triangle. */
  lemma AccumulatedAfter(nrm: seq<real>, verts: seq<real>, faces: seq<nat>, t: nat, i: nat, before: seq<real>, after: seq<real>)
    requires i == 3 * t && i + 3 <= |faces| && IndicesIn(faces, verts) && IndicesIn(faces, nrm)
    requires before == Accumulated(nrm, verts, faces, t) && IndicesIn(faces, before)
    requires after == AddFace(before, verts, faces[i], faces[i + 1], faces[i + 2])
    ensures after == Accumulated(nrm, verts, faces, t + 1)
  {
    AccumulatedNext(nrm, verts, faces, t, faces[i], faces[i + 1], faces[i + 2]);
  }

  /** IndicesIn depends on the length of the array only. */
  lemma SameLengthIndices(faces: seq<nat>, a: seq<real>, b: seq<real>)
    requires IndicesIn(faces, a) && |a| == |b|
    ensures IndicesIn(faces, b)
  {
  }

  /** What triangle f of faces adds to the normal of vertex i: its face
      normal once per occurrence of i among its corners. */
  function Contribution(verts: seq<real>, faces: seq<nat>, f: nat, i: nat): Vec3
    requires 3 * f + 2 < |faces| && IndicesIn(faces, verts)
  {
    Times(Occurrences(i, faces[3 * f], faces[3 * f + 1], faces[3 * f + 2]), TriangleNormal(verts, faces, f))
  }

  /** The face normal of triangle f of faces. */
  function TriangleNormal(verts: seq<real>, faces: seq<nat>, f: nat): Vec3
    requires 3 * f + 2 < |faces| && IndicesIn(faces, verts)
  {
    FaceNormal(verts, faces[3 * f], faces[3 * f + 1], faces[3 * f + 2])
  }

  /** The reference: the sum of the contributions of the first t triangles
      to vertex i. */
  function NormalSum(verts: seq<real>, faces: seq<nat>, t: nat, i: nat): Vec3
    requires 3 * t <= |faces| && IndicesIn(faces, verts)
  {
    if t == 0 then Vec3(0.0, 0.0, 0.0)
    else Add(NormalSum(verts, faces, t - 1, i), Contribution(verts, faces, t - 1, i))
  }

  /** Adding triangle t - 1 adds its contribution to vertex i. */
  lemma AccumulatedStep(nrm: seq<real>, verts: seq<real>, faces: seq<nat>, t: nat, i: nat)
    requires 0 < t && 3 * t <= |faces| && IndicesIn(faces, verts) && IndicesIn(faces, nrm) && HasVertex(nrm, i)
    ensures VertexAt(Accumulated(nrm, verts, faces, t), i)
            == Add(VertexAt(Accumulated(nrm, verts, faces, t - 1), i), Contribution(verts, faces, t - 1, i))
  {
    var prev := Accumulated(nrm, verts, faces, t - 1);
    assert IndicesIn(faces, prev);
    AddFaceAt(prev, verts, faces[3 * (t - 1)], faces[3 * (t - 1) + 1], faces[3 * (t - 1) + 2], i);
  }

  /** Accumulating triangle by triangle yields, at every vertex, the old
      normal plus the multiplicity-weighted sum of its incident face normals. */
  lemma {:induction false} AccumulatedIsSum(nrm: seq<real>, verts: seq<real>, faces: seq<nat>, t: nat, i: nat)
    requires 3 * t <= |faces| && IndicesIn(faces, verts) && IndicesIn(faces, nrm) && HasVertex(nrm, i)
    ensures VertexAt(Accumulated(nrm, verts, faces, t), i) == Add(VertexAt(nrm, i), NormalSum(verts, faces, t, i))
  {
    if t > 0 {
      AccumulatedIsSum(nrm, verts, faces, t - 1, i);
      AccumulatedStep(nrm, verts, faces, t, i);
      AddAssoc(VertexAt(nrm, i), NormalSum(verts, faces, t - 1, i), Contribution(verts, faces, t - 1, i));
    }
  }

  /** A vertex that is a corner of none of the first t triangles receives
      nothing from them. */
  lemma {:induction false} NormalSumUntouched(verts: seq<real>, faces: seq<nat>, t: nat, i: nat)
    requires 3 * t <= |faces| && IndicesIn(faces, verts)
    requires forall k :: 0 <= k < 3 * t ==> faces[k] != i
    ensures NormalSum(verts, faces, t, i) == Vec3(0.0, 0.0, 0.0)
  {
    if t > 0 {
      NormalSumUntouched(verts, faces, t - 1, i);
      assert faces[3 * (t - 1)] != i && faces[3 * (t - 1) + 1] != i && faces[3 * (t - 1) + 2] != i;
    }
  }

  /** ... and so keeps its normal. */
  lemma UntouchedVertex(nrm: seq<real>, verts: seq<real>, faces: seq<nat>, t: nat, i: nat)
    requires 3 * t <= |faces| && IndicesIn(faces, verts) && IndicesIn(faces, nrm) && HasVertex(nrm, i)
    requires forall k :: 0 <= k < 3 * t ==> faces[k] != i
    ensures VertexAt(Accumulated(nrm, verts, faces, t), i) == VertexAt(nrm, i)
  {
    AccumulatedIsSum(nrm, verts, faces, t, i);
    NormalSumUntouched(verts, faces, t, i);
  }

  /** One iteration changes the slots of its three corners only. */
  lemma AddFaceFrame(nrm: seq<real>, verts: seq<real>, a: nat, b: nat, c: nat)
    requires HasVertex(verts, a) && HasVertex(verts, b) && HasVertex(verts, c)
    requires HasVertex(nrm, a) && HasVertex(nrm, b) && HasVertex(nrm, c)
    ensures forall k :: 0 <= k < |nrm| && k / 3 != a && k / 3 != b && k / 3 != c
                        ==> AddFace(nrm, verts, a, b, c)[k] == nrm[k]
  {
    AddFaceSteps(nrm, verts, a, b, c);
  }

  /** How many corners of the first t triangles are vertex i. */
  function Incidence(faces: seq<nat>, t: nat, i: nat): nat
    requires 3 * t <= |faces|
  {
    if t == 0 then 0
    else Incidence(faces, t - 1, i) + Occurrences(i, faces[3 * (t - 1)], faces[3 * (t - 1) + 1], faces[3 * (t - 1) + 2])
  }

  /** When every one of the first t face normals has height component d, the
      summed normal of vertex i has height component d once per incidence. */
  lemma {:induction false} NormalSumHeight(verts: seq<real>, faces: seq<nat>, t: nat, i: nat, d: real)
    requires 3 * t <= |faces| && IndicesIn(faces, verts)
    requires forall f :: 0 <= f < t ==> TriangleNormal(verts, faces, f).z == d
    ensures NormalSum(verts, faces, t, i).z == Copies(Incidence(faces, t, i), d)
  {
    if t > 0 {
      var m := Occurrences(i, faces[3 * (t - 1)], faces[3 * (t - 1) + 1], faces[3 * (t - 1) + 2]);
      NormalSumHeight(verts, faces, t - 1, i, d);
      TimesHeight(m, TriangleNormal(verts, faces, t - 1));
      CopiesAdd(Incidence(faces, t - 1, i), m, d);
    }
  }

  /** A vertex that is a corner of triangle f < t is incident to the first t
      triangles at least once. */
  lemma {:induction false} IncidentCorner(faces: seq<nat>, t: nat, f: nat, i: nat)
    requires 3 * t <= |faces| && f < t
    requires i == faces[3 * f] || i == faces[3 * f + 1] || i == faces[3 * f + 2]
    ensures Incidence(faces, t, i) >= 1
  {
    if f < t - 1 {
      IncidentCorner(faces, t - 1, f, i);
    }
  }

  /** The three `+=` of setNorms on the slots of one corner vertex. */
  method AddToVertex(normals: array<real>, i: nat, v: Vec3)
    requires HasVertex(normals[..], i)
    modifies normals
    ensures normals[..] == AddAt(old(normals[..]), i, v)
  {
    normals[i * 3] := normals[i * 3] + v.x;
    normals[i * 3 + 1] := normals[i * 3 + 1] + v.y;
    normals[i * 3 + 2] := normals[i * 3 + 2] + v.z;
  }

  /** One iteration of the accumulation loop of setNorms, for the triangle
      at faces[i..i+3]: its face normal, computed from verts, added into the
      normals of its three corners in place. */
  method AddTriangle(normals: array<real>, verts: seq<real>, faces: seq<nat>, i: nat)
    requires i + 3 <= |faces| && IndicesIn(faces, verts) && IndicesIn(faces, normals[..])
    modifies normals
    ensures normals[..] == AddFace(old(normals[..]), verts, faces[i], faces[i + 1], faces[i + 2])
  {
    var a, b, c := faces[i], faces[i + 1], faces[i + 2];
    var vertex1 := Vec3(verts[a * 3], verts[a * 3 + 1], verts[a * 3 + 2]);
    var vertex2 := Vec3(verts[b * 3], verts[b * 3 + 1], verts[b * 3 + 2]);
    var vertex3 := Vec3(verts[c * 3], verts[c * 3 + 1], verts[c * 3 + 2]);
    var vect21 := Sub(vertex2, vertex1);
    var vect31 := Sub(vertex3, vertex1);
    var v := Cross(vect21, vect31);
    assert v == FaceNormal(verts, a, b, c);
    AddFaceSteps(normals[..], verts, a, b, c);
    AddToVertex(normals, a, v);
    AddToVertex(normals, b, v);
    AddToVertex(normals, c, v);
  }

  /** AddTriangle on the normals accumulated over the first t triangles
      yields those accumulated over t + 1. */
  method AccumulateTriangle(normals: array<real>, verts: seq<real>, faces: seq<nat>, i: nat,
                            ghost start: seq<real>, ghost t: nat)
    requires i == 3 * t && i + 3 <= |faces| && IndicesIn(faces, verts) && IndicesIn(faces, start)
    requires normals[..] == Accumulated(start, verts, faces, t)
    modifies normals
    ensures normals[..] == Accumulated(start, verts, faces, t + 1)
  {
    ghost var before := normals[..];
    SameLengthIndices(faces, start, before);
    AddTriangle(normals, verts, faces, i);
    AccumulatedAfter(start, verts, faces, t, i, before, normals[..]);
  }

  /** The accumulation loop of setNorms over faceArray, three indices at a
      time, adding each face normal into normalArray in place. */
  method SetNorms(faces: seq<nat>, verts: seq<real>, normals: array<real>)
    requires |faces| % 3 == 0 && IndicesIn(faces, verts) && IndicesIn(faces, normals[..])
    modifies normals
    ensures normals[..] == Accumulated(old(normals[..]), verts, faces, |faces| / 3)
  {
    ghost var total := |faces| / 3;
    assert |faces| == 3 * total;
    ghost var start := normals[..];
    ghost var t := 0;  // triangles added so far
    var i := 0;
    while i < |faces|
      invariant i == 3 * t && t <= total && normals.Length == |start|
      invariant normals[..] == Accumulated(start, verts, faces, t)
    {
      AccumulateTriangle(normals, verts, faces, i, start, t);
      t := t + 1;
      i := i + 3;
    }
    assert t == total;
  }
}
