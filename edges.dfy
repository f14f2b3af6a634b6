/** generateLinesFromIndexedTriangles: the wireframe edge list of an indexed
    triangle list. Triangle (a, b, c) contributes the three edges (a, b),
    (b, c) and (c, a), each as two consecutive indices. */
module EdgeExtractor {

  /** The six indices pushed for triangle f of faces. */
  function TriangleEdges(faces: seq<nat>, f: nat): seq<nat>
    requires 3 * f + 2 < |faces|
  {
    var a, b, c := faces[3 * f], faces[3 * f + 1], faces[3 * f + 2];
    [a, b, b, c, c, a]
  }

  /** The edge indices of the first t triangles, in triangle order. */
  function Edges(faces: seq<nat>, t: nat): (e: seq<nat>)
    requires 3 * t <= |faces|
    ensures |e| == 6 * t
  {
    if t == 0 then [] else Edges(faces, t - 1) + TriangleEdges(faces, t - 1)
  }

  /** Entry 6f + k of the edge list: edge k / 2 of triangle f, which joins
      corner k / 2 to the next corner around the triangle. */
  lemma {:induction false} EdgesLayout(faces: seq<nat>, t: nat, f: nat, k: nat)
    requires 3 * t <= |faces| && f < t && k < 6
    ensures Edges(faces, t)[6 * f + k]
            == faces[3 * f + (if k % 2 == 0 then k / 2 else (k / 2 + 1) % 3)]
  {
    if f < t - 1 {
      EdgesLayout(faces, t - 1, f, k);
      assert Edges(faces, t)[6 * f + k] == Edges(faces, t - 1)[6 * f + k];
    }
  }

  /** Every index of the edge list is an index of the face list: the edges
      name no vertex the triangles do not. */
  lemma EdgesFromFaces(faces: seq<nat>, t: nat, bound: nat)
    requires 3 * t <= |faces|
    requires forall k :: 0 <= k < |faces| ==> faces[k] < bound
    ensures forall m :: 0 <= m < |Edges(faces, t)| ==> Edges(faces, t)[m] < bound
  {
    forall m | 0 <= m < |Edges(faces, t)|
      ensures Edges(faces, t)[m] < bound
    {
      EdgesLayout(faces, t, m / 6, m % 6);
    }
  }

  /** The edge list of a longer face list starts with that of a shorter one. */
  lemma {:induction false} EdgesPrefix(faces: seq<nat>, s: nat, t: nat)
    requires s <= t && 3 * t <= |faces|
    ensures Edges(faces, s) == Edges(faces, t)[..6 * s]
    decreases t - s
  {
    if s < t {
      EdgesPrefix(faces, s, t - 1);
      assert Edges(faces, t)[..6 * (t - 1)] == Edges(faces, t - 1);
    } else {
      assert Edges(faces, t)[..6 * t] == Edges(faces, t);
    }
  }

  /** generateLinesFromIndexedTriangles: appends the six edge indices of each
      triangle to lineArray, leaving what lineArray held before in front. */
  method GenerateLines(faces: seq<nat>, lines0: seq<nat>) returns (lines: seq<nat>)
    requires |faces| % 3 == 0
    ensures lines == lines0 + Edges(faces, |faces| / 3)
  {
    var numTris := |faces| / 3;
    lines := lines0;
    var f := 0;
    while f < numTris
      invariant f <= numTris
      invariant lines == lines0 + Edges(faces, f)
    {
      var fid := f * 3;
      lines := lines + [faces[fid]];
      lines := lines + [faces[fid + 1]];
      lines := lines + [faces[fid + 1]];
      lines := lines + [faces[fid + 2]];
      lines := lines + [faces[fid + 2]];
      lines := lines + [faces[fid]];
      assert lines == lines0 + Edges(faces, f) + TriangleEdges(faces, f);
      f := f + 1;
    }
  }
}
