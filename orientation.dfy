/** Orientation of the terrain's normals. Both triangles of every cell are
    wound counter-clockwise seen from above, so every face normal has the
    height component deltaX * deltaY whatever heights set_height chose (the
    height component of a cross product reads only x and y), and every
    vertex, being a corner of at least one triangle, accumulates a normal
    that points up. */
module Orientation {
  import opened Lattice
  import opened GridBuilder
  import opened HeightSynthesizer
  import opened NormalEstimator

  /** verts holds the lattice's x and y coordinates: vertex (row i, column j)
      lies over (minX + dX*j, minY + dY*i), at any height. */
  predicate Planar(verts: seq<real>, n: nat, minX: real, dX: real, minY: real, dY: real)
  {
    |verts| == 3 * VertexCount(n) &&
    forall i: nat, j: nat :: i <= n && j <= n ==>
      HasVertex(verts, VertexIndex(n, i, j)) &&
      VertexAt(verts, VertexIndex(n, i, j)).x == Coord(minX, dX, j) &&
      VertexAt(verts, VertexIndex(n, i, j)).y == Coord(minY, dY, i)
  }

  /** set_height moves heights only: the terrain's vertex array lies over
      the lattice. */
  lemma HeightedPlanar(n: nat, minX: real, maxX: real, minY: real, maxY: real, rnd: Sampler)
    requires IsPow2(n)
    ensures n > 0
    ensures Planar(WithHeights(LatticeVertices(n, minX, maxX, minY, maxY), n, rnd), n,
                   minX, Delta(minX, maxX, n), minY, Delta(minY, maxY, n))
  {
    var lattice := LatticeVertices(n, minX, maxX, minY, maxY);
    var verts := WithHeights(lattice, n, rnd);
    SetHeightKeepsXY(lattice, n, rnd);
    forall i: nat, j: nat | i <= n && j <= n
      ensures HasVertex(verts, VertexIndex(n, i, j))
      ensures VertexAt(verts, VertexIndex(n, i, j)).x == Coord(minX, Delta(minX, maxX, n), j)
      ensures VertexAt(verts, VertexIndex(n, i, j)).y == Coord(minY, Delta(minY, maxY, n), i)
    {
      var p := VertexIndex(n, i, j);
      LatticeLayout(n, minX, maxX, minY, maxY, i, j);
      DivMod(3 * p, 3, p, 0);
      DivMod(3 * p + 1, 3, p, 1);
    }
  }

  /** Neighbouring lattice lines are delta apart. */
  lemma CoordStep(lo: real, delta: real, c: nat)
    ensures Coord(lo, delta, c + 1) == Coord(lo, delta, c) + delta
  {
    assert (c + 1) as real == c as real + 1.0;
    assert delta * (c as real + 1.0) == delta * c as real + delta;
  }

  /** Edges (dX, 0) and (0, dY) in the plane: the first triangle of a cell. */
  lemma CrossUpFirst(e1: Vec3, e2: Vec3, dX: real, dY: real)
    requires e1.x == dX && e1.y == 0.0 && e2.x == 0.0 && e2.y == dY
    ensures Cross(e1, e2).z == dX * dY
  {
  }

  /** Edges (0, dY) and (-dX, dY) in the plane: the second triangle of a cell. */
  lemma CrossUpSecond(e1: Vec3, e2: Vec3, dX: real, dY: real)
    requires e1.x == 0.0 && e1.y == dY && e2.x == -dX && e2.y == dY
    ensures Cross(e1, e2).z == dX * dY
  {
  }

  /** The six indices of cell (i, j) are its corners (i, j), (i, j+1),
      (i+1, j) and (i, j+1), (i+1, j+1), (i+1, j). */
  lemma CellCorners(n: nat, i: nat, j: nat)
    ensures CellTriangles(n, i, j)
            == [VertexIndex(n, i, j), VertexIndex(n, i, j + 1), VertexIndex(n, i + 1, j),
                VertexIndex(n, i, j + 1), VertexIndex(n, i + 1, j + 1), VertexIndex(n, i + 1, j)]
  {
    assert (i + 1) * (n + 1) == i * (n + 1) + n + 1;
  }

  /** Both triangles of cell (i, j) have the height component dX * dY. */
  lemma CellNormals(verts: seq<real>, n: nat, minX: real, dX: real, minY: real, dY: real, i: nat, j: nat)
    requires Planar(verts, n, minX, dX, minY, dY) && i < n && j < n
    ensures HasVertex(verts, VertexIndex(n, i, j)) && HasVertex(verts, VertexIndex(n, i, j + 1))
    ensures HasVertex(verts, VertexIndex(n, i + 1, j)) && HasVertex(verts, VertexIndex(n, i + 1, j + 1))
    ensures FaceNormal(verts, VertexIndex(n, i, j), VertexIndex(n, i, j + 1), VertexIndex(n, i + 1, j)).z
            == dX * dY
    ensures FaceNormal(verts, VertexIndex(n, i, j + 1), VertexIndex(n, i + 1, j + 1), VertexIndex(n, i + 1, j)).z
            == dX * dY
  {
    var bl := VertexAt(verts, VertexIndex(n, i, j));
    var br := VertexAt(verts, VertexIndex(n, i, j + 1));
    var tl := VertexAt(verts, VertexIndex(n, i + 1, j));
    var tr := VertexAt(verts, VertexIndex(n, i + 1, j + 1));
    CoordStep(minX, dX, j);
    CoordStep(minY, dY, i);
    CrossUpFirst(Sub(br, bl), Sub(tl, bl), dX, dY);
    CrossUpSecond(Sub(tr, br), Sub(tl, br), dX, dY);
  }

  /** Every index of the face list names a vertex of an array of
      (n+1)^2 vertices. */
  lemma GridFacesIn(n: nat, a: seq<real>)
    requires |a| == 3 * VertexCount(n)
    ensures IndicesIn(GridFaces(n), a)
  {
    FaceIndicesInRange(n);
  }

  /** Triangle f of the face list is triangle s of cell (i, j), f = 2*(i*n + j) + s. */
  lemma CellOfTriangle(n: nat, f: nat) returns (i: nat, j: nat, s: nat)
    requires n > 0 && f < 2 * (n * n)
    ensures i < n && j < n && s < 2 && f == 2 * (i * n + j) + s
  {
    var c := f / 2;
    s := f % 2;
    SplitCell(n, c);
    i, j := c / n, c % n;
  }

  /** Triangle s of cell (i, j) is triangle 2*(i*n + j) + s of the face list,
      and its corners are those CellTriangles lists. */
  lemma TriangleOfCell(n: nat, i: nat, j: nat, s: nat, k: nat, f: nat)
    requires i < n && j < n && s < 2 && k < 3 && f == 2 * (i * n + j) + s
    ensures f < 2 * (n * n) && 3 * f + k < |GridFaces(n)|
    ensures GridFaces(n)[3 * f + k] == CellTriangles(n, i, j)[3 * s + k]
  {
    MulMono(i + 1, n, n);
    assert 3 * f + k == 6 * (i * n + j) + (3 * s + k);
    GridFacesLayout(n, i, j, 3 * s + k);
  }

  /** The corners of triangle f = 2*(i*n + j) + s: the first triangle of
      cell (i, j) for s = 0, the second for s = 1. */
  lemma TriangleCorners(n: nat, i: nat, j: nat, s: nat, f: nat)
    requires i < n && j < n && s < 2 && f == 2 * (i * n + j) + s
    ensures 3 * f + 2 < |GridFaces(n)|
    ensures s == 0 ==> GridFaces(n)[3 * f] == VertexIndex(n, i, j)
                       && GridFaces(n)[3 * f + 1] == VertexIndex(n, i, j + 1)
                       && GridFaces(n)[3 * f + 2] == VertexIndex(n, i + 1, j)
    ensures s == 1 ==> GridFaces(n)[3 * f] == VertexIndex(n, i, j + 1)
                       && GridFaces(n)[3 * f + 1] == VertexIndex(n, i + 1, j + 1)
                       && GridFaces(n)[3 * f + 2] == VertexIndex(n, i + 1, j)
  {
    TriangleOfCell(n, i, j, s, 0, f);
    TriangleOfCell(n, i, j, s, 1, f);
    TriangleOfCell(n, i, j, s, 2, f);
    CellCorners(n, i, j);
  }

  /** Every triangle of the grid has the height component dX * dY. */
  lemma GridTriangleHeight(verts: seq<real>, n: nat, minX: real, dX: real, minY: real, dY: real, f: nat)
    requires Planar(verts, n, minX, dX, minY, dY) && n > 0 && f < 2 * (n * n)
    ensures 3 * f + 2 < |GridFaces(n)| && IndicesIn(GridFaces(n), verts)
    ensures TriangleNormal(verts, GridFaces(n), f).z == dX * dY
  {
    GridFacesIn(n, verts);
    var i, j, s := CellOfTriangle(n, f);
    TriangleCorners(n, i, j, s, f);
    CellNormals(verts, n, minX, dX, minY, dY, i, j);
  }

  /** Corner k of triangle s of cell (i, j) is incident to the grid's
      triangles. */
  lemma CornerIncident(n: nat, i: nat, j: nat, s: nat, k: nat, p: nat)
    requires i < n && j < n && s < 2 && k < 3 && p == CellTriangles(n, i, j)[3 * s + k]
    ensures 3 * (2 * (n * n)) <= |GridFaces(n)|
    ensures Incidence(GridFaces(n), 2 * (n * n), p) >= 1
  {
    var f := 2 * (i * n + j) + s;
    TriangleOfCell(n, i, j, s, k, f);
    FaceCornerIncident(GridFaces(n), 2 * (n * n), f, k, p);
  }

  /** Corner k of triangle f of a face list is incident to its triangles. */
  lemma FaceCornerIncident(faces: seq<nat>, t: nat, f: nat, k: nat, p: nat)
    requires 3 * t <= |faces| && f < t && k < 3 && p == faces[3 * f + k]
    ensures Incidence(faces, t, p) >= 1
  {
    IncidentCorner(faces, t, f, p);
  }

  /** Every vertex of the lattice is a corner of some triangle: (i, j) of
      the first triangle of cell (i, j) inside, its second corner on the
      right edge, its third on the top edge, and the second corner of the
      last cell's second triangle at the top-right. */
  lemma GridIncidence(n: nat, p: nat)
    requires n > 0 && p < VertexCount(n)
    ensures 3 * (2 * (n * n)) <= |GridFaces(n)|
    ensures Incidence(GridFaces(n), 2 * (n * n), p) >= 1
  {
    var i, j := Row(n, p), Col(n, p);
    assert p == VertexIndex(n, i, j);
    if i > n {
      MulMono(n + 1, i, n + 1);
    }
    if i < n && j < n {
      CellCorners(n, i, j);
      CornerIncident(n, i, j, 0, 0, p);
    } else if i < n {
      CellCorners(n, i, n - 1);
      CornerIncident(n, i, n - 1, 0, 1, p);
    } else if j < n {
      CellCorners(n, n - 1, j);
      CornerIncident(n, n - 1, j, 0, 2, p);
    } else {
      CellCorners(n, n - 1, n - 1);
      CornerIncident(n, n - 1, n - 1, 1, 1, p);
    }
  }

  /** Every triangle of the grid has the height component dX * dY. */
  lemma GridTrianglesHeight(verts: seq<real>, n: nat, minX: real, dX: real, minY: real, dY: real)
    requires Planar(verts, n, minX, dX, minY, dY) && n > 0
    ensures 3 * (2 * (n * n)) <= |GridFaces(n)| && IndicesIn(GridFaces(n), verts)
    ensures forall f :: 0 <= f < 2 * (n * n) ==> TriangleNormal(verts, GridFaces(n), f).z == dX * dY
  {
    var faces, t := GridFaces(n), 2 * (n * n);
    GridFacesIn(n, verts);
    assert 3 * t == |faces|;
    forall f | 0 <= f < t
      ensures TriangleNormal(verts, faces, f).z == dX * dY
    {
      GridTriangleHeight(verts, n, minX, dX, minY, dY, f);
    }
  }

  /** Over a lattice with positive spacings every accumulated vertex normal
      points up: its height component is dX * dY once per incident corner,
      and every vertex is a corner at least once. */
  lemma NormalsPointUp(verts: seq<real>, n: nat, minX: real, dX: real, minY: real, dY: real, p: nat)
    requires Planar(verts, n, minX, dX, minY, dY) && n > 0 && dX > 0.0 && dY > 0.0 && p < VertexCount(n)
    ensures 3 * (2 * (n * n)) <= |GridFaces(n)| && HasVertex(Zeros(3 * VertexCount(n)), p)
    ensures IndicesIn(GridFaces(n), verts) && IndicesIn(GridFaces(n), Zeros(3 * VertexCount(n)))
    ensures VertexAt(Accumulated(Zeros(3 * VertexCount(n)), verts, GridFaces(n), 2 * (n * n)), p).z
            == Copies(Incidence(GridFaces(n), 2 * (n * n), p), dX * dY)
    ensures VertexAt(Accumulated(Zeros(3 * VertexCount(n)), verts, GridFaces(n), 2 * (n * n)), p).z
            > 0.0
  {
    var faces, t, zeros := GridFaces(n), 2 * (n * n), Zeros(3 * VertexCount(n));
    GridFacesIn(n, zeros);
    GridTrianglesHeight(verts, n, minX, dX, minY, dY);
    NormalSumHeight(verts, faces, t, p, dX * dY);
    AccumulatedIsSum(zeros, verts, faces, t, p);
    GridIncidence(n, p);
    CopiesPositive(Incidence(faces, t, p), dX, dY);
  }

  /** At least one copy of a positive area is positive. */
  lemma CopiesPositive(k: nat, dX: real, dY: real)
    requires k >= 1 && dX > 0.0 && dY > 0.0
    ensures Copies(k, dX * dY) > 0.0
  {
    assert dX * dY > 0.0;
    CopiesAtLeast(k, dX * dY);
  }

  /** A domain of positive extent has positive lattice spacing. */
  lemma DeltaPositive(lo: real, hi: real, n: nat)
    requires lo < hi && n > 0
    ensures Delta(lo, hi, n) > 0.0
  {
  }

  /** The terrain's normals point up over a domain of positive extent,
      whatever heights set_height chose. */
  lemma TerrainNormalsPointUp(n: nat, minX: real, maxX: real, minY: real, maxY: real, rnd: Sampler, p: nat)
    requires IsPow2(n) && minX < maxX && minY < maxY && p < VertexCount(n)
    ensures n > 0 && 3 * (2 * (n * n)) <= |GridFaces(n)| && HasVertex(Zeros(3 * VertexCount(n)), p)
    ensures IndicesIn(GridFaces(n), WithHeights(LatticeVertices(n, minX, maxX, minY, maxY), n, rnd))
    ensures IndicesIn(GridFaces(n), Zeros(3 * VertexCount(n)))
    ensures VertexAt(Accumulated(Zeros(3 * VertexCount(n)),
                                 WithHeights(LatticeVertices(n, minX, maxX, minY, maxY), n, rnd),
                                 GridFaces(n), 2 * (n * n)), p).z > 0.0
  {
    HeightedPlanar(n, minX, maxX, minY, maxY, rnd);
    DeltaPositive(minX, maxX, n);
    DeltaPositive(minY, maxY, n);
    NormalsPointUp(WithHeights(LatticeVertices(n, minX, maxX, minY, maxY), n, rnd), n,
                   minX, Delta(minX, maxX, n), minY, Delta(minY, maxY, n), p);
  }

  /** The same for the whole normal array of the terrain: over a domain of
      positive extent the height slot of every vertex normal is positive. */
  lemma TerrainNormalsUp(n: nat, minX: real, maxX: real, minY: real, maxY: real, rnd: Sampler,
                         verts: seq<real>, normals: seq<real>)
    requires IsPow2(n)
    requires verts == WithHeights(LatticeVertices(n, minX, maxX, minY, maxY), n, rnd)
    requires 3 * (2 * (n * n)) <= |GridFaces(n)|
    requires IndicesIn(GridFaces(n), verts) && IndicesIn(GridFaces(n), Zeros(3 * VertexCount(n)))
    requires normals == Accumulated(Zeros(3 * VertexCount(n)), verts, GridFaces(n), 2 * (n * n))
    ensures |normals| == 3 * VertexCount(n)
    ensures minX < maxX && minY < maxY ==>
              forall p :: 0 <= p < VertexCount(n) ==> normals[3 * p + 2] > 0.0
  {
    if minX < maxX && minY < maxY {
      forall p | 0 <= p < VertexCount(n)
        ensures normals[3 * p + 2] > 0.0
      {
        TerrainNormalsPointUp(n, minX, maxX, minY, maxY, rnd, p);
      }
    }
  }
}
