/** The grid builder: the two push loops at the start of terrainFromIteration.

    The first loop lays out the (n+1) x (n+1) vertex lattice over
    [minX, maxX] x [minY, maxY] as flat x, y, z triples (z = 0) and a parallel
    normal array of zeros; the second emits two triangles per grid cell as
    flat vertex indices and counts them. */
module GridBuilder {
  import opened Lattice

  /** Spacing of the lattice along one axis: (max - min) / n. */
  function Delta(lo: real, hi: real, n: nat): real
    requires n > 0
  {
    (hi - lo) / n as real
  }

  /** The coordinate of lattice line c along one axis: lo + delta*c. */
  function Coord(lo: real, delta: real, c: nat): real
  {
    lo + delta * c as real
  }

  /** Slot k of the vertex array as built: x for k = 3p, y for k = 3p+1 and
      z = 0 for k = 3p+2, where p is a vertex in row Row(p), column Col(p). */
  function LatticeSlot(n: nat, minX: real, maxX: real, minY: real, maxY: real, k: nat): real
    requires n > 0
  {
    var p := k / 3;
    if k % 3 == 0 then Coord(minX, Delta(minX, maxX, n), Col(n, p))
    else if k % 3 == 1 then Coord(minY, Delta(minY, maxY, n), Row(n, p))
    else 0.0
  }

  /** The vertex array before any height is set. */
  function LatticeVertices(n: nat, minX: real, maxX: real, minY: real, maxY: real): (v: seq<real>)
    requires n > 0
    ensures |v| == 3 * VertexCount(n)
  {
    seq(3 * VertexCount(n), k requires 0 <= k => LatticeSlot(n, minX, maxX, minY, maxY, k))
  }

  /** The three slots of the vertex in row i, column j as LatticeSlot gives them. */
  lemma VertexSlots(n: nat, minX: real, maxX: real, minY: real, maxY: real, i: nat, j: nat)
    requires n > 0 && j <= n
    ensures LatticeSlot(n, minX, maxX, minY, maxY, 3 * VertexIndex(n, i, j))
            == Coord(minX, Delta(minX, maxX, n), j)
    ensures LatticeSlot(n, minX, maxX, minY, maxY, 3 * VertexIndex(n, i, j) + 1)
            == Coord(minY, Delta(minY, maxY, n), i)
    ensures LatticeSlot(n, minX, maxX, minY, maxY, 3 * VertexIndex(n, i, j) + 2) == 0.0
  {
    var p := VertexIndex(n, i, j);
    DecodeVertex(n, i, j);
    assert (3 * p) / 3 == p && (3 * p + 1) / 3 == p && (3 * p + 2) / 3 == p;
  }

  /** The vertex of row i, column j sits at slot 3*(i*(n+1)+j) and is
      (minX + deltaX*j, minY + deltaY*i, 0). */
  lemma {:induction false} LatticeLayout(n: nat, minX: real, maxX: real, minY: real, maxY: real, i: nat, j: nat)
    requires n > 0 && i <= n && j <= n
    ensures 3 * VertexIndex(n, i, j) + 2 < |LatticeVertices(n, minX, maxX, minY, maxY)|
    ensures LatticeVertices(n, minX, maxX, minY, maxY)[3 * VertexIndex(n, i, j)]
            == Coord(minX, Delta(minX, maxX, n), j)
    ensures LatticeVertices(n, minX, maxX, minY, maxY)[3 * VertexIndex(n, i, j) + 1]
            == Coord(minY, Delta(minY, maxY, n), i)
    ensures LatticeVertices(n, minX, maxX, minY, maxY)[3 * VertexIndex(n, i, j) + 2] == 0.0
  {
    VertexIndexBound(n, i, j);
    VertexSlots(n, minX, maxX, minY, maxY, i, j);
  }

  /** An array of m zeros. */
  function Zeros(m: nat): (z: seq<real>)
    ensures |z| == m && forall k :: 0 <= k < m ==> z[k] == 0.0
  {
    seq(m, k => 0.0)
  }

  /** Pushing the next three entries of s onto its prefix of length m. */
  lemma PushThree<T>(s: seq<T>, m: nat)
    requires m + 3 <= |s|
    ensures s[..m + 3] == s[..m] + [s[m], s[m + 1], s[m + 2]]
  {
  }

  /** One iteration of the lattice loop extends both prefixes by one vertex. */
  lemma PushVertex(n: nat, minX: real, maxX: real, minY: real, maxY: real, i: nat, j: nat,
                   v: seq<real>, z: seq<real>)
    requires n > 0 && i <= n && j <= n
    requires 3 * VertexIndex(n, i, j) <= |LatticeVertices(n, minX, maxX, minY, maxY)|
    requires v == LatticeVertices(n, minX, maxX, minY, maxY)[..3 * VertexIndex(n, i, j)]
    requires z == Zeros(3 * VertexIndex(n, i, j))
    ensures VertexIndex(n, i, j) + 1 <= VertexCount(n)
    ensures v + [Coord(minX, Delta(minX, maxX, n), j), Coord(minY, Delta(minY, maxY, n), i), 0.0]
            == LatticeVertices(n, minX, maxX, minY, maxY)[..3 * VertexIndex(n, i, j) + 3]
    ensures z + [0.0, 0.0, 0.0] == Zeros(3 * VertexIndex(n, i, j) + 3)
  {
    var lattice := LatticeVertices(n, minX, maxX, minY, maxY);
    var p := VertexIndex(n, i, j);
    LatticeLayout(n, minX, maxX, minY, maxY, i, j);
    PushThree(lattice, 3 * p);
  }

  /** The vertex lattice loop (two nested loops pushing onto vertexArray and
      normalArray): it yields exactly the lattice and an all-zero normal array
      of the same length. */
  method BuildLattice(n: nat, minX: real, maxX: real, minY: real, maxY: real)
    returns (vertexArray: seq<real>, normalArray: seq<real>)
    requires n > 0
    ensures vertexArray == LatticeVertices(n, minX, maxX, minY, maxY)
    ensures normalArray == Zeros(3 * VertexCount(n))
  {
    var deltaX := Delta(minX, maxX, n);
    var deltaY := Delta(minY, maxY, n);
    ghost var lattice := LatticeVertices(n, minX, maxX, minY, maxY);
    vertexArray, normalArray := [], [];
    ghost var p := 0;  // vertices pushed so far
    var i := 0;
    while i <= n
      invariant i <= n + 1 && p == VertexIndex(n, i, 0) && p <= VertexCount(n)
      invariant vertexArray == lattice[..3 * p] && normalArray == Zeros(3 * p)
    {
      var j := 0;
      while j <= n
        invariant j <= n + 1 && p == VertexIndex(n, i, j) && p <= VertexCount(n)
        invariant vertexArray == lattice[..3 * p] && normalArray == Zeros(3 * p)
      {
        PushVertex(n, minX, maxX, minY, maxY, i, j, vertexArray, normalArray);
        vertexArray := vertexArray + [Coord(minX, deltaX, j), Coord(minY, deltaY, i), 0.0];
        normalArray := normalArray + [0.0, 0.0, 0.0];
        p := p + 1;
        j := j + 1;
      }
      assert VertexIndex(n, i, n + 1) == VertexIndex(n, i + 1, 0);
      i := i + 1;
    }
    assert VertexIndex(n, n + 1, 0) == VertexCount(n);
  }

  /** The six indices cell (i, j) pushes, vid = i*(n+1)+j: the triangles
      (vid, vid+1, vid+n+1) and (vid+1, vid+n+2, vid+n+1). */
  function CellTriangles(n: nat, i: nat, j: nat): seq<nat>
  {
    var vid := VertexIndex(n, i, j);
    [vid, vid + 1, vid + n + 1, vid + 1, vid + 1 + n + 1, vid + n + 1]
  }

  /** The indices pushed for cells (i, 0) .. (i, j - 1) of row i. */
  function RowFaces(n: nat, i: nat, j: nat): (f: seq<nat>)
    ensures |f| == 6 * j
  {
    if j == 0 then [] else RowFaces(n, i, j - 1) + CellTriangles(n, i, j - 1)
  }

  /** The indices pushed for rows 0 .. i - 1, n cells each. */
  function RowsFaces(n: nat, i: nat): (f: seq<nat>)
    ensures |f| == 6 * (i * n)
  {
    if i == 0 then [] else RowsFaces(n, i - 1) + RowFaces(n, i - 1, n)
  }

  /** The face array: the cells visited row by row, six indices each. */
  function GridFaces(n: nat): (f: seq<nat>)
    ensures |f| == 6 * (n * n)
  {
    RowsFaces(n, n)
  }

  /** One iteration of the inner face loop: the six indices of cell (i, j)
      pushed onto faceArray. */
  method PushCell(faceArray: seq<nat>, n: nat, i: nat, j: nat) returns (r: seq<nat>)
    ensures r == faceArray + CellTriangles(n, i, j)
  {
    var vid: nat := i * (n + 1) + j;
    r := faceArray + [vid, vid + 1, vid + n + 1];
    r := r + [vid + 1, vid + 1 + n + 1, vid + n + 1];
  }

  /** The inner face loop: the cells (i, 0) .. (i, n - 1) of row i pushed
      onto faceArray, and numT counted up by two triangles per cell. */
  method PushRow(faceArray: seq<nat>, numT: nat, n: nat, i: nat) returns (r: seq<nat>, t: nat)
    ensures r == faceArray + RowFaces(n, i, n)
    ensures t == numT + 2 * n
  {
    r, t := faceArray, numT;
    var j := 0;
    while j < n
      invariant j <= n && r == faceArray + RowFaces(n, i, j) && t == numT + 2 * j
    {
      r := PushCell(r, n, i, j);
      assert RowFaces(n, i, j + 1) == RowFaces(n, i, j) + CellTriangles(n, i, j);
      t := t + 2;
      j := j + 1;
    }
  }

  /** The face loop: it pushes exactly GridFaces(n) and counts 2n^2 triangles. */
  method BuildFaces(n: nat) returns (faceArray: seq<nat>, numT: nat)
    ensures faceArray == GridFaces(n)
    ensures numT == 2 * (n * n)
    ensures |faceArray| == 3 * numT
  {
    faceArray, numT := [], 0;
    var i := 0;
    while i < n
      invariant i <= n && faceArray == RowsFaces(n, i) && numT == 2 * (i * n)
    {
      faceArray, numT := PushRow(faceArray, numT, n, i);
      assert i * n + n == (i + 1) * n;
      i := i + 1;
    }
  }

  /** Every entry of s is below bound. */
  predicate Below(s: seq<nat>, bound: nat)
  {
    forall k :: 0 <= k < |s| ==> s[k] < bound
  }

  /** The cells of row i < n name vertices of the lattice only. */
  lemma {:induction false} RowFacesBelow(n: nat, i: nat, j: nat)
    requires i < n && j <= n
    ensures Below(RowFaces(n, i, j), VertexCount(n))
  {
    if j > 0 {
      RowFacesBelow(n, i, j - 1);
      assert VertexIndex(n, i, j - 1) + n + 2 == VertexIndex(n, i + 1, j);
      VertexIndexBound(n, i + 1, j);
    }
  }

  /** The rows 0 .. i - 1 name vertices of the lattice only. */
  lemma {:induction false} RowsFacesBelow(n: nat, i: nat)
    requires i <= n
    ensures Below(RowsFaces(n, i), VertexCount(n))
  {
    if i > 0 {
      RowsFacesBelow(n, i - 1);
      RowFacesBelow(n, i - 1, n);
    }
  }

  /** Every entry of the face array is a vertex index below (n+1)^2. */
  lemma FaceIndicesInRange(n: nat)
    ensures forall k :: 0 <= k < |GridFaces(n)| ==> GridFaces(n)[k] < VertexCount(n)
  {
    RowsFacesBelow(n, n);
  }

  /** Cell (i, c) of a row sits at entries 6c .. 6c + 5 of that row's faces. */
  lemma {:induction false} RowFacesLayout(n: nat, i: nat, j: nat, c: nat, k: nat)
    requires c < j && k < 6
    ensures RowFaces(n, i, j)[6 * c + k] == CellTriangles(n, i, c)[k]
  {
    if c < j - 1 {
      RowFacesLayout(n, i, j - 1, c, k);
    }
  }

  /** Row r sits at entries 6rn .. 6rn + 6n - 1 of the faces of rows 0 .. i - 1. */
  lemma {:induction false} RowsFacesLayout(n: nat, i: nat, r: nat, m: nat)
    requires r < i && m < 6 * n
    ensures 6 * (r * n) + m < |RowsFaces(n, i)|
    ensures RowsFaces(n, i)[6 * (r * n) + m] == RowFaces(n, r, n)[m]
  {
    var prev := RowsFaces(n, i - 1);
    assert RowsFaces(n, i) == prev + RowFaces(n, i - 1, n);
    if r < i - 1 {
      RowsFacesLayout(n, i - 1, r, m);
    } else {
      assert |prev| == 6 * (r * n);
    }
  }

  /** Cell (i, j)'s six entries sit at 6*(i*n + j) .. 6*(i*n + j) + 5 of the
      face array, the order the two nested loops push them in. */
  lemma GridFacesLayout(n: nat, i: nat, j: nat, k: nat)
    requires i < n && j < n && k < 6
    ensures 6 * (i * n + j) + k < |GridFaces(n)|
    ensures GridFaces(n)[6 * (i * n + j) + k] == CellTriangles(n, i, j)[k]
  {
    RowsFacesLayout(n, n, i, 6 * j + k);
    RowFacesLayout(n, i, n, j, k);
    assert 6 * (i * n + j) + k == 6 * (i * n) + (6 * j + k);
  }
}
