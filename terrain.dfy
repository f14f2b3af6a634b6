/** terrainFromIteration: the whole pipeline. It builds the lattice and the
    faces, sets the heights with set_height and accumulates the normals
    with setNorms, then returns the triangle count. */
module Terrain {
  import opened Lattice
  import opened GridBuilder
  import opened HeightSynthesizer
  import opened NormalEstimator
  import opened Orientation

  /** A fresh array holding the given values: the step from a buffer built
      by pushes (a sequence) to the same buffer updated in place (an array). */
  method ToArray(s: seq<real>) returns (a: array<real>)
    ensures fresh(a) && a[..] == s
  {
    a := new real[|s|](k requires 0 <= k < |s| => s[k]);
  }

  /** The two buffers of terrainFromIteration's first loop: the vertex buffer,
      raised to the heights set_height gives it, and the zero normal buffer. */
  method HeightedLattice(n: nat, minX: real, maxX: real, minY: real, maxY: real, rnd: Sampler)
    returns (vertexArray: array<real>, normals: seq<real>)
    requires IsPow2(n)
    ensures fresh(vertexArray) && vertexArray.Length == 3 * VertexCount(n)
    ensures vertexArray[..] == WithHeights(LatticeVertices(n, minX, maxX, minY, maxY), n, rnd)
    ensures normals == Zeros(3 * VertexCount(n))
  {
    var vs;
    vs, normals := BuildLattice(n, minX, maxX, minY, maxY);
    vertexArray := ToArray(vs);
    SetHeight(vertexArray, n, rnd);
  }

  /** The normal buffer of terrainFromIteration: the zeros of the first loop,
      into which setNorms accumulates the face normals of the grid's
      triangles over the heighted lattice; every normal points up when the
      domain has positive extent. */
  method NormalArray(n: nat, minX: real, maxX: real, minY: real, maxY: real, rnd: Sampler,
                     verts: seq<real>, normals: seq<real>, faceArray: seq<nat>, numT: nat)
    returns (normalArray: array<real>)
    requires IsPow2(n) && verts == WithHeights(LatticeVertices(n, minX, maxX, minY, maxY), n, rnd)
    requires |verts| == 3 * VertexCount(n) && normals == Zeros(3 * VertexCount(n))
    requires faceArray == GridFaces(n) && numT == 2 * (n * n) && |faceArray| == 3 * numT
    ensures fresh(normalArray) && normalArray.Length == 3 * VertexCount(n)
    ensures IndicesIn(faceArray, verts) && IndicesIn(faceArray, Zeros(3 * VertexCount(n)))
    ensures normalArray[..] == Accumulated(Zeros(3 * VertexCount(n)), verts, faceArray, numT)
    ensures minX < maxX && minY < maxY ==>
              forall p :: 0 <= p < VertexCount(n) ==> normalArray[3 * p + 2] > 0.0
  {
    normalArray := ToArray(normals);
    DivMod(|faceArray|, 3, numT, 0);
    GridFacesIn(n, verts);
    GridFacesIn(n, normalArray[..]);
    SetNorms(faceArray, verts, normalArray);
    TerrainNormalsUp(n, minX, maxX, minY, maxY, rnd, verts, normalArray[..]);
  }

  /** terrainFromIteration for a grid of n x n cells over
      [minX, maxX] x [minY, maxY]: the vertex array holds the lattice with the
      heights set_height gives it, the face array two triangles per cell,
      and the normal array the accumulated face normals of those triangles,
      each pointing up when the domain has positive extent. */
  method TerrainFromIteration(n: nat, minX: real, maxX: real, minY: real, maxY: real, rnd: Sampler)
    returns (numT: nat, vertexArray: array<real>, faceArray: seq<nat>, normalArray: array<real>)
    requires IsPow2(n)
    ensures fresh(vertexArray) && fresh(normalArray)
    ensures numT == 2 * (n * n) && |faceArray| == 3 * numT
    ensures vertexArray.Length == 3 * VertexCount(n) && normalArray.Length == 3 * VertexCount(n)
    ensures faceArray == GridFaces(n)
    ensures vertexArray[..] == WithHeights(LatticeVertices(n, minX, maxX, minY, maxY), n, rnd)
    ensures IndicesIn(faceArray, vertexArray[..]) && IndicesIn(faceArray, Zeros(3 * VertexCount(n)))
    ensures normalArray[..] == Accumulated(Zeros(3 * VertexCount(n)), vertexArray[..], faceArray, numT)
    ensures minX < maxX && minY < maxY ==>
              forall p :: 0 <= p < VertexCount(n) ==> normalArray[3 * p + 2] > 0.0
  {
    var normals;
    vertexArray, normals := HeightedLattice(n, minX, maxX, minY, maxY, rnd);
    faceArray, numT := BuildFaces(n);
    normalArray := NormalArray(n, minX, maxX, minY, maxY, rnd, vertexArray[..], normals, faceArray, numT);
  }
}
