# Terrain generator model

A Dafny model of the terrain generator of the Flight-Simulator project
(`terrainModeling.js`). The generator builds an (n+1) x (n+1) lattice of
flat `x, y, z` triples and two triangles per cell. It raises the lattice
with the diamond-square midpoint-displacement algorithm. It then
accumulates one normal per vertex from the cross products of the
triangles' edges. A companion routine expands the triangle list into
line segments for wireframe drawing.

The modules follow the pipeline:

- `Lattice`: index arithmetic.
  - The flat vertex index `i*(n+1) + j`.
  - The z slot `y*(n+1)*3 + x*3 + 2` of grid point (x, y).
  - Powers of two and the divisibility facts the recursion relies on.
- `GridBuilder`: the two push loops of `terrainFromIteration`.
  - `BuildLattice` builds the vertex and normal buffers.
  - `BuildFaces` builds the face list. Its inner loop is `PushRow`, and one iteration of that is `PushCell`.
- `HeightSynthesizer`: `set_height`, `divide`, `Diamondstep` and `Squarestep`.
  - These work in place on an `array<real>`.
  - Each loop is proved equal to a function on the array's contents.
  - `Subdivided` specifies `divide`. `Level` is one recursion level, built from `DiamondPass`/`DiamondRow` and `SquarePass`/`SquareRow`.
  - The properties the algorithm promises are proved about those functions: it writes only z slots, never overwrites the corners, and the corners end at 0 after the remap.
- `NormalEstimator`: the accumulation loop of `setNorms`.
  - It works in place on the normal array.
  - It is specified by `Accumulated`, the triangle-by-triangle fold.
  - `AccumulatedIsSum` proves that fold equals the per-vertex sum of the face normals of the triangles containing the vertex.
- `EdgeExtractor`: `generateLinesFromIndexedTriangles`.
- `Orientation`: over the planar lattice every face normal has height component `dX*dY`. Every vertex is a corner of some triangle. Hence every accumulated normal points up whenever `minX < maxX` and `minY < maxY`.
- `Terrain`: `terrainFromIteration` end to end.

Heights, coordinates and normals are `real`. `Math.random()` becomes a
`Sampler`, the sample drawn for the grid point being displaced. One sample
per point is as general as a stream of draws, because `divide` writes each
point at most once:

- At the level with square size `size`, a diamond point has both coordinates odd multiples of `size/2`.
- A square point has exactly one coordinate that is an odd multiple of `size/2`.
- The diamond and square points of one level are therefore distinct, and within a pass the loops never revisit a point.
- Every point written at this level lies on the lattice of spacing `size/2`, which is where every later level's coarse lattice is.
- Later levels keep that lattice unchanged (`SubdividedKeeps`), so they never write these points again.

The per-point facts are the ones `DiamondCentre` and `SquarePoint` prove ("off the coarse lattice"). Distinctness across the points of one pass is argued here, not proved.

## Model

| member | source | states |
|---|---|---|
| GridBuilder.BuildLattice | terrainModeling.js:25-37 | the vertex buffer is `LatticeVertices` and the normal buffer is 3(n+1)^2 zeros |
| GridBuilder.LatticeLayout | terrainModeling.js:27-32 | vertex i*(n+1)+j sits at slots 3(i*(n+1)+j) .. +2 and holds (minX + deltaX*j, minY + deltaY*i, 0) |
| GridBuilder.PushVertex | terrainModeling.js:30-36 | one inner iteration extends the vertex buffer by vertex (i, j) and the normal buffer by three zeros |
| GridBuilder.Zeros | terrainModeling.js:34-36 | the initial normal buffer has the requested length and is zero everywhere |
| GridBuilder.PushCell | terrainModeling.js:44-51 | one cell pushes vid, vid+1, vid+n+1, vid+1, vid+n+2, vid+n+1 with vid = i*(n+1)+j |
| GridBuilder.PushRow | terrainModeling.js:42-53 | the inner face loop appends row i's cells in column order and adds two to numT per cell |
| GridBuilder.BuildFaces | terrainModeling.js:40-53 | the face list is the cells row by row, 6n^2 entries, and numT = 2n^2 = length/3 |
| GridBuilder.FaceIndicesInRange | terrainModeling.js:44-51 | every face index is below (n+1)^2, so it names a lattice vertex |
| GridBuilder.RowsFacesBelow | terrainModeling.js:41-53 | the faces of the first i rows name lattice vertices only |
| GridBuilder.GridFacesLayout | terrainModeling.js:41-51 | entry k of cell (i, j) is entry 6(i*n+j)+k of the face list |
| GridBuilder.RowsFacesLayout | terrainModeling.js:41-53 | row r's cells start at entry 6rn of the face list |
| GridBuilder.RowFacesLayout | terrainModeling.js:42-51 | cell c of a row starts at entry 6c of that row's entries |
| Lattice.ZFacts | terrainModeling.js:76 | z index y*(n+1)*3+x*3+2 is the third slot of vertex y*(n+1)+x, lies inside the array and decodes back to (x, y) |
| Lattice.DecodeVertex | terrainModeling.js:44 | the vertex index i*(n+1)+j decodes to row i and column j |
| Lattice.LatticeRefines | terrainModeling.js:129 | a point on the lattice of spacing size is on the lattice of spacing size/2 |
| Lattice.Pow2Half | terrainModeling.js:129 | halving a power of two at least 2 gives a power of two |
| HeightSynthesizer.Offset | terrainModeling.js:119 | the displacement random*scale*2 - scale lies in [-scale, scale) for a sample in [0, 1) |
| HeightSynthesizer.DiamondStep | terrainModeling.js:143-154 | Diamondstep writes exactly the centre's z: the mean of the four corners at distance size plus the offset |
| HeightSynthesizer.DiamondCentre | terrainModeling.js:146-149 | for the loop's centres the four corners lie in the grid and the centre is off the coarse lattice |
| HeightSynthesizer.NeighbourSlots | terrainModeling.js:171-174 | each neighbour index the boundary tests allow is the z slot of that neighbour and lies inside the array |
| HeightSynthesizer.SquareMean | terrainModeling.js:171-200 | the five-way branch reads only permitted neighbours and computes `SquareAverage` |
| HeightSynthesizer.SquareStep | terrainModeling.js:168-203 | Squarestep writes exactly the point's z: its neighbour average plus the offset |
| HeightSynthesizer.SquareAverageIsMean | terrainModeling.js:176-200 | the average is the mean of the 3 in-grid neighbours on a domain edge and of all 4 inside |
| HeightSynthesizer.EdgeMean | terrainModeling.js:176-195 | each of the four edge branches averages exactly the three neighbours inside the grid |
| HeightSynthesizer.SquarePoint | terrainModeling.js:124-127 | every square-step point has at most one neighbour outside the grid and is off the coarse lattice |
| HeightSynthesizer.SquareRowStart | terrainModeling.js:124-125 | the row start (y+half)%size alternates between 0 and half as y steps by half |
| HeightSynthesizer.DiamondIteration | terrainModeling.js:118-119 | one inner diamond iteration advances the row function by one centre |
| HeightSynthesizer.DiamondRowLoop | terrainModeling.js:118-120 | the inner diamond loop computes `DiamondRow` |
| HeightSynthesizer.DiamondPassIteration | terrainModeling.js:117-121 | one outer diamond iteration advances the pass function by one row |
| HeightSynthesizer.DiamondPassLoop | terrainModeling.js:117-121 | the diamond loops compute `DiamondPass` |
| HeightSynthesizer.SquareIteration | terrainModeling.js:125-126 | one inner square iteration advances the row function by one point |
| HeightSynthesizer.SquareRowLoop | terrainModeling.js:125-127 | the inner square loop computes `SquareRow` |
| HeightSynthesizer.SquarePassIteration | terrainModeling.js:124-127 | one outer square iteration advances the pass function by half a step in y |
| HeightSynthesizer.SquarePassLoop | terrainModeling.js:124-128 | the square loops compute `SquarePass` |
| HeightSynthesizer.DiamondRowStep | terrainModeling.js:118-119 | a diamond row is its first centre's update followed by the rest of the row |
| HeightSynthesizer.SquareRowStep | terrainModeling.js:125-126 | a square row is its first point's update followed by the rest of the row |
| HeightSynthesizer.Divide | terrainModeling.js:105-130 | divide computes `Subdivided`; the recursion ends once size/2 < 1 and size halves each call |
| HeightSynthesizer.WriteOffLattice | terrainModeling.js:153 | writing the z of a point off the coarse lattice keeps every coarse lattice z and every x and y slot |
| HeightSynthesizer.KeepsCoarser | terrainModeling.js:129 | what is kept at spacing size/2 is kept at spacing size |
| HeightSynthesizer.DiamondRowKeeps | terrainModeling.js:118-120 | a diamond row keeps the coarse lattice heights and all x, y slots |
| HeightSynthesizer.DiamondPassKeeps | terrainModeling.js:117-121 | the diamond pass keeps the coarse lattice heights and all x, y slots |
| HeightSynthesizer.SquareRowKeeps | terrainModeling.js:125-127 | a square row keeps the coarse lattice heights and all x, y slots |
| HeightSynthesizer.SquarePassKeeps | terrainModeling.js:124-128 | the square pass keeps the coarse lattice heights and all x, y slots |
| HeightSynthesizer.LevelKeeps | terrainModeling.js:117-128 | one level of divide keeps the coarse lattice heights and all x, y slots |
| HeightSynthesizer.SubdividedKeeps | terrainModeling.js:105-130 | divide(n, size) never rewrites a point of the lattice of spacing size, nor any x or y slot |
| HeightSynthesizer.CornerSlots | terrainModeling.js:77-80 | the four literal indices are the z slots of (0,0), (n,0), (0,n), (n,n) and lie inside the array |
| HeightSynthesizer.SeedCorners | terrainModeling.js:74-80 | the four corner heights become n/2 and nothing else changes |
| HeightSynthesizer.SeededCorners | terrainModeling.js:74-80 | after seeding every corner height is n/2 and every x, y slot is unchanged |
| HeightSynthesizer.RemapOne | terrainModeling.js:90 | one remap step extends the remapped prefix by one vertex |
| HeightSynthesizer.RemapLoop | terrainModeling.js:86-92 | the remap loop computes `Remapped` |
| HeightSynthesizer.RemappedHeights | terrainModeling.js:86-92 | every height z becomes z/(n/2) - 1, once per vertex, and no x or y slot changes |
| HeightSynthesizer.SetHeight | terrainModeling.js:72-94 | set_height computes `WithHeights`: seed, divide(n, n), remap |
| HeightSynthesizer.SetHeightKeepsXY | terrainModeling.js:72-94 | set_height changes no x or y slot |
| HeightSynthesizer.CornerEndsAtZero | terrainModeling.js:74-92 | a corner seeded to n/2 and never rewritten ends at (n/2)/(n/2) - 1 = 0 |
| HeightSynthesizer.CornersEndAtZero | terrainModeling.js:74-92 | all four corner heights are 0 after set_height |
| NormalEstimator.Sub | terrainModeling.js:224-225 | vec3.sub's result r satisfies r + b = a |
| NormalEstimator.CrossPerpendicular | terrainModeling.js:227 | vec3.cross's result is perpendicular to both operands |
| NormalEstimator.FaceNormalPerpendicular | terrainModeling.js:217-227 | the face normal (v2-v1)x(v3-v1) is perpendicular to both triangle edges |
| NormalEstimator.AddAt | terrainModeling.js:230-232 | adding v to vertex i's normal adds v to exactly that vertex's triple |
| NormalEstimator.AddToVertex | terrainModeling.js:230-232 | the three `+=` on a corner's slots compute `AddAt` |
| NormalEstimator.AddTriangle | terrainModeling.js:217-240 | one triangle's body adds its face normal to its three corners in order |
| NormalEstimator.AddFaceSteps | terrainModeling.js:230-240 | one triangle's update is three corner updates in the source's order |
| NormalEstimator.AddFaceAt | terrainModeling.js:229-240 | a triangle adds its face normal to vertex i once per occurrence of i among its corners |
| NormalEstimator.AddFaceFrame | terrainModeling.js:229-240 | a triangle changes only the slots of its three corners |
| NormalEstimator.AccumulateTriangle | terrainModeling.js:215-241 | one loop iteration advances the fold by triangle i/3 |
| NormalEstimator.AccumulatedNext | terrainModeling.js:214-242 | the fold over t+1 triangles is triangle t's update after the fold over t |
| NormalEstimator.SetNorms | terrainModeling.js:214-242 | the accumulation loop computes `Accumulated` over all length/3 triangles |
| NormalEstimator.AccumulatedStep | terrainModeling.js:214-242 | after t triangles a vertex normal is its value after t-1 triangles plus triangle t-1's contribution |
| NormalEstimator.AccumulatedIsSum | terrainModeling.js:214-242 | each vertex normal ends as its start value plus the sum, over triangles containing it, of (v2-v1)x(v3-v1) |
| NormalEstimator.UntouchedVertex | terrainModeling.js:214-242 | a vertex that is no triangle's corner keeps its normal |
| NormalEstimator.NormalSumUntouched | terrainModeling.js:214-242 | the normal sum of a vertex that is no triangle's corner is zero |
| NormalEstimator.NormalSumHeight | terrainModeling.js:214-242 | when every face normal has height d, a vertex's normal sum has height d times its incidence count |
| NormalEstimator.IncidentCorner | terrainModeling.js:214-242 | a corner of a processed triangle has incidence at least 1 |
| EdgeExtractor.GenerateLines | terrainModeling.js:265-280 | the line array is its old contents followed by six entries per triangle |
| EdgeExtractor.EdgesLayout | terrainModeling.js:270-278 | triangle f contributes (a,b),(b,c),(c,a) at entries 6f .. 6f+5 |
| EdgeExtractor.EdgesPrefix | terrainModeling.js:268-279 | the lines of the first s triangles are a prefix of those of the first t |
| EdgeExtractor.EdgesFromFaces | terrainModeling.js:271-278 | every line entry is a face entry, so it is below any bound the faces respect |
| Orientation.HeightedPlanar | terrainModeling.js:25-56 | after set_height the x, y of vertex (i, j) are still minX + j*deltaX and minY + i*deltaY |
| Orientation.CellCorners | terrainModeling.js:44-51 | cell (i, j)'s six entries are vertices (i,j),(i,j+1),(i+1,j) and (i,j+1),(i+1,j+1),(i+1,j) |
| Orientation.CellNormals | terrainModeling.js:223-227 | both triangles of a planar cell have face-normal height deltaX*deltaY |
| Orientation.CellOfTriangle | terrainModeling.js:41-52 | triangle f of the face list is triangle f%2 of cell f/2 |
| Orientation.TriangleCorners | terrainModeling.js:44-51 | the corners of triangle 2(i*n+j)+s are those cell (i, j) pushes |
| Orientation.GridTrianglesHeight | terrainModeling.js:214-227 | every triangle of the grid has face-normal height deltaX*deltaY whatever the heights |
| Orientation.GridIncidence | terrainModeling.js:41-53 | every lattice vertex is a corner of at least one triangle |
| Orientation.NormalsPointUp | terrainModeling.js:214-242 | each accumulated normal has height deltaX*deltaY times its incidence, which is positive |
| Orientation.TerrainNormalsPointUp | terrainModeling.js:56-59 | over the heighted lattice every accumulated normal points up when minX < maxX and minY < maxY |
| Terrain.HeightedLattice | terrainModeling.js:25-56 | the vertex buffer is the lattice with the heights set_height gives it |
| Terrain.NormalArray | terrainModeling.js:34-59 | the normal buffer is the zero buffer with every triangle's face normal accumulated, and points up |
| Terrain.TerrainFromIteration | terrainModeling.js:21-62 | numT = 2n^2, the buffers have 3(n+1)^2 entries, faces are the grid's cells, the vertices carry set_height's heights and the normals are the accumulated face normals |

## Left out

- The normalisation loop of setNorms (terrainModeling.js:245-253): it calls `vec3.normalize`, which takes a floating-point square root, and its zero-vector handling lies in a library outside this model. The normals are modelled up to the accumulation.
- Floating point: heights, coordinates and normals are `real`, so rounding is not modelled.
- Math.random is not modelled. It is the `Sampler` parameter, one sample per grid point. `HeightSynthesizer.Offset` bounds the offset only for samples in [0, 1).
- HeightSynthesizer.SetHeight: requires n to be a power of two, the only kind of grid size the program uses (flight.js:65 passes 128). For other n the JavaScript keeps halving `size` into fractions and runs diamond-square on a fractional grid. A point whose index formula yields an integer overwrites the z slot of an unrelated vertex. Any other point is written under a key that is not an array element. The model does not describe this behaviour. Terrain.TerrainFromIteration, Terrain.HeightedLattice and HeightSynthesizer.Divide carry the same requirement.
- GridBuilder.BuildLattice: requires n > 0. For n = 0 the source divides by zero when computing deltaX and deltaY, so the spacings become infinite or NaN.
- NormalEstimator.SetNorms: requires a face list whose length is a multiple of 3 and whose indices name vertices. Otherwise the source reads `undefined` past the end of an array and the normals become NaN.
- EdgeExtractor.GenerateLines: requires a face list whose length is a multiple of 3. For other lengths the source's fractional triangle count makes the last iteration read past the end.
- The JavaScript arrays the pipeline pushes into are modelled as sequences built by the loops, then turned into arrays for the in-place phases. The buffers the caller passes in are assumed empty.
- Aliasing between the caller's buffers is not modelled: each buffer is a separate value or array.
- The accidental globals `half`, `i`, `j` and `numTris` are not modelled; they have no effect on the results.
- flight.js and text.js are not part of this model. They hold WebGL set-up, the camera and key handling, and canvas text.
