# soundology meshes in Dafny

A model of the procedural mesh builders of *soundology*, an openFrameworks
sketch. Its shapes are meshes made of buffers: vertices, normals, texture
coordinates, colours and triangle indices. The model covers how those buffers
are filled, stitched, cloned and merged:

- the white circle fan and the tetrahedron and octahedron tables (`ofApp.cpp`);
- the three tube generators, which emit rings of vertices along a polyline
  and stitch consecutive rings with two triangles per quad. `Antenna` and
  `Leg` emit one ring per point; `TentacleStraight` as written emits rings
  for the first n-1 points only (see "## Findings");
- the clone-and-merge builders (`Minerals`: `max` scaled, turned and moved
  copies; `Leg`: two rotated copies of one tube);
- `BaseShape` and its transform setters;
- the scene list that `generateGeometries` fills through `addGeom`.

## Layout

| file | module | contents |
|---|---|---|
| geometry.dfy | `Geometry` | vectors; `Kernel`, the trigonometric and matrix values as opaque functions |
| mesh.dfy | `Meshes` | `MeshData` (a snapshot of the buffers) and the `Mesh` class (`ofMesh`) |
| rings.dfy | `Rings` | `Grid` (ring vertex layout) and `Stitch` (tube face indices), with their index lemmas |
| tubes.dfy | `Tubes` | the ring-emission and stitching loops shared by the tubes; the Z-up tube `ZUpTube` |
| shapes.dfy | `Shapes` | the `BaseShape` class |
| transform.dfy | `MeshTransform` | the vertex and normal rewrite loop (`setVertex`/`setNormal`) |
| primitives.dfy | `Primitives` | circle, tetrahedron, octahedron, winding |
| antenna.dfy | `Antenna` | `Antenna(num)` |
| leg.dfy | `Leg` | `Leg(num, radius)` |
| tentacle.dfy | `TentacleStraight` | `TentacleStraight()`, as written and corrected |
| minerals.dfy | `Minerals` | `Minerals(geom, max)` |
| app.dfy | `Application` | the 22-line catalog, `addGeom`, `generateGeometries` |

`ofMesh` is a class whose buffers are `seq` fields:
- `addX` appends;
- `clear` empties every buffer and keeps the primitive mode;
- `setVertex`/`setNormal` replace one entry;
- `setMode` sets the primitive mode, one of the seven `ofPrimitiveMode` values;
- `append(other)` concatenates the buffers and adds the receiver's old vertex
  count to every incoming index.

This is the openFrameworks contract. Its code is not part of this model, so
these contracts are its assumed specification. Every method that builds a mesh
is proved against a function that gives the whole resulting buffer contents
(`ZUpTube`, `StraightTube`, `LegData`, `MineralsData`, `TetrahedronData`, …).
Lemmas state the counts, index bounds and layout.

## Model

| member | source | states |
|---|---|---|
| Meshes.Mesh.Clear | src/Antenna.h:16 | every buffer is emptied; the primitive mode is kept |
| Meshes.Mesh.Append | src/Minerals.h:40 | the receiver's buffers become its old buffers followed by the other mesh's, with incoming indices shifted by the old vertex count |
| Meshes.AppendIndices | src/Leg.h:37 | after an append, the old indices come first and then the incoming ones shifted by the receiver's vertex count; appending two well-indexed meshes gives a well-indexed mesh |
| Rings.GridAt | src/Antenna.h:18-32 | ring i, segment j of a ring layout of width w sits at index i*w + j, inside the buffer of rows*w entries |
| Rings.StitchLength | src/Antenna.h:36-52 | stitching `rings` ring pairs emits 6 * rings * s indices |
| Rings.StitchAt | src/Antenna.h:36-52 | index 6(i*s + j) + t of the stitch is index t of quad (i, j): the quads appear ring by ring, segment by segment |
| Rings.StitchBound | src/Antenna.h:36-52 | every stitch index is below rings*stride + s |
| Rings.StitchAvoidsSeam | src/TentacleStraight.h:50-66 | with stride r + 1, no stitch index names the closing vertex r of a ring |
| Tubes.EmitRings | src/Antenna.h:18-33 | the ring loop appends the ring layout of the points to the vertices and normals, and to the texture coordinates when it emits them; indices are unchanged |
| Tubes.EmitNextRing | src/Antenna.h:18-33 | one pass of the outer ring loop extends the ring layout of the points before i to the layout of the points up to and including i |
| Tubes.EmitRing | src/Antenna.h:26-32 | one pass of the inner ring loop appends the w vertices, normals (and texture coordinates) of ring i |
| Tubes.EmitStitch | src/Antenna.h:36-52 | the face loop appends exactly the stitch indices; the other buffers are unchanged |
| Tubes.EmitBand | src/Antenna.h:37-51 | one pass of the outer face loop appends the s quads of ring i |
| Tubes.ZUpTubeCounts | src/Leg.h:49-83 | over n >= 1 points with s segments: n*s vertices, normals and texture coordinates, no colours, 6(n-1)s indices, each below n*s |
| Tubes.ZUpTubeRing | src/Leg.h:57-63 | vertex, normal and texture coordinate of ring i, segment j sit at i*s + j; the texture coordinate is (j/s, i/n), both in [0, 1) |
| Tubes.ZUpTubeQuad | src/Leg.h:67-83 | quad (i, j) is the triangles (c, c+s, d) and (c, d, e) sharing the diagonal c–d, with the radial wrap (j+1) mod s |
| Shapes.BaseShape.constructor | src/BaseShape.h:12-14 | an empty mesh, zero position and rotation, unit scale |
| Shapes.BaseShape.FromMesh | src/BaseShape.h:16-18 | the mesh holds a copy of the given mesh; unit scale |
| Shapes.BaseShape.Update | src/BaseShape.h:20 | nothing changes |
| Shapes.BaseShape.ApplyScale | src/BaseShape.h:46-48 | scale becomes the argument and nothing else may change, so a repeated call leaves the same state (last write wins) |
| Shapes.BaseShape.ApplyRotation | src/BaseShape.h:50-52 | rotation becomes the argument and nothing else may change |
| Shapes.BaseShape.ApplyTranslation | src/BaseShape.h:54-56 | position becomes the argument and nothing else may change |
| MeshTransform.TransformedKeepsShape | src/Leg.h:26-34 | rewriting every vertex and normal keeps the vertex, normal and texture-coordinate counts, the colours, the indices and the mode |
| MeshTransform.TransformAsWritten | src/Leg.h:26-34 | when every vertex has a normal, the loop maps vertex i through the vertex transform and normal i through the normal transform, for every i |
| MeshTransform.TransformGuarded | src/Minerals.h:29-37 | the same result on any mesh: normals beyond the vertex count stay untouched, and missing normals are not read |
| Primitives.CreateCircleMesh | src/ofApp.cpp:5-19 | a fresh mesh holding the fan: the centre, then rim point i for i = 0 .. resolution |
| Primitives.CircleShape | src/ofApp.cpp:5-19 | triangle-fan mode, resolution + 2 vertices with the centre first at the origin, one white colour per vertex, no normals, texture coordinates or indices |
| Primitives.AddFace | src/ofApp.cpp:44 | one face line appends its three indices |
| Primitives.CreateTetrahedronMesh | src/ofApp.cpp:22-50 | a fresh mesh holding the four scaled corners and the four faces |
| Primitives.TetrahedronShape | src/ofApp.cpp:26-47 | 4 vertices, where vertex i is corner i times size; 12 indices, all below 4; no normals |
| Primitives.TetrahedronWindingConsistent | src/ofApp.cpp:44-47 | no directed edge repeats and every edge's reverse is present |
| Primitives.CreateOctahedronMesh | src/ofApp.cpp:52-90 | a fresh mesh holding the six scaled corners and the eight faces |
| Primitives.AddOctahedronFaces | src/ofApp.cpp:80-87 | the eight face lines append the octahedron's face table |
| Primitives.OctahedronShape | src/ofApp.cpp:52-90 | 6 vertices, vertex i is corner i times size; 24 indices, all below 6; no normals; every face is one pole (0 or 5) followed by two equatorial vertices |
| Primitives.OctahedronEdges | src/ofApp.cpp:80-87 | the directed edges of the face table, in order |
| Primitives.OctahedronRepeatedEdges | src/ofApp.cpp:80-87 | the equatorial edges 1→2, 2→3, 3→4 and 4→1 each occur in an upper face and again, in the same direction, in a lower face |
| Primitives.OctahedronMissingReverses | src/ofApp.cpp:80-87 | none of 2→1, 3→2, 4→3 and 1→4 occurs |
| Primitives.OctahedronNotConsistentlyWound | src/ofApp.cpp:80-87 | the octahedron is not consistently wound |
| Primitives.PolyhedraLackNormals | src/ofApp.cpp:22-90 | both polyhedra have fewer normals than vertices |
| Antenna.BuildLine | src/Antenna.h:7-10 | the polyline holds point i = (20 i, 15 sin(i num), 0) for i < num |
| Antenna.GenerateTubeMesh | src/Antenna.h:15-53 | the mesh becomes the Z-up tube over the line: nothing of its earlier content survives except the primitive mode |
| Antenna.NewAntenna | src/Antenna.h:6-13 | a fresh antenna placed at the origin with unit scale, whose mesh is the tube of radius 5 and 6 segments over its polyline |
| Antenna.AntennaCounts | src/Antenna.h:6-53 | 6 num vertices, normals and texture coordinates, 36(num-1) indices, all in range, in triangle mode; point i of the polyline has x = 20 i and z = 0 (where each ring sits around its point is `Tubes.ZUpTubeRing`) |
| Antenna.AntennaTwenty | src/Antenna.h:6-13 | `Antenna(20)` has 120 vertices and 684 indices |
| Leg.BuildLine | src/Leg.h:13-15 | the polyline holds point i = (-30 i, -40 sin(2 i), 0) for i < num |
| Leg.GenerateTubeMesh | src/Leg.h:45-86 | a fresh mesh in triangle mode holding the Z-up tube over the line |
| Leg.BuildCopy | src/Leg.h:10-34 | one pass of the constructor loop: the tube with every vertex and normal transformed by the matrix of copy j |
| Leg.NewLeg | src/Leg.h:6-42 | a fresh leg at the origin whose mesh is copy 0 followed by copy 1, appended in order |
| Leg.LegCopyShape | src/Leg.h:18-34 | each transformed copy keeps the tube's indices and has num·7 vertices, normals and texture coordinates and 6(num-1)·7 indices, all in range |
| Leg.LegCounts | src/Leg.h:9-41 | 2·num·7 vertices, normals and texture coordinates; 2·6(num-1)·7 indices, the second half being the first shifted by num·7; every index in range |
| Leg.LegTen | src/ofApp.cpp:147 | `Leg(10, 200)` has 140 vertices and 756 indices |
| TentacleStraight.GenerateTubeMeshAsWritten | src/TentacleStraight.h:27-67 | as written: the mesh is cleared, set to triangles and filled with rings for the first n-1 points only and faces for n-1 segments |
| TentacleStraight.StraightAsWrittenCounts | src/TentacleStraight.h:31-66 | as written: (n-1)(r+1) vertices and normals, no texture coordinates, 6(n-1)r indices, none naming a ring's seam vertex |
| TentacleStraight.StraightAsWrittenOverflow | src/TentacleStraight.h:50-56 | as written, with n >= 2 points and r >= 1: the last quad names vertex (n-1)(r+1) + r - 1, which is past the last vertex |
| TentacleStraight.TentacleAsWrittenOutOfRange | src/TentacleStraight.h:12-24 | as written, the fixed two-point tentacle with 8 radial segments has 9 vertices and index 16 |
| TentacleStraight.GenerateTubeMesh | src/TentacleStraight.h:27-67 | corrected: a ring for every point, with the same faces; `tubeSegments` does not affect the result |
| TentacleStraight.StraightTubeCounts | src/TentacleStraight.h:31-66 | corrected: n(r+1) vertices and normals, 6(n-1)r indices, all in range and none naming a seam vertex |
| TentacleStraight.NewTentacleStraight | src/TentacleStraight.h:7-25 | a fresh tentacle at the origin whose mesh is the corrected tube over (0,0,0)–(0,-200,0), radius 2, 8 radial segments |
| TentacleStraight.TentacleCounts | src/TentacleStraight.h:12-24 | corrected tentacle: 18 vertices, 48 indices, all in range |
| Minerals.NewMinerals | src/Minerals.h:6-42 | a fresh shape at the origin whose mesh is copies 0 .. max-1 appended in order; copy j is the geometry scaled by 1 - j/max, turned by 1.5 j/max and moved by ((25 - dis)/3, dis/2, 0) |
| Minerals.CloneShape | src/Minerals.h:9-37 | every copy keeps the geometry's vertex and normal counts and its indices |
| Minerals.ClonesCounts | src/Minerals.h:8-41 | c copies hold c times the geometry's vertices, normals, texture coordinates, colours and indices; so `max = 0` gives a mesh with every buffer empty |
| Minerals.ClonesMode | src/Minerals.h:6-40 | the merged mesh stays in the triangle mode of the shape's own mesh whatever the geometry's mode, so a strip geometry's indices are read as a triangle list |
| Minerals.ClonesIndices | src/Minerals.h:8-41 | the merged index buffer is the geometry's indices repeated c times, copy j shifted by j times the vertex count |
| Minerals.MergedIndexAt | src/Minerals.h:40 | c repeated copies hold c times the indices; entry t of copy j sits at j·|indices| + t and is entry t shifted by j times the vertex count |
| Minerals.ClonesIndexAt | src/Minerals.h:40 | index t of copy j is the geometry's index t plus j times its vertex count |
| Minerals.ClonesWellIndexed | src/Minerals.h:8-41 | a well-indexed geometry gives a well-indexed merged mesh |
| Minerals.Schedule | src/Minerals.h:15-19 | scale 1 and angle 0 for copy 0; the scale lies in (0, 1] and strictly falls with j; the angle lies in [0, 1.5) |
| Minerals.DisGrows | src/Minerals.h:7-11 | `dis` is never negative and never decreases |
| Minerals.SingleCopy | src/Minerals.h:6-41 | with max = 1 the mesh is the geometry at scale 1, angle 0, moved to (25/3, 0, 0) |
| Application.CatalogShape | src/ofApp.cpp:94-127 | 22 lines; the five spike lines build plain shapes and every other line builds a Minerals with max = 1 |
| Application.CatalogPolyhedraLackNormals | src/ofApp.cpp:95-126 | the tetrahedron and octahedron lines pass Minerals a geometry with fewer normals than vertices |
| Application.App.AddGeom | src/ofApp.cpp:131-136 | the shape gets the rotation, position and scale; it is appended last; earlier entries and the shape's mesh are unchanged |
| Application.App.AddEntry | src/ofApp.cpp:95 | one scene line: a fresh shape of the line's kind, placed as the line says, whose mesh is what its maker builds, appended last |
| Application.App.GenerateGeometries | src/ofApp.cpp:94-127 | exactly 22 newly allocated shapes are appended after the existing ones, which are kept; shape t has catalog line t's kind, placement and mesh |
| Application.App.AddEntries | src/ofApp.cpp:95-126 | for any list of lines: one new shape per line, in order, each of its line's kind, placement and mesh, appended after the existing shapes |

## Left out

- Floating point is modelled as `real`. Sines, cosines, `ofMap`, `normalized()`, cross products, rotation matrices and their products are opaque functions in `Kernel`. So the model does not say that normals have unit length or that frames are perpendicular. A single-point polyline would give a zero-length tangent (a NaN frame), and the model does not capture that either.
- `Minerals` composes `translationMatrix * rotationMatrix * scaleMatrix` and applies it to a vertex. The model keeps this as one opaque function `mineralsVertex(scale, angle, pos, v)`, because openFrameworks' row-vector convention is not part of this model.
- `ofMesh::cylinder`, `ofMesh::sphere` and `ofMesh::box` are not part of this model. The scene takes the first two as parameters (`Library`) and treats their results as arbitrary meshes, in any of the seven `ofPrimitiveMode` modes (openFrameworks builds cylinders as triangle strips).
- `BaseShape::draw` and `setMaterialColor` are rendering, so they are left out, and so is the material field.
- `ofApp::setup`, `update`, `draw`, `audioIn` and the window and input callbacks are framework glue, and `main.cpp` is window creation; all are left out. `setup`'s use of the default `max = 4` of `Minerals` is therefore not modelled.
- Integers are unbounded. The model does not capture 32-bit `int` overflow (for example `i * num` in `Antenna`).
- Antenna.NewAntenna: requires num >= 1. For num = 0, `line.size() - 1` wraps around as an unsigned value in the face loop, and the source does not guard it.
- Leg.NewLeg: requires num >= 1, for the same unsigned wrap-around in `Leg::generateTubeMesh`.
- `Leg::generateTubeMesh` computes the angle with `ofMap(j, 0, segments, 0, TWO_PI)` and `Antenna` with `TWO_PI * j / segments`. Both go through the same opaque ring offset `tubeOffset`.
- The `shared_ptr` ownership of scene shapes is not modelled. Each shape is a distinct heap object.
- Application.App.GenerateGeometries: the 22 `addGeom` lines are a literal table (`Catalog`), added in order by the loop of `AddEntries`, not as 22 separate statements. The order, the arguments and the resulting shapes are those of the lines.

## Findings

| source | as written | input that shows it | evidently intended | confidence | as-written member | corrected member |
|---|---|---|---|---|---|---|
| src/TentacleStraight.h:32-56 | rings are emitted only for the first n-1 points, but the faces of segment n-2 reach into ring n-1 | the constructor's own two-point line with 8 radial segments: 9 vertices, index 16 at position 43 | one ring per point, so every face index names a vertex | not executed | TentacleStraight.StraightAsWrittenOverflow | TentacleStraight.StraightTubeCounts |
| src/Minerals.h:29-37 | normal i is read and written for every vertex i | `Minerals(createTetrahedronMesh(20), 1)` at src/ofApp.cpp:95: 4 vertices, no normals | rewrite normals only where they exist | not executed | MeshTransform.TransformAsWritten | MeshTransform.TransformGuarded |

Notes on the rows:
- Row 1: `TentacleAsWrittenOutOfRange` and `GenerateTubeMeshAsWritten` are the other halves of the as-written model. `GenerateTubeMesh` is the corrected generator that `NewTentacleStraight` uses.
- Row 2: `PolyhedraLackNormals` and `CatalogPolyhedraLackNormals` show that the precondition of `TransformAsWritten` fails on these scene lines. `NewMinerals` uses the corrected loop.
