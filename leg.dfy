/** The leg: two copies of a tube over the same zig-zag polyline, each copy
    multiplied by its own rotation matrix and merged into one mesh. */
module Leg {
  import opened Geometry
  import opened Meshes
  import opened Rings
  import opened Tubes
  import opened Shapes
  import opened MeshTransform

  const LegSegments: nat := 7
  const LegCopies: nat := 2

  /** Point i of the leg path: (-30 i, -40 sin(2 i), 0). */
  function LegPoint(k: Kernel, i: nat): Vec3
  {
    Vec3(-30.0 * i as real, -40.0 * k.sine((i * 2) as real), 0.0)
  }

  function LegPoints(num: nat, k: Kernel): seq<Vec3>
  {
    seq(num, i requires 0 <= i < num => LegPoint(k, i))
  }

  /** The polyline loop run for each copy. */
  method BuildLine(num: nat, k: Kernel) returns (line: seq<Vec3>)
    ensures line == LegPoints(num, k)
  {
    line := [];
    var i := 0;
    while i < num
      invariant 0 <= i <= num
      invariant line == seq(i, t requires 0 <= t < i => LegPoint(k, t))
    {
      line := line + [LegPoint(k, i)];
      i := i + 1;
    }
  }

  /** The leg's private `generateTubeMesh`: a fresh mesh in triangle mode with
      one ring per point and the rings stitched pairwise. */
  method GenerateTubeMesh(line: seq<Vec3>, radius: real, segments: nat, k: Kernel) returns (m: Mesh)
    requires |line| >= 1
    ensures fresh(m) && m.Data() == ZUpTube(line, radius, segments, k, Triangles)
  {
    m := new Mesh();
    m.SetMode(Triangles);
    EmitRings(m, line, segments, RingVertex(line, radius, segments, k),
              RingNormal(line, radius, segments, k), Some(RingTexCoord(|line|, segments)));
    EmitStitch(m, |line| - 1, segments, segments);
  }

  /** The matrix product applied to every vertex of copy j. */
  function LegVertexMap(k: Kernel, j: nat): Vec3 -> Vec3
  {
    v => k.legVertex(j, v)
  }

  /** The rotation part applied to every normal of copy j. */
  function LegNormalMap(k: Kernel, j: nat): Vec3 -> Vec3
  {
    n => k.legNormal(j, n)
  }

  /** Copy j: the tube with every vertex and normal transformed. */
  function LegCopy(num: nat, radius: real, k: Kernel, j: nat): MeshData
    requires num >= 1
  {
    Transformed(ZUpTube(LegPoints(num, k), radius, LegSegments, k, Triangles),
                LegVertexMap(k, j), LegNormalMap(k, j))
  }

  /** The first `copies` copies appended, in order, to an empty mesh. */
  function LegMerged(num: nat, radius: real, k: Kernel, copies: nat): MeshData
    requires num >= 1
  {
    if copies == 0 then EmptyMesh
    else AppendData(LegMerged(num, radius, k, copies - 1), LegCopy(num, radius, k, copies - 1))
  }

  function LegData(num: nat, radius: real, k: Kernel): MeshData
    requires num >= 1
  {
    LegMerged(num, radius, k, LegCopies)
  }

  /** `Leg(num, radius)`. */
  method NewLeg(num: nat, radius: real, k: Kernel) returns (shape: BaseShape)
    requires num >= 1
    ensures fresh(shape) && fresh(shape.mesh)
    ensures shape.kind == LegShape
    ensures shape.position == Origin && shape.rotation == Origin && shape.scale == Unit
    ensures shape.mesh.Data() == LegData(num, radius, k)
  {
    shape := new BaseShape(LegShape);
    var tentacleGeom := new Mesh();
    for j := 0 to LegCopies
      invariant fresh(tentacleGeom) && tentacleGeom != shape.mesh
      invariant shape.position == Origin && shape.rotation == Origin && shape.scale == Unit
      invariant tentacleGeom.Data() == LegMerged(num, radius, k, j)
    {
      var geometry := BuildCopy(num, radius, k, j);
      tentacleGeom.Append(geometry);
    }
    shape.mesh.Assign(tentacleGeom.Data());
  }

  /** One pass of the constructor's loop: the polyline, its tube, and the
      transform of every vertex and normal by the matrix of copy j. */
  method BuildCopy(num: nat, radius: real, k: Kernel, j: nat) returns (geometry: Mesh)
    requires num >= 1
    ensures fresh(geometry) && geometry.Data() == LegCopy(num, radius, k, j)
  {
    var randomPoints := BuildLine(num, k);
    geometry := GenerateTubeMesh(randomPoints, radius, LegSegments, k);
    ZUpTubeCounts(randomPoints, radius, LegSegments, k, Triangles);
    TransformAsWritten(geometry, LegVertexMap(k, j), LegNormalMap(k, j));
  }

  /** Each copy has num 7 vertices, normals and texture coordinates and the
      tube's 6 (num - 1) 7 indices, all naming a vertex. */
  lemma LegCopyShape(num: nat, radius: real, k: Kernel, j: nat)
    requires num >= 1
    ensures var c := LegCopy(num, radius, k, j);
      && |c.vertices| == |c.normals| == |c.texCoords| == num * LegSegments
      && c.indices == ZUpTube(LegPoints(num, k), radius, LegSegments, k, Triangles).indices
      && |c.indices| == 6 * (num - 1) * LegSegments
      && WellIndexed(c)
  {
    var tube := ZUpTube(LegPoints(num, k), radius, LegSegments, k, Triangles);
    ZUpTubeCounts(LegPoints(num, k), radius, LegSegments, k, Triangles);
    TransformedKeepsShape(tube, LegVertexMap(k, j), LegNormalMap(k, j));
  }

  /** Two copies with equal buffer sizes and equal indices, appended to an
      empty mesh: twice the buffers, and the second half of the indices is
      the first half shifted by one copy's vertex count. */
  lemma MergeTwo(a: MeshData, b: MeshData)
    requires |a.vertices| == |b.vertices| && |a.normals| == |b.normals| && |a.texCoords| == |b.texCoords|
    requires a.indices == b.indices && WellIndexed(a)
    ensures var d := AppendData(AppendData(EmptyMesh, a), b);
      && |d.vertices| == 2 * |a.vertices| && |d.normals| == 2 * |a.normals|
      && |d.texCoords| == 2 * |a.texCoords| && |d.indices| == 2 * |a.indices|
      && (forall t :: 0 <= t < |a.indices| ==> d.indices[|a.indices| + t] == d.indices[t] + |a.vertices|)
      && WellIndexed(d)
  {
    var first := AppendData(EmptyMesh, a);
    AppendIndices(EmptyMesh, a);
    AppendIndices(first, b);
    assert first.indices == a.indices;
  }

  /** The merged leg holds 2 num 7 vertices, normals and texture coordinates
      and 2 6 (num - 1) 7 indices; the second copy's indices are the first
      copy's shifted by num 7, and every index names a vertex. */
  lemma LegCounts(num: nat, radius: real, k: Kernel)
    requires num >= 1
    ensures var d := LegData(num, radius, k);
      var half := 6 * (num - 1) * LegSegments;
      && |d.vertices| == |d.normals| == |d.texCoords| == 2 * num * LegSegments
      && |d.indices| == 2 * half
      && (forall t :: 0 <= t < half ==> d.indices[half + t] == d.indices[t] + num * LegSegments)
      && WellIndexed(d)
  {
    var c0 := LegCopy(num, radius, k, 0);
    var c1 := LegCopy(num, radius, k, 1);
    LegCopyShape(num, radius, k, 0);
    LegCopyShape(num, radius, k, 1);
    assert LegMerged(num, radius, k, 1) == AppendData(EmptyMesh, c0);
    assert LegData(num, radius, k) == AppendData(LegMerged(num, radius, k, 1), c1);
    MergeTwo(c0, c1);
  }

  /** `Leg(10, 200)`: 140 vertices and 756 indices. */
  lemma LegTen(k: Kernel)
    ensures |LegData(10, 200.0, k).vertices| == 140 && |LegData(10, 200.0, k).indices| == 756
  {
    LegCounts(10, 200.0, k);
  }
}
