/** The antenna: a polyline of `num` points along x with a sine wobble in y,
    wrapped in a tube of radius 5 with 6 segments per ring. */
module Antenna {
  import opened Geometry
  import opened Meshes
  import opened Rings
  import opened Tubes
  import opened Shapes

  const AntennaRadius: real := 5.0
  const AntennaSegments: nat := 6

  /** Point i of the antenna path: (20 i, 15 sin(i num), 0). */
  function AntennaPoint(num: nat, k: Kernel, i: nat): Vec3
  {
    Vec3(20.0 * i as real, 15.0 * k.sine((i * num) as real), 0.0)
  }

  function AntennaPoints(num: nat, k: Kernel): seq<Vec3>
  {
    seq(num, i requires 0 <= i < num => AntennaPoint(num, k, i))
  }

  /** The polyline loop of the constructor. */
  method BuildLine(num: nat, k: Kernel) returns (line: seq<Vec3>)
    ensures line == AntennaPoints(num, k)
  {
    line := [];
    var i := 0;
    while i < num
      invariant 0 <= i <= num
      invariant line == seq(i, t requires 0 <= t < i => AntennaPoint(num, k, t))
    {
      line := line + [AntennaPoint(num, k, i)];
      i := i + 1;
    }
  }

  /** `generateTubeMesh`: clears the shape's mesh (keeping its mode), emits one
      ring of `segments` vertices, normals and texture coordinates per point,
      then stitches each pair of consecutive rings. */
  method GenerateTubeMesh(shape: BaseShape, line: seq<Vec3>, radius: real, segments: nat, k: Kernel)
    requires |line| >= 1
    modifies shape.mesh
    ensures shape.mesh.Data() == ZUpTube(line, radius, segments, k, old(shape.mesh.mode))
  {
    var m := shape.mesh;
    m.Clear();
    EmitRings(m, line, segments, RingVertex(line, radius, segments, k),
              RingNormal(line, radius, segments, k), Some(RingTexCoord(|line|, segments)));
    EmitStitch(m, |line| - 1, segments, segments);
  }

  /** `Antenna(num)`. */
  method NewAntenna(num: nat, k: Kernel) returns (shape: BaseShape)
    requires num >= 1
    ensures fresh(shape) && fresh(shape.mesh)
    ensures shape.kind == AntennaShape
    ensures shape.position == Origin && shape.rotation == Origin && shape.scale == Unit
    ensures shape.mesh.Data() == AntennaData(num, k)
  {
    shape := new BaseShape(AntennaShape);
    var line := BuildLine(num, k);
    GenerateTubeMesh(shape, line, AntennaRadius, AntennaSegments, k);
  }

  function AntennaData(num: nat, k: Kernel): MeshData
    requires num >= 1
  {
    ZUpTube(AntennaPoints(num, k), AntennaRadius, AntennaSegments, k, Triangles)
  }

  /** An antenna of num points has 6 num vertices, normals and texture
      coordinates and 36 (num - 1) indices, all naming a vertex; ring i is
      centred 20 i along x. */
  lemma AntennaCounts(num: nat, k: Kernel)
    requires num >= 1
    ensures var d := AntennaData(num, k);
      && |d.vertices| == |d.normals| == |d.texCoords| == 6 * num
      && |d.indices| == 36 * (num - 1)
      && WellIndexed(d)
      && d.mode == Triangles
    ensures forall i :: 0 <= i < num ==>
      AntennaPoints(num, k)[i].x == 20.0 * i as real && AntennaPoints(num, k)[i].z == 0.0
  {
    ZUpTubeCounts(AntennaPoints(num, k), AntennaRadius, AntennaSegments, k, Triangles);
  }

  /** `Antenna(20)`: 120 vertices and 684 indices. */
  lemma AntennaTwenty(k: Kernel)
    ensures |AntennaData(20, k).vertices| == 120 && |AntennaData(20, k).indices| == 684
  {
    AntennaCounts(20, k);
  }
}
