/** The openFrameworks mesh container: parallel buffers of vertices, normals,
    texture coordinates and colours, an index buffer and a primitive mode.
    Its implementation is not part of this model; the contracts below are the
    framework's documented behaviour, taken as the assumed specification of
    the calls the generators make. */
module Meshes {
  import opened Geometry

  /** `ofPrimitiveMode`: how the index buffer (or, without indices, the
      vertex order) is read into primitives. */
  datatype Mode = Triangles | TriangleStrip | TriangleFan | Lines | LineStrip | LineLoop | Points

  /** The value of a mesh at one moment; a C++ copy of an ofMesh. */
  datatype MeshData = MeshData(
    vertices: seq<Vec3>,
    normals: seq<Vec3>,
    texCoords: seq<Vec2>,
    colors: seq<Color>,
    indices: seq<nat>,
    mode: Mode
  )

  /** A default-constructed ofMesh (its mode defaults to triangles). */
  const EmptyMesh: MeshData := MeshData([], [], [], [], [], Triangles)

  /** Every index names an existing vertex. */
  ghost predicate WellIndexed(d: MeshData)
  {
    forall t :: 0 <= t < |d.indices| ==> d.indices[t] < |d.vertices|
  }

  /** Every vertex has a normal, so `getNormal(i)` is in range for each vertex. */
  predicate NormalsCover(d: MeshData)
  {
    |d.normals| >= |d.vertices|
  }

  function Shift(idx: seq<nat>, k: nat): seq<nat>
  {
    seq(|idx|, t requires 0 <= t < |idx| => idx[t] + k)
  }

  /** `a.append(b)`: every buffer is concatenated and every incoming index is
      offset by the receiver's prior vertex count; the mode is the receiver's. */
  function AppendData(a: MeshData, b: MeshData): MeshData
  {
    MeshData(a.vertices + b.vertices, a.normals + b.normals,
             a.texCoords + b.texCoords, a.colors + b.colors,
             a.indices + Shift(b.indices, |a.vertices|), a.mode)
  }

  /** Merging keeps the receiver's indices, offsets the incoming ones and
      keeps every index in range. */
  lemma AppendIndices(a: MeshData, b: MeshData)
    ensures var r := AppendData(a, b);
      && |r.vertices| == |a.vertices| + |b.vertices|
      && |r.indices| == |a.indices| + |b.indices|
      && r.indices[..|a.indices|] == a.indices
      && (forall t :: 0 <= t < |b.indices| ==>
            r.indices[|a.indices| + t] == b.indices[t] + |a.vertices|)
      && (WellIndexed(a) && WellIndexed(b) ==> WellIndexed(r))
  {
    var r := AppendData(a, b);
    if WellIndexed(a) && WellIndexed(b) {
      forall t | 0 <= t < |r.indices| ensures r.indices[t] < |r.vertices| {
        if t >= |a.indices| {
          assert r.indices[t] == b.indices[t - |a.indices|] + |a.vertices|;
        }
      }
    }
  }

  class Mesh {
    var vertices: seq<Vec3>
    var normals: seq<Vec3>
    var texCoords: seq<Vec2>
    var colors: seq<Color>
    var indices: seq<nat>
    var mode: Mode

    function Data(): MeshData
      reads this
    {
      MeshData(vertices, normals, texCoords, colors, indices, mode)
    }

    constructor ()
      ensures Data() == EmptyMesh
    {
      vertices, normals, texCoords, colors, indices := [], [], [], [], [];
      mode := Triangles;
    }

    /** A copy of a mesh value (`ofMesh meshClone = geom;`). */
    constructor Copy(d: MeshData)
      ensures Data() == d
    {
      vertices, normals, texCoords, colors := d.vertices, d.normals, d.texCoords, d.colors;
      indices, mode := d.indices, d.mode;
    }

    method SetMode(m: Mode)
      modifies this`mode
      ensures mode == m
    {
      mode := m;
    }

    method AddVertex(v: Vec3)
      modifies this`vertices
      ensures vertices == old(vertices) + [v]
    {
      vertices := vertices + [v];
    }

    method AddNormal(n: Vec3)
      modifies this`normals
      ensures normals == old(normals) + [n]
    {
      normals := normals + [n];
    }

    method AddTexCoord(c: Vec2)
      modifies this`texCoords
      ensures texCoords == old(texCoords) + [c]
    {
      texCoords := texCoords + [c];
    }

    method AddColor(c: Color)
      modifies this`colors
      ensures colors == old(colors) + [c]
    {
      colors := colors + [c];
    }

    method AddIndex(i: nat)
      modifies this`indices
      ensures indices == old(indices) + [i]
    {
      indices := indices + [i];
    }

    /** Empties every buffer; the primitive mode is kept. */
    method Clear()
      modifies this`vertices, this`normals, this`texCoords, this`colors, this`indices
      ensures Data() == EmptyMesh.(mode := mode)
    {
      vertices, normals, texCoords, colors, indices := [], [], [], [], [];
    }

    method GetVertex(i: nat) returns (v: Vec3)
      requires i < |vertices|
      ensures v == vertices[i]
    {
      v := vertices[i];
    }

    method GetNormal(i: nat) returns (n: Vec3)
      requires i < |normals|
      ensures n == normals[i]
    {
      n := normals[i];
    }

    method SetVertex(i: nat, v: Vec3)
      requires i < |vertices|
      modifies this`vertices
      ensures vertices == old(vertices)[i := v]
    {
      vertices := vertices[i := v];
    }

    method SetNormal(i: nat, n: Vec3)
      requires i < |normals|
      modifies this`normals
      ensures normals == old(normals)[i := n]
    {
      normals := normals[i := n];
    }

    /** `this.append(other)`. */
    method Append(other: Mesh)
      modifies this
      ensures Data() == AppendData(old(Data()), old(other.Data()))
    {
      var d := other.Data();
      indices := indices + Shift(d.indices, |vertices|);
      vertices := vertices + d.vertices;
      normals := normals + d.normals;
      texCoords := texCoords + d.texCoords;
      colors := colors + d.colors;
    }

    /** Copy assignment `mesh = other;`. */
    method Assign(d: MeshData)
      modifies this
      ensures Data() == d
    {
      vertices, normals, texCoords, colors := d.vertices, d.normals, d.texCoords, d.colors;
      indices, mode := d.indices, d.mode;
    }
  }
}
