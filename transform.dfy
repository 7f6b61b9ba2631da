/** The in-place bulk transform the composite builders run over a copied mesh:
    every vertex is replaced by its image under the vertex transform and the
    normal with the same index by its image under the normal transform. */
module MeshTransform {
  import opened Geometry
  import opened Meshes

  /** The mesh after the bulk transform: vertex i becomes fv(vertex i), and
      normal i becomes fn(normal i) for every i below the vertex count; the
      other buffers, the indices and the mode are untouched. */
  function Transformed(d: MeshData, fv: Vec3 -> Vec3, fn: Vec3 -> Vec3): MeshData
  {
    d.(vertices := seq(|d.vertices|, i requires 0 <= i < |d.vertices| => fv(d.vertices[i])),
       normals := seq(|d.normals|, i requires 0 <= i < |d.normals| =>
                        if i < |d.vertices| then fn(d.normals[i]) else d.normals[i]))
  }

  /** The transform keeps every count and the index buffer, so an in-range
      mesh stays in range. */
  lemma TransformedKeepsShape(d: MeshData, fv: Vec3 -> Vec3, fn: Vec3 -> Vec3)
    ensures var r := Transformed(d, fv, fn);
      && |r.vertices| == |d.vertices| && |r.normals| == |d.normals|
      && r.texCoords == d.texCoords && r.colors == d.colors
      && r.indices == d.indices && r.mode == d.mode
      && (WellIndexed(d) ==> WellIndexed(r))
      && (NormalsCover(d) ==> NormalsCover(r))
  {
  }

  /** The loop as the leg and minerals builders write it: `getNormal(i)` and
      `setNormal(i, …)` for every vertex index i, which is only in range when
      the mesh has a normal per vertex. */
  method TransformAsWritten(m: Mesh, fv: Vec3 -> Vec3, fn: Vec3 -> Vec3)
    requires NormalsCover(m.Data())
    modifies m`vertices, m`normals
    ensures m.Data() == Transformed(old(m.Data()), fv, fn)
  {
    var i := 0;
    while i < |m.vertices|
      invariant 0 <= i <= |m.vertices| == |old(m.vertices)|
      invariant |m.normals| == |old(m.normals)|
      invariant forall t :: 0 <= t < |m.vertices| ==>
        m.vertices[t] == if t < i then fv(old(m.vertices)[t]) else old(m.vertices)[t]
      invariant forall t :: 0 <= t < |m.normals| ==>
        m.normals[t] == if t < i then fn(old(m.normals)[t]) else old(m.normals)[t]
    {
      var vertex := m.GetVertex(i);
      m.SetVertex(i, fv(vertex));
      var normal := m.GetNormal(i);
      m.SetNormal(i, fn(normal));
      i := i + 1;
    }
  }

  /** The same loop, touching normal i only when it exists. On a mesh with a
      normal per vertex it does exactly what TransformAsWritten does. */
  method TransformGuarded(m: Mesh, fv: Vec3 -> Vec3, fn: Vec3 -> Vec3)
    modifies m`vertices, m`normals
    ensures m.Data() == Transformed(old(m.Data()), fv, fn)
  {
    var i := 0;
    while i < |m.vertices|
      invariant 0 <= i <= |m.vertices| == |old(m.vertices)|
      invariant |m.normals| == |old(m.normals)|
      invariant forall t :: 0 <= t < |m.vertices| ==>
        m.vertices[t] == if t < i then fv(old(m.vertices)[t]) else old(m.vertices)[t]
      invariant forall t :: 0 <= t < |m.normals| ==>
        m.normals[t] == if t < i then fn(old(m.normals)[t]) else old(m.normals)[t]
    {
      var vertex := m.GetVertex(i);
      m.SetVertex(i, fv(vertex));
      if i < |m.normals| {
        var normal := m.GetNormal(i);
        m.SetNormal(i, fn(normal));
      }
      i := i + 1;
    }
  }
}
