/** Minerals: `max` transformed copies of one geometry merged into a single
    mesh. Copy j is scaled by 1 - j/max, turned about Z by 1.5 j/max and
    moved to a point that drifts along a shrinking step schedule. */
module Minerals {
  import opened Geometry
  import opened Meshes
  import opened Shapes
  import opened MeshTransform
  import opened Rings

  /** The uniform scale of copy j. */
  function CloneScale(max: nat, j: nat): real
    requires j < max
  {
    1.0 - j as real / max as real
  }

  /** The rotation angle about Z of copy j. */
  function CloneAngle(max: nat, j: nat): real
    requires j < max
  {
    1.5 * j as real / max as real
  }

  /** The value of `dis` after j passes: each pass j adds 25 (1 - (j+1)/max). */
  function Dis(max: nat, j: nat): real
    requires j <= max
  {
    if j == 0 then 0.0 else Dis(max, j - 1) + 25.0 * (1.0 - j as real / max as real)
  }

  /** The translation of copy j, read from `dis` before the pass adds to it. */
  function CloneOffset(max: nat, j: nat): Vec3
    requires j < max
  {
    Vec3((25.0 - Dis(max, j)) / 3.0, Dis(max, j) / 2.0, 0.0)
  }

  /** translate(pos) * rotate(angle about Z) * scale(s), applied to a vertex. */
  function Placement(k: Kernel, s: real, angle: real, pos: Vec3): Vec3 -> Vec3
  {
    v => k.mineralsVertex(s, angle, pos, v)
  }

  /** The rotation alone, applied to a normal. */
  function Turn(k: Kernel, angle: real): Vec3 -> Vec3
  {
    n => k.mineralsNormal(angle, n)
  }

  /** Copy j of the geometry. */
  function Clone(geom: MeshData, max: nat, k: Kernel, j: nat): MeshData
    requires j < max
  {
    Transformed(geom, Placement(k, CloneScale(max, j), CloneAngle(max, j), CloneOffset(max, j)),
                Turn(k, CloneAngle(max, j)))
  }

  /** The first c copies appended, in order, to an empty mesh. */
  function Clones(geom: MeshData, max: nat, k: Kernel, c: nat): MeshData
    requires c <= max
  {
    if c == 0 then EmptyMesh else AppendData(Clones(geom, max, k, c - 1), Clone(geom, max, k, c - 1))
  }

  function MineralsData(geom: MeshData, max: nat, k: Kernel): MeshData
  {
    Clones(geom, max, k, max)
  }

  /** `Minerals(geom, max)`. The transform loop reads and writes normal i for
      every vertex i (TransformAsWritten), which is out of range on a geometry
      with fewer normals than vertices; the model uses the loop that skips
      missing normals. */
  method NewMinerals(geom: MeshData, max: nat, k: Kernel) returns (shape: BaseShape)
    ensures fresh(shape) && fresh(shape.mesh)
    ensures shape.kind == MineralsShape(max)
    ensures shape.position == Origin && shape.rotation == Origin && shape.scale == Unit
    ensures shape.mesh.Data() == MineralsData(geom, max, k)
  {
    shape := new BaseShape(MineralsShape(max));
    var dis := 0.0;
    for j := 0 to max
      invariant shape.position == Origin && shape.rotation == Origin && shape.scale == Unit
      invariant dis == Dis(max, j)
      invariant shape.mesh.Data() == Clones(geom, max, k, j)
    {
      var meshClone := new Mesh.Copy(geom);
      var pos := Vec3((25.0 - dis) / 3.0, dis / 2.0, 0.0);
      dis := dis + 25.0 * (1.0 - (j + 1) as real / max as real);
      var s := 1.0 - j as real / max as real;
      var angle := 1.5 * j as real / max as real;
      TransformGuarded(meshClone, Placement(k, s, angle, pos), Turn(k, angle));
      shape.mesh.Append(meshClone);
    }
  }

  /** Every copy keeps the geometry's buffer sizes and indices. */
  lemma CloneShape(geom: MeshData, max: nat, k: Kernel, j: nat)
    requires j < max
    ensures var d := Clone(geom, max, k, j);
      && |d.vertices| == |geom.vertices| && |d.normals| == |geom.normals|
      && d.texCoords == geom.texCoords && d.colors == geom.colors
      && d.indices == geom.indices
  {
    TransformedKeepsShape(geom, Placement(k, CloneScale(max, j), CloneAngle(max, j), CloneOffset(max, j)),
                          Turn(k, CloneAngle(max, j)));
  }

  /** The merged mesh holds c copies' worth of every buffer; no copies give
      an empty mesh. */
  lemma {:induction false} ClonesCounts(geom: MeshData, max: nat, k: Kernel, c: nat)
    requires c <= max
    ensures var d := Clones(geom, max, k, c);
      && |d.vertices| == c * |geom.vertices|
      && |d.normals| == c * |geom.normals|
      && |d.texCoords| == c * |geom.texCoords|
      && |d.colors| == c * |geom.colors|
      && |d.indices| == c * |geom.indices|
  {
    if c > 0 {
      ClonesCounts(geom, max, k, c - 1);
      CloneShape(geom, max, k, c - 1);
      MulSucc(c - 1, |geom.vertices|);
      MulSucc(c - 1, |geom.normals|);
      MulSucc(c - 1, |geom.texCoords|);
      MulSucc(c - 1, |geom.colors|);
      MulSucc(c - 1, |geom.indices|);
    }
  }

  /** The index buffer of c merged copies of a geometry with nv vertices:
      copy j's indices shifted by j nv, in order. */
  function MergedIndices(idx: seq<nat>, nv: nat, c: nat): seq<nat>
  {
    if c == 0 then [] else MergedIndices(idx, nv, c - 1) + Shift(idx, (c - 1) * nv)
  }

  /** The merged mesh's index buffer is the geometry's, repeated c times,
      copy j shifted by j times the vertex count. */
  lemma {:induction false} ClonesIndices(geom: MeshData, max: nat, k: Kernel, c: nat)
    requires c <= max
    ensures Clones(geom, max, k, c).indices == MergedIndices(geom.indices, |geom.vertices|, c)
  {
    if c > 0 {
      ClonesIndices(geom, max, k, c - 1);
      ClonesCounts(geom, max, k, c - 1);
      CloneShape(geom, max, k, c - 1);
    }
  }

  /** Position t of copy j in a buffer of copies n entries long. */
  function Slot(j: nat, n: nat, t: nat): nat
  {
    j * n + t
  }

  /** Entry t of copy j of the merged indices is entry t shifted by j nv. */
  lemma {:induction false} MergedIndexAt(idx: seq<nat>, nv: nat, c: nat, j: nat, t: nat)
    requires j < c && t < |idx|
    ensures |MergedIndices(idx, nv, c)| == c * |idx|
    ensures Slot(j, |idx|, t) < c * |idx|
    ensures MergedIndices(idx, nv, c)[Slot(j, |idx|, t)] == idx[t] + j * nv
  {
    var prev := MergedIndices(idx, nv, c - 1);
    MergedLength(idx, nv, c - 1);
    MulSucc(c - 1, |idx|);
    SlotBelow(j, c, |idx|, t);
    if j < c - 1 {
      MergedIndexAt(idx, nv, c - 1, j, t);
    } else {
      assert Slot(j, |idx|, t) == |prev| + t;
    }
  }

  lemma {:induction false} MergedLength(idx: seq<nat>, nv: nat, c: nat)
    ensures |MergedIndices(idx, nv, c)| == c * |idx|
  {
    if c > 0 {
      MergedLength(idx, nv, c - 1);
      MulSucc(c - 1, |idx|);
    }
  }

  /** Index t of copy j sits at j |indices| + t and names the geometry's
      vertex shifted by j times its vertex count. */
  lemma ClonesIndexAt(geom: MeshData, max: nat, k: Kernel, c: nat, j: nat, t: nat)
    requires c <= max && j < c && t < |geom.indices|
    ensures var d := Clones(geom, max, k, c);
      && Slot(j, |geom.indices|, t) < |d.indices|
      && d.indices[Slot(j, |geom.indices|, t)] == geom.indices[t] + j * |geom.vertices|
  {
    ClonesIndices(geom, max, k, c);
    MergedIndexAt(geom.indices, |geom.vertices|, c, j, t);
  }

  lemma SlotBelow(j: nat, c: nat, n: nat, t: nat)
    requires j < c && t < n
    ensures Slot(j, n, t) < c * n
  {
    MulMono(j + 1, c, n);
    MulSucc(j, n);
  }

  /** The merged mesh keeps the mode of the shape's own, default-constructed
      mesh, whatever the geometry's mode: a strip or fan geometry's indices
      are then read as a plain triangle list. */
  lemma {:induction false} ClonesMode(geom: MeshData, max: nat, k: Kernel, c: nat)
    requires c <= max
    ensures Clones(geom, max, k, c).mode == Triangles
  {
    if c > 0 {
      ClonesMode(geom, max, k, c - 1);
    }
  }

  /** A well-indexed geometry gives a well-indexed merged mesh. */
  lemma {:induction false} ClonesWellIndexed(geom: MeshData, max: nat, k: Kernel, c: nat)
    requires c <= max && WellIndexed(geom)
    ensures WellIndexed(Clones(geom, max, k, c))
  {
    if c > 0 {
      ClonesWellIndexed(geom, max, k, c - 1);
      CloneShape(geom, max, k, c - 1);
      AppendIndices(Clones(geom, max, k, c - 1), Clone(geom, max, k, c - 1));
    }
  }

  /** The schedule: copy 0 is full size and unturned, the scale falls
      strictly with j and stays in (0, 1], the angle stays in [0, 1.5). */
  lemma Schedule(max: nat, j: nat)
    requires j < max
    ensures CloneScale(max, 0) == 1.0 && CloneAngle(max, 0) == 0.0
    ensures 0.0 < CloneScale(max, j) <= 1.0
    ensures 0.0 <= CloneAngle(max, j) < 1.5
    ensures j + 1 < max ==> CloneScale(max, j + 1) < CloneScale(max, j)
  {
    var m := max as real;
    assert j as real / m < 1.0;
    assert 0.0 <= j as real / m;
    if j + 1 < max {
      assert (j + 1) as real / m == j as real / m + 1.0 / m;
    }
  }

  /** `dis` never goes negative and never decreases. */
  lemma {:induction false} DisGrows(max: nat, j: nat)
    requires j < max
    ensures 0.0 <= Dis(max, j) <= Dis(max, j + 1)
  {
    var step := 25.0 * (1.0 - (j + 1) as real / max as real);
    assert (j + 1) as real / max as real <= 1.0;
    assert Dis(max, j + 1) == Dis(max, j) + step;
    if j > 0 {
      DisGrows(max, j - 1);
    }
  }

  /** With one copy the result is the geometry, unscaled and unturned,
      moved to (25/3, 0, 0). */
  lemma SingleCopy(geom: MeshData, k: Kernel)
    ensures MineralsData(geom, 1, k) ==
      AppendData(EmptyMesh, Transformed(geom, Placement(k, 1.0, 0.0, Vec3(25.0 / 3.0, 0.0, 0.0)), Turn(k, 0.0)))
  {
    assert CloneScale(1, 0) == 1.0 && CloneAngle(1, 0) == 0.0;
    assert CloneOffset(1, 0) == Vec3(25.0 / 3.0, 0.0, 0.0);
    assert Clones(geom, 1, k, 0) == EmptyMesh;
    assert MineralsData(geom, 1, k) == Clones(geom, 1, k, 1) == AppendData(EmptyMesh, Clone(geom, 1, k, 0));
  }
}
