/** The two loops every tube generator runs: ring emission (one ring of
    vertices, normals and optionally texture coordinates per polyline point)
    and quad stitching (two triangles per quad between consecutive rings). */
module Tubes {
  import opened Geometry
  import opened Meshes
  import opened Rings

  datatype Option<T> = None | Some(value: T)

  /** The texture coordinates of the ring layout, when the generator emits any. */
  function TexGrid(rows: seq<Vec3>, w: nat, tex: Option<(Vec3, nat, nat) -> Vec2>): seq<Vec2>
  {
    if tex.Some? then Grid(rows, w, tex.value) else []
  }

  /** For each row p at position i and each j < w: addVertex(vertex(p, i, j)),
      addNormal(normal(p, i, j)) and, when given, addTexCoord(tex(p, i, j)). */
  method EmitRings(m: Mesh, rows: seq<Vec3>, w: nat,
                   vertex: (Vec3, nat, nat) -> Vec3,
                   normal: (Vec3, nat, nat) -> Vec3,
                   tex: Option<(Vec3, nat, nat) -> Vec2>)
    modifies m`vertices, m`normals, m`texCoords
    ensures m.vertices == old(m.vertices) + Grid(rows, w, vertex)
    ensures m.normals == old(m.normals) + Grid(rows, w, normal)
    ensures m.texCoords == old(m.texCoords) + TexGrid(rows, w, tex)
  {
    ghost var v0, n0, t0 := m.vertices, m.normals, m.texCoords;
    var i := 0;
    while i < |rows|
      invariant 0 <= i <= |rows|
      invariant m.vertices == v0 + Grid(rows[..i], w, vertex)
      invariant m.normals == n0 + Grid(rows[..i], w, normal)
      invariant m.texCoords == t0 + TexGrid(rows[..i], w, tex)
    {
      EmitNextRing(m, rows, i, w, vertex, normal, tex, v0, n0, t0);
      i := i + 1;
    }
    assert rows[..|rows|] == rows;
  }

  /** One pass of the outer ring loop: ring i extends the layout of the
      rows before it to the layout of the rows up to and including it. */
  method EmitNextRing(m: Mesh, rows: seq<Vec3>, i: nat, w: nat,
                      vertex: (Vec3, nat, nat) -> Vec3,
                      normal: (Vec3, nat, nat) -> Vec3,
                      tex: Option<(Vec3, nat, nat) -> Vec2>,
                      ghost v0: seq<Vec3>, ghost n0: seq<Vec3>, ghost t0: seq<Vec2>)
    requires i < |rows|
    requires m.vertices == v0 + Grid(rows[..i], w, vertex)
    requires m.normals == n0 + Grid(rows[..i], w, normal)
    requires m.texCoords == t0 + TexGrid(rows[..i], w, tex)
    modifies m`vertices, m`normals, m`texCoords
    ensures m.vertices == v0 + Grid(rows[..i + 1], w, vertex)
    ensures m.normals == n0 + Grid(rows[..i + 1], w, normal)
    ensures m.texCoords == t0 + TexGrid(rows[..i + 1], w, tex)
  {
    EmitRing(m, rows[i], i, w, vertex, normal, tex);
    GridSnoc(rows, i, w, vertex);
    GridSnoc(rows, i, w, normal);
    AppendAssoc(v0, Grid(rows[..i], w, vertex), Row(rows[i], i, w, vertex));
    AppendAssoc(n0, Grid(rows[..i], w, normal), Row(rows[i], i, w, normal));
    if tex.Some? {
      GridSnoc(rows, i, w, tex.value);
      AppendAssoc(t0, Grid(rows[..i], w, tex.value), Row(rows[i], i, w, tex.value));
    }
  }

  lemma AppendAssoc<T>(a: seq<T>, b: seq<T>, c: seq<T>)
    ensures (a + b) + c == a + (b + c)
  {
  }

  /** The inner loop of ring emission: the w entries of ring i around point p. */
  method EmitRing(m: Mesh, p: Vec3, i: nat, w: nat,
                  vertex: (Vec3, nat, nat) -> Vec3,
                  normal: (Vec3, nat, nat) -> Vec3,
                  tex: Option<(Vec3, nat, nat) -> Vec2>)
    modifies m`vertices, m`normals, m`texCoords
    ensures m.vertices == old(m.vertices) + Row(p, i, w, vertex)
    ensures m.normals == old(m.normals) + Row(p, i, w, normal)
    ensures m.texCoords == old(m.texCoords) + (if tex.Some? then Row(p, i, w, tex.value) else [])
  {
    var j := 0;
    while j < w
      invariant 0 <= j <= w
      invariant m.vertices == old(m.vertices) + Row(p, i, j, vertex)
      invariant m.normals == old(m.normals) + Row(p, i, j, normal)
      invariant m.texCoords == old(m.texCoords) + (if tex.Some? then Row(p, i, j, tex.value) else [])
    {
      RowSnoc(p, i, j, vertex);
      RowSnoc(p, i, j, normal);
      m.AddVertex(vertex(p, i, j));
      m.AddNormal(normal(p, i, j));
      if tex.Some? {
        RowSnoc(p, i, j, tex.value);
        m.AddTexCoord(tex.value(p, i, j));
      }
      j := j + 1;
    }
  }

  /** The face loop: for each ring i < rings and segment j < s, the six
      indices of Quad(i, j, stride, s). */
  method EmitStitch(m: Mesh, rings: nat, stride: nat, s: nat)
    modifies m`indices
    ensures m.indices == old(m.indices) + Stitch(rings, stride, s)
  {
    var i := 0;
    while i < rings
      invariant 0 <= i <= rings
      invariant m.indices == old(m.indices) + Stitch(i, stride, s)
    {
      EmitBand(m, i, stride, s);
      i := i + 1;
    }
  }

  /** The inner face loop: the quads between ring i and ring i+1. */
  method EmitBand(m: Mesh, i: nat, stride: nat, s: nat)
    modifies m`indices
    ensures m.indices == old(m.indices) + Band(i, s, stride, s)
  {
    var j := 0;
    while j < s
      invariant 0 <= j <= s
      invariant m.indices == old(m.indices) + Band(i, j, stride, s)
    {
      var nextSegment := (j + 1) % s;
      var currentIndex := i * stride + j;
      var nextIndex := (i + 1) * stride + j;
      var nextSegmentIndex := i * stride + nextSegment;
      var nextIndexSegment := (i + 1) * stride + nextSegment;

      m.AddIndex(currentIndex);
      m.AddIndex(nextIndex);
      m.AddIndex(nextIndexSegment);

      m.AddIndex(currentIndex);
      m.AddIndex(nextIndexSegment);
      m.AddIndex(nextSegmentIndex);
      assert Quad(i, j, stride, s) ==
        [currentIndex, nextIndex, nextIndexSegment, currentIndex, nextIndexSegment, nextSegmentIndex];
      j := j + 1;
    }
  }

  /** Vertex j of ring i of the Z-up tube: the point plus its radial offset. */
  function RingVertex(line: seq<Vec3>, radius: real, s: nat, k: Kernel): (Vec3, nat, nat) -> Vec3
  {
    (p: Vec3, i: nat, j: nat) => Add(p, k.tubeOffset(line, radius, s, i, j))
  }

  /** Normal j of ring i: the normalised radial offset. */
  function RingNormal(line: seq<Vec3>, radius: real, s: nat, k: Kernel): (Vec3, nat, nat) -> Vec3
  {
    (p: Vec3, i: nat, j: nat) => k.normalize(k.tubeOffset(line, radius, s, i, j))
  }

  /** Texture coordinate (j / segments, i / points). */
  function RingTexCoord(n: nat, s: nat): (Vec3, nat, nat) -> Vec2
  {
    (p: Vec3, i: nat, j: nat) => Vec2(Ratio(j, s), Ratio(i, n))
  }

  /** The mesh built by the Z-up tube generator over the polyline `line` with
      `s` segments per ring: one ring per point, rings stitched with stride s. */
  function ZUpTube(line: seq<Vec3>, radius: real, s: nat, k: Kernel, mode: Mode): MeshData
    requires |line| >= 1
  {
    MeshData(Grid(line, s, RingVertex(line, radius, s, k)),
             Grid(line, s, RingNormal(line, radius, s, k)),
             Grid(line, s, RingTexCoord(|line|, s)),
             [],
             Stitch(|line| - 1, s, s),
             mode)
  }

  /** Counts and index bound of the Z-up tube: n*s vertices, normals and
      texture coordinates, 6*(n-1)*s indices, each naming a vertex. */
  lemma ZUpTubeCounts(line: seq<Vec3>, radius: real, s: nat, k: Kernel, mode: Mode)
    requires |line| >= 1
    ensures var d := ZUpTube(line, radius, s, k, mode);
      && |d.vertices| == |line| * s
      && |d.normals| == |line| * s
      && |d.texCoords| == |line| * s
      && |d.indices| == 6 * (|line| - 1) * s
      && d.colors == []
      && WellIndexed(d)
  {
    var n := |line|;
    var d := ZUpTube(line, radius, s, k, mode);
    GridLength(line, s, RingVertex(line, radius, s, k));
    GridLength(line, s, RingNormal(line, radius, s, k));
    GridLength(line, s, RingTexCoord(n, s));
    StitchLength(n - 1, s, s);
    StitchBound(n - 1, s, s);
    assert (n - 1) * s + s == n * s;
  }

  /** Segment j of ring i sits at index i*s + j, with texture coordinate
      (j/s, i/n), both in [0, 1). */
  lemma ZUpTubeRing(line: seq<Vec3>, radius: real, s: nat, k: Kernel, mode: Mode, i: nat, j: nat)
    requires i < |line| && j < s
    ensures var d := ZUpTube(line, radius, s, k, mode);
      && i * s + j < |d.vertices| == |d.normals| == |d.texCoords|
      && d.vertices[i * s + j] == Add(line[i], k.tubeOffset(line, radius, s, i, j))
      && d.normals[i * s + j] == k.normalize(k.tubeOffset(line, radius, s, i, j))
      && d.texCoords[i * s + j] == Vec2(j as real / s as real, i as real / |line| as real)
      && 0.0 <= d.texCoords[i * s + j].u < 1.0
      && 0.0 <= d.texCoords[i * s + j].v < 1.0
  {
    var n := |line|;
    GridAt(line, s, RingVertex(line, radius, s, k), i, j);
    GridAt(line, s, RingNormal(line, radius, s, k), i, j);
    GridAt(line, s, RingTexCoord(n, s), i, j);
    RatioBelowOne(j, s);
    RatioBelowOne(i, n);
  }

  lemma RatioBelowOne(a: nat, b: nat)
    requires a < b
    ensures 0.0 <= Ratio(a, b) == a as real / b as real < 1.0
  {
  }

  /** The quad at ring i, segment j: triangles (c, c+s, d) and (c, d, e),
      sharing the diagonal c–d, where c = i*s+j, d = (i+1)*s + (j+1)%s and
      e = i*s + (j+1)%s. */
  lemma ZUpTubeQuad(line: seq<Vec3>, radius: real, s: nat, k: Kernel, mode: Mode, i: nat, j: nat)
    requires i + 1 < |line| && j < s
    ensures var d := ZUpTube(line, radius, s, k, mode);
      var q := 6 * (i * s + j);
      var c := i * s + j;
      var diagonal := (i + 1) * s + (j + 1) % s;
      && q + 6 <= |d.indices|
      && d.indices[q..q + 6] == [c, c + s, diagonal, c, diagonal, i * s + (j + 1) % s]
  {
    StitchQuad(|line| - 1, s, s, i, j);
    QuadCorners(i, j, s, s);
  }
}
