/** The application's scene: the list of shapes `generateGeometries` fills,
    one `addGeom` line per shape, each with a rotation, translation and scale. */
module Application {
  import opened Geometry
  import opened Meshes
  import opened Shapes
  import opened Primitives
  import Minerals

  /** The framework's own primitive builders `ofMesh::cylinder(radius,
      height, radiusSegments, heightSegments)` and `ofMesh::sphere(radius,
      resolution)`; their output is not part of this model. */
  datatype Library = Library(cylinder: (real, real, int, int) -> MeshData, sphere: (real, int) -> MeshData)

  /** How a scene line builds its shape: a plain BaseShape over the geometry,
      or a Minerals over it with `max` copies. */
  datatype Maker = AsBase(geom: MeshData) | AsMinerals(geom: MeshData, max: nat)

  /** One `addGeom(maker, rotation, translation, scale)` line. */
  datatype Entry = Entry(maker: Maker, rotation: Vec3, translation: Vec3, scale: Vec3)

  function Horn(lib: Library): MeshData { lib.cylinder(3.0, 20.0, 3, 1) }
  function Bubble(lib: Library): MeshData { lib.sphere(4.0, 6) }
  function Spike(lib: Library, radiusSegments: int, heightSegments: int): MeshData
  {
    lib.cylinder(0.0, 6.0, radiusSegments, heightSegments)
  }

  /** The 22 lines of `generateGeometries`, in order. */
  function Catalog(lib: Library): seq<Entry>
  {
    var tetra := TetrahedronData(20.0);
    var octa := OctahedronData(15.0);
    [ Entry(AsMinerals(tetra, 1), Vec3(0.0, 0.0, 0.0), Vec3(40.0, 0.0, 0.0), Unit),
      // minerals horns
      Entry(AsMinerals(Horn(lib), 1), Vec3(0.0, 0.0, 0.0), Vec3(0.0, 20.0, 0.0), Unit),
      Entry(AsMinerals(Horn(lib), 1), Vec3(0.0, 0.0, -90.0), Vec3(20.0, 0.0, 0.0), Unit),
      Entry(AsMinerals(Horn(lib), 1), Vec3(0.0, 0.0, 90.0), Vec3(40.0, 0.0, 0.0), Unit),
      Entry(AsMinerals(Horn(lib), 1), Vec3(0.0, 0.0, 0.0), Vec3(30.0, 0.0, 0.0), Unit),
      // bubbles
      Entry(AsMinerals(Bubble(lib), 1), Vec3(0.0, 0.0, 0.0), Vec3(30.0, 0.0, 0.0), Unit),
      Entry(AsMinerals(Bubble(lib), 1), Vec3(-90.0, 0.0, 0.0), Vec3(30.0, 0.0, 0.0), Unit),
      Entry(AsMinerals(Bubble(lib), 1), Vec3(0.0, 90.0, 0.0), Vec3(30.0, 0.0, 0.0), Unit),
      Entry(AsMinerals(Bubble(lib), 1), Vec3(0.0, -90.0, 0.0), Vec3(30.0, 0.0, 0.0), Unit),
      // minerals triangles
      Entry(AsMinerals(tetra, 1), Vec3(0.0, 0.0, 0.0), Vec3(0.0, 20.0, 0.0), Unit),
      Entry(AsMinerals(tetra, 1), Vec3(0.0, 0.0, -90.0), Vec3(20.0, 0.0, 0.0), Unit),
      Entry(AsMinerals(tetra, 1), Vec3(0.0, 0.0, 90.0), Vec3(40.0, 0.0, 0.0), Unit),
      Entry(AsMinerals(tetra, 1), Vec3(0.0, 0.0, 0.0), Vec3(30.0, 0.0, 0.0), Unit),
      // spikes
      Entry(AsBase(Spike(lib, 60, 5)), Vec3(-90.0, 0.0, 0.0), Vec3(0.0, 0.0, -30.0), Vec3(1.5, 0.7, 1.0)),
      Entry(AsBase(Spike(lib, 60, 5)), Vec3(-90.0, 0.0, 0.0), Vec3(0.0, 0.0, -30.0), Unit),
      Entry(AsBase(Spike(lib, 60, 5)), Vec3(-90.0, 0.0, 0.0), Vec3(20.0, 20.0, 0.0), Unit),
      Entry(AsBase(Spike(lib, 70, 4)), Vec3(0.0, 0.0, 0.0), Vec3(0.0, 0.0, 0.0), Unit),
      Entry(AsBase(Spike(lib, 80, 4)), Vec3(0.0, -90.0, 0.0), Vec3(0.0, 0.0, 0.0), Unit),
      // minerals diamonds
      Entry(AsMinerals(octa, 1), Vec3(0.0, 0.0, 0.0), Vec3(0.0, 20.0, 0.0), Unit),
      Entry(AsMinerals(octa, 1), Vec3(0.0, 0.0, -90.0), Vec3(20.0, 0.0, 0.0), Unit),
      Entry(AsMinerals(octa, 1), Vec3(0.0, 0.0, 90.0), Vec3(40.0, 0.0, 0.0), Unit),
      Entry(AsMinerals(octa, 1), Vec3(0.0, 0.0, 0.0), Vec3(30.0, 0.0, 0.0), Unit) ]
  }

  /** The mesh a maker produces. */
  function Built(m: Maker, k: Kernel): MeshData
  {
    match m
    case AsBase(g) => g
    case AsMinerals(g, max) => Minerals.MineralsData(g, max, k)
  }

  function KindOf(m: Maker): ShapeKind
  {
    match m
    case AsBase(_) => Plain
    case AsMinerals(_, max) => MineralsShape(max)
  }

  /** The shape stands where the line puts it, with the mesh its maker builds. */
  ghost predicate Placed(s: BaseShape, e: Entry, k: Kernel)
    reads s, s.mesh
  {
    && s.kind == KindOf(e.maker)
    && s.rotation == e.rotation && s.position == e.translation && s.scale == e.scale
    && s.mesh.Data() == Built(e.maker, k)
  }

  /** The catalog has 22 lines; lines 13 to 17 (the spikes) build plain
      shapes, every other line a Minerals with a single copy. */
  lemma CatalogShape(lib: Library)
    ensures |Catalog(lib)| == 22
    ensures forall t :: 0 <= t < 22 ==>
      (Catalog(lib)[t].maker.AsBase? <==> 13 <= t < 18)
    ensures forall t :: 0 <= t < 22 && Catalog(lib)[t].maker.AsMinerals? ==>
      Catalog(lib)[t].maker.max == 1
  {
  }

  /** The tetrahedron and octahedron lines hand Minerals a geometry with
      fewer normals than vertices. */
  lemma CatalogPolyhedraLackNormals(lib: Library)
    ensures forall t :: 0 <= t < 22 && (t == 0 || 9 <= t < 13 || 18 <= t < 22) ==>
      !NormalsCover(Catalog(lib)[t].maker.geom)
  {
    PolyhedraLackNormals(20.0);
    PolyhedraLackNormals(15.0);
  }

  class App {
    var shapes: seq<BaseShape>

    constructor ()
      ensures shapes == []
    {
      shapes := [];
    }

    /** `addGeom`: stores the placement in the shape and appends it. */
    method AddGeom(geom: BaseShape, rotation: Vec3, translation: Vec3, scale: Vec3)
      modifies this, geom
      ensures geom.rotation == rotation && geom.position == translation && geom.scale == scale
      ensures shapes == old(shapes) + [geom]
      ensures unchanged(geom.mesh)
    {
      geom.rotation := rotation;
      geom.position := translation;
      geom.scale := scale;
      shapes := shapes + [geom];
    }

    /** One line of `generateGeometries`: make the shape, then `addGeom`. */
    method AddEntry(e: Entry, k: Kernel) returns (geom: BaseShape)
      modifies this
      ensures shapes == old(shapes) + [geom]
      ensures fresh(geom) && fresh(geom.mesh)
      ensures Placed(geom, e, k)
    {
      if e.maker.AsBase? {
        geom := new BaseShape.FromMesh(e.maker.geom);
      } else {
        geom := Minerals.NewMinerals(e.maker.geom, e.maker.max, k);
      }
      AddGeom(geom, e.rotation, e.translation, e.scale);
    }

    /** `generateGeometries`: the 22 `addGeom` lines of the catalog, in
        order, each adding one new shape after the ones already present. */
    method GenerateGeometries(k: Kernel, lib: Library)
      modifies this
      ensures |shapes| == |old(shapes)| + 22 && shapes[..|old(shapes)|] == old(shapes)
      ensures forall t :: 0 <= t < 22 ==> Placed(shapes[|old(shapes)| + t], Catalog(lib)[t], k)
      ensures forall t :: |old(shapes)| <= t < |shapes| ==> fresh(shapes[t])
    {
      AddEntries(Catalog(lib), k);
    }

    /** The lines `es`, one after another: shape t is a new shape built and
        placed by line t, appended after the shapes already present. */
    method AddEntries(es: seq<Entry>, k: Kernel)
      modifies this
      ensures |shapes| == |old(shapes)| + |es| && shapes[..|old(shapes)|] == old(shapes)
      ensures forall t :: 0 <= t < |es| ==> Placed(shapes[|old(shapes)| + t], es[t], k)
      ensures forall t :: |old(shapes)| <= t < |shapes| ==> fresh(shapes[t])
    {
      var n := |shapes|;
      for i := 0 to |es|
        invariant |shapes| == n + i && shapes[..n] == old(shapes)
        invariant forall t :: 0 <= t < i ==> Placed(shapes[n + t], es[t], k)
        invariant forall t :: n <= t < |shapes| ==> fresh(shapes[t])
      {
        var geom := AddEntry(es[i], k);
      }
    }
  }
}
