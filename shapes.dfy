/** BaseShape: a mesh plus the placement the renderer applies when drawing it.
    The setters only store the new transform; nothing is baked into the mesh. */
module Shapes {
  import opened Geometry
  import opened Meshes

  /** Which class built the shape; stands for the C++ dynamic type. */
  datatype ShapeKind = Plain | MineralsShape(max: nat) | AntennaShape | LegShape | TentacleStraightShape

  class BaseShape {
    const mesh: Mesh
    const kind: ShapeKind
    var position: Vec3
    var rotation: Vec3
    var scale: Vec3

    /** `BaseShape()`: an empty mesh, zero position and rotation, unit scale.
        The subclasses start from this constructor. */
    constructor (kind: ShapeKind)
      ensures fresh(mesh) && mesh.Data() == EmptyMesh
      ensures this.kind == kind
      ensures position == Origin && rotation == Origin && scale == Unit
    {
      mesh := new Mesh();
      this.kind := kind;
      position, rotation, scale := Origin, Origin, Unit;
    }

    /** `BaseShape(const ofMesh&)`: stores a copy of the given mesh. */
    constructor FromMesh(d: MeshData)
      ensures fresh(mesh) && mesh.Data() == d
      ensures kind == Plain
      ensures position == Origin && rotation == Origin && scale == Unit
    {
      mesh := new Mesh.Copy(d);
      kind := Plain;
      position, rotation, scale := Origin, Origin, Unit;
    }

    /** The base update does nothing. */
    method Update()
      ensures unchanged(this) && unchanged(mesh)
    {
    }

    method ApplyScale(v: Vec3)
      modifies this`scale
      ensures scale == v
    {
      scale := v;
    }

    method ApplyRotation(v: Vec3)
      modifies this`rotation
      ensures rotation == v
    {
      rotation := v;
    }

    method ApplyTranslation(v: Vec3)
      modifies this`position
      ensures position == v
    {
      position := v;
    }
  }
}
