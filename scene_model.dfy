/** The in-memory scene document that the C# library post-processes and validates.
    Protobuf message fields that may be null are `Option`s, repeated fields are
    sequences, `double` is `real` and `int` is `int` (no arithmetic is done on
    ids, so their 32-bit width never matters). A `oneof` of the schema is a
    datatype with one constructor per case. */
module SceneModel {
  import opened Wrappers

  datatype Vector3 = Vector3(x: real, y: real, z: real)

  datatype Color = Color(r: real, g: real, b: real)

  /** `ParentId` 0 means "no parent". */
  datatype Transform = Transform(parentId: int, position: Option<Vector3>, rotation: Option<Vector3>, scale: Option<Vector3>)

  /** The geometry `oneof` of a scene object. */
  datatype Mesh =
    | Cube(size: Option<Vector3>)
    | Disk(radius: real)
    | Sphere(radius: real)
    | Plane
    | MeshedObject(reference: Option<string>)

  /** The reflectance `oneof` of a material. Only the two cases the post-processor
      and the validator look at are spelled out; `OtherReflection` stands for every
      other case, none of which either of them reads. */
  datatype MaterialKind =
    | LambertReflection(color: Option<Color>)
    | SpecularReflection(eta: real)
    | OtherReflection

  /** A material; it is referenced by its string `id` ("" when unset). */
  datatype Material = Material(id: string, kind: Option<MaterialKind>)

  /** The material `oneof` of a scene object: none, an inline material, or a reference by id. */
  datatype ObjectMaterial = NoMaterial | InlineMaterial(material: Material) | MaterialRef(materialId: string)

  datatype SceneObject = SceneObject(id: int, transform: Option<Transform>, mesh: Option<Mesh>, objectMaterial: ObjectMaterial)
  {
    /** The generated `MaterialId` property: the referenced id, or "" when the object references none. */
    function MaterialId(): string {
      if objectMaterial.MaterialRef? then objectMaterial.materialId else ""
    }
  }

  datatype LightSphere = LightSphere(radius: real)

  datatype Light = Light(id: int, transform: Option<Transform>, color: Option<Color>, sphere: Option<LightSphere>)

  /** The projection `oneof` of a camera. */
  datatype Projection = Perspective(fov: real) | Realistic(fov: real, focus: real, radius: real)

  datatype Camera = Camera(id: int, transform: Option<Transform>, projection: Option<Projection>)

  datatype RenderOptions = RenderOptions(cameraId: int, width: int, height: int)

  /** A snapshot of everything a `Scene` holds. */
  datatype SceneValue = SceneValue(
    version: int,
    renderOptions: Option<RenderOptions>,
    sceneObjects: seq<SceneObject>,
    lights: seq<Light>,
    cameras: seq<Camera>,
    materials: seq<Material>)

  /** The `Scene` message: the post-processor updates its fields in place.
      Repeated fields of a protobuf message are never null, so each collection is
      always present. */
  class Scene {
    var version: int
    var renderOptions: Option<RenderOptions>
    var sceneObjects: seq<SceneObject>
    var lights: seq<Light>
    var cameras: seq<Camera>
    var materials: seq<Material>

    constructor (v: SceneValue)
      ensures Value() == v
    {
      version := v.version;
      renderOptions := v.renderOptions;
      sceneObjects := v.sceneObjects;
      lights := v.lights;
      cameras := v.cameras;
      materials := v.materials;
    }

    /** The current contents of the scene. */
    function Value(): SceneValue
      reads this
    {
      SceneValue(version, renderOptions, sceneObjects, lights, cameras, materials)
    }
  }
}
