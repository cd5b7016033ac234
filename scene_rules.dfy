/** The checks of `ScenePostProcessing.Validate`, as functions on scene values
    that give the outcome the source reaches: `Pass`, or the first violation it
    throws. Each function follows the order of the source's checks. */
module SceneRules {
  import opened Wrappers
  import opened SceneModel

  /** Which exception type the source throws. */
  datatype ErrorKind =
    | SceneIOException
    | PlainException          // `new Exception(...)`, thrown for id collisions with cameras and lights
    | NullReferenceException  // dereferencing a null message

  datatype ValidationError =
    | UnsupportedVersion(version: int)
    | MissingRenderCamera(cameraId: int)
    | NonPositiveWidth
    | NonPositiveHeight
    | NonPositiveObjectId(objectId: int)
    | DuplicateObjectId(objectId: int)
    | ObjectIdUsedByCamera(objectId: int)
    | ObjectIdUsedByLight(objectId: int)
    | MissingMaterial(materialId: string, objectId: int)
    | NonPositiveSphereRadius
    | SphereHasScale
    | NegativeCubeSize
    | CubeHasScale
    | NonPositiveDiskRadius
    | ReferenceNotSet(objectId: int)
    | MissingMeshFile(reference: string)
    | NonPositiveLightId(lightId: int)
    | LightIdUsedByCamera(lightId: int)
    | LightHasScale(lightId: int)
    | DuplicateCameraId(cameraId: int)
    | CameraHasScale(cameraId: int)
    | InvalidFov
    | ParentNotFound(parentId: int)
    | NegativeScale
    | MissingLambertColor(named: Option<string>)  // names the material when its id is not empty
    | NegativeColor
    | NullDereference
  {
    function Kind(): ErrorKind {
      if ObjectIdUsedByCamera? || ObjectIdUsedByLight? || LightIdUsedByCamera? then PlainException
      else if NullDereference? then NullReferenceException
      else SceneIOException
    }
  }

  datatype Outcome = Pass | Fail(error: ValidationError)

  /** `TOLERANCE`. */
  const Tolerance: real := 0.00001

  function Abs(x: real): real {
    if x < 0.0 then -x else x
  }

  predicate IsNonNegative(v: Vector3) {
    v.x >= 0.0 && v.y >= 0.0 && v.z >= 0.0
  }

  predicate IsNonNegativeColor(c: Color) {
    c.r >= 0.0 && c.g >= 0.0 && c.b >= 0.0
  }

  /** `HasScale`: false for a null scale, else some axis is more than `Tolerance` away from 1. */
  predicate HasScale(t: Transform) {
    t.scale.Some? &&
    (Abs(t.scale.value.x - 1.0) > Tolerance || Abs(t.scale.value.y - 1.0) > Tolerance || Abs(t.scale.value.z - 1.0) > Tolerance)
  }

  /** Some entity of the collection has this id: what `Find*ById(...) != null` tests. */
  predicate HasObjectId(objects: seq<SceneObject>, id: int) {
    exists i :: 0 <= i < |objects| && objects[i].id == id
  }

  predicate HasLightId(lights: seq<Light>, id: int) {
    exists i :: 0 <= i < |lights| && lights[i].id == id
  }

  predicate HasCameraId(cameras: seq<Camera>, id: int) {
    exists i :: 0 <= i < |cameras| && cameras[i].id == id
  }

  predicate HasMaterialId(materials: seq<Material>, id: string) {
    exists i :: 0 <= i < |materials| && materials[i].id == id
  }

  /** A parent id resolves when some scene object, camera or light carries it. */
  predicate ParentResolves(s: SceneValue, parentId: int) {
    HasObjectId(s.sceneObjects, parentId) || HasCameraId(s.cameras, parentId) || HasLightId(s.lights, parentId)
  }

  // ---------------------------------------------------------------------------
  // Declarative statements of each rule

  ghost predicate TransformValid(s: SceneValue, t: Transform) {
    t.parentId != 0 ==> ParentResolves(s, t.parentId) && t.scale.Some? && IsNonNegative(t.scale.value)
  }

  ghost predicate MaterialValid(m: Material) {
    m.kind.Some? && m.kind.value.LambertReflection? ==>
      m.kind.value.color.Some? && IsNonNegativeColor(m.kind.value.color.value)
  }

  // ---------------------------------------------------------------------------
  // The checks

  /** `ValidateColor`. */
  function ColorOutcome(c: Color): (r: Outcome)
    ensures r == Pass <==> IsNonNegativeColor(c)
    ensures r.Fail? ==> r.error == NegativeColor
  {
    if c.r < 0.0 || c.g < 0.0 || c.b < 0.0 then Fail(NegativeColor) else Pass
  }

  /** `ValidateMaterial`: only a Lambert reflection is checked. */
  function MaterialOutcome(m: Material): (r: Outcome)
    ensures r == Pass <==> MaterialValid(m)
    ensures r.Fail? && r.error.MissingLambertColor? ==> (r.error.named == if m.id == "" then None else Some(m.id))
    ensures r.Fail? ==> r.error.Kind() == SceneIOException
  {
    match m.kind
    case Some(LambertReflection(color)) =>
      if color.None? then Fail(MissingLambertColor(if m.id != "" then Some(m.id) else None))
      else ColorOutcome(color.value)
    case _ => Pass
  }

  /** `ValidateTransform`: a non-zero parent id must resolve, and only then must the scale be
      non-negative (a null scale is dereferenced). */
  function TransformOutcome(s: SceneValue, t: Transform): (r: Outcome)
    ensures r == Pass <==> TransformValid(s, t)
  {
    if t.parentId == 0 then Pass
    else if !HasObjectId(s.sceneObjects, t.parentId) && !HasCameraId(s.cameras, t.parentId) && !HasLightId(s.lights, t.parentId) then
      Fail(ParentNotFound(t.parentId))
    else if t.scale.None? then Fail(NullDereference)
    else if !IsNonNegative(t.scale.value) then Fail(NegativeScale)
    else Pass
  }

  /** The geometry part of `ValidateSceneObject`; `HasScale` and `IsNonNegative` dereference
      the transform and the cube size, which throws when they are null. */
  function MeshOutcome(o: SceneObject, fileExists: string -> bool): Outcome {
    match o.mesh
    case Some(Sphere(radius)) =>
      if radius <= 0.0 then Fail(NonPositiveSphereRadius)
      else if o.transform.None? then Fail(NullDereference)
      else if HasScale(o.transform.value) then Fail(SphereHasScale)
      else Pass
    case Some(Cube(size)) =>
      if size.None? then Fail(NullDereference)
      else if !IsNonNegative(size.value) then Fail(NegativeCubeSize)
      else if o.transform.None? then Fail(NullDereference)
      else if HasScale(o.transform.value) then Fail(CubeHasScale)
      else Pass
    case Some(Disk(radius)) =>
      if radius <= 0.0 then Fail(NonPositiveDiskRadius) else Pass
    case Some(MeshedObject(reference)) =>
      if reference.None? then Fail(ReferenceNotSet(o.id))
      else if !fileExists(reference.value) then Fail(MissingMeshFile(reference.value))
      else Pass
    case _ => Pass
  }

  /** `ValidateSceneObject`. */
  function SceneObjectOutcome(s: SceneValue, o: SceneObject, fileExists: string -> bool): Outcome {
    var t := if o.transform.Some? then TransformOutcome(s, o.transform.value) else Pass;
    if t.Fail? then t
    else if o.MaterialId() != "" && !HasMaterialId(s.materials, o.MaterialId()) then
      Fail(MissingMaterial(o.MaterialId(), o.id))
    else if o.objectMaterial.InlineMaterial? && MaterialOutcome(o.objectMaterial.material).Fail? then
      MaterialOutcome(o.objectMaterial.material)
    else MeshOutcome(o, fileExists)
  }

  /** `ValidateSceneObjects` from position `i` on, `seen` holding the ids of the objects before `i`. */
  function ObjectsOutcome(s: SceneValue, fileExists: string -> bool, i: nat, seen: set<int>): Outcome
    requires i <= |s.sceneObjects|
    decreases |s.sceneObjects| - i
  {
    if i == |s.sceneObjects| then Pass
    else
      var o := s.sceneObjects[i];
      if o.id <= 0 then Fail(NonPositiveObjectId(o.id))
      else if o.id in seen then Fail(DuplicateObjectId(o.id))
      else if HasCameraId(s.cameras, o.id) then Fail(ObjectIdUsedByCamera(o.id))
      else if HasLightId(s.lights, o.id) then Fail(ObjectIdUsedByLight(o.id))
      else
        var r := SceneObjectOutcome(s, o, fileExists);
        if r.Fail? then r else ObjectsOutcome(s, fileExists, i + 1, seen + {o.id})
  }

  /** `ValidateLight`: `HasScale` dereferences the transform even when it is null. */
  function LightOutcome(s: SceneValue, l: Light): Outcome {
    var t := if l.transform.Some? then TransformOutcome(s, l.transform.value) else Pass;
    if t.Fail? then t
    else if l.color.Some? && ColorOutcome(l.color.value).Fail? then ColorOutcome(l.color.value)
    else if l.transform.None? then Fail(NullDereference)
    else if HasScale(l.transform.value) then Fail(LightHasScale(l.id))
    else Pass
  }

  /** `ValidateLights` from position `i` on. The source also keeps a set of seen light ids and
      tests it, but never adds to it, so that test never fires and is not part of this function. */
  function LightsOutcome(s: SceneValue, i: nat): Outcome
    requires i <= |s.lights|
    decreases |s.lights| - i
  {
    if i == |s.lights| then Pass
    else
      var l := s.lights[i];
      if l.id <= 0 then Fail(NonPositiveLightId(l.id))
      else if HasCameraId(s.cameras, l.id) then Fail(LightIdUsedByCamera(l.id))
      else
        var r := LightOutcome(s, l);
        if r.Fail? then r else LightsOutcome(s, i + 1)
  }

  /** The checks `ValidateCameras` makes on one camera after its id was found fresh. */
  function CameraOutcome(s: SceneValue, c: Camera): Outcome {
    var t := if c.transform.Some? then TransformOutcome(s, c.transform.value) else Pass;
    if t.Fail? then t
    else if c.transform.Some? && HasScale(c.transform.value) then Fail(CameraHasScale(c.id))
    else if c.projection.Some? && c.projection.value.Perspective? && (c.projection.value.fov <= 0.0 || c.projection.value.fov >= 180.0) then
      Fail(InvalidFov)
    else Pass
  }

  /** `ValidateCameras` from position `i` on, `seen` holding the ids of the cameras before `i`. */
  function CamerasOutcome(s: SceneValue, i: nat, seen: set<int>): Outcome
    requires i <= |s.cameras|
    decreases |s.cameras| - i
  {
    if i == |s.cameras| then Pass
    else
      var c := s.cameras[i];
      if c.id in seen then Fail(DuplicateCameraId(c.id))
      else
        var r := CameraOutcome(s, c);
        if r.Fail? then r else CamerasOutcome(s, i + 1, seen + {c.id})
  }

  /** `ValidateMaterials` from position `i` on. */
  function MaterialsOutcome(s: SceneValue, i: nat): Outcome
    requires i <= |s.materials|
    decreases |s.materials| - i
  {
    if i == |s.materials| then Pass
    else
      var r := MaterialOutcome(s.materials[i]);
      if r.Fail? then r else MaterialsOutcome(s, i + 1)
  }

  /** `ValidateRenderOptions`. */
  function RenderOptionsOutcome(s: SceneValue, ro: RenderOptions): Outcome {
    if !HasCameraId(s.cameras, ro.cameraId) then Fail(MissingRenderCamera(ro.cameraId))
    else if ro.width <= 0 then Fail(NonPositiveWidth)
    else if ro.height <= 0 then Fail(NonPositiveHeight)
    else Pass
  }

  /** `Validate`: version, render options, scene objects, lights, cameras, materials; the first
      failure is the result. */
  function ValidationOutcome(s: SceneValue, fileExists: string -> bool): Outcome {
    if s.version != 1 then Fail(UnsupportedVersion(s.version))
    else
      var ro := if s.renderOptions.Some? then RenderOptionsOutcome(s, s.renderOptions.value) else Pass;
      if ro.Fail? then ro
      else
        var objects := ObjectsOutcome(s, fileExists, 0, {});
        if objects.Fail? then objects
        else
          var lights := LightsOutcome(s, 0);
          if lights.Fail? then lights
          else
            var cameras := CamerasOutcome(s, 0, {});
            if cameras.Fail? then cameras
            else MaterialsOutcome(s, 0)
  }
}
