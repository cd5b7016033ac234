/** What `ScenePostProcessing.PostProcess` does to a scene, as a function on
    scene values, and the two predicates that characterise it: every field is
    either kept or, when it was unset (null or zero), replaced by its default
    (`Filled`), and no defaultable field is left unset (`Complete`). */
module SceneDefaults {
  import opened Wrappers
  import opened SceneModel

  const Origin := Vector3(0.0, 0.0, 0.0)
  const UnitScale := Vector3(1.0, 1.0, 1.0)
  const White := Color(1.0, 1.0, 1.0)
  /** `new Transform { }`: parent 0 and every vector null. */
  const EmptyTransform := Transform(0, None, None, None)

  const DefaultVersion := 1
  const DefaultCameraId := 1
  const DefaultWidth := 640
  const DefaultHeight := 320
  const DefaultRadius := 1.0
  const DefaultFov := 60.0
  const DefaultEta := 1.5

  // ---------------------------------------------------------------------------
  // "Kept, or unset and now the default"

  ghost predicate VectorFilled(before: Option<Vector3>, after: Option<Vector3>, default: Vector3) {
    after == before || (before.None? && after == Some(default))
  }

  ghost predicate ColorFilled(before: Option<Color>, after: Option<Color>, default: Color) {
    after == before || (before.None? && after == Some(default))
  }

  ghost predicate RealFilled(before: real, after: real, default: real) {
    after == before || (before == 0.0 && after == default)
  }

  ghost predicate IntFilled(before: int, after: int, default: int) {
    after == before || (before == 0 && after == default)
  }

  /** A null transform is first replaced by `EmptyTransform`; then each vector is filled. */
  ghost predicate TransformFilled(before: Option<Transform>, after: Option<Transform>) {
    var b := if before.None? then EmptyTransform else before.value;
    && after.Some?
    && after.value.parentId == b.parentId
    && VectorFilled(b.position, after.value.position, Origin)
    && VectorFilled(b.rotation, after.value.rotation, Origin)
    && VectorFilled(b.scale, after.value.scale, UnitScale)
  }

  ghost predicate MeshFilled(before: Option<Mesh>, after: Option<Mesh>) {
    match before
    case Some(Cube(size)) => after.Some? && after.value.Cube? && VectorFilled(size, after.value.size, UnitScale)
    case Some(Disk(r)) => after.Some? && after.value.Disk? && RealFilled(r, after.value.radius, DefaultRadius)
    case Some(Sphere(r)) => after.Some? && after.value.Sphere? && RealFilled(r, after.value.radius, DefaultRadius)
    case _ => after == before
  }

  ghost predicate SceneObjectFilled(before: SceneObject, after: SceneObject) {
    && after.id == before.id
    && after.objectMaterial == before.objectMaterial
    && TransformFilled(before.transform, after.transform)
    && MeshFilled(before.mesh, after.mesh)
  }

  ghost predicate LightFilled(before: Light, after: Light) {
    && after.id == before.id
    && TransformFilled(before.transform, after.transform)
    && ColorFilled(before.color, after.color, White)
    && match before.sphere
       case None => after.sphere.None?
       case Some(sp) => after.sphere.Some? && RealFilled(sp.radius, after.sphere.value.radius, DefaultRadius)
  }

  ghost predicate CameraFilled(before: Camera, after: Camera) {
    && after.id == before.id
    && TransformFilled(before.transform, after.transform)
    && match before.projection
       case Some(Perspective(fov)) =>
         after.projection.Some? && after.projection.value.Perspective? && RealFilled(fov, after.projection.value.fov, DefaultFov)
       case _ => after.projection == before.projection
  }

  ghost predicate MaterialFilled(before: Material, after: Material) {
    && after.id == before.id
    && match before.kind
       case Some(SpecularReflection(eta)) =>
         after.kind.Some? && after.kind.value.SpecularReflection? && RealFilled(eta, after.kind.value.eta, DefaultEta)
       case _ => after.kind == before.kind
  }

  ghost predicate RenderOptionsFilled(before: Option<RenderOptions>, after: Option<RenderOptions>) {
    match before
    case None => after.None?
    case Some(b) =>
      && after.Some?
      && IntFilled(b.cameraId, after.value.cameraId, DefaultCameraId)
      && IntFilled(b.width, after.value.width, DefaultWidth)
      && IntFilled(b.height, after.value.height, DefaultHeight)
  }

  /** `after` keeps every collection's length and order, and each entity of `after`
      is the same-position entity of `before` with some unset fields defaulted. */
  ghost predicate SceneFilled(before: SceneValue, after: SceneValue) {
    && IntFilled(before.version, after.version, DefaultVersion)
    && RenderOptionsFilled(before.renderOptions, after.renderOptions)
    && |after.sceneObjects| == |before.sceneObjects|
    && (forall i :: 0 <= i < |before.sceneObjects| ==> SceneObjectFilled(before.sceneObjects[i], after.sceneObjects[i]))
    && |after.lights| == |before.lights|
    && (forall i :: 0 <= i < |before.lights| ==> LightFilled(before.lights[i], after.lights[i]))
    && |after.cameras| == |before.cameras|
    && (forall i :: 0 <= i < |before.cameras| ==> CameraFilled(before.cameras[i], after.cameras[i]))
    && |after.materials| == |before.materials|
    && (forall i :: 0 <= i < |before.materials| ==> MaterialFilled(before.materials[i], after.materials[i]))
  }

  // ---------------------------------------------------------------------------
  // "No defaultable field is unset"

  ghost predicate TransformComplete(t: Option<Transform>) {
    t.Some? && t.value.position.Some? && t.value.rotation.Some? && t.value.scale.Some?
  }

  ghost predicate MeshComplete(m: Option<Mesh>) {
    match m
    case Some(Cube(size)) => size.Some?
    case Some(Disk(r)) => r != 0.0
    case Some(Sphere(r)) => r != 0.0
    case _ => true
  }

  ghost predicate SceneObjectComplete(o: SceneObject) {
    TransformComplete(o.transform) && MeshComplete(o.mesh)
  }

  ghost predicate LightComplete(l: Light) {
    TransformComplete(l.transform) && l.color.Some? && (l.sphere.Some? ==> l.sphere.value.radius != 0.0)
  }

  ghost predicate CameraComplete(c: Camera) {
    && TransformComplete(c.transform)
    && (c.projection.Some? && c.projection.value.Perspective? ==> c.projection.value.fov != 0.0)
  }

  ghost predicate MaterialComplete(m: Material) {
    m.kind.Some? && m.kind.value.SpecularReflection? ==> m.kind.value.eta != 0.0
  }

  ghost predicate IsNormalized(s: SceneValue) {
    && s.version != 0
    && (s.renderOptions.Some? ==>
          s.renderOptions.value.cameraId != 0 && s.renderOptions.value.width != 0 && s.renderOptions.value.height != 0)
    && (forall i :: 0 <= i < |s.sceneObjects| ==> SceneObjectComplete(s.sceneObjects[i]))
    && (forall i :: 0 <= i < |s.lights| ==> LightComplete(s.lights[i]))
    && (forall i :: 0 <= i < |s.cameras| ==> CameraComplete(s.cameras[i]))
    && (forall i :: 0 <= i < |s.materials| ==> MaterialComplete(s.materials[i]))
  }

  // ---------------------------------------------------------------------------
  // The defaulting functions, one per `PostProcess*` of the source

  function DefaultVector(v: Option<Vector3>, default: Vector3): Option<Vector3> {
    if v.None? then Some(default) else v
  }

  function DefaultReal(x: real, default: real): real {
    if x == 0.0 then default else x
  }

  function DefaultInt(x: int, default: int): int {
    if x == 0 then default else x
  }

  /** `PostProcessTransform`, applied to the owner's transform after a null one was
      replaced by `new Transform { }`. */
  function NormalizeTransform(t: Option<Transform>): (r: Option<Transform>)
    ensures TransformFilled(t, r) && TransformComplete(r)
  {
    var b := if t.None? then EmptyTransform else t.value;
    Some(Transform(b.parentId, DefaultVector(b.position, Origin), DefaultVector(b.rotation, Origin), DefaultVector(b.scale, UnitScale)))
  }

  /** `PostProcessCube`, `PostProcessDisk` and `PostProcessSphere`. */
  function NormalizeMesh(m: Option<Mesh>): (r: Option<Mesh>)
    ensures MeshFilled(m, r) && MeshComplete(r)
  {
    match m
    case Some(Cube(size)) => Some(Cube(DefaultVector(size, UnitScale)))
    case Some(Disk(radius)) => Some(Disk(DefaultReal(radius, DefaultRadius)))
    case Some(Sphere(radius)) => Some(Sphere(DefaultReal(radius, DefaultRadius)))
    case _ => m
  }

  /** `PostProcessSceneObject`; an inline material is not post-processed. */
  function NormalizeSceneObject(o: SceneObject): (r: SceneObject)
    ensures SceneObjectFilled(o, r) && SceneObjectComplete(r)
  {
    o.(transform := NormalizeTransform(o.transform), mesh := NormalizeMesh(o.mesh))
  }

  /** `PostProcessLight` and `PostProcessLightSphere`. */
  function NormalizeLight(l: Light): (r: Light)
    ensures LightFilled(l, r) && LightComplete(r)
  {
    l.(transform := NormalizeTransform(l.transform),
       color := if l.color.None? then Some(White) else l.color,
       sphere := if l.sphere.None? then None else Some(LightSphere(DefaultReal(l.sphere.value.radius, DefaultRadius))))
  }

  /** `PostProcessCamera` and `PostProcessPerspectiveCamera`; a realistic camera is kept as it is. */
  function NormalizeCamera(c: Camera): (r: Camera)
    ensures CameraFilled(c, r) && CameraComplete(r)
  {
    c.(transform := NormalizeTransform(c.transform),
       projection := match c.projection
                     case Some(Perspective(fov)) => Some(Perspective(DefaultReal(fov, DefaultFov)))
                     case _ => c.projection)
  }

  /** `PostProcessMaterial` and `PostProcessSpecularReflectionMaterial`. */
  function NormalizeMaterial(m: Material): (r: Material)
    ensures MaterialFilled(m, r) && MaterialComplete(r)
  {
    match m.kind
    case Some(SpecularReflection(eta)) => m.(kind := Some(SpecularReflection(DefaultReal(eta, DefaultEta))))
    case _ => m
  }

  /** `PostProcessRenderOptions`, applied only when the render options are present. */
  function NormalizeRenderOptions(ro: Option<RenderOptions>): (r: Option<RenderOptions>)
    ensures RenderOptionsFilled(ro, r)
    ensures r.Some? ==> r.value.cameraId != 0 && r.value.width != 0 && r.value.height != 0
  {
    match ro
    case None => None
    case Some(o) =>
      Some(RenderOptions(DefaultInt(o.cameraId, DefaultCameraId), DefaultInt(o.width, DefaultWidth), DefaultInt(o.height, DefaultHeight)))
  }

  /** `PostProcess`: the whole scene with every entity defaulted. */
  function Normalize(s: SceneValue): SceneValue {
    SceneValue(
      DefaultInt(s.version, DefaultVersion),
      NormalizeRenderOptions(s.renderOptions),
      seq(|s.sceneObjects|, i requires 0 <= i < |s.sceneObjects| => NormalizeSceneObject(s.sceneObjects[i])),
      seq(|s.lights|, i requires 0 <= i < |s.lights| => NormalizeLight(s.lights[i])),
      seq(|s.cameras|, i requires 0 <= i < |s.cameras| => NormalizeCamera(s.cameras[i])),
      seq(|s.materials|, i requires 0 <= i < |s.materials| => NormalizeMaterial(s.materials[i])))
  }

  // ---------------------------------------------------------------------------
  // Properties

  /** The post-processed scene keeps every set field, defaults every unset one, and leaves nothing unset. */
  lemma NormalizeFillsAndCompletes(s: SceneValue)
    ensures SceneFilled(s, Normalize(s)) && IsNormalized(Normalize(s))
  {
    var n := Normalize(s);
    forall i | 0 <= i < |s.sceneObjects|
      ensures SceneObjectFilled(s.sceneObjects[i], n.sceneObjects[i]) && SceneObjectComplete(n.sceneObjects[i])
    {
      assert n.sceneObjects[i] == NormalizeSceneObject(s.sceneObjects[i]);
    }
    forall i | 0 <= i < |s.lights|
      ensures LightFilled(s.lights[i], n.lights[i]) && LightComplete(n.lights[i])
    {
      assert n.lights[i] == NormalizeLight(s.lights[i]);
    }
    forall i | 0 <= i < |s.cameras|
      ensures CameraFilled(s.cameras[i], n.cameras[i]) && CameraComplete(n.cameras[i])
    {
      assert n.cameras[i] == NormalizeCamera(s.cameras[i]);
    }
    forall i | 0 <= i < |s.materials|
      ensures MaterialFilled(s.materials[i], n.materials[i]) && MaterialComplete(n.materials[i])
    {
      assert n.materials[i] == NormalizeMaterial(s.materials[i]);
    }
  }

  /** `Filled` and `Complete` leave exactly one choice for each transform. */
  lemma TransformDetermined(before: Option<Transform>, after: Option<Transform>)
    requires TransformFilled(before, after) && TransformComplete(after)
    ensures after == NormalizeTransform(before)
  {
  }

  lemma SceneObjectDetermined(before: SceneObject, after: SceneObject)
    requires SceneObjectFilled(before, after) && SceneObjectComplete(after)
    ensures after == NormalizeSceneObject(before)
  {
    TransformDetermined(before.transform, after.transform);
  }

  lemma LightDetermined(before: Light, after: Light)
    requires LightFilled(before, after) && LightComplete(after)
    ensures after == NormalizeLight(before)
  {
    TransformDetermined(before.transform, after.transform);
  }

  lemma CameraDetermined(before: Camera, after: Camera)
    requires CameraFilled(before, after) && CameraComplete(after)
    ensures after == NormalizeCamera(before)
  {
    TransformDetermined(before.transform, after.transform);
  }

  /** `Normalize(s)` is the one scene that fills `s` and is complete. */
  lemma {:induction false} NormalizeCharacterised(s: SceneValue, t: SceneValue)
    ensures t == Normalize(s) <==> SceneFilled(s, t) && IsNormalized(t)
  {
    NormalizeFillsAndCompletes(s);
    if SceneFilled(s, t) && IsNormalized(t) {
      var n := Normalize(s);
      forall i | 0 <= i < |s.sceneObjects| ensures t.sceneObjects[i] == n.sceneObjects[i] {
        SceneObjectDetermined(s.sceneObjects[i], t.sceneObjects[i]);
      }
      forall i | 0 <= i < |s.lights| ensures t.lights[i] == n.lights[i] {
        LightDetermined(s.lights[i], t.lights[i]);
      }
      forall i | 0 <= i < |s.cameras| ensures t.cameras[i] == n.cameras[i] {
        CameraDetermined(s.cameras[i], t.cameras[i]);
      }
      assert t.sceneObjects == n.sceneObjects;
      assert t.lights == n.lights;
      assert t.cameras == n.cameras;
      assert t.materials == n.materials;
    }
  }

  /** A scene with nothing left unset is not changed by post-processing. */
  lemma {:induction false} NormalizeFixesNormalized(s: SceneValue)
    requires IsNormalized(s)
    ensures Normalize(s) == s
  {
    assert SceneFilled(s, s);
    NormalizeCharacterised(s, s);
  }

  /** Post-processing twice is post-processing once: every default it writes is non-null and non-zero. */
  lemma {:induction false} NormalizeIdempotent(s: SceneValue)
    ensures Normalize(Normalize(s)) == Normalize(s)
  {
    NormalizeFillsAndCompletes(s);
    NormalizeFixesNormalized(Normalize(s));
  }
}
