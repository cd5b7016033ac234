/** The static class `ScenePostProcessing`: `PostProcess` updates a `Scene` in
    place, `Validate` walks it with linear-scan lookups and returns the first
    violation. Each method is proved to compute what `SceneDefaults` and
    `SceneRules` say. */
module ScenePostProcessing {
  import opened Wrappers
  import opened SceneModel
  import opened SceneDefaults
  import opened SceneRules

  // ---------------------------------------------------------------------------
  // Post-processing

  /** `PostProcess`: fills every unset field of the scene with its default, in place. */
  method PostProcess(scene: Scene)
    modifies scene
    ensures scene.Value() == Normalize(old(scene.Value()))
  {
    if scene.version == 0 {
      scene.version := DefaultVersion;
    }
    if scene.renderOptions.Some? {
      scene.renderOptions := NormalizeRenderOptions(scene.renderOptions);
    }
    PostProcessSceneObjects(scene);
    PostProcessLights(scene);
    PostProcessCameras(scene);
    PostProcessMaterials(scene);
  }

  method PostProcessSceneObjects(scene: Scene)
    modifies scene
    ensures scene.sceneObjects == seq(|old(scene.sceneObjects)|, i requires 0 <= i < |old(scene.sceneObjects)| => NormalizeSceneObject(old(scene.sceneObjects)[i]))
    ensures scene.version == old(scene.version) && scene.renderOptions == old(scene.renderOptions)
    ensures scene.lights == old(scene.lights) && scene.cameras == old(scene.cameras) && scene.materials == old(scene.materials)
  {
    ghost var before := scene.sceneObjects;
    var i := 0;
    while i < |scene.sceneObjects|
      invariant 0 <= i <= |scene.sceneObjects| == |before|
      invariant forall k :: 0 <= k < i ==> scene.sceneObjects[k] == NormalizeSceneObject(before[k])
      invariant forall k :: i <= k < |before| ==> scene.sceneObjects[k] == before[k]
      invariant scene.version == old(scene.version) && scene.renderOptions == old(scene.renderOptions)
      invariant scene.lights == old(scene.lights) && scene.cameras == old(scene.cameras) && scene.materials == old(scene.materials)
    {
      scene.sceneObjects := scene.sceneObjects[i := NormalizeSceneObject(scene.sceneObjects[i])];
      i := i + 1;
    }
  }

  method PostProcessLights(scene: Scene)
    modifies scene
    ensures scene.lights == seq(|old(scene.lights)|, i requires 0 <= i < |old(scene.lights)| => NormalizeLight(old(scene.lights)[i]))
    ensures scene.version == old(scene.version) && scene.renderOptions == old(scene.renderOptions)
    ensures scene.sceneObjects == old(scene.sceneObjects) && scene.cameras == old(scene.cameras) && scene.materials == old(scene.materials)
  {
    ghost var before := scene.lights;
    var i := 0;
    while i < |scene.lights|
      invariant 0 <= i <= |scene.lights| == |before|
      invariant forall k :: 0 <= k < i ==> scene.lights[k] == NormalizeLight(before[k])
      invariant forall k :: i <= k < |before| ==> scene.lights[k] == before[k]
      invariant scene.version == old(scene.version) && scene.renderOptions == old(scene.renderOptions)
      invariant scene.sceneObjects == old(scene.sceneObjects) && scene.cameras == old(scene.cameras) && scene.materials == old(scene.materials)
    {
      scene.lights := scene.lights[i := NormalizeLight(scene.lights[i])];
      i := i + 1;
    }
  }

  method PostProcessCameras(scene: Scene)
    modifies scene
    ensures scene.cameras == seq(|old(scene.cameras)|, i requires 0 <= i < |old(scene.cameras)| => NormalizeCamera(old(scene.cameras)[i]))
    ensures scene.version == old(scene.version) && scene.renderOptions == old(scene.renderOptions)
    ensures scene.sceneObjects == old(scene.sceneObjects) && scene.lights == old(scene.lights) && scene.materials == old(scene.materials)
  {
    ghost var before := scene.cameras;
    var i := 0;
    while i < |scene.cameras|
      invariant 0 <= i <= |scene.cameras| == |before|
      invariant forall k :: 0 <= k < i ==> scene.cameras[k] == NormalizeCamera(before[k])
      invariant forall k :: i <= k < |before| ==> scene.cameras[k] == before[k]
      invariant scene.version == old(scene.version) && scene.renderOptions == old(scene.renderOptions)
      invariant scene.sceneObjects == old(scene.sceneObjects) && scene.lights == old(scene.lights) && scene.materials == old(scene.materials)
    {
      scene.cameras := scene.cameras[i := NormalizeCamera(scene.cameras[i])];
      i := i + 1;
    }
  }

  method PostProcessMaterials(scene: Scene)
    modifies scene
    ensures scene.materials == seq(|old(scene.materials)|, i requires 0 <= i < |old(scene.materials)| => NormalizeMaterial(old(scene.materials)[i]))
    ensures scene.version == old(scene.version) && scene.renderOptions == old(scene.renderOptions)
    ensures scene.sceneObjects == old(scene.sceneObjects) && scene.lights == old(scene.lights) && scene.cameras == old(scene.cameras)
  {
    ghost var before := scene.materials;
    var i := 0;
    while i < |scene.materials|
      invariant 0 <= i <= |scene.materials| == |before|
      invariant forall k :: 0 <= k < i ==> scene.materials[k] == NormalizeMaterial(before[k])
      invariant forall k :: i <= k < |before| ==> scene.materials[k] == before[k]
      invariant scene.version == old(scene.version) && scene.renderOptions == old(scene.renderOptions)
      invariant scene.sceneObjects == old(scene.sceneObjects) && scene.lights == old(scene.lights) && scene.cameras == old(scene.cameras)
    {
      scene.materials := scene.materials[i := NormalizeMaterial(scene.materials[i])];
      i := i + 1;
    }
  }

  // ---------------------------------------------------------------------------
  // Linear-scan lookups: the first entity with the id, or None

  method FindCameraById(scene: Scene, cameraId: int) returns (camera: Option<Camera>)
    ensures camera.Some? <==> HasCameraId(scene.cameras, cameraId)
    ensures camera.Some? ==> exists k :: 0 <= k < |scene.cameras| && scene.cameras[k] == camera.value &&
                                         camera.value.id == cameraId &&
                                         forall j :: 0 <= j < k ==> scene.cameras[j].id != cameraId
  {
    var i := 0;
    while i < |scene.cameras|
      invariant 0 <= i <= |scene.cameras|
      invariant forall j :: 0 <= j < i ==> scene.cameras[j].id != cameraId
    {
      if scene.cameras[i].id == cameraId {
        return Some(scene.cameras[i]);
      }
      i := i + 1;
    }
    return None;
  }

  method FindLightById(scene: Scene, lightId: int) returns (light: Option<Light>)
    ensures light.Some? <==> HasLightId(scene.lights, lightId)
    ensures light.Some? ==> exists k :: 0 <= k < |scene.lights| && scene.lights[k] == light.value &&
                                        light.value.id == lightId &&
                                        forall j :: 0 <= j < k ==> scene.lights[j].id != lightId
  {
    var i := 0;
    while i < |scene.lights|
      invariant 0 <= i <= |scene.lights|
      invariant forall j :: 0 <= j < i ==> scene.lights[j].id != lightId
    {
      if scene.lights[i].id == lightId {
        return Some(scene.lights[i]);
      }
      i := i + 1;
    }
    return None;
  }

  method FindSceneObjectById(scene: Scene, sceneObjectId: int) returns (sceneObject: Option<SceneObject>)
    ensures sceneObject.Some? <==> HasObjectId(scene.sceneObjects, sceneObjectId)
    ensures sceneObject.Some? ==> exists k :: 0 <= k < |scene.sceneObjects| && scene.sceneObjects[k] == sceneObject.value &&
                                              sceneObject.value.id == sceneObjectId &&
                                              forall j :: 0 <= j < k ==> scene.sceneObjects[j].id != sceneObjectId
  {
    var i := 0;
    while i < |scene.sceneObjects|
      invariant 0 <= i <= |scene.sceneObjects|
      invariant forall j :: 0 <= j < i ==> scene.sceneObjects[j].id != sceneObjectId
    {
      if scene.sceneObjects[i].id == sceneObjectId {
        return Some(scene.sceneObjects[i]);
      }
      i := i + 1;
    }
    return None;
  }

  method FindMaterialById(scene: Scene, materialId: string) returns (material: Option<Material>)
    ensures material.Some? <==> HasMaterialId(scene.materials, materialId)
    ensures material.Some? ==> exists k :: 0 <= k < |scene.materials| && scene.materials[k] == material.value &&
                                           material.value.id == materialId &&
                                           forall j :: 0 <= j < k ==> scene.materials[j].id != materialId
  {
    var i := 0;
    while i < |scene.materials|
      invariant 0 <= i <= |scene.materials|
      invariant forall j :: 0 <= j < i ==> scene.materials[j].id != materialId
    {
      if scene.materials[i].id == materialId {
        return Some(scene.materials[i]);
      }
      i := i + 1;
    }
    return None;
  }

  // ---------------------------------------------------------------------------
  // Validation: the scene is only read

  /** `Validate`: the scene is returned unchanged when every check passes. */
  method Validate(scene: Scene, fileExists: string -> bool) returns (outcome: Outcome)
    ensures outcome == ValidationOutcome(scene.Value(), fileExists)
  {
    if scene.version != 1 {
      return Fail(UnsupportedVersion(scene.version));
    }
    if scene.renderOptions.Some? {
      outcome := ValidateRenderOptions(scene, scene.renderOptions.value);
      if outcome.Fail? {
        return;
      }
    }
    outcome := ValidateSceneObjects(scene, fileExists);
    if outcome.Fail? {
      return;
    }
    outcome := ValidateLights(scene);
    if outcome.Fail? {
      return;
    }
    outcome := ValidateCameras(scene);
    if outcome.Fail? {
      return;
    }
    outcome := ValidateMaterials(scene);
  }

  /** `PostProcessAndValidate`. */
  method PostProcessAndValidate(scene: Scene, fileExists: string -> bool) returns (outcome: Outcome)
    modifies scene
    ensures scene.Value() == Normalize(old(scene.Value()))
    ensures outcome == ValidationOutcome(Normalize(old(scene.Value())), fileExists)
  {
    PostProcess(scene);
    outcome := Validate(scene, fileExists);
  }

  method ValidateRenderOptions(scene: Scene, renderOptions: RenderOptions) returns (outcome: Outcome)
    ensures outcome == RenderOptionsOutcome(scene.Value(), renderOptions)
  {
    var camera := FindCameraById(scene, renderOptions.cameraId);
    if camera.None? {
      return Fail(MissingRenderCamera(renderOptions.cameraId));
    }
    if renderOptions.width <= 0 {
      return Fail(NonPositiveWidth);
    }
    if renderOptions.height <= 0 {
      return Fail(NonPositiveHeight);
    }
    return Pass;
  }

  method ValidateSceneObjects(scene: Scene, fileExists: string -> bool) returns (outcome: Outcome)
    ensures outcome == ObjectsOutcome(scene.Value(), fileExists, 0, {})
  {
    var ids: set<int> := {};
    var i := 0;
    while i < |scene.sceneObjects|
      invariant 0 <= i <= |scene.sceneObjects|
      invariant ObjectsOutcome(scene.Value(), fileExists, 0, {}) == ObjectsOutcome(scene.Value(), fileExists, i, ids)
    {
      var sceneObject := scene.sceneObjects[i];
      if sceneObject.id <= 0 {
        return Fail(NonPositiveObjectId(sceneObject.id));
      }
      if sceneObject.id in ids {
        return Fail(DuplicateObjectId(sceneObject.id));
      }
      var camera := FindCameraById(scene, sceneObject.id);
      if camera.Some? {
        return Fail(ObjectIdUsedByCamera(sceneObject.id));
      }
      var light := FindLightById(scene, sceneObject.id);
      if light.Some? {
        return Fail(ObjectIdUsedByLight(sceneObject.id));
      }
      ids := ids + {sceneObject.id};
      outcome := ValidateSceneObject(scene, sceneObject, fileExists);
      if outcome.Fail? {
        return;
      }
      i := i + 1;
    }
    return Pass;
  }

  method ValidateSceneObject(scene: Scene, sceneObject: SceneObject, fileExists: string -> bool) returns (outcome: Outcome)
    ensures outcome == SceneObjectOutcome(scene.Value(), sceneObject, fileExists)
  {
    if sceneObject.transform.Some? {
      outcome := ValidateTransform(scene, sceneObject.transform.value);
      if outcome.Fail? {
        return;
      }
    }
    if sceneObject.MaterialId() != "" {
      var material := FindMaterialById(scene, sceneObject.MaterialId());
      if material.None? {
        return Fail(MissingMaterial(sceneObject.MaterialId(), sceneObject.id));
      }
    }
    if sceneObject.objectMaterial.InlineMaterial? {
      outcome := MaterialOutcome(sceneObject.objectMaterial.material);
      if outcome.Fail? {
        return;
      }
    }
    match sceneObject.mesh {
      case Some(Sphere(radius)) =>
        if radius <= 0.0 {
          return Fail(NonPositiveSphereRadius);
        }
        if sceneObject.transform.None? {
          return Fail(NullDereference);
        }
        if HasScale(sceneObject.transform.value) {
          return Fail(SphereHasScale);
        }
      case Some(Cube(size)) =>
        if size.None? {
          return Fail(NullDereference);
        }
        if !IsNonNegative(size.value) {
          return Fail(NegativeCubeSize);
        }
        if sceneObject.transform.None? {
          return Fail(NullDereference);
        }
        if HasScale(sceneObject.transform.value) {
          return Fail(CubeHasScale);
        }
      case Some(Disk(radius)) =>
        if radius <= 0.0 {
          return Fail(NonPositiveDiskRadius);
        }
      case Some(MeshedObject(reference)) =>
        if reference.None? {
          return Fail(ReferenceNotSet(sceneObject.id));
        }
        if !fileExists(reference.value) {
          return Fail(MissingMeshFile(reference.value));
        }
      case _ =>
    }
    return Pass;
  }

  /** `ValidateLights`. The source's set of seen light ids is never added to, so its
      duplicate test can never fire; it is not repeated here. */
  method ValidateLights(scene: Scene) returns (outcome: Outcome)
    ensures outcome == LightsOutcome(scene.Value(), 0)
  {
    var i := 0;
    while i < |scene.lights|
      invariant 0 <= i <= |scene.lights|
      invariant LightsOutcome(scene.Value(), 0) == LightsOutcome(scene.Value(), i)
    {
      var light := scene.lights[i];
      if light.id <= 0 {
        return Fail(NonPositiveLightId(light.id));
      }
      var camera := FindCameraById(scene, light.id);
      if camera.Some? {
        return Fail(LightIdUsedByCamera(light.id));
      }
      outcome := ValidateLight(scene, light);
      if outcome.Fail? {
        return;
      }
      i := i + 1;
    }
    return Pass;
  }

  method ValidateLight(scene: Scene, light: Light) returns (outcome: Outcome)
    ensures outcome == LightOutcome(scene.Value(), light)
  {
    if light.transform.Some? {
      outcome := ValidateTransform(scene, light.transform.value);
      if outcome.Fail? {
        return;
      }
    }
    if light.color.Some? {
      outcome := ColorOutcome(light.color.value);
      if outcome.Fail? {
        return;
      }
    }
    if light.transform.None? {
      return Fail(NullDereference);
    }
    if HasScale(light.transform.value) {
      return Fail(LightHasScale(light.id));
    }
    return Pass;
  }

  method ValidateCameras(scene: Scene) returns (outcome: Outcome)
    ensures outcome == CamerasOutcome(scene.Value(), 0, {})
  {
    var cameraIds: set<int> := {};
    var i := 0;
    while i < |scene.cameras|
      invariant 0 <= i <= |scene.cameras|
      invariant CamerasOutcome(scene.Value(), 0, {}) == CamerasOutcome(scene.Value(), i, cameraIds)
    {
      var camera := scene.cameras[i];
      if camera.id in cameraIds {
        return Fail(DuplicateCameraId(camera.id));
      }
      cameraIds := cameraIds + {camera.id};
      if camera.transform.Some? {
        outcome := ValidateTransform(scene, camera.transform.value);
        if outcome.Fail? {
          return;
        }
        if HasScale(camera.transform.value) {
          return Fail(CameraHasScale(camera.id));
        }
      }
      if camera.projection.Some? && camera.projection.value.Perspective? {
        var fov := camera.projection.value.fov;
        if fov <= 0.0 || fov >= 180.0 {
          return Fail(InvalidFov);
        }
      }
      i := i + 1;
    }
    return Pass;
  }

  method ValidateTransform(scene: Scene, transform: Transform) returns (outcome: Outcome)
    ensures outcome == TransformOutcome(scene.Value(), transform)
  {
    if transform.parentId != 0 {
      var parent := FindSceneObjectById(scene, transform.parentId);
      if parent.None? {
        var camera := FindCameraById(scene, transform.parentId);
        if camera.None? {
          var light := FindLightById(scene, transform.parentId);
          if light.None? {
            return Fail(ParentNotFound(transform.parentId));
          }
        }
      }
      if transform.scale.None? {
        return Fail(NullDereference);
      }
      if !IsNonNegative(transform.scale.value) {
        return Fail(NegativeScale);
      }
    }
    return Pass;
  }

  method ValidateMaterials(scene: Scene) returns (outcome: Outcome)
    ensures outcome == MaterialsOutcome(scene.Value(), 0)
  {
    var i := 0;
    while i < |scene.materials|
      invariant 0 <= i <= |scene.materials|
      invariant MaterialsOutcome(scene.Value(), 0) == MaterialsOutcome(scene.Value(), i)
    {
      outcome := MaterialOutcome(scene.materials[i]);
      if outcome.Fail? {
        return;
      }
      i := i + 1;
    }
    return Pass;
  }
}
