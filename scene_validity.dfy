/** An order-free statement of what a valid scene is, proved equivalent to the
    fail-fast `SceneRules.ValidationOutcome`, and the facts that tie validation
    to post-processing. */
module SceneValidity {
  import opened Wrappers
  import opened SceneModel
  import opened SceneRules
  import opened SceneDefaults

  ghost predicate MeshValid(o: SceneObject, fileExists: string -> bool) {
    match o.mesh
    case Some(Sphere(radius)) => radius > 0.0 && o.transform.Some? && !HasScale(o.transform.value)
    case Some(Cube(size)) =>
      size.Some? && IsNonNegative(size.value) && o.transform.Some? && !HasScale(o.transform.value)
    case Some(Disk(radius)) => radius > 0.0
    case Some(MeshedObject(reference)) => reference.Some? && fileExists(reference.value)
    case _ => true
  }

  ghost predicate SceneObjectValid(s: SceneValue, o: SceneObject, fileExists: string -> bool) {
    && (o.transform.Some? ==> TransformValid(s, o.transform.value))
    && (o.MaterialId() != "" ==> HasMaterialId(s.materials, o.MaterialId()))
    && (o.objectMaterial.InlineMaterial? ==> MaterialValid(o.objectMaterial.material))
    && MeshValid(o, fileExists)
  }

  /** A positive id that no camera and no light uses, and the object's own rules. */
  ghost predicate SceneObjectAcceptable(s: SceneValue, o: SceneObject, fileExists: string -> bool) {
    o.id > 0 && !HasCameraId(s.cameras, o.id) && !HasLightId(s.lights, o.id) && SceneObjectValid(s, o, fileExists)
  }

  /** Objects `i..` are acceptable, their ids are pairwise distinct and none is in `seen`. */
  ghost predicate ObjectsAcceptable(s: SceneValue, fileExists: string -> bool, i: nat, seen: set<int>)
    requires i <= |s.sceneObjects|
  {
    && (forall k :: i <= k < |s.sceneObjects| ==>
          SceneObjectAcceptable(s, s.sceneObjects[k], fileExists) && s.sceneObjects[k].id !in seen)
    && (forall j, k :: i <= j < k < |s.sceneObjects| ==> s.sceneObjects[j].id != s.sceneObjects[k].id)
  }

  /** Light ids must be positive and unused by cameras; they need not be distinct. */
  ghost predicate LightValid(s: SceneValue, l: Light) {
    && l.id > 0
    && !HasCameraId(s.cameras, l.id)
    && (l.transform.Some? ==> TransformValid(s, l.transform.value))
    && (l.color.Some? ==> IsNonNegativeColor(l.color.value))
    && l.transform.Some? && !HasScale(l.transform.value)
  }

  ghost predicate CameraValid(s: SceneValue, c: Camera) {
    && (c.transform.Some? ==> TransformValid(s, c.transform.value) && !HasScale(c.transform.value))
    && (c.projection.Some? && c.projection.value.Perspective? ==>
          0.0 < c.projection.value.fov < 180.0)
  }

  ghost predicate CamerasValid(s: SceneValue, i: nat, seen: set<int>)
    requires i <= |s.cameras|
  {
    && (forall k :: i <= k < |s.cameras| ==> CameraValid(s, s.cameras[k]) && s.cameras[k].id !in seen)
    && (forall j, k :: i <= j < k < |s.cameras| ==> s.cameras[j].id != s.cameras[k].id)
  }

  ghost predicate RenderOptionsValid(s: SceneValue, ro: RenderOptions) {
    HasCameraId(s.cameras, ro.cameraId) && ro.width > 0 && ro.height > 0
  }

  /** Every rule of the validator at once. */
  ghost predicate SceneValid(s: SceneValue, fileExists: string -> bool) {
    && s.version == 1
    && (s.renderOptions.Some? ==> RenderOptionsValid(s, s.renderOptions.value))
    && ObjectsAcceptable(s, fileExists, 0, {})
    && (forall k :: 0 <= k < |s.lights| ==> LightValid(s, s.lights[k]))
    && CamerasValid(s, 0, {})
    && (forall k :: 0 <= k < |s.materials| ==> MaterialValid(s.materials[k]))
  }

  // ---------------------------------------------------------------------------
  // The fail-fast outcome passes exactly on valid scenes

  lemma {:induction false} ObjectsOutcomePassIff(s: SceneValue, fileExists: string -> bool, i: nat, seen: set<int>)
    requires i <= |s.sceneObjects|
    ensures ObjectsOutcome(s, fileExists, i, seen) == Pass <==> ObjectsAcceptable(s, fileExists, i, seen)
    decreases |s.sceneObjects| - i
  {
    if i < |s.sceneObjects| {
      var o := s.sceneObjects[i];
      ObjectsOutcomePassIff(s, fileExists, i + 1, seen + {o.id});
      if ObjectsAcceptable(s, fileExists, i, seen) {
        assert SceneObjectOutcome(s, o, fileExists) == Pass;
        assert ObjectsAcceptable(s, fileExists, i + 1, seen + {o.id});
      }
      if ObjectsOutcome(s, fileExists, i, seen) == Pass {
        assert SceneObjectAcceptable(s, o, fileExists);
        forall k | i < k < |s.sceneObjects| ensures s.sceneObjects[i].id != s.sceneObjects[k].id {
          assert s.sceneObjects[k].id !in seen + {o.id};
        }
      }
    }
  }

  lemma {:induction false} LightsOutcomePassIff(s: SceneValue, i: nat)
    requires i <= |s.lights|
    ensures LightsOutcome(s, i) == Pass <==> forall k :: i <= k < |s.lights| ==> LightValid(s, s.lights[k])
    decreases |s.lights| - i
  {
    if i < |s.lights| {
      LightsOutcomePassIff(s, i + 1);
    }
  }

  lemma {:induction false} CamerasOutcomePassIff(s: SceneValue, i: nat, seen: set<int>)
    requires i <= |s.cameras|
    ensures CamerasOutcome(s, i, seen) == Pass <==> CamerasValid(s, i, seen)
    decreases |s.cameras| - i
  {
    if i < |s.cameras| {
      var c := s.cameras[i];
      CamerasOutcomePassIff(s, i + 1, seen + {c.id});
      if CamerasOutcome(s, i, seen) == Pass {
        forall k | i < k < |s.cameras| ensures s.cameras[i].id != s.cameras[k].id {
          assert s.cameras[k].id !in seen + {c.id};
        }
      }
    }
  }

  lemma {:induction false} MaterialsOutcomePassIff(s: SceneValue, i: nat)
    requires i <= |s.materials|
    ensures MaterialsOutcome(s, i) == Pass <==> forall k :: i <= k < |s.materials| ==> MaterialValid(s.materials[k])
    decreases |s.materials| - i
  {
    if i < |s.materials| {
      MaterialsOutcomePassIff(s, i + 1);
    }
  }

  /** `Validate` accepts a scene exactly when every rule holds. */
  lemma {:induction false} ValidationPassIff(s: SceneValue, fileExists: string -> bool)
    ensures ValidationOutcome(s, fileExists) == Pass <==> SceneValid(s, fileExists)
  {
    ObjectsOutcomePassIff(s, fileExists, 0, {});
    LightsOutcomePassIff(s, 0);
    CamerasOutcomePassIff(s, 0, {});
    MaterialsOutcomePassIff(s, 0);
  }

  // ---------------------------------------------------------------------------
  // Validation after post-processing never dereferences null

  lemma {:induction false} ObjectsNoNullDereference(s: SceneValue, fileExists: string -> bool, i: nat, seen: set<int>)
    requires i <= |s.sceneObjects|
    requires forall k :: i <= k < |s.sceneObjects| ==> SceneObjectComplete(s.sceneObjects[k])
    ensures ObjectsOutcome(s, fileExists, i, seen) != Fail(NullDereference)
    decreases |s.sceneObjects| - i
  {
    if i < |s.sceneObjects| {
      ObjectsNoNullDereference(s, fileExists, i + 1, seen + {s.sceneObjects[i].id});
    }
  }

  lemma {:induction false} LightsNoNullDereference(s: SceneValue, i: nat)
    requires i <= |s.lights|
    requires forall k :: i <= k < |s.lights| ==> LightComplete(s.lights[k])
    ensures LightsOutcome(s, i) != Fail(NullDereference)
    decreases |s.lights| - i
  {
    if i < |s.lights| {
      LightsNoNullDereference(s, i + 1);
    }
  }

  lemma {:induction false} CamerasNoNullDereference(s: SceneValue, i: nat, seen: set<int>)
    requires i <= |s.cameras|
    requires forall k :: i <= k < |s.cameras| ==> CameraComplete(s.cameras[k])
    ensures CamerasOutcome(s, i, seen) != Fail(NullDereference)
    decreases |s.cameras| - i
  {
    if i < |s.cameras| {
      CamerasNoNullDereference(s, i + 1, seen + {s.cameras[i].id});
    }
  }

  lemma {:induction false} MaterialsNoNullDereference(s: SceneValue, i: nat)
    requires i <= |s.materials|
    ensures MaterialsOutcome(s, i) != Fail(NullDereference)
    decreases |s.materials| - i
  {
    if i < |s.materials| {
      MaterialsNoNullDereference(s, i + 1);
    }
  }

  /** On a scene with nothing left unset, no check dereferences a null message. */
  lemma {:induction false} NormalizedNoNullDereference(s: SceneValue, fileExists: string -> bool)
    requires IsNormalized(s)
    ensures ValidationOutcome(s, fileExists) != Fail(NullDereference)
  {
    ObjectsNoNullDereference(s, fileExists, 0, {});
    LightsNoNullDereference(s, 0);
    CamerasNoNullDereference(s, 0, {});
    MaterialsNoNullDereference(s, 0);
  }

  /** `PostProcessAndValidate` only ever fails with one of the exceptions the source throws on purpose. */
  lemma {:induction false} PostProcessedNoNullDereference(s: SceneValue, fileExists: string -> bool)
    ensures ValidationOutcome(Normalize(s), fileExists).Fail? ==>
              ValidationOutcome(Normalize(s), fileExists).error.Kind() != NullReferenceException
  {
    NormalizeFillsAndCompletes(s);
    NormalizedNoNullDereference(Normalize(s), fileExists);
  }

  // ---------------------------------------------------------------------------
  // Rules as the source writes them

  /** A scale post-processing supplies is the unit scale, which `HasScale` does not flag. */
  lemma SuppliedScaleIsUnit(t: Option<Transform>)
    requires t.None? || t.value.scale.None?
    ensures NormalizeTransform(t).value.scale == Some(UnitScale)
    ensures !HasScale(NormalizeTransform(t).value)
  {
  }

  /** A sphere or cube whose scale was unset is never rejected for scale after post-processing. */
  lemma UnsetObjectScaleAccepted(o: SceneObject, fileExists: string -> bool)
    requires o.transform.None? || o.transform.value.scale.None?
    ensures var r := MeshOutcome(NormalizeSceneObject(o), fileExists);
            r != Fail(SphereHasScale) && r != Fail(CubeHasScale)
  {
    SuppliedScaleIsUnit(o.transform);
  }

  /** A light whose scale was unset is never rejected for scale after post-processing. */
  lemma UnsetLightScaleAccepted(s: SceneValue, l: Light)
    requires l.transform.None? || l.transform.value.scale.None?
    ensures LightOutcome(s, NormalizeLight(l)) != Fail(LightHasScale(l.id))
  {
    SuppliedScaleIsUnit(l.transform);
  }

  /** A camera whose scale was unset is never rejected for scale after post-processing. */
  lemma UnsetCameraScaleAccepted(s: SceneValue, c: Camera)
    requires c.transform.None? || c.transform.value.scale.None?
    ensures CameraOutcome(s, NormalizeCamera(c)) != Fail(CameraHasScale(c.id))
  {
    SuppliedScaleIsUnit(c.transform);
  }

  /** Two lights may share an id: the duplicate-light test of the source never fires. */
  lemma DuplicateLightIdsAccepted(fileExists: string -> bool)
    ensures var light := Light(1, Some(Transform(0, Some(Origin), Some(Origin), Some(UnitScale))), Some(White), None);
            ValidationOutcome(SceneValue(1, None, [], [light, light], [], []), fileExists) == Pass
  {
    var light := Light(1, Some(Transform(0, Some(Origin), Some(Origin), Some(UnitScale))), Some(White), None);
    var s := SceneValue(1, None, [], [light, light], [], []);
    ValidationPassIff(s, fileExists);
    assert CamerasValid(s, 0, {});
  }

  /** An object that gets through every check of `ValidateSceneObjects`. */
  predicate ObjectPasses(s: SceneValue, o: SceneObject, fileExists: string -> bool) {
    o.id > 0 && !HasCameraId(s.cameras, o.id) && !HasLightId(s.lights, o.id) && SceneObjectOutcome(s, o, fileExists) == Pass
  }

  /** The error the collision check of object `k` raises. */
  function ObjectCollision(s: SceneValue, k: nat): ValidationError
    requires k < |s.sceneObjects|
  {
    var id := s.sceneObjects[k].id;
    if HasCameraId(s.cameras, id) then ObjectIdUsedByCamera(id) else ObjectIdUsedByLight(id)
  }

  lemma {:induction false} ObjectsReachCollision(s: SceneValue, fileExists: string -> bool, i: nat, seen: set<int>, k: nat)
    requires i <= k < |s.sceneObjects|
    requires forall j :: i <= j < k ==> ObjectPasses(s, s.sceneObjects[j], fileExists)
    requires forall j :: i <= j <= k ==> s.sceneObjects[j].id !in seen
    requires forall j, j' :: i <= j < j' <= k ==> s.sceneObjects[j].id != s.sceneObjects[j'].id
    requires s.sceneObjects[k].id > 0
    requires HasCameraId(s.cameras, s.sceneObjects[k].id) || HasLightId(s.lights, s.sceneObjects[k].id)
    ensures ObjectsOutcome(s, fileExists, i, seen) == Fail(ObjectCollision(s, k))
    decreases k - i
  {
    if i < k {
      ObjectsReachCollision(s, fileExists, i + 1, seen + {s.sceneObjects[i].id}, k);
    }
  }

  /** Object `k`, reached after objects with distinct ids that all pass, has a positive
      id that a camera or a light uses: validation fails on that collision with a plain
      `Exception`, not a `SceneIOException`. */
  lemma ObjectIdCollisionIsPlainException(s: SceneValue, fileExists: string -> bool, k: nat)
    requires s.version == 1
    requires s.renderOptions.Some? ==> RenderOptionsOutcome(s, s.renderOptions.value) == Pass
    requires k < |s.sceneObjects|
    requires forall j :: 0 <= j < k ==> ObjectPasses(s, s.sceneObjects[j], fileExists)
    requires forall j, j' :: 0 <= j < j' <= k ==> s.sceneObjects[j].id != s.sceneObjects[j'].id
    requires s.sceneObjects[k].id > 0
    requires HasCameraId(s.cameras, s.sceneObjects[k].id) || HasLightId(s.lights, s.sceneObjects[k].id)
    ensures ValidationOutcome(s, fileExists) == Fail(ObjectCollision(s, k))
    ensures ValidationOutcome(s, fileExists).error.Kind() == PlainException
  {
    ObjectsReachCollision(s, fileExists, 0, {}, k);
  }

  /** A light that gets through every check of `ValidateLights`. */
  predicate LightPasses(s: SceneValue, l: Light) {
    l.id > 0 && !HasCameraId(s.cameras, l.id) && LightOutcome(s, l) == Pass
  }

  lemma {:induction false} LightsReachCollision(s: SceneValue, i: nat, k: nat)
    requires i <= k < |s.lights|
    requires forall j :: i <= j < k ==> LightPasses(s, s.lights[j])
    requires s.lights[k].id > 0 && HasCameraId(s.cameras, s.lights[k].id)
    ensures LightsOutcome(s, i) == Fail(LightIdUsedByCamera(s.lights[k].id))
    decreases k - i
  {
    if i < k {
      LightsReachCollision(s, i + 1, k);
    }
  }

  /** Light `k`, reached after scene objects that pass and lights that pass, has a
      positive id that a camera uses: validation fails on that collision with a plain
      `Exception`. */
  lemma LightIdCollisionIsPlainException(s: SceneValue, fileExists: string -> bool, k: nat)
    requires s.version == 1
    requires s.renderOptions.Some? ==> RenderOptionsOutcome(s, s.renderOptions.value) == Pass
    requires ObjectsOutcome(s, fileExists, 0, {}) == Pass
    requires k < |s.lights|
    requires forall j :: 0 <= j < k ==> LightPasses(s, s.lights[j])
    requires s.lights[k].id > 0 && HasCameraId(s.cameras, s.lights[k].id)
    ensures ValidationOutcome(s, fileExists) == Fail(LightIdUsedByCamera(s.lights[k].id))
    ensures ValidationOutcome(s, fileExists).error.Kind() == PlainException
  {
    LightsReachCollision(s, 0, k);
  }

  /** After post-processing, a perspective camera whose transform passes its checks is
      rejected for its field of view exactly when the field of view is neither 0 (which
      becomes 60) nor strictly between 0 and 180. */
  lemma NormalizedFovRange(s: SceneValue, c: Camera, fov: real)
    requires c.projection == Some(Perspective(fov))
    requires TransformOutcome(s, NormalizeTransform(c.transform).value) == Pass
    requires !HasScale(NormalizeTransform(c.transform).value)
    ensures CameraOutcome(s, NormalizeCamera(c)) == Pass <==> fov == 0.0 || 0.0 < fov < 180.0
    ensures CameraOutcome(s, NormalizeCamera(c)).Fail? ==> CameraOutcome(s, NormalizeCamera(c)).error == InvalidFov
  {
  }

  /** A perspective field of view must lie strictly between 0 and 180; an unset one becomes 60 and passes. */
  lemma FovRange(fov: real, fileExists: string -> bool)
    ensures var camera := Camera(1, None, Some(Perspective(fov)));
            var s := Normalize(SceneValue(1, None, [], [], [camera], []));
            ValidationOutcome(s, fileExists) == Pass <==> fov == 0.0 || 0.0 < fov < 180.0
  {
    var camera := Camera(1, None, Some(Perspective(fov)));
    var s := Normalize(SceneValue(1, None, [], [], [camera], []));
    assert s.cameras == [NormalizeCamera(camera)];
    ValidationPassIff(s, fileExists);
  }
}
