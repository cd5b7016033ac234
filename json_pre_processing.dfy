/** The rewrite the Rust library applies to a decoded JSON scene before it is
    deserialised: defaults for missing keys, geometry and light variants moved
    under their wrapper keys, and a shape check on every value it touches. */
module JsonPreProcessing {
  import opened Wrappers
  import opened SceneIOErrors
  import opened JsonValues

  type Object = map<string, Json>

  function DecodeError(description: string): Failure {
    Raised(FailedToDecode(description))
  }

  /** The key is absent, or present with an object value. */
  predicate ObjectIfPresent(o: Object, key: string) {
    key in o ==> o[key].JObject?
  }

  // ---------------------------------------------------------------------------
  // pre_process_transform, pre_process_render_options

  /** `parentId: 0` is added when the key is absent; nothing else changes. */
  function PreProcessTransform(transform: Object): (r: Object)
    ensures r.Keys == transform.Keys + {"parentId"}
    ensures forall k :: k in transform ==> r[k] == transform[k]
    ensures "parentId" !in transform ==> r["parentId"] == JInt(0)
  {
    if "parentId" in transform then transform else transform["parentId" := JInt(0)]
  }

  /** `customProperties: []` is added when the key is absent; nothing else changes. */
  function PreProcessRenderOptions(renderOptions: Object): (r: Object)
    ensures r.Keys == renderOptions.Keys + {"customProperties"}
    ensures forall k :: k in renderOptions ==> r[k] == renderOptions[k]
    ensures "customProperties" !in renderOptions ==> r["customProperties"] == JArray([])
  {
    if "customProperties" in renderOptions then renderOptions
    else renderOptions["customProperties" := JArray([])]
  }

  lemma PreProcessTransformIdempotent(transform: Object)
    ensures PreProcessTransform(PreProcessTransform(transform)) == PreProcessTransform(transform)
  {
  }

  lemma PreProcessRenderOptionsIdempotent(renderOptions: Object)
    ensures PreProcessRenderOptions(PreProcessRenderOptions(renderOptions)) == PreProcessRenderOptions(renderOptions)
  {
  }

  // ---------------------------------------------------------------------------
  // The per-entity rewrites

  /** A present `transform` must be an object and is pre-processed in place. */
  function TransformField(o: Object): (r: Result<Object, Failure>)
    ensures r.Ok? <==> ObjectIfPresent(o, "transform")
    ensures r.Err? ==> r.error == DecodeError("Expected transform to be an object")
    ensures r.Ok? ==> r.value.Keys == o.Keys &&
                      forall k :: k in o && k != "transform" ==> r.value[k] == o[k]
    ensures r.Ok? && "transform" in o ==> r.value["transform"] == JObject(PreProcessTransform(o["transform"].fields))
  {
    if "transform" !in o then Ok(o)
    else match o["transform"]
      case JObject(t) => Ok(o["transform" := JObject(PreProcessTransform(t))])
      case _ => Err(DecodeError("Expected transform to be an object"))
  }

  /** A present `key` must be an object and is copied, alone, into a new object under
      `wrapper`, as `inner`: `{key: v}` gains `wrapper: {inner: v}`. */
  function Wrap(o: Object, key: string, wrapper: string, inner: string, notObject: string): (r: Result<Object, Failure>)
    ensures r.Ok? <==> ObjectIfPresent(o, key)
    ensures r.Err? ==> r.error == DecodeError(notObject)
    ensures r.Ok? && key !in o ==> r.value == o
    ensures r.Ok? && key in o ==> r.value == o[wrapper := JObject(map[inner := o[key]])]
  {
    if key !in o then Ok(o)
    else match o[key]
      case JObject(v) => Ok(o[wrapper := JObject(map[inner := JObject(v)])])
      case _ => Err(DecodeError(notObject))
  }

  /** One wrapping step: `key` is copied under `wrapper` as `inner`; `notObject` is
      the error when its value is not an object. */
  datatype Wrapping = Wrapping(key: string, wrapper: string, inner: string, notObject: string)

  /** The wrapping steps applied in order, stopping at the first ill-shaped value. */
  function WrapAll(o: Object, ws: seq<Wrapping>): Result<Object, Failure>
    decreases |ws|
  {
    if |ws| == 0 then Ok(o)
    else
      var o :- Wrap(o, ws[0].key, ws[0].wrapper, ws[0].inner, ws[0].notObject);
      WrapAll(o, ws[1..])
  }

  /** No step writes a key that a later step reads. */
  predicate ReadsBeforeWrites(ws: seq<Wrapping>) {
    forall i, j :: 0 <= i < j < |ws| ==> ws[i].wrapper != ws[j].key
  }

  /** The value the last step writing `w` leaves there, if any step does. */
  function LastWrap(o: Object, ws: seq<Wrapping>, w: string): Option<Json>
    decreases |ws|
  {
    if |ws| == 0 then None
    else
      var later := LastWrap(o, ws[1..], w);
      if later.Some? then later
      else if ws[0].wrapper == w && ws[0].key in o then Some(JObject(map[ws[0].inner := o[ws[0].key]]))
      else None
  }

  /** The geometry steps of `pre_process_scene_object`, in the order the source checks them. */
  const MeshWrappings: seq<Wrapping> := [
    Wrapping("sphere", "mesh", "sphere", "Expected sphere to be an object"),
    Wrapping("cube", "mesh", "cube", "Expected cube to be an object"),
    Wrapping("plane", "mesh", "plane", "Expected plane to be an object"),
    Wrapping("disk", "mesh", "disk", "Expected disk to be an object"),
    Wrapping("meshed_object", "mesh", "meshedObject", "Expected meshed object to be an object")]

  /** The light steps of `pre_process_light`, in the order the source checks them. */
  const LightWrappings: seq<Wrapping> := [
    Wrapping("point", "light", "point", "Expected point light to be an object"),
    Wrapping("directional", "light", "directional", "Expected directional light to be an object"),
    Wrapping("environment", "environment", "environment", "Expected environment light to be an object")]

  /** `pre_process_camera`. */
  function PreProcessCamera(camera: Object): Result<Object, Failure> {
    TransformField(camera)
  }

  /** `pre_process_scene_object`: each geometry key, in order, writes its wrapper
      under `mesh`, so the last one present wins. */
  function PreProcessSceneObject(sceneObject: Object): Result<Object, Failure> {
    var o :- TransformField(sceneObject);
    WrapAll(o, MeshWrappings)
  }

  /** `pre_process_light`: point and directional lights are wrapped under `light`;
      an environment light is wrapped under its own key. */
  function PreProcessLight(light: Object): Result<Object, Failure> {
    var o :- TransformField(light);
    WrapAll(o, LightWrappings)
  }

  // ---------------------------------------------------------------------------
  // What the wrapping steps do

  /** A step only sees keys no earlier step wrote. */
  lemma {:induction false} LastWrapFrame(o: Object, o': Object, ws: seq<Wrapping>, w: string)
    requires forall j :: 0 <= j < |ws| ==> (ws[j].key in o <==> ws[j].key in o') &&
                                           (ws[j].key in o ==> o[ws[j].key] == o'[ws[j].key])
    ensures LastWrap(o, ws, w) == LastWrap(o', ws, w)
    decreases |ws|
  {
    if |ws| > 0 {
      LastWrapFrame(o, o', ws[1..], w);
    }
  }

  lemma {:induction false} WrapAllShape(o: Object, ws: seq<Wrapping>)
    ensures WrapAll(o, ws).Ok? <==> forall i :: 0 <= i < |ws| ==> ObjectIfPresent(o, ws[i].key)
    ensures WrapAll(o, ws).Err? ==>
              exists k :: 0 <= k < |ws| && !ObjectIfPresent(o, ws[k].key) &&
                          (forall j :: 0 <= j < k ==> ObjectIfPresent(o, ws[j].key)) &&
                          WrapAll(o, ws).error == DecodeError(ws[k].notObject)
    requires ReadsBeforeWrites(ws)
    decreases |ws|
  {
    if |ws| > 0 {
      var step := Wrap(o, ws[0].key, ws[0].wrapper, ws[0].inner, ws[0].notObject);
      if step.Ok? {
        var o' := step.value;
        WrapAllShape(o', ws[1..]);
        forall j | 0 <= j < |ws[1..]|
          ensures ObjectIfPresent(o', ws[1..][j].key) == ObjectIfPresent(o, ws[1..][j].key)
        {
          assert ws[1..][j] == ws[j + 1];
        }
        if WrapAll(o, ws).Err? {
          var k :| 0 <= k < |ws[1..]| && !ObjectIfPresent(o', ws[1..][k].key) &&
                   (forall j :: 0 <= j < k ==> ObjectIfPresent(o', ws[1..][j].key)) &&
                   WrapAll(o', ws[1..]).error == DecodeError(ws[1..][k].notObject);
          assert ws[1..][k] == ws[k + 1];
          forall j | 0 <= j < k + 1
            ensures ObjectIfPresent(o, ws[j].key)
          {
            if j > 0 {
              assert ws[1..][j - 1] == ws[j];
            }
          }
        }
        if forall i :: 0 <= i < |ws| ==> ObjectIfPresent(o, ws[i].key) {
          assert forall j :: 0 <= j < |ws[1..]| ==> ws[1..][j] == ws[j + 1];
        }
      }
    }
  }

  /** The result of the wrapping steps: every key written holds the value of the last
      step that wrote it; every other key is as it was. */
  lemma {:induction false} WrapAllResult(o: Object, ws: seq<Wrapping>)
    requires ReadsBeforeWrites(ws)
    requires WrapAll(o, ws).Ok?
    ensures forall w :: (w in WrapAll(o, ws).value <==> w in o || LastWrap(o, ws, w).Some?)
    ensures forall w :: LastWrap(o, ws, w).Some? ==> WrapAll(o, ws).value[w] == LastWrap(o, ws, w).value
    ensures forall w :: w in o && LastWrap(o, ws, w).None? ==> WrapAll(o, ws).value[w] == o[w]
    decreases |ws|
  {
    if |ws| > 0 {
      var o' := Wrap(o, ws[0].key, ws[0].wrapper, ws[0].inner, ws[0].notObject).value;
      assert ReadsBeforeWrites(ws[1..]) by {
        forall i, j | 0 <= i < j < |ws[1..]|
          ensures ws[1..][i].wrapper != ws[1..][j].key
        {
          assert ws[1..][i] == ws[i + 1] && ws[1..][j] == ws[j + 1];
        }
      }
      WrapAllResult(o', ws[1..]);
      forall w
        ensures LastWrap(o', ws[1..], w) == LastWrap(o, ws[1..], w)
      {
        forall j | 0 <= j < |ws[1..]|
          ensures (ws[1..][j].key in o <==> ws[1..][j].key in o') &&
                  (ws[1..][j].key in o ==> o[ws[1..][j].key] == o'[ws[1..][j].key])
        {
          assert ws[1..][j] == ws[j + 1];
        }
        LastWrapFrame(o, o', ws[1..], w);
      }
    }
  }

  /** The `mesh` value written for a scene object: the wrapper of the geometry key
      checked last among those present, or none. */
  function MeshWrapper(o: Object): Option<Json> {
    if "meshed_object" in o then Some(JObject(map["meshedObject" := o["meshed_object"]]))
    else if "disk" in o then Some(JObject(map["disk" := o["disk"]]))
    else if "plane" in o then Some(JObject(map["plane" := o["plane"]]))
    else if "cube" in o then Some(JObject(map["cube" := o["cube"]]))
    else if "sphere" in o then Some(JObject(map["sphere" := o["sphere"]]))
    else None
  }

  lemma MeshWrappingsFacts(o: Object)
    ensures ReadsBeforeWrites(MeshWrappings)
    ensures LastWrap(o, MeshWrappings, "mesh") == MeshWrapper(o)
    ensures forall w :: w != "mesh" ==> LastWrap(o, MeshWrappings, w).None?
  {
    var ws := MeshWrappings;
    assert ws[1..][1..][1..][1..][1..] == [];
    forall w
      ensures LastWrap(o, ws, w) ==
              (if w == "mesh" then MeshWrapper(o) else None)
    {
      assert LastWrap(o, ws[1..][1..][1..][1..][1..], w) == None;
    }
  }

  /** A scene object is rewritten exactly when its transform and every geometry it
      has are objects, and otherwise fails as the first ill-shaped one in the order
      transform, sphere, cube, plane, disk, meshed object. */
  lemma PreProcessSceneObjectShape(sceneObject: Object)
    ensures PreProcessSceneObject(sceneObject).Ok? <==>
              ObjectIfPresent(sceneObject, "transform") &&
              forall i :: 0 <= i < |MeshWrappings| ==> ObjectIfPresent(sceneObject, MeshWrappings[i].key)
    ensures PreProcessSceneObject(sceneObject).Err? ==>
              if !ObjectIfPresent(sceneObject, "transform")
              then PreProcessSceneObject(sceneObject).error == DecodeError("Expected transform to be an object")
              else exists k :: 0 <= k < |MeshWrappings| && !ObjectIfPresent(sceneObject, MeshWrappings[k].key) &&
                               (forall j :: 0 <= j < k ==> ObjectIfPresent(sceneObject, MeshWrappings[j].key)) &&
                               PreProcessSceneObject(sceneObject).error == DecodeError(MeshWrappings[k].notObject)
  {
    MeshWrappingsFacts(sceneObject);
    var t := TransformField(sceneObject);
    if t.Ok? {
      var o := t.value;
      WrapAllShape(o, MeshWrappings);
      assert forall i :: 0 <= i < |MeshWrappings| ==> MeshWrappings[i].key != "transform";
    }
  }

  /** How the wrapped result of a scene object relates to the object after its
      transform step. */
  lemma SceneObjectWrapped(sceneObject: Object)
    requires PreProcessSceneObject(sceneObject).Ok?
    ensures var o := TransformField(sceneObject).value;
            var r := PreProcessSceneObject(sceneObject).value;
            (forall w :: w in r <==> w in o || (w == "mesh" && MeshWrapper(sceneObject).Some?)) &&
            (forall w :: w in o && w != "mesh" ==> r[w] == o[w]) &&
            (MeshWrapper(sceneObject).Some? ==> r["mesh"] == MeshWrapper(sceneObject).value) &&
            (MeshWrapper(sceneObject).None? && "mesh" in o ==> r["mesh"] == o["mesh"])
  {
    var o := TransformField(sceneObject).value;
    MeshWrappingsFacts(o);
    assert MeshWrapper(o) == MeshWrapper(sceneObject);
    WrapAllResult(o, MeshWrappings);
  }

  /** A rewritten scene object keeps every key, gains `mesh` when some geometry is
      present, holds there the wrapper of the last present geometry, and has its
      transform pre-processed. */
  lemma PreProcessSceneObjectResult(sceneObject: Object)
    requires PreProcessSceneObject(sceneObject).Ok?
    ensures var r := PreProcessSceneObject(sceneObject).value;
            r.Keys == sceneObject.Keys + (if MeshWrapper(sceneObject).Some? then {"mesh"} else {}) &&
            (forall k :: k in sceneObject && k != "transform" && k != "mesh" ==> r[k] == sceneObject[k]) &&
            (MeshWrapper(sceneObject).Some? ==> r["mesh"] == MeshWrapper(sceneObject).value) &&
            (MeshWrapper(sceneObject).None? && "mesh" in sceneObject ==> r["mesh"] == sceneObject["mesh"]) &&
            ("transform" in sceneObject ==> r["transform"] == JObject(PreProcessTransform(sceneObject["transform"].fields)))
  {
    SceneObjectWrapped(sceneObject);
    var o := TransformField(sceneObject).value;
    var r := PreProcessSceneObject(sceneObject).value;
    assert o.Keys == sceneObject.Keys;
    assert r.Keys == o.Keys + (if MeshWrapper(sceneObject).Some? then {"mesh"} else {});
  }

  /** The `light` value written for a light: a directional light wins over a point light. */
  function LightWrapper(o: Object): Option<Json> {
    if "directional" in o then Some(JObject(map["directional" := o["directional"]]))
    else if "point" in o then Some(JObject(map["point" := o["point"]]))
    else None
  }

  lemma LightWrappingsFacts(o: Object)
    ensures ReadsBeforeWrites(LightWrappings)
    ensures LastWrap(o, LightWrappings, "light") == LightWrapper(o)
    ensures LastWrap(o, LightWrappings, "environment") ==
            (if "environment" in o then Some(JObject(map["environment" := o["environment"]])) else None)
    ensures forall w :: w != "light" && w != "environment" ==> LastWrap(o, LightWrappings, w).None?
  {
    var ws := LightWrappings;
    assert ws[1..][1..][1..] == [];
    forall w
      ensures LastWrap(o, ws, w) ==
              (if w == "light" then LightWrapper(o)
               else if w == "environment" && "environment" in o then Some(JObject(map["environment" := o["environment"]]))
               else None)
    {
      assert LastWrap(o, ws[1..][1..][1..], w) == None;
    }
  }

  /** A light is rewritten exactly when its transform and light variants are objects,
      and otherwise fails as the first ill-shaped one in the order transform, point,
      directional, environment. */
  lemma PreProcessLightShape(light: Object)
    ensures PreProcessLight(light).Ok? <==>
              ObjectIfPresent(light, "transform") &&
              forall i :: 0 <= i < |LightWrappings| ==> ObjectIfPresent(light, LightWrappings[i].key)
    ensures PreProcessLight(light).Err? ==>
              if !ObjectIfPresent(light, "transform")
              then PreProcessLight(light).error == DecodeError("Expected transform to be an object")
              else exists k :: 0 <= k < |LightWrappings| && !ObjectIfPresent(light, LightWrappings[k].key) &&
                               (forall j :: 0 <= j < k ==> ObjectIfPresent(light, LightWrappings[j].key)) &&
                               PreProcessLight(light).error == DecodeError(LightWrappings[k].notObject)
  {
    LightWrappingsFacts(light);
    var t := TransformField(light);
    if t.Ok? {
      var o := t.value;
      WrapAllShape(o, LightWrappings);
      assert forall i :: 0 <= i < |LightWrappings| ==> LightWrappings[i].key != "transform";
    }
  }

  /** How the wrapped result of a light relates to the light after its transform step. */
  lemma LightWrapped(light: Object)
    requires PreProcessLight(light).Ok?
    ensures var o := TransformField(light).value;
            var r := PreProcessLight(light).value;
            (forall w :: w in r <==> w in o || (w == "light" && LightWrapper(light).Some?)) &&
            (forall w :: w in o && w != "light" && w != "environment" ==> r[w] == o[w]) &&
            (LightWrapper(light).Some? ==> r["light"] == LightWrapper(light).value) &&
            (LightWrapper(light).None? && "light" in o ==> r["light"] == o["light"]) &&
            ("environment" in o ==> r["environment"] == JObject(map["environment" := o["environment"]]))
  {
    var o := TransformField(light).value;
    LightWrappingsFacts(o);
    assert LightWrapper(o) == LightWrapper(light);
    WrapAllResult(o, LightWrappings);
  }

  /** A rewritten light has `light` set to the wrapper of its directional or else its
      point light, `environment` replaced by a wrapper around its own value (it is not
      moved under `light`), its transform pre-processed, and every other key kept. */
  lemma PreProcessLightResult(light: Object)
    requires PreProcessLight(light).Ok?
    ensures var r := PreProcessLight(light).value;
            r.Keys == light.Keys + (if LightWrapper(light).Some? then {"light"} else {}) &&
            (forall k :: k in light && k != "transform" && k != "light" && k != "environment" ==> r[k] == light[k]) &&
            (LightWrapper(light).Some? ==> r["light"] == LightWrapper(light).value) &&
            (LightWrapper(light).None? && "light" in light ==> r["light"] == light["light"]) &&
            ("environment" in light ==> r["environment"] == JObject(map["environment" := light["environment"]])) &&
            ("transform" in light ==> r["transform"] == JObject(PreProcessTransform(light["transform"].fields)))
  {
    LightWrapped(light);
    var o := TransformField(light).value;
    var r := PreProcessLight(light).value;
    assert o.Keys == light.Keys;
    assert r.Keys == o.Keys + (if LightWrapper(light).Some? then {"light"} else {});
  }

  /** The environment wrapper is applied again on every pass: the light rewrite is not idempotent. */
  lemma PreProcessLightNestsEnvironment(environment: Object)
    ensures var once := PreProcessLight(map["environment" := JObject(environment)]);
            once.Ok? && PreProcessLight(once.value).Ok? &&
            PreProcessLight(once.value).value["environment"] ==
              JObject(map["environment" := JObject(map["environment" := JObject(environment)])])
  {
    var light := map["environment" := JObject(environment)];
    PreProcessLightShape(light);
    PreProcessLightResult(light);
    var once := PreProcessLight(light).value;
    PreProcessLightShape(once);
    PreProcessLightResult(once);
  }

  // ---------------------------------------------------------------------------
  // pre_process_cameras, pre_process_scene_objects, pre_process_lights

  /** One array element: it must be an object, rewritten by `f`. */
  function ObjectItem(f: Object -> Result<Object, Failure>, notObject: string): Json -> Result<Json, Failure> {
    (item: Json) =>
      match item
      case JObject(o) => (match f(o) case Ok(r) => Ok(JObject(r)) case Err(e) => Err(e))
      case _ => Err(DecodeError(notObject))
  }

  function PreProcessEach(items: seq<Json>, f: Object -> Result<Object, Failure>, notObject: string): Result<seq<Json>, Failure> {
    MapAll(items, ObjectItem(f, notObject))
  }

  /** The loop shared by the three array pre-processors: a new array is built element by element. */
  method PreProcessArray(items: seq<Json>, f: Object -> Result<Object, Failure>, notObject: string)
    returns (r: Result<seq<Json>, Failure>)
    ensures r == PreProcessEach(items, f, notObject)
  {
    var processed: seq<Json> := [];
    var i := 0;
    assert items[0..] == items;
    PrependNothing(MapAll(items, ObjectItem(f, notObject)));
    while i < |items|
      invariant 0 <= i <= |items|
      invariant MapAll(items, ObjectItem(f, notObject)) == Prepend(processed, MapAll(items[i..], ObjectItem(f, notObject)))
    {
      if !items[i].JObject? {
        return Err(DecodeError(notObject));
      }
      var item := f(items[i].fields);
      if item.Err? {
        return Err(item.error);
      }
      MapAllStep(items, i, ObjectItem(f, notObject));
      PrependPrepend(processed, [JObject(item.value)], MapAll(items[i + 1..], ObjectItem(f, notObject)));
      processed := processed + [JObject(item.value)];
      i := i + 1;
    }
    assert items[i..] == [];
    assert processed + [] == processed;
    return Ok(processed);
  }

  method PreProcessCameras(cameras: seq<Json>) returns (r: Result<seq<Json>, Failure>)
    ensures r == PreProcessEach(cameras, PreProcessCamera, "Expected camera to be an object")
  {
    r := PreProcessArray(cameras, PreProcessCamera, "Expected camera to be an object");
  }

  method PreProcessSceneObjects(sceneObjects: seq<Json>) returns (r: Result<seq<Json>, Failure>)
    ensures r == PreProcessEach(sceneObjects, PreProcessSceneObject, "Expected scene object to be an object")
  {
    r := PreProcessArray(sceneObjects, PreProcessSceneObject, "Expected scene object to be an object");
  }

  method PreProcessLights(lights: seq<Json>) returns (r: Result<seq<Json>, Failure>)
    ensures r == PreProcessEach(lights, PreProcessLight, "Expected light to be an object")
  {
    r := PreProcessArray(lights, PreProcessLight, "Expected light to be an object");
  }

  /** An array pre-processor keeps length and order and rewrites each element by `f`;
      it succeeds exactly when every element is an object that `f` accepts, and
      otherwise fails as its first element that is not. */
  lemma PreProcessEachSpec(items: seq<Json>, f: Object -> Result<Object, Failure>, notObject: string)
    ensures PreProcessEach(items, f, notObject).Ok? <==>
              forall i :: 0 <= i < |items| ==> items[i].JObject? && f(items[i].fields).Ok?
    ensures PreProcessEach(items, f, notObject).Ok? ==>
              var r := PreProcessEach(items, f, notObject).value;
              |r| == |items| && forall i :: 0 <= i < |items| ==> r[i] == JObject(f(items[i].fields).value)
    ensures PreProcessEach(items, f, notObject).Err? ==>
              exists k :: 0 <= k < |items| &&
                (forall j :: 0 <= j < k ==> items[j].JObject? && f(items[j].fields).Ok?) &&
                (if items[k].JObject?
                 then f(items[k].fields).Err? && PreProcessEach(items, f, notObject).error == f(items[k].fields).error
                 else PreProcessEach(items, f, notObject).error == DecodeError(notObject))
  {
    MapAllOk(items, ObjectItem(f, notObject));
    if PreProcessEach(items, f, notObject).Err? {
      MapAllFirstError(items, ObjectItem(f, notObject));
    }
  }

  // ---------------------------------------------------------------------------
  // The JSON branch of decode_with_context, up to deserialisation

  /** A present value under `key` must be an array, and each element is rewritten by `f`. */
  function ArrayField(scene: Object, key: string, f: Object -> Result<Object, Failure>, notArray: string, notObject: string)
    : (r: Result<Object, Failure>)
    ensures r.Ok? <==> (key in scene ==> scene[key].JArray? && PreProcessEach(scene[key].items, f, notObject).Ok?)
    ensures r.Err? && key in scene && !scene[key].JArray? ==> r.error == DecodeError(notArray)
    ensures r.Err? && key in scene && scene[key].JArray? ==> r.error == PreProcessEach(scene[key].items, f, notObject).error
    ensures r.Ok? ==> r.value.Keys == scene.Keys && forall k :: k in scene && k != key ==> r.value[k] == scene[k]
    ensures r.Ok? && key in scene ==> r.value[key] == JArray(PreProcessEach(scene[key].items, f, notObject).value)
  {
    if key !in scene then Ok(scene)
    else match scene[key]
      case JArray(items) =>
        var processed :- PreProcessEach(items, f, notObject);
        Ok(scene[key := JArray(processed)])
      case _ => Err(DecodeError(notArray))
  }

  /** A present `renderOptions` must be an object and is pre-processed in place. */
  function RenderOptionsField(scene: Object): (r: Result<Object, Failure>)
    ensures r.Ok? <==> ObjectIfPresent(scene, "renderOptions")
    ensures r.Err? ==> r.error == DecodeError("Expected render options to be an object")
    ensures r.Ok? ==> r.value.Keys == scene.Keys && forall k :: k in scene && k != "renderOptions" ==> r.value[k] == scene[k]
    ensures r.Ok? && "renderOptions" in scene ==>
              r.value["renderOptions"] == JObject(PreProcessRenderOptions(scene["renderOptions"].fields))
  {
    if "renderOptions" !in scene then Ok(scene)
    else match scene["renderOptions"]
      case JObject(ro) => Ok(scene["renderOptions" := JObject(PreProcessRenderOptions(ro))])
      case _ => Err(DecodeError("Expected render options to be an object"))
  }

  /** An absent `key` becomes the empty array; an existing value is kept. */
  function DefaultField(scene: Object, key: string): (r: Object)
    ensures r.Keys == scene.Keys + {key}
    ensures forall k :: k in scene ==> r[k] == scene[k]
    ensures key !in scene ==> r[key] == JArray([])
  {
    if key in scene then scene else scene[key := JArray([])]
  }

  function CamerasField(scene: Object): Result<Object, Failure> {
    ArrayField(scene, "cameras", PreProcessCamera, "Expected cameras to be an array", "Expected camera to be an object")
  }

  function SceneObjectsField(scene: Object): Result<Object, Failure> {
    ArrayField(scene, "sceneObjects", PreProcessSceneObject,
               "Expected sceneObjects to be an array", "Expected scene object to be an object")
  }

  function LightsField(scene: Object): Result<Object, Failure> {
    ArrayField(scene, "lights", PreProcessLight, "Expected lights to be an array", "Expected light to be an object")
  }

  /** The scene object handed to deserialisation. */
  function PreProcessScene(value: Json): Result<Object, Failure> {
    match value
    case JObject(scene) =>
      var s :- RenderOptionsField(scene);
      var s :- CamerasField(s);
      var s :- SceneObjectsField(s);
      var s :- LightsField(s);
      Ok(DefaultField(DefaultField(s, "lights"), "materials"))
    case _ => Err(DecodeError("Expected top level structure to be object"))
  }

  /** The value is an array whose elements are objects `f` all accepts. */
  predicate ArrayOf(v: Json, f: Object -> Result<Object, Failure>) {
    v.JArray? && forall i :: 0 <= i < |v.items| ==> v.items[i].JObject? && f(v.items[i].fields).Ok?
  }

  lemma ArrayFieldOkIff(scene: Object, key: string, f: Object -> Result<Object, Failure>, notArray: string, notObject: string)
    ensures ArrayField(scene, key, f, notArray, notObject).Ok? <==> (key in scene ==> ArrayOf(scene[key], f))
  {
    if key in scene && scene[key].JArray? {
      PreProcessEachSpec(scene[key].items, f, notObject);
    }
  }

  predicate CamerasOk(scene: Object) {
    "cameras" in scene ==> ArrayOf(scene["cameras"], PreProcessCamera)
  }

  predicate SceneObjectsOk(scene: Object) {
    "sceneObjects" in scene ==> ArrayOf(scene["sceneObjects"], PreProcessSceneObject)
  }

  predicate LightsOk(scene: Object) {
    "lights" in scene ==> ArrayOf(scene["lights"], PreProcessLight)
  }

  /** The conditions under which pre-processing a top-level object succeeds: render
      options, when present, are an object; cameras, scene objects and lights, when
      present, are arrays of objects each element rewrite accepts. */
  predicate Acceptable(scene: Object) {
    ObjectIfPresent(scene, "renderOptions") && CamerasOk(scene) && SceneObjectsOk(scene) && LightsOk(scene)
  }

  /** Pre-processing succeeds exactly on an acceptable top-level object. */
  lemma PreProcessSceneOkIff(value: Json)
    ensures PreProcessScene(value).Ok? <==> value.JObject? && Acceptable(value.fields)
    ensures !value.JObject? ==> PreProcessScene(value) == Err(DecodeError("Expected top level structure to be object"))
  {
    if value.JObject? {
      var s0 := value.fields;
      RenderOptionsStage(s0);
      if ObjectIfPresent(s0, "renderOptions") {
        var s1 := RenderOptionsField(s0).value;
        CamerasStage(s1);
        if CamerasOk(s1) {
          var s2 := CamerasField(s1).value;
          SceneObjectsStage(s2);
          if SceneObjectsOk(s2) {
            var s3 := SceneObjectsField(s2).value;
            LightsStage(s3);
          }
        }
      }
    }
  }

  /** Rewriting the render options leaves the array conditions as they were. */
  lemma RenderOptionsStage(s: Object)
    ensures RenderOptionsField(s).Ok? ==>
              var t := RenderOptionsField(s).value;
              CamerasOk(t) == CamerasOk(s) && SceneObjectsOk(t) == SceneObjectsOk(s) && LightsOk(t) == LightsOk(s)
  {
    if RenderOptionsField(s).Ok? {
      var t := RenderOptionsField(s).value;
      assert "cameras" in s ==> t["cameras"] == s["cameras"];
      assert "sceneObjects" in s ==> t["sceneObjects"] == s["sceneObjects"];
      assert "lights" in s ==> t["lights"] == s["lights"];
    }
  }

  /** The cameras stage succeeds exactly under the cameras condition and keeps the others. */
  lemma CamerasStage(s: Object)
    ensures CamerasField(s).Ok? <==> CamerasOk(s)
    ensures CamerasField(s).Ok? ==>
              var t := CamerasField(s).value;
              SceneObjectsOk(t) == SceneObjectsOk(s) && LightsOk(t) == LightsOk(s)
  {
    ArrayFieldOkIff(s, "cameras", PreProcessCamera, "Expected cameras to be an array", "Expected camera to be an object");
    if CamerasField(s).Ok? {
      var t := CamerasField(s).value;
      assert "sceneObjects" in s ==> t["sceneObjects"] == s["sceneObjects"];
      assert "lights" in s ==> t["lights"] == s["lights"];
    }
  }

  /** The scene objects stage succeeds exactly under its condition and keeps the lights one. */
  lemma SceneObjectsStage(s: Object)
    ensures SceneObjectsField(s).Ok? <==> SceneObjectsOk(s)
    ensures SceneObjectsField(s).Ok? ==> LightsOk(SceneObjectsField(s).value) == LightsOk(s)
  {
    ArrayFieldOkIff(s, "sceneObjects", PreProcessSceneObject,
                    "Expected sceneObjects to be an array", "Expected scene object to be an object");
    if SceneObjectsField(s).Ok? {
      var t := SceneObjectsField(s).value;
      assert "lights" in s ==> t["lights"] == s["lights"];
    }
  }

  /** The lights stage succeeds exactly under the lights condition. */
  lemma LightsStage(s: Object)
    ensures LightsField(s).Ok? <==> LightsOk(s)
  {
    ArrayFieldOkIff(s, "lights", PreProcessLight, "Expected lights to be an array", "Expected light to be an object");
  }

  /** The four stages of a successful pre-processing. */
  lemma PreProcessSceneStages(value: Json)
    requires PreProcessScene(value).Ok?
    ensures value.JObject?
    ensures RenderOptionsField(value.fields).Ok?
    ensures CamerasField(RenderOptionsField(value.fields).value).Ok?
    ensures SceneObjectsField(CamerasField(RenderOptionsField(value.fields).value).value).Ok?
    ensures LightsField(SceneObjectsField(CamerasField(RenderOptionsField(value.fields).value).value).value).Ok?
    ensures PreProcessScene(value).value ==
            DefaultField(DefaultField(LightsField(SceneObjectsField(CamerasField(RenderOptionsField(value.fields).value).value).value).value,
                                      "lights"), "materials")
  {
  }

  /** On success: `lights` and `materials` are always present, an absent one as `[]`;
      an existing `materials` is kept, and every key pre-processing does not rewrite
      is unchanged. */
  lemma PreProcessSceneDefaults(value: Json)
    requires PreProcessScene(value).Ok?
    ensures var scene := value.fields;
            var r := PreProcessScene(value).value;
            r.Keys == scene.Keys + {"lights", "materials"} &&
            (forall k :: k in scene && k != "renderOptions" && k != "cameras" && k != "sceneObjects" && k != "lights" ==>
                           r[k] == scene[k]) &&
            ("lights" !in scene ==> r["lights"] == JArray([])) &&
            ("materials" !in scene ==> r["materials"] == JArray([]))
  {
    PreProcessSceneStages(value);
    var s1 := RenderOptionsField(value.fields).value;
    var s2 := CamerasField(s1).value;
    var s3 := SceneObjectsField(s2).value;
    var s4 := LightsField(s3).value;
    assert "lights" in s4 <==> "lights" in value.fields;
  }

  /** On success the render options hold their rewrite. */
  lemma PreProcessSceneRenderOptions(value: Json)
    requires PreProcessScene(value).Ok? && "renderOptions" in value.fields
    ensures value.fields["renderOptions"].JObject?
    ensures "renderOptions" in PreProcessScene(value).value
    ensures PreProcessScene(value).value["renderOptions"] ==
            JObject(PreProcessRenderOptions(value.fields["renderOptions"].fields))
  {
    PreProcessSceneStages(value);
    var s1 := RenderOptionsField(value.fields).value;
    var s2 := CamerasField(s1).value;
    var s3 := SceneObjectsField(s2).value;
    var s4 := LightsField(s3).value;
    assert s4["renderOptions"] == s1["renderOptions"];
  }

  /** On success the cameras hold their element-wise rewrite. */
  lemma PreProcessSceneCameras(value: Json)
    requires PreProcessScene(value).Ok? && "cameras" in value.fields
    ensures value.fields["cameras"].JArray?
    ensures PreProcessEach(value.fields["cameras"].items, PreProcessCamera, "Expected camera to be an object").Ok?
    ensures "cameras" in PreProcessScene(value).value
    ensures PreProcessScene(value).value["cameras"] ==
            JArray(PreProcessEach(value.fields["cameras"].items, PreProcessCamera, "Expected camera to be an object").value)
  {
    PreProcessSceneStages(value);
    var s1 := RenderOptionsField(value.fields).value;
    assert s1["cameras"] == value.fields["cameras"];
    var s2 := CamerasField(s1).value;
    var s3 := SceneObjectsField(s2).value;
    var s4 := LightsField(s3).value;
    assert s4["cameras"] == s2["cameras"];
  }

  /** On success the scene objects hold their element-wise rewrite. */
  lemma PreProcessSceneSceneObjects(value: Json)
    requires PreProcessScene(value).Ok? && "sceneObjects" in value.fields
    ensures value.fields["sceneObjects"].JArray?
    ensures PreProcessEach(value.fields["sceneObjects"].items, PreProcessSceneObject, "Expected scene object to be an object").Ok?
    ensures "sceneObjects" in PreProcessScene(value).value
    ensures PreProcessScene(value).value["sceneObjects"] ==
            JArray(PreProcessEach(value.fields["sceneObjects"].items, PreProcessSceneObject, "Expected scene object to be an object").value)
  {
    PreProcessSceneStages(value);
    var s1 := RenderOptionsField(value.fields).value;
    var s2 := CamerasField(s1).value;
    assert s2["sceneObjects"] == value.fields["sceneObjects"];
    var s3 := SceneObjectsField(s2).value;
    var s4 := LightsField(s3).value;
    assert s4["sceneObjects"] == s3["sceneObjects"];
  }

  /** On success the lights, when present, hold their element-wise rewrite. */
  lemma PreProcessSceneLights(value: Json)
    requires PreProcessScene(value).Ok? && "lights" in value.fields
    ensures value.fields["lights"].JArray?
    ensures PreProcessEach(value.fields["lights"].items, PreProcessLight, "Expected light to be an object").Ok?
    ensures "lights" in PreProcessScene(value).value
    ensures PreProcessScene(value).value["lights"] ==
            JArray(PreProcessEach(value.fields["lights"].items, PreProcessLight, "Expected light to be an object").value)
  {
    PreProcessSceneStages(value);
    var s1 := RenderOptionsField(value.fields).value;
    var s2 := CamerasField(s1).value;
    var s3 := SceneObjectsField(s2).value;
    assert s3["lights"] == value.fields["lights"];
  }

  /** The `renderOptions` block of `decode_with_context`. */
  method RenderOptionsStep(scene: Object) returns (r: Result<Object, Failure>)
    ensures r == RenderOptionsField(scene)
  {
    if "renderOptions" in scene {
      if !scene["renderOptions"].JObject? {
        return Err(DecodeError("Expected render options to be an object"));
      }
      return Ok(scene["renderOptions" := JObject(PreProcessRenderOptions(scene["renderOptions"].fields))]);
    }
    return Ok(scene);
  }

  /** The `cameras` block of `decode_with_context`. */
  method CamerasStep(scene: Object) returns (r: Result<Object, Failure>)
    ensures r == CamerasField(scene)
  {
    if "cameras" in scene {
      if !scene["cameras"].JArray? {
        return Err(DecodeError("Expected cameras to be an array"));
      }
      var cameras := PreProcessCameras(scene["cameras"].items);
      if cameras.Err? {
        return Err(cameras.error);
      }
      return Ok(scene["cameras" := JArray(cameras.value)]);
    }
    return Ok(scene);
  }

  /** The `sceneObjects` block of `decode_with_context`. */
  method SceneObjectsStep(scene: Object) returns (r: Result<Object, Failure>)
    ensures r == SceneObjectsField(scene)
  {
    if "sceneObjects" in scene {
      if !scene["sceneObjects"].JArray? {
        return Err(DecodeError("Expected sceneObjects to be an array"));
      }
      var sceneObjects := PreProcessSceneObjects(scene["sceneObjects"].items);
      if sceneObjects.Err? {
        return Err(sceneObjects.error);
      }
      return Ok(scene["sceneObjects" := JArray(sceneObjects.value)]);
    }
    return Ok(scene);
  }

  /** The `lights` block of `decode_with_context`, including the empty default. */
  method LightsStep(scene: Object) returns (r: Result<Object, Failure>)
    ensures r.Err? <==> LightsField(scene).Err?
    ensures r.Err? ==> r.error == LightsField(scene).error
    ensures r.Ok? ==> r.value == DefaultField(LightsField(scene).value, "lights")
  {
    if "lights" in scene {
      if !scene["lights"].JArray? {
        return Err(DecodeError("Expected lights to be an array"));
      }
      var lights := PreProcessLights(scene["lights"].items);
      if lights.Err? {
        return Err(lights.error);
      }
      return Ok(scene["lights" := JArray(lights.value)]);
    }
    return Ok(scene["lights" := JArray([])]);
  }

  /** `decode_with_context` up to deserialisation: the scene map is updated key by key. */
  method PreProcessSceneMap(value: Json) returns (r: Result<Object, Failure>)
    ensures r == PreProcessScene(value)
  {
    if !value.JObject? {
      return Err(DecodeError("Expected top level structure to be object"));
    }
    var scene := value.fields;
    var step := RenderOptionsStep(scene);
    if step.Err? {
      return Err(step.error);
    }
    scene := step.value;
    step := CamerasStep(scene);
    if step.Err? {
      return Err(step.error);
    }
    scene := step.value;
    step := SceneObjectsStep(scene);
    if step.Err? {
      return Err(step.error);
    }
    scene := step.value;
    step := LightsStep(scene);
    if step.Err? {
      return Err(step.error);
    }
    scene := step.value;
    if "materials" !in scene {
      scene := scene["materials" := JArray([])];
    }
    return Ok(scene);
  }
}
