/** The JSON branch of the Rust library's `decode_with_context`: pre-processing,
    deserialisation into the typed scene, and the post-processing that resolves and
    loads meshed objects. */
module SceneDecode {
  import opened Wrappers
  import opened SceneIOErrors
  import opened JsonValues
  import opened JsonPreProcessing
  import opened ObjReader

  // ---------------------------------------------------------------------------
  // The typed scene, as far as post-processing looks at it

  datatype MeshedObject = MeshedObject(reference: string, obj: Option<MeshGeometry>)

  /** The `mesh` one-of of a scene object; only a meshed object carries data here. */
  datatype Mesh = SphereMesh | CubeMesh | PlaneMesh | DiskMesh | MeshedObjectMesh(meshedObject: MeshedObject)

  datatype DecodedSceneObject = DecodedSceneObject(id: int, mesh: Option<Mesh>)

  datatype DecodedScene = DecodedScene(version: int, sceneObjects: seq<DecodedSceneObject>)

  /** What decoding needs from outside: joining a directory and a reference into a
      path (`None` when the result is not valid text), opening a file as its lines,
      and number parsing. */
  datatype Host = Host(
    join: (string, string) -> Option<string>,
    open: string -> Result<seq<Option<string>>, string>,
    parsers: Parsers)

  // ---------------------------------------------------------------------------
  // post_process_scene_object, post_process_scene

  const MissingMesh := "Expected scene object to contain mesh"
  const JoinFailed := "Failed to join reference path with context"

  /** Every object must have a mesh. With a context directory, a meshed object with a
      non-empty reference gets its reference joined to that directory and its
      geometry read from the joined path; any other object is returned as it was. */
  function PostProcessSceneObject(sceneObject: DecodedSceneObject, context: Option<string>, host: Host)
    : (r: Result<DecodedSceneObject, Failure>)
    ensures r.Ok? ==> r.value.id == sceneObject.id && r.value.mesh.Some?
    ensures sceneObject.mesh.None? ==> r == Err(Raised(FailedToDecode(MissingMesh)))
    ensures sceneObject.mesh.Some? && !sceneObject.mesh.value.MeshedObjectMesh? ==> r == Ok(sceneObject)
    ensures sceneObject.mesh.Some? && context.None? ==> r == Ok(sceneObject)
    ensures sceneObject.mesh.Some? && sceneObject.mesh.value.MeshedObjectMesh? &&
            sceneObject.mesh.value.meshedObject.reference == "" ==>
              r == Ok(sceneObject)
    ensures sceneObject.mesh.Some? && sceneObject.mesh.value.MeshedObjectMesh? && context.Some? &&
            sceneObject.mesh.value.meshedObject.reference != "" &&
            host.join(context.value, sceneObject.mesh.value.meshedObject.reference).None? ==>
              r == Err(Raised(FailedToDecode(JoinFailed)))
  {
    match sceneObject.mesh
    case None => Err(Raised(FailedToDecode(MissingMesh)))
    case Some(MeshedObjectMesh(meshed)) =>
      if context.Some? && meshed.reference != "" then
        match host.join(context.value, meshed.reference)
        case None => Err(Raised(FailedToDecode(JoinFailed)))
        case Some(path) =>
          var geometry :- ObjFile(path, host.open, host.parsers);
          Ok(sceneObject.(mesh := Some(MeshedObjectMesh(MeshedObject(path, Some(geometry))))))
      else Ok(sceneObject)
    case Some(_) => Ok(sceneObject)
  }

  function ObjectPostProcessor(context: Option<string>, host: Host): DecodedSceneObject -> Result<DecodedSceneObject, Failure> {
    o => PostProcessSceneObject(o, context, host)
  }

  function PostProcessedScene(scene: DecodedScene, context: Option<string>, host: Host): Result<DecodedScene, Failure> {
    var objects :- MapAll(scene.sceneObjects, ObjectPostProcessor(context, host));
    Ok(scene.(sceneObjects := objects))
  }

  /** `post_process_scene`: the (cloned) scene's objects are replaced one by one. */
  method PostProcessScene(scene: DecodedScene, context: Option<string>, host: Host) returns (r: Result<DecodedScene, Failure>)
    ensures r == PostProcessedScene(scene, context, host)
  {
    var sceneObjects := scene.sceneObjects;
    var i := 0;
    assert scene.sceneObjects[0..] == scene.sceneObjects;
    PrependNothing(MapAll(scene.sceneObjects, ObjectPostProcessor(context, host)));
    while i < |sceneObjects|
      invariant 0 <= i <= |sceneObjects| == |scene.sceneObjects|
      invariant sceneObjects[i..] == scene.sceneObjects[i..]
      invariant MapAll(scene.sceneObjects, ObjectPostProcessor(context, host)) ==
                Prepend(sceneObjects[..i], MapAll(scene.sceneObjects[i..], ObjectPostProcessor(context, host)))
    {
      var processed := PostProcessSceneObject(sceneObjects[i], context, host);
      if processed.Err? {
        assert scene.sceneObjects[i] == sceneObjects[i];
        return Err(processed.error);
      }
      assert scene.sceneObjects[i] == sceneObjects[i];
      MapAllStep(scene.sceneObjects, i, ObjectPostProcessor(context, host));
      PrependPrepend(sceneObjects[..i], [processed.value], MapAll(scene.sceneObjects[i + 1..], ObjectPostProcessor(context, host)));
      ghost var before := sceneObjects;
      sceneObjects := sceneObjects[i := processed.value];
      assert sceneObjects[..i + 1] == before[..i] + [processed.value];
      assert sceneObjects[i + 1..] == before[i + 1..];
      i := i + 1;
    }
    assert scene.sceneObjects[i..] == [];
    assert sceneObjects[..i] == sceneObjects;
    assert sceneObjects + [] == sceneObjects;
    return Ok(scene.(sceneObjects := sceneObjects));
  }

  /** Post-processing keeps the number and order of the scene objects and their ids,
      and leaves every object with a mesh; it succeeds exactly when every object does,
      and otherwise fails as the first object that does not. */
  lemma PostProcessedSceneSpec(scene: DecodedScene, context: Option<string>, host: Host)
    ensures PostProcessedScene(scene, context, host).Ok? <==>
              forall i :: 0 <= i < |scene.sceneObjects| ==> PostProcessSceneObject(scene.sceneObjects[i], context, host).Ok?
    ensures PostProcessedScene(scene, context, host).Ok? ==>
              var r := PostProcessedScene(scene, context, host).value;
              r.version == scene.version && |r.sceneObjects| == |scene.sceneObjects| &&
              forall i :: 0 <= i < |scene.sceneObjects| ==>
                r.sceneObjects[i].id == scene.sceneObjects[i].id && r.sceneObjects[i].mesh.Some? &&
                PostProcessSceneObject(scene.sceneObjects[i], context, host) == Ok(r.sceneObjects[i])
    ensures PostProcessedScene(scene, context, host).Err? ==>
              exists k :: 0 <= k < |scene.sceneObjects| &&
                (forall j :: 0 <= j < k ==> PostProcessSceneObject(scene.sceneObjects[j], context, host).Ok?) &&
                PostProcessSceneObject(scene.sceneObjects[k], context, host) == Err(PostProcessedScene(scene, context, host).error)
  {
    MapAllOk(scene.sceneObjects, ObjectPostProcessor(context, host));
    if PostProcessedScene(scene, context, host).Err? {
      MapAllFirstError(scene.sceneObjects, ObjectPostProcessor(context, host));
    }
  }

  /** Without a context directory nothing is read: a scene whose objects all have a
      mesh comes back unchanged, and any other fails on a missing mesh. */
  lemma PostProcessedSceneWithoutContext(scene: DecodedScene, host: Host)
    ensures (forall i :: 0 <= i < |scene.sceneObjects| ==> scene.sceneObjects[i].mesh.Some?) ==>
              PostProcessedScene(scene, None, host) == Ok(scene)
    ensures (exists i :: 0 <= i < |scene.sceneObjects| && scene.sceneObjects[i].mesh.None?) ==>
              PostProcessedScene(scene, None, host) == Err(Raised(FailedToDecode(MissingMesh)))
  {
    PostProcessedSceneSpec(scene, None, host);
    if PostProcessedScene(scene, None, host).Ok? {
      var r := PostProcessedScene(scene, None, host).value;
      forall i | 0 <= i < |scene.sceneObjects|
        ensures r.sceneObjects[i] == scene.sceneObjects[i]
      {
        assert PostProcessSceneObject(scene.sceneObjects[i], None, host) == Ok(r.sceneObjects[i]);
      }
      assert r.sceneObjects == scene.sceneObjects;
    } else {
      var k :| 0 <= k < |scene.sceneObjects| &&
               (forall j :: 0 <= j < k ==> PostProcessSceneObject(scene.sceneObjects[j], None, host).Ok?) &&
               PostProcessSceneObject(scene.sceneObjects[k], None, host) == Err(PostProcessedScene(scene, None, host).error);
      assert scene.sceneObjects[k].mesh.None?;
    }
  }

  /** A meshed object with a reference, under a context directory, ends up with the
      joined path as its reference and the geometry read from that path. */
  lemma MeshedObjectResolved(sceneObject: DecodedSceneObject, context: string, host: Host, path: string)
    requires sceneObject.mesh.Some? && sceneObject.mesh.value.MeshedObjectMesh?
    requires sceneObject.mesh.value.meshedObject.reference != ""
    requires host.join(context, sceneObject.mesh.value.meshedObject.reference) == Some(path)
    ensures ObjFile(path, host.open, host.parsers).Ok? ==>
              PostProcessSceneObject(sceneObject, Some(context), host) ==
                Ok(DecodedSceneObject(sceneObject.id,
                                      Some(MeshedObjectMesh(MeshedObject(path, Some(ObjFile(path, host.open, host.parsers).value))))))
    ensures ObjFile(path, host.open, host.parsers).Err? ==>
              PostProcessSceneObject(sceneObject, Some(context), host) == Err(ObjFile(path, host.open, host.parsers).error)
  {
  }

  // ---------------------------------------------------------------------------
  // decode_with_context, JSON branch

  const InvalidJson := "expected json to be valid"

  /** Pre-process, deserialise (`None` when the rewritten JSON does not fit the typed
      scene: the source's `expect` panics), then post-process. */
  function DecodedJson(value: Json, deserialize: Object -> Option<DecodedScene>, context: Option<string>, host: Host)
    : Result<DecodedScene, Failure>
  {
    var prepared :- PreProcessScene(value);
    match deserialize(prepared)
    case None => Err(Panicked(InvalidJson))
    case Some(scene) => PostProcessedScene(scene, context, host)
  }

  method DecodeWithContext(value: Json, deserialize: Object -> Option<DecodedScene>, context: Option<string>, host: Host)
    returns (r: Result<DecodedScene, Failure>)
    ensures r == DecodedJson(value, deserialize, context, host)
  {
    var prepared := PreProcessSceneMap(value);
    if prepared.Err? {
      return Err(prepared.error);
    }
    var scene := deserialize(prepared.value);
    if scene.None? {
      return Err(Panicked(InvalidJson));
    }
    r := PostProcessScene(scene.value, context, host);
  }

  /** A decoded scene comes from a well-shaped document whose deserialisation
      succeeded, and every one of its objects has a mesh. */
  lemma DecodedJsonSpec(value: Json, deserialize: Object -> Option<DecodedScene>, context: Option<string>, host: Host)
    ensures !value.JObject? ==>
              DecodedJson(value, deserialize, context, host) == Err(Raised(FailedToDecode("Expected top level structure to be object")))
    ensures DecodedJson(value, deserialize, context, host).Ok? ==>
              PreProcessScene(value).Ok? && deserialize(PreProcessScene(value).value).Some? &&
              var r := DecodedJson(value, deserialize, context, host).value;
              |r.sceneObjects| == |deserialize(PreProcessScene(value).value).value.sceneObjects| &&
              forall i :: 0 <= i < |r.sceneObjects| ==> r.sceneObjects[i].mesh.Some?
  {
    PreProcessSceneOkIff(value);
    if PreProcessScene(value).Ok? && deserialize(PreProcessScene(value).value).Some? {
      PostProcessedSceneSpec(deserialize(PreProcessScene(value).value).value, context, host);
    }
  }

  /** Without a context directory the result does not depend on the file system. */
  lemma DecodedJsonWithoutContextReadsNothing(value: Json, deserialize: Object -> Option<DecodedScene>, host: Host, other: Host)
    ensures DecodedJson(value, deserialize, None, host) == DecodedJson(value, deserialize, None, other)
  {
    if PreProcessScene(value).Ok? && deserialize(PreProcessScene(value).value).Some? {
      var scene := deserialize(PreProcessScene(value).value).value;
      PostProcessedSceneWithoutContext(scene, host);
      PostProcessedSceneWithoutContext(scene, other);
    }
  }
}
