# Scene format post-processing, in Dafny

This project models the logic the scene-format libraries run around their codecs, and proves properties of that model:

- **The C# scene normaliser and validator** (`ScenePostProcessing`).
  - `PostProcess` fills unset or zero fields of a decoded scene with fixed defaults, in place.
  - `Validate` is a fail-fast checker. It throws on the first rule a scene breaks: the version, the render options, ids, the parent of each transform, scale, radii, sizes, field of view, colours and materials.
- **The JSON branch of the Rust library's `decode_with_context`.**
  - A tree rewrite over the decoded JSON object: it supplies missing keys, moves geometry and light variants under their wrapper keys, and rejects ill-shaped values.
  - Deserialisation into the typed scene.
  - `post_process_scene`, which requires a mesh on every object and loads the geometry of meshed objects.
- **The Wavefront OBJ reader of the Rust library** (`read_obj_file`). It dispatches each line on its first token and parses vertices, normals and faces.

Modules:

| module | file | what it holds |
|---|---|---|
| `Wrappers` | `wrappers.dfy` | `Option`, `Result`, and `MapAll`, which maps a fallible function over a sequence and stops at the first error |
| `Strings` | `strings.dfy` | splitting on a separator character, as Rust's `str::split` does, with lemmas that characterise it: joining the parts gives back the text (`JoinSplit`), splitting a join of separator-free parts gives back the parts (`SplitJoin`), and there is one part more than there are separators (`SplitCount`) |
| `SceneModel` | `scene_model.dfy` | the C# scene: a `Scene` class whose fields the methods update, and value types for its messages |
| `SceneDefaults` | `scene_defaults.dfy` | what `PostProcess` does, as a function `Normalize`, and two predicates that characterise it |
| `SceneRules` | `scene_rules.dfy` | the checks of `Validate`, as outcome functions in the source's order |
| `SceneValidity` | `scene_validity.dfy` | an order-free definition of a valid scene, proved equivalent to the fail-fast outcome, and the source's quirks |
| `ScenePostProcessing` | `scene_post_processing.dfy` | the C# methods, proved against `SceneDefaults` and `SceneRules` |
| `SceneIOErrors` | `scene_io_error.dfy` | the Rust error enum, plus panics as a second kind of failure |
| `JsonValues` | `json.dfy` | JSON values |
| `JsonPreProcessing` | `json_pre_processing.dfy` | `pre_process_*` and the key checks of `decode_with_context` |
| `ObjReader` | `obj_reader.dfy` | `read_obj_file` over given lines, `parse_vertex`, `parse_vertex_normal`, `parse_face`, `parse_face_element` |
| `SceneDecode` | `scene_decode.dfy` | `post_process_scene_object`, `post_process_scene`, and the JSON branch of `decode_with_context` |

Each loop in the source is a `method` with a `while` loop. It is proved equal to a specification function, and that function's properties are proved as lemmas:

- the `PostProcess*` and `Validate*` methods and the `Find*ById` scans;
- the array pre-processors;
- `post_process_scene`;
- `parse_face`;
- the OBJ line loop.

Failures are modelled as follows:

- A C# exception is an `Outcome.Fail` carrying the error. The error records whether the source throws `SceneIOException`, a plain `Exception` or, through a null message, a `NullReferenceException`.
- A Rust `Err` is `Raised(error)`.
- A Rust panic is `Panicked(reason)`. This covers an index out of bounds and a failing `expect`.

## Model

| member | source | states |
|---|---|---|
| SceneDefaults.NormalizeTransform | csharp/SceneFormat/SceneFormat/ScenePostProcessing.cs:219-229 | a null transform becomes an empty one; an unset position or rotation becomes (0,0,0) and an unset scale (1,1,1); set vectors and the parent id are kept; all three vectors end up set |
| SceneDefaults.NormalizeMesh | csharp/SceneFormat/SceneFormat/ScenePostProcessing.cs:68-108 | a cube's unset size becomes (1,1,1); a disk or sphere radius of 0 becomes 1; non-zero values and every other geometry are kept |
| SceneDefaults.NormalizeSceneObject | csharp/SceneFormat/SceneFormat/ScenePostProcessing.cs:60-82 | id and material kept; the transform and geometry are defaulted as above, and nothing defaultable is left unset |
| SceneDefaults.NormalizeLight | csharp/SceneFormat/SceneFormat/ScenePostProcessing.cs:118-145 | id kept; the transform is defaulted; an unset colour becomes (1,1,1); a light-sphere radius of 0 becomes 1 |
| SceneDefaults.NormalizeCamera | csharp/SceneFormat/SceneFormat/ScenePostProcessing.cs:155-175 | id kept; the transform is defaulted; a perspective field of view of 0 becomes 60; other projections are kept |
| SceneDefaults.NormalizeMaterial | csharp/SceneFormat/SceneFormat/ScenePostProcessing.cs:203-217 | id kept; a specular-reflection eta of 0 becomes 1.5; every other material kind is kept |
| SceneDefaults.NormalizeRenderOptions | csharp/SceneFormat/SceneFormat/ScenePostProcessing.cs:177-193 | absent render options stay absent; camera id 0 becomes 1, width 0 becomes 640, height 0 becomes 320; non-zero values are kept, so the result has none of them 0 |
| SceneDefaults.NormalizeFillsAndCompletes | csharp/SceneFormat/SceneFormat/ScenePostProcessing.cs:17-50 | the normalised scene keeps the length and order of every collection; each entity is its counterpart with only unset fields defaulted; version 0 becomes 1; nothing defaultable is left unset |
| SceneDefaults.TransformDetermined | csharp/SceneFormat/SceneFormat/ScenePostProcessing.cs:219-229 | any transform that is "kept or defaulted" and complete is exactly the normalised transform |
| SceneDefaults.SceneObjectDetermined | csharp/SceneFormat/SceneFormat/ScenePostProcessing.cs:60-108 | the same uniqueness for scene objects |
| SceneDefaults.LightDetermined | csharp/SceneFormat/SceneFormat/ScenePostProcessing.cs:118-145 | the same uniqueness for lights |
| SceneDefaults.CameraDetermined | csharp/SceneFormat/SceneFormat/ScenePostProcessing.cs:155-175 | the same uniqueness for cameras |
| SceneDefaults.NormalizeCharacterised | csharp/SceneFormat/SceneFormat/ScenePostProcessing.cs:17-50 | a scene is the normalisation of another exactly when it fills it (kept or defaulted field by field) and has nothing defaultable unset |
| SceneDefaults.NormalizeFixesNormalized | csharp/SceneFormat/SceneFormat/ScenePostProcessing.cs:17-50 | a scene with nothing defaultable unset is left unchanged |
| SceneDefaults.NormalizeIdempotent | csharp/SceneFormat/SceneFormat/ScenePostProcessing.cs:17-50 | a second `PostProcess` changes nothing |
| SceneRules.ColorOutcome | csharp/SceneFormat/SceneFormat/ScenePostProcessing.cs:505-511 | passes exactly when every channel is non-negative; otherwise fails with the negative-colour error |
| SceneRules.MaterialOutcome | csharp/SceneFormat/SceneFormat/ScenePostProcessing.cs:485-503 | passes exactly on a valid material (only a Lambert reflection is checked: its colour must be set and non-negative); the missing-colour error names the material id when it is non-empty; every failure is a `SceneIOException` |
| SceneRules.TransformOutcome | csharp/SceneFormat/SceneFormat/ScenePostProcessing.cs:459-475 | passes exactly when the parent id is 0, or names some object, camera or light and the scale is set and non-negative; an unset scale under a non-zero parent id fails on the null dereference |
| SceneValidity.ObjectsOutcomePassIff | csharp/SceneFormat/SceneFormat/ScenePostProcessing.cs:284-383 | the scene-object checks pass exactly when every object has a positive id unused by cameras and lights, the ids are distinct, and each object's transform, material reference, inline material and geometry rules hold |
| SceneValidity.LightsOutcomePassIff | csharp/SceneFormat/SceneFormat/ScenePostProcessing.cs:385-425 | the light checks pass exactly when each light has a positive id unused by cameras, a valid transform and colour, and no scale; distinctness is not required |
| SceneValidity.CamerasOutcomePassIff | csharp/SceneFormat/SceneFormat/ScenePostProcessing.cs:427-457 | the camera checks pass exactly when camera ids are distinct, a set transform is valid and has no scale, and a perspective field of view lies in (0, 180) |
| SceneValidity.MaterialsOutcomePassIff | csharp/SceneFormat/SceneFormat/ScenePostProcessing.cs:477-503 | the material checks pass exactly when every material is valid |
| SceneValidity.ValidationPassIff | csharp/SceneFormat/SceneFormat/ScenePostProcessing.cs:231-264 | the fail-fast validation passes exactly on scenes satisfying every rule at once: version 1, render options referencing a camera with positive width and height, and the object, light, camera and material rules |
| SceneValidity.ObjectsNoNullDereference | csharp/SceneFormat/SceneFormat/ScenePostProcessing.cs:337-361 | when every object has its transform and defaults filled, the scene-object checks never dereference a null message |
| SceneValidity.LightsNoNullDereference | csharp/SceneFormat/SceneFormat/ScenePostProcessing.cs:409-425 | the same for lights, whose scale test reads the transform without a null check |
| SceneValidity.CamerasNoNullDereference | csharp/SceneFormat/SceneFormat/ScenePostProcessing.cs:427-457 | the same for cameras |
| SceneValidity.MaterialsNoNullDereference | csharp/SceneFormat/SceneFormat/ScenePostProcessing.cs:477-503 | the same for materials |
| SceneValidity.NormalizedNoNullDereference | csharp/SceneFormat/SceneFormat/ScenePostProcessing.cs:231-264 | validating a scene with nothing defaultable unset never fails on a null dereference |
| SceneValidity.PostProcessedNoNullDereference | csharp/SceneFormat/SceneFormat/ScenePostProcessing.cs:12-15 | post-process-then-validate only fails with an exception the source throws on purpose, never a `NullReferenceException` |
| SceneValidity.SuppliedScaleIsUnit | csharp/SceneFormat/SceneFormat/ScenePostProcessing.cs:219-229 | a scale post-processing supplies is (1,1,1), which `HasScale` does not flag |
| SceneValidity.UnsetObjectScaleAccepted | csharp/SceneFormat/SceneFormat/ScenePostProcessing.cs:337-361 | a sphere or cube whose scale was unset is never rejected for scale after post-processing |
| SceneValidity.UnsetLightScaleAccepted | csharp/SceneFormat/SceneFormat/ScenePostProcessing.cs:421-424 | a light whose scale was unset is never rejected for scale after post-processing |
| SceneValidity.UnsetCameraScaleAccepted | csharp/SceneFormat/SceneFormat/ScenePostProcessing.cs:439-447 | a camera whose scale was unset is never rejected for scale after post-processing |
| SceneValidity.DuplicateLightIdsAccepted | csharp/SceneFormat/SceneFormat/ScenePostProcessing.cs:385-407 | a scene with two lights of the same id passes validation: the duplicate-light set is never filled |
| SceneValidity.ObjectsReachCollision | csharp/SceneFormat/SceneFormat/ScenePostProcessing.cs:288-310 | once the objects before position k pass with distinct fresh ids, the loop fails at object k with its camera collision, or else its light collision |
| SceneValidity.ObjectIdCollisionIsPlainException | csharp/SceneFormat/SceneFormat/ScenePostProcessing.cs:301-310 | in a scene that passes the version and render-options checks, an object whose earlier objects all pass with distinct ids, and whose positive id a camera or a light uses, makes validation fail with that collision, a plain `Exception` rather than a `SceneIOException` |
| SceneValidity.LightsReachCollision | csharp/SceneFormat/SceneFormat/ScenePostProcessing.cs:388-405 | once the lights before position k pass, the loop fails at light k when a camera uses its positive id |
| SceneValidity.LightIdCollisionIsPlainException | csharp/SceneFormat/SceneFormat/ScenePostProcessing.cs:400-403 | in a scene that passes the version, render-options and object checks, a light whose earlier lights all pass, and whose positive id a camera uses, makes validation fail with that collision, a plain `Exception` |
| SceneValidity.FovRange | csharp/SceneFormat/SceneFormat/ScenePostProcessing.cs:449-455 | a scene holding only one perspective camera without a transform passes after post-processing exactly when its field of view is 0 (it becomes 60) or lies strictly between 0 and 180 |
| SceneValidity.NormalizedFovRange | csharp/SceneFormat/SceneFormat/ScenePostProcessing.cs:449-455 | for any perspective camera whose normalised transform passes its checks and has no scale, the camera's checks after post-processing pass exactly when the field of view is 0 or strictly between 0 and 180, and otherwise fail with the field-of-view error |
| ScenePostProcessing.PostProcess | csharp/SceneFormat/SceneFormat/ScenePostProcessing.cs:17-50 | the scene's new state is the normalisation of its old state |
| ScenePostProcessing.PostProcessSceneObjects | csharp/SceneFormat/SceneFormat/ScenePostProcessing.cs:52-58 | every scene object is replaced by its normalisation, in place and in order; the other fields are unchanged |
| ScenePostProcessing.PostProcessLights | csharp/SceneFormat/SceneFormat/ScenePostProcessing.cs:110-116 | every light is normalised in place; the other fields are unchanged |
| ScenePostProcessing.PostProcessCameras | csharp/SceneFormat/SceneFormat/ScenePostProcessing.cs:147-153 | every camera is normalised in place; the other fields are unchanged |
| ScenePostProcessing.PostProcessMaterials | csharp/SceneFormat/SceneFormat/ScenePostProcessing.cs:195-201 | every material is normalised in place; the other fields are unchanged |
| ScenePostProcessing.FindCameraById | csharp/SceneFormat/SceneFormat/ScenePostProcessing.cs:513-524 | finds a camera exactly when some camera has the id, and then returns the first such camera |
| ScenePostProcessing.FindLightById | csharp/SceneFormat/SceneFormat/ScenePostProcessing.cs:526-537 | the same for lights |
| ScenePostProcessing.FindSceneObjectById | csharp/SceneFormat/SceneFormat/ScenePostProcessing.cs:539-550 | the same for scene objects |
| ScenePostProcessing.FindMaterialById | csharp/SceneFormat/SceneFormat/ScenePostProcessing.cs:552-563 | the same for materials, by string id |
| ScenePostProcessing.Validate | csharp/SceneFormat/SceneFormat/ScenePostProcessing.cs:231-264 | changes nothing and returns the fail-fast outcome, which passes exactly on valid scenes |
| ScenePostProcessing.PostProcessAndValidate | csharp/SceneFormat/SceneFormat/ScenePostProcessing.cs:12-15 | leaves the scene normalised and returns the validation outcome of the normalised scene |
| ScenePostProcessing.ValidateRenderOptions | csharp/SceneFormat/SceneFormat/ScenePostProcessing.cs:266-282 | fails when no camera has the referenced id, then on a non-positive width, then on a non-positive height |
| ScenePostProcessing.ValidateSceneObjects | csharp/SceneFormat/SceneFormat/ScenePostProcessing.cs:284-315 | the loop with its set of seen ids returns the outcome of the object checks over the whole list |
| ScenePostProcessing.ValidateSceneObject | csharp/SceneFormat/SceneFormat/ScenePostProcessing.cs:317-383 | returns the outcome of one object's rules in the source's order (transform, material reference, inline material, sphere, cube, disk, meshed object) |
| ScenePostProcessing.ValidateLights | csharp/SceneFormat/SceneFormat/ScenePostProcessing.cs:385-407 | returns the outcome of the light checks over the whole list |
| ScenePostProcessing.ValidateLight | csharp/SceneFormat/SceneFormat/ScenePostProcessing.cs:409-425 | returns the outcome of one light's transform, colour and scale rules |
| ScenePostProcessing.ValidateCameras | csharp/SceneFormat/SceneFormat/ScenePostProcessing.cs:427-457 | the loop with its set of seen ids returns the outcome of the camera checks |
| ScenePostProcessing.ValidateTransform | csharp/SceneFormat/SceneFormat/ScenePostProcessing.cs:459-475 | returns the transform outcome: a parent id of 0 passes, otherwise the parent must exist and the scale must be non-negative |
| ScenePostProcessing.ValidateMaterials | csharp/SceneFormat/SceneFormat/ScenePostProcessing.cs:477-483 | returns the outcome of the material checks over the whole list |
| JsonPreProcessing.PreProcessTransform | rust/src/lib.rs:349-357 | the integer `parentId: 0` is added exactly when it is absent; every existing key keeps its value |
| JsonPreProcessing.PreProcessRenderOptions | rust/src/lib.rs:128-136 | `customProperties: []` is added exactly when it is absent; every existing key keeps its value |
| JsonPreProcessing.PreProcessTransformIdempotent | rust/src/lib.rs:349-357 | a second `pre_process_transform` changes nothing, unlike the light rewrite |
| JsonPreProcessing.PreProcessRenderOptionsIdempotent | rust/src/lib.rs:128-136 | a second `pre_process_render_options` changes nothing |
| JsonPreProcessing.TransformField | rust/src/lib.rs:153-166 | succeeds exactly when `transform` is absent or an object; the error names the transform; on success only `transform` is rewritten, by `pre_process_transform` |
| JsonPreProcessing.Wrap | rust/src/lib.rs:196-209 | succeeds exactly when the key is absent or an object; an absent key changes nothing; a present one is copied alone into a new object under the wrapper key |
| JsonPreProcessing.WrapAllShape | rust/src/lib.rs:184-271 | a sequence of wrapping steps succeeds exactly when every key it reads is absent or an object, and otherwise fails as the first ill-shaped key |
| JsonPreProcessing.WrapAllResult | rust/src/lib.rs:184-271 | after the wrapping steps, each wrapper key holds the wrap of the last step that wrote it, and every other key is unchanged |
| JsonPreProcessing.LastWrapFrame | rust/src/lib.rs:184-271 | what the remaining steps write depends only on the keys they read |
| JsonPreProcessing.MeshWrappingsFacts | rust/src/lib.rs:196-271 | the geometry steps read no key they write; the last geometry present, in the order sphere, cube, plane, disk, meshed object, decides `mesh`; no other key is written |
| JsonPreProcessing.PreProcessSceneObjectShape | rust/src/lib.rs:184-272 | a scene object is accepted exactly when its transform and each geometry key are absent or objects, and otherwise fails with the first check's error |
| JsonPreProcessing.SceneObjectWrapped | rust/src/lib.rs:196-271 | the wrapped result keeps the keys of the object after its transform step and adds `mesh` exactly when some geometry is present |
| JsonPreProcessing.PreProcessSceneObjectResult | rust/src/lib.rs:184-272 | a rewritten scene object keeps every original key (geometries too), has its transform rewritten, and has `mesh` holding the wrapper of the last geometry present |
| JsonPreProcessing.LightWrappingsFacts | rust/src/lib.rs:303-344 | the light steps read no key they write; `light` holds the directional wrapper when directional is present, else the point wrapper; `environment` is rewritten as a wrapper around itself |
| JsonPreProcessing.PreProcessLightShape | rust/src/lib.rs:289-347 | a light is accepted exactly when its transform and its point, directional and environment values are absent or objects, and otherwise fails with the first check's error |
| JsonPreProcessing.LightWrapped | rust/src/lib.rs:303-344 | the wrapped result relates to the light after its transform step: `light` and `environment` as above, the rest unchanged |
| JsonPreProcessing.PreProcessLightResult | rust/src/lib.rs:289-347 | a rewritten light has `light` set from directional over point, `environment` wrapped around itself, its transform rewritten, and every other key kept |
| JsonPreProcessing.PreProcessLightNestsEnvironment | rust/src/lib.rs:332-344 | a second pass wraps the environment again, so the light rewrite is not idempotent, while the transform and render-options rewrites are |
| JsonPreProcessing.PreProcessArray | rust/src/lib.rs:138-151 | the loop that builds a new array element by element returns the element-wise rewrite |
| JsonPreProcessing.PreProcessCameras | rust/src/lib.rs:138-151 | the cameras array through `pre_process_camera` |
| JsonPreProcessing.PreProcessSceneObjects | rust/src/lib.rs:169-182 | the scene-objects array through `pre_process_scene_object` |
| JsonPreProcessing.PreProcessLights | rust/src/lib.rs:274-287 | the lights array through `pre_process_light` |
| JsonPreProcessing.PreProcessEachSpec | rust/src/lib.rs:138-151 | an array rewrite succeeds exactly when every element is an object the element rewrite accepts; it then keeps length and order and rewrites each element; otherwise it fails as the first bad element (a non-object element gives the "to be an object" error) |
| JsonPreProcessing.ArrayField | rust/src/lib.rs:78-109 | a present key must hold an array, or the array error is raised; the array's elements are rewritten; every other key is kept |
| JsonPreProcessing.RenderOptionsField | rust/src/lib.rs:67-76 | present render options must be an object, or the render-options error is raised; they are rewritten by `pre_process_render_options`; every other key is kept |
| JsonPreProcessing.DefaultField | rust/src/lib.rs:101-116 | an absent key becomes `[]`; an existing value is never replaced |
| JsonPreProcessing.ArrayFieldOkIff | rust/src/lib.rs:78-109 | an array key passes exactly when it is absent or an array of objects that the element rewrite accepts |
| JsonPreProcessing.PreProcessSceneOkIff | rust/src/lib.rs:61-116 | pre-processing succeeds exactly on a top-level object whose render options are an object if present, and whose cameras, scene objects and lights are acceptable arrays if present; a non-object fails with the top-level error |
| JsonPreProcessing.RenderOptionsStage | rust/src/lib.rs:67-76 | the render-options step leaves the array conditions of the other keys as they were |
| JsonPreProcessing.CamerasStage | rust/src/lib.rs:78-87 | the cameras step succeeds exactly under the cameras condition and leaves the later conditions as they were |
| JsonPreProcessing.SceneObjectsStage | rust/src/lib.rs:89-98 | the scene-objects step succeeds exactly under its condition and leaves the lights condition as it was |
| JsonPreProcessing.LightsStage | rust/src/lib.rs:100-112 | the lights step succeeds exactly under the lights condition |
| JsonPreProcessing.PreProcessSceneDefaults | rust/src/lib.rs:101-116 | on success `lights` and `materials` are always present, an absent one as `[]`; an existing `materials` is kept; every key pre-processing does not rewrite is unchanged |
| JsonPreProcessing.PreProcessSceneRenderOptions | rust/src/lib.rs:67-76 | on success present render options hold their rewrite |
| JsonPreProcessing.PreProcessSceneCameras | rust/src/lib.rs:78-87 | on success present cameras are an array and hold their element-wise rewrite |
| JsonPreProcessing.PreProcessSceneSceneObjects | rust/src/lib.rs:89-98 | on success present scene objects are an array and hold their element-wise rewrite |
| JsonPreProcessing.PreProcessSceneLights | rust/src/lib.rs:100-109 | on success present lights are an array and hold their element-wise rewrite |
| JsonPreProcessing.RenderOptionsStep | rust/src/lib.rs:67-76 | updates the scene map's `renderOptions` as the render-options step does |
| JsonPreProcessing.CamerasStep | rust/src/lib.rs:78-87 | updates the scene map's `cameras` through the array loop, as the cameras step does |
| JsonPreProcessing.SceneObjectsStep | rust/src/lib.rs:89-98 | updates `sceneObjects` as the scene-objects step does |
| JsonPreProcessing.LightsStep | rust/src/lib.rs:100-112 | updates `lights` as the lights step does, `[]` when absent |
| JsonPreProcessing.PreProcessSceneMap | rust/src/lib.rs:61-116 | the insert-by-insert rewrite of the scene map returns the pre-processed scene, or the first error |
| ObjReader.ParseVertex | rust/src/obj.rs:55-79 | succeeds exactly when the first three parts parse and a fourth, if present, parses too; w is 1.0 when there are fewer than four parts; fewer than three parts that all parse panics on the index; every raised error is `FailedToReadObj` |
| ObjReader.ParseVertexNormal | rust/src/obj.rs:81-97 | succeeds exactly when the first three parts parse, with those values; fewer than three parts panics; every raised error is `FailedToReadObj` |
| ObjReader.ParseFaceElement | rust/src/obj.rs:111-143 | splits on `/`; succeeds exactly when there are at least three components and each is empty (read as 0) or parses; the first of the three that does not parse raises `FailedToReadObj` with "Failed to parse vertex index", "texture index" or "normal index" and the parse error; fewer than three components panics once the present ones are read |
| ObjReader.ParseFace | rust/src/obj.rs:99-109 | the loop returns the element-wise parse of the parts |
| ObjReader.FaceElementsInOrder | rust/src/obj.rs:99-109 | a face succeeds exactly when every part parses, and then has one element per part, in order |
| ObjReader.FaceFirstError | rust/src/obj.rs:99-109 | a failing face fails as its first bad element |
| ObjReader.FaceRaisesReadError | rust/src/obj.rs:99-143 | every error a face raises is `FailedToReadObj` |
| ObjReader.ParseLine | rust/src/obj.rs:18-44 | a `v`, `vn` or `f` line gives the vertex, normal or face its operands parse to, or that parse's failure; an unreadable line and a line starting with `#`, `g`, `usemtl`, `mtllib`, `o` or `s` add nothing; any other first token is an unknown record, which adds nothing |
| ObjReader.ReadObjLines | rust/src/obj.rs:18-52 | the loop collecting vertices, normals and faces returns the folded result of the line parses |
| ObjReader.ReadObjFile | rust/src/obj.rs:7-53 | a file that does not open fails with `FailedToReadObj`; otherwise its lines are read as above |
| ObjReader.ExtendAppend | rust/src/obj.rs:29-31 | appending one record and then the rest equals appending them all at once |
| ObjReader.ObjFoldExtends | rust/src/obj.rs:18-45 | the line fold from any position extends the geometry collected so far by the remaining records |
| ObjReader.ObjLinesCollectsInOrder | rust/src/obj.rs:18-52 | on success the geometry holds exactly the vertices, the normals and the faces of the lines, each in file order, and no texture coordinates; it fails with the first line error |
| ObjReader.ObjLinesOkIffEveryLineParses | rust/src/obj.rs:18-45 | reading succeeds exactly when every line parses, and otherwise fails as the first line that does not |
| ObjReader.RecordsOfLines | rust/src/obj.rs:18-45 | the vertex, normal and face records of the lines are the parses of the `v`, `vn` and `f` lines, in file order |
| ObjReader.ObjLinesFromLines | rust/src/obj.rs:18-52 | a successful read holds the vertices of the `v` lines, the normals of the `vn` lines and the faces of the `f` lines, each in file order, and no texture coordinates |
| ObjReader.NoTextureCoordinates | rust/src/obj.rs:9 | the texture coordinates of a read geometry are always empty |
| ObjReader.FaceElementWithoutTexture | rust/src/lib.rs:531-534 | `5//1` parses as vertex index 5, texture index 0, normal index 1 |
| ObjReader.TrailingSpaceInFacePanics | rust/src/obj.rs:111-121 | the face line `f 5//1 ` (with a trailing space) panics: the empty last part has no second component |
| SceneDecode.PostProcessSceneObject | rust/src/lib.rs:369-395 | an object without a mesh fails; a non-meshed object, a missing context or an empty reference leaves the object unchanged; a failing path join gives the join error; a success keeps the id and has a mesh |
| SceneDecode.PostProcessScene | rust/src/lib.rs:359-367 | the loop that replaces objects by index returns the element-wise post-processing |
| SceneDecode.PostProcessedSceneSpec | rust/src/lib.rs:359-367 | post-processing succeeds exactly when every object does; it keeps the version and the number, order and ids of the objects, and each has a mesh; otherwise it fails as the first failing object |
| SceneDecode.PostProcessedSceneWithoutContext | rust/src/lib.rs:359-395 | without a context, a scene whose objects all have a mesh comes back unchanged, and any other fails on the missing mesh |
| SceneDecode.MeshedObjectResolved | rust/src/lib.rs:378-391 | a meshed object with a reference, under a context, gets the joined path as its reference and the geometry read from that path, or fails with the reading error |
| SceneDecode.DecodeWithContext | rust/src/lib.rs:61-125 | pre-processes, deserialises (failing with the "expected json to be valid" panic) and post-processes the scene |
| SceneDecode.DecodedJsonSpec | rust/src/lib.rs:61-125 | a non-object document fails with the top-level error; a decoded scene comes from a successful pre-processing and deserialisation, keeps its object count, and every object has a mesh |
| SceneDecode.DecodedJsonWithoutContextReadsNothing | rust/src/lib.rs:50-125 | without a context directory the result does not depend on path joining or the file system |

## Left out

- Protobuf and JSON codecs, saving and reading files, and the binary fallback of `decode_with_context` are not modelled. They are thin wrappers over libraries whose internals are not visible. Serialising the rewritten map back to text (`FailedToEncode`) is left out for the same reason.
- Deserialisation is a parameter: a function from the rewritten JSON object to an optional typed scene. `None` stands for the input the `expect` rejects.
- `File.Exists` in `ValidateSceneObject` is the parameter `fileExists`, an uninterpreted predicate on the reference.
- `Path::join` and `to_str` are `Host.join`, whose `None` result means "not valid text". Opening a file as lines is `Host.open`, whose error text is abstract.
- Reading a line fails only as an unreadable line (`None`), which is skipped.
- Text-to-number parsing is the `Parsers` record of abstract partial functions. The wording of a parse error is abstract, and the wording of an open error is kept only as its prefix.
- JSON integers are unbounded `int`s. The 64-bit range of `serde_json` numbers and the widths of the typed fields are not modelled. Whether an out-of-range integer is rejected is left to the deserialisation parameter.
- Doubles are reals: there is no NaN, no infinity and no rounding. The tolerance `1e-5` is exact.
- Logging is not modelled: the `warn!` on unknown OBJ tokens and the `debug!` messages.
- The typed Rust scene carries only the version, the object ids and the meshes. No other code path examines the rest.
- Texture coordinates have no fields, since the reader never produces one.
- Aliasing is not modelled. The C# messages are reference objects that `PostProcess` updates through the list copies `ToList()` makes; the model replaces each entity by its normalised value in the scene's sequence, which gives the same final state.
- Protobuf repeated fields are never null (the generated code does not allow it), so the `!= null` tests on collections always hold and have no branch.
- The `ids.Contains` test in `ValidateLights` is never true, because nothing adds to that set. `ScenePostProcessing.ValidateLights` leaves it out, and `SceneValidity.DuplicateLightIdsAccepted` shows that duplicate light ids pass.
- The Rust geometry and light key checks are written as a table of wrapping steps (`MeshWrappings`, `LightWrappings`) folded in the source's order. The table replaces the source's one block per key; it shows the same errors and order, and the same last-writer-wins result.
- The C# code sets no ray-depth or rays-per-pixel defaults and no realistic-camera defaults. It clamps no material coefficients and checks no material variant other than Lambert reflection. The model does none of this either. Inline materials on scene objects are validated but not post-processed, as in the code.
