/** The Wavefront OBJ reader of the Rust library: a line-by-line dispatch on the
    first space-separated token, building vertices, vertex normals and faces. */
module ObjReader {
  import opened Wrappers
  import opened Strings
  import opened SceneIOErrors

  datatype Vertex = Vertex(x: real, y: real, z: real, w: real)
  datatype VertexNormal = VertexNormal(x: real, y: real, z: real)
  datatype FaceElement = FaceElement(vertexIndex: int, textureIndex: int, normalIndex: int)
  datatype Face = Face(elements: seq<FaceElement>)
  /** The reader never produces texture coordinates, so their fields are left out. */
  datatype TextureCoordinate = TextureCoordinate

  datatype MeshGeometry = MeshGeometry(
    faces: seq<Face>,
    textureCoordinates: seq<TextureCoordinate>,
    vertexNormals: seq<VertexNormal>,
    vertices: seq<Vertex>)

  const EmptyGeometry := MeshGeometry([], [], [], [])

  /** Text-to-number parsing (`str::parse`), each failing with its error text. */
  datatype Parsers = Parsers(float: string -> Result<real, string>, index: string -> Result<int, string>)

  /** What one line contributes. */
  datatype Record =
    | VertexRecord(vertex: Vertex)
    | NormalRecord(normal: VertexNormal)
    | FaceRecord(face: Face)
    | Ignored            // unreadable lines and the tokens the reader skips on purpose
    | Unknown(token: string)   // any other first token: logged and skipped

  /** Tokens the reader skips without a warning: comments, groups, materials, objects, smoothing. */
  const SkippedTokens: set<string> := {"#", "g", "usemtl", "mtllib", "o", "s"}

  // ---------------------------------------------------------------------------
  // parse_vertex, parse_vertex_normal

  /** `parts[i].parse()`, with indexing past the end a panic. */
  function ParseFloatAt(parts: seq<string>, i: nat, parsers: Parsers, what: string): Result<real, Failure>
  {
    if i >= |parts| then Err(Panicked(IndexOutOfBounds))
    else match parsers.float(parts[i])
      case Ok(v) => Ok(v)
      case Err(e) => Err(Raised(FailedToReadObj("Failed to parse " + what + ": " + e)))
  }

  /** The first `n` parts are present and parse as floats. */
  ghost predicate FloatsParse(parts: seq<string>, n: nat, parsers: Parsers) {
    |parts| >= n && forall k :: 0 <= k < n ==> parsers.float(parts[k]).Ok?
  }

  /** Every present part among the first `n` parses, but there are fewer than `n`. */
  ghost predicate TooFewFloats(parts: seq<string>, n: nat, parsers: Parsers) {
    |parts| < n && forall k :: 0 <= k < |parts| ==> parsers.float(parts[k]).Ok?
  }

  function ParseVertex(parts: seq<string>, parsers: Parsers): (r: Result<Vertex, Failure>)
    ensures r.Ok? <==> FloatsParse(parts, 3, parsers) && (|parts| >= 4 ==> parsers.float(parts[3]).Ok?)
    ensures r.Ok? ==> r.value == Vertex(parsers.float(parts[0]).value, parsers.float(parts[1]).value,
                                        parsers.float(parts[2]).value,
                                        if |parts| >= 4 then parsers.float(parts[3]).value else 1.0)
    ensures r == Err(Panicked(IndexOutOfBounds)) <==> TooFewFloats(parts, 3, parsers)
    ensures r.Err? && r.error.Raised? ==> r.error.error.FailedToReadObj?
  {
    var x :- ParseFloatAt(parts, 0, parsers, "vertex x");
    var y :- ParseFloatAt(parts, 1, parsers, "vertex y");
    var z :- ParseFloatAt(parts, 2, parsers, "vertex z");
    var w :- if |parts| >= 4 then ParseFloatAt(parts, 3, parsers, "vertex w") else Ok(1.0);
    Ok(Vertex(x, y, z, w))
  }

  function ParseVertexNormal(parts: seq<string>, parsers: Parsers): (r: Result<VertexNormal, Failure>)
    ensures r.Ok? <==> FloatsParse(parts, 3, parsers)
    ensures r.Ok? ==> r.value == VertexNormal(parsers.float(parts[0]).value, parsers.float(parts[1]).value,
                                              parsers.float(parts[2]).value)
    ensures r == Err(Panicked(IndexOutOfBounds)) <==> TooFewFloats(parts, 3, parsers)
    ensures r.Err? && r.error.Raised? ==> r.error.error.FailedToReadObj?
  {
    var x :- ParseFloatAt(parts, 0, parsers, "vertex normal x");
    var y :- ParseFloatAt(parts, 1, parsers, "vertex normal y");
    var z :- ParseFloatAt(parts, 2, parsers, "vertex normal z");
    Ok(VertexNormal(x, y, z))
  }

  // ---------------------------------------------------------------------------
  // parse_face_element, parse_face

  /** The value of one `/`-separated component: empty means 0. */
  function ComponentValue(component: string, parsers: Parsers): Result<int, string> {
    if component == "" then Ok(0) else parsers.index(component)
  }

  function ParseComponentAt(components: seq<string>, i: nat, parsers: Parsers, what: string): Result<int, Failure>
  {
    if i >= |components| then Err(Panicked(IndexOutOfBounds))
    else if components[i] == "" then Ok(0)
    else match parsers.index(components[i])
      case Ok(v) => Ok(v)
      case Err(e) => Err(Raised(FailedToReadObj("Failed to parse " + what + ": " + e)))
  }

  /** The names the parse errors give the three components of a face element. */
  const IndexNames: seq<string> := ["vertex index", "texture index", "normal index"]

  /** A face element `v/t/n`. Components past the third are ignored; the first
      component that does not parse is named in the error. */
  function ParseFaceElement(part: string, parsers: Parsers): (r: Result<FaceElement, Failure>)
    ensures var c := Split(part, '/');
            r.Ok? <==> |c| >= 3 && forall k :: 0 <= k < 3 ==> ComponentValue(c[k], parsers).Ok?
    ensures var c := Split(part, '/');
            r.Ok? ==> r.value == FaceElement(ComponentValue(c[0], parsers).value, ComponentValue(c[1], parsers).value,
                                             ComponentValue(c[2], parsers).value)
    ensures var c := Split(part, '/');
            r == Err(Panicked(IndexOutOfBounds)) <==>
              |c| < 3 && forall k :: 0 <= k < |c| ==> ComponentValue(c[k], parsers).Ok?
    ensures r.Err? && r.error.Raised? ==> r.error.error.FailedToReadObj?
    ensures var c := Split(part, '/');
            forall k :: 0 <= k < 3 && k < |c| && (forall j :: 0 <= j < k ==> ComponentValue(c[j], parsers).Ok?) &&
                        ComponentValue(c[k], parsers).Err? ==>
              r == Err(Raised(FailedToReadObj("Failed to parse " + IndexNames[k] + ": " + ComponentValue(c[k], parsers).error)))
  {
    var components := Split(part, '/');
    var vertexIndex :- ParseComponentAt(components, 0, parsers, IndexNames[0]);
    var textureIndex :- ParseComponentAt(components, 1, parsers, IndexNames[1]);
    var normalIndex :- ParseComponentAt(components, 2, parsers, IndexNames[2]);
    Ok(FaceElement(vertexIndex, textureIndex, normalIndex))
  }

  function ElementParser(parsers: Parsers): string -> Result<FaceElement, Failure> {
    part => ParseFaceElement(part, parsers)
  }

  /** The face of a line's parts: one element per part, or the first element's failure. */
  function ParsedFace(parts: seq<string>, parsers: Parsers): Result<Face, Failure> {
    var elements :- MapAll(parts, ElementParser(parsers));
    Ok(Face(elements))
  }

  /** `parse_face`: pushes the elements one by one. */
  method ParseFace(parts: seq<string>, parsers: Parsers) returns (r: Result<Face, Failure>)
    ensures r == ParsedFace(parts, parsers)
  {
    var elements: seq<FaceElement> := [];
    var i := 0;
    assert parts[0..] == parts;
    PrependNothing(MapAll(parts, ElementParser(parsers)));
    while i < |parts|
      invariant 0 <= i <= |parts|
      invariant MapAll(parts, ElementParser(parsers)) == Prepend(elements, MapAll(parts[i..], ElementParser(parsers)))
    {
      var element := ParseFaceElement(parts[i], parsers);
      if element.Err? {
        return Err(element.error);
      }
      MapAllStep(parts, i, ElementParser(parsers));
      PrependPrepend(elements, [element.value], MapAll(parts[i + 1..], ElementParser(parsers)));
      elements := elements + [element.value];
      i := i + 1;
    }
    assert parts[i..] == [];
    assert elements + [] == elements;
    return Ok(Face(elements));
  }

  /** A face has exactly one element per part, in order, each the parse of its part. */
  lemma FaceElementsInOrder(parts: seq<string>, parsers: Parsers)
    ensures ParsedFace(parts, parsers).Ok? <==> forall i :: 0 <= i < |parts| ==> ParseFaceElement(parts[i], parsers).Ok?
    ensures ParsedFace(parts, parsers).Ok? ==>
              var elements := ParsedFace(parts, parsers).value.elements;
              |elements| == |parts| &&
              forall i :: 0 <= i < |parts| ==> ParseFaceElement(parts[i], parsers) == Ok(elements[i])
  {
    MapAllOk(parts, ElementParser(parsers));
  }

  /** A face that fails reports the failure of its first bad element. */
  lemma FaceFirstError(parts: seq<string>, parsers: Parsers)
    requires ParsedFace(parts, parsers).Err?
    ensures exists k :: 0 <= k < |parts| && ParseFaceElement(parts[k], parsers) == Err(ParsedFace(parts, parsers).error) &&
                        forall j :: 0 <= j < k ==> ParseFaceElement(parts[j], parsers).Ok?
  {
    MapAllFirstError(parts, ElementParser(parsers));
  }

  /** Every error a face raises is a `FailedToReadObj`. */
  lemma FaceRaisesReadError(parts: seq<string>, parsers: Parsers)
    requires ParsedFace(parts, parsers).Err? && ParsedFace(parts, parsers).error.Raised?
    ensures ParsedFace(parts, parsers).error.error.FailedToReadObj?
  {
    FaceFirstError(parts, parsers);
  }

  // ---------------------------------------------------------------------------
  // read_obj_file

  /** The first space-separated token of a line, and the parts after it. */
  function FirstToken(line: string): string {
    Split(line, ' ')[0]
  }

  function Operands(line: string): seq<string> {
    Split(line, ' ')[1..]
  }

  /** What a line contributes, dispatched on its first space-separated token. */
  function ParseLine(line: Option<string>, parsers: Parsers): (r: Result<Record, Failure>)
    ensures line.None? ==> r == Ok(Ignored)
    ensures line.Some? && FirstToken(line.value) == "v" ==>
              var v := ParseVertex(Operands(line.value), parsers);
              (r.Ok? <==> v.Ok?) && (v.Ok? ==> r.value == VertexRecord(v.value)) && (v.Err? ==> r.error == v.error)
    ensures line.Some? && FirstToken(line.value) == "vn" ==>
              var n := ParseVertexNormal(Operands(line.value), parsers);
              (r.Ok? <==> n.Ok?) && (n.Ok? ==> r.value == NormalRecord(n.value)) && (n.Err? ==> r.error == n.error)
    ensures line.Some? && FirstToken(line.value) == "f" ==>
              var f := ParsedFace(Operands(line.value), parsers);
              (r.Ok? <==> f.Ok?) && (f.Ok? ==> r.value == FaceRecord(f.value)) && (f.Err? ==> r.error == f.error)
    ensures line.Some? && FirstToken(line.value) in SkippedTokens ==> r == Ok(Ignored)
    ensures line.Some? && FirstToken(line.value) !in SkippedTokens + {"v", "vn", "f"} ==>
              r == Ok(Unknown(FirstToken(line.value)))
  {
    match line
    case None => Ok(Ignored)
    case Some(text) =>
      var token := FirstToken(text);
      if token == "v" then
        var v :- ParseVertex(Operands(text), parsers);
        Ok(VertexRecord(v))
      else if token == "vn" then
        var n :- ParseVertexNormal(Operands(text), parsers);
        Ok(NormalRecord(n))
      else if token == "f" then
        var f :- ParsedFace(Operands(text), parsers);
        Ok(FaceRecord(f))
      else if token in SkippedTokens then Ok(Ignored)
      else Ok(Unknown(token))
  }

  function LineParser(parsers: Parsers): Option<string> -> Result<Record, Failure> {
    line => ParseLine(line, parsers)
  }

  /** The geometry after one more record. */
  function Append(g: MeshGeometry, record: Record): MeshGeometry {
    match record
    case VertexRecord(v) => g.(vertices := g.vertices + [v])
    case NormalRecord(n) => g.(vertexNormals := g.vertexNormals + [n])
    case FaceRecord(f) => g.(faces := g.faces + [f])
    case _ => g
  }

  /** The lines from `i` on, folded into `acc`; the first failing line ends the read. */
  function ObjFold(lines: seq<Option<string>>, i: nat, acc: MeshGeometry, parsers: Parsers): Result<MeshGeometry, Failure>
    requires i <= |lines|
    decreases |lines| - i
  {
    if i == |lines| then Ok(acc)
    else
      match ParseLine(lines[i], parsers)
      case Err(e) => Err(e)
      case Ok(record) => ObjFold(lines, i + 1, Append(acc, record), parsers)
  }

  function ObjLines(lines: seq<Option<string>>, parsers: Parsers): Result<MeshGeometry, Failure> {
    ObjFold(lines, 0, EmptyGeometry, parsers)
  }

  /** The loop of `read_obj_file` over the lines it was given (`None` for a line
      that could not be read). */
  method ReadObjLines(lines: seq<Option<string>>, parsers: Parsers) returns (r: Result<MeshGeometry, Failure>)
    ensures r == ObjLines(lines, parsers)
  {
    var faces: seq<Face> := [];
    var textureCoordinates: seq<TextureCoordinate> := [];
    var vertexNormals: seq<VertexNormal> := [];
    var vertices: seq<Vertex> := [];
    var i := 0;
    while i < |lines|
      invariant 0 <= i <= |lines|
      invariant ObjLines(lines, parsers) ==
                ObjFold(lines, i, MeshGeometry(faces, textureCoordinates, vertexNormals, vertices), parsers)
    {
      if lines[i].Some? {
        var parts := Split(lines[i].value, ' ');
        var token := parts[0];
        if token == "v" {
          var v := ParseVertex(parts[1..], parsers);
          if v.Err? {
            return Err(v.error);
          }
          vertices := vertices + [v.value];
        } else if token == "vn" {
          var n := ParseVertexNormal(parts[1..], parsers);
          if n.Err? {
            return Err(n.error);
          }
          vertexNormals := vertexNormals + [n.value];
        } else if token == "f" {
          var f := ParseFace(parts[1..], parsers);
          if f.Err? {
            return Err(f.error);
          }
          faces := faces + [f.value];
        }
      }
      i := i + 1;
    }
    return Ok(MeshGeometry(faces, textureCoordinates, vertexNormals, vertices));
  }

  /** Opening the file: a failure becomes `FailedToReadObj` with the I/O error's text. */
  function ObjFile(path: string, open: string -> Result<seq<Option<string>>, string>, parsers: Parsers): Result<MeshGeometry, Failure>
  {
    match open(path)
    case Err(e) => Err(Raised(FailedToReadObj("Failed to open obj file: " + e)))
    case Ok(lines) => ObjLines(lines, parsers)
  }

  /** `read_obj_file`. */
  method ReadObjFile(path: string, open: string -> Result<seq<Option<string>>, string>, parsers: Parsers)
    returns (r: Result<MeshGeometry, Failure>)
    ensures r == ObjFile(path, open, parsers)
  {
    var lines := open(path);
    if lines.Err? {
      return Err(Raised(FailedToReadObj("Failed to open obj file: " + lines.error)));
    }
    r := ReadObjLines(lines.value, parsers);
  }

  // ---------------------------------------------------------------------------
  // What reading a file amounts to

  function VerticesOf(records: seq<Record>): seq<Vertex> {
    if |records| == 0 then []
    else (if records[0].VertexRecord? then [records[0].vertex] else []) + VerticesOf(records[1..])
  }

  function NormalsOf(records: seq<Record>): seq<VertexNormal> {
    if |records| == 0 then []
    else (if records[0].NormalRecord? then [records[0].normal] else []) + NormalsOf(records[1..])
  }

  function FacesOf(records: seq<Record>): seq<Face> {
    if |records| == 0 then []
    else (if records[0].FaceRecord? then [records[0].face] else []) + FacesOf(records[1..])
  }

  /** `acc` extended by every record of `r`, kind by kind in record order. */
  function Extend(acc: MeshGeometry, r: Result<seq<Record>, Failure>): Result<MeshGeometry, Failure> {
    match r
    case Err(e) => Err(e)
    case Ok(records) =>
      Ok(MeshGeometry(acc.faces + FacesOf(records), acc.textureCoordinates,
                      acc.vertexNormals + NormalsOf(records), acc.vertices + VerticesOf(records)))
  }

  lemma ExtendAppend(acc: MeshGeometry, record: Record, rest: Result<seq<Record>, Failure>)
    ensures Extend(Append(acc, record), rest) == Extend(acc, Prepend([record], rest))
  {
    if rest.Ok? {
      var records := [record] + rest.value;
      assert records[1..] == rest.value;
      match record
      case VertexRecord(v) =>
        assert VerticesOf(records) == [v] + VerticesOf(rest.value);
        assert NormalsOf(records) == NormalsOf(rest.value);
        assert FacesOf(records) == FacesOf(rest.value);
        assert acc.vertices + [v] + VerticesOf(rest.value) == acc.vertices + ([v] + VerticesOf(rest.value));
      case NormalRecord(n) =>
        assert VerticesOf(records) == VerticesOf(rest.value);
        assert NormalsOf(records) == [n] + NormalsOf(rest.value);
        assert FacesOf(records) == FacesOf(rest.value);
        assert acc.vertexNormals + [n] + NormalsOf(rest.value) == acc.vertexNormals + ([n] + NormalsOf(rest.value));
      case FaceRecord(f) =>
        assert VerticesOf(records) == VerticesOf(rest.value);
        assert NormalsOf(records) == NormalsOf(rest.value);
        assert FacesOf(records) == [f] + FacesOf(rest.value);
        assert acc.faces + [f] + FacesOf(rest.value) == acc.faces + ([f] + FacesOf(rest.value));
      case _ =>
        assert VerticesOf(records) == VerticesOf(rest.value);
        assert NormalsOf(records) == NormalsOf(rest.value);
        assert FacesOf(records) == FacesOf(rest.value);
    }
  }

  lemma {:induction false} ObjFoldExtends(lines: seq<Option<string>>, i: nat, acc: MeshGeometry, parsers: Parsers)
    requires i <= |lines|
    ensures ObjFold(lines, i, acc, parsers) == Extend(acc, MapAll(lines[i..], LineParser(parsers)))
    decreases |lines| - i
  {
    if i == |lines| {
      assert lines[i..] == [];
      assert acc.faces + [] == acc.faces && acc.vertexNormals + [] == acc.vertexNormals && acc.vertices + [] == acc.vertices;
    } else {
      match ParseLine(lines[i], parsers)
      case Err(e) =>
        assert lines[i..][0] == lines[i];
      case Ok(record) =>
        ObjFoldExtends(lines, i + 1, Append(acc, record), parsers);
        MapAllStep(lines, i, LineParser(parsers));
        ExtendAppend(acc, record, MapAll(lines[i + 1..], LineParser(parsers)));
    }
  }

  /** Reading the lines is parsing each line on its own and collecting the vertices,
      normals and faces in file order; texture coordinates stay empty. */
  lemma ObjLinesCollectsInOrder(lines: seq<Option<string>>, parsers: Parsers)
    ensures ObjLines(lines, parsers).Ok? <==> MapAll(lines, LineParser(parsers)).Ok?
    ensures ObjLines(lines, parsers).Ok? ==>
              var records := MapAll(lines, LineParser(parsers)).value;
              ObjLines(lines, parsers).value ==
                MeshGeometry(FacesOf(records), [], NormalsOf(records), VerticesOf(records))
    ensures ObjLines(lines, parsers).Err? ==> ObjLines(lines, parsers).error == MapAll(lines, LineParser(parsers)).error
  {
    ObjFoldExtends(lines, 0, EmptyGeometry, parsers);
    assert lines[0..] == lines;
  }

  /** The read succeeds exactly when every line parses; otherwise it fails with the
      failure of the first line that does not. */
  lemma ObjLinesOkIffEveryLineParses(lines: seq<Option<string>>, parsers: Parsers)
    ensures ObjLines(lines, parsers).Ok? <==> forall i :: 0 <= i < |lines| ==> ParseLine(lines[i], parsers).Ok?
    ensures ObjLines(lines, parsers).Err? ==>
              exists k :: 0 <= k < |lines| && ParseLine(lines[k], parsers) == Err(ObjLines(lines, parsers).error) &&
                          forall j :: 0 <= j < k ==> ParseLine(lines[j], parsers).Ok?
  {
    ObjLinesCollectsInOrder(lines, parsers);
    MapAllOk(lines, LineParser(parsers));
    if ObjLines(lines, parsers).Err? {
      MapAllFirstError(lines, LineParser(parsers));
    }
  }

  // ---------------------------------------------------------------------------
  // The geometry straight from the lines

  /** The vertices of the `v` lines, in file order. */
  function LineVertices(lines: seq<Option<string>>, parsers: Parsers): seq<Vertex> {
    if |lines| == 0 then []
    else
      var line := lines[0];
      (if line.Some? && FirstToken(line.value) == "v" && ParseVertex(Operands(line.value), parsers).Ok?
       then [ParseVertex(Operands(line.value), parsers).value] else []) + LineVertices(lines[1..], parsers)
  }

  /** The normals of the `vn` lines, in file order. */
  function LineNormals(lines: seq<Option<string>>, parsers: Parsers): seq<VertexNormal> {
    if |lines| == 0 then []
    else
      var line := lines[0];
      (if line.Some? && FirstToken(line.value) == "vn" && ParseVertexNormal(Operands(line.value), parsers).Ok?
       then [ParseVertexNormal(Operands(line.value), parsers).value] else []) + LineNormals(lines[1..], parsers)
  }

  /** The faces of the `f` lines, in file order. */
  function LineFaces(lines: seq<Option<string>>, parsers: Parsers): seq<Face> {
    if |lines| == 0 then []
    else
      var line := lines[0];
      (if line.Some? && FirstToken(line.value) == "f" && ParsedFace(Operands(line.value), parsers).Ok?
       then [ParsedFace(Operands(line.value), parsers).value] else []) + LineFaces(lines[1..], parsers)
  }

  lemma {:induction false} RecordsOfLines(lines: seq<Option<string>>, parsers: Parsers)
    requires MapAll(lines, LineParser(parsers)).Ok?
    ensures var records := MapAll(lines, LineParser(parsers)).value;
            VerticesOf(records) == LineVertices(lines, parsers) &&
            NormalsOf(records) == LineNormals(lines, parsers) &&
            FacesOf(records) == LineFaces(lines, parsers)
  {
    if |lines| > 0 {
      var record := ParseLine(lines[0], parsers).value;
      var rest := MapAll(lines[1..], LineParser(parsers));
      RecordsOfLines(lines[1..], parsers);
      var records := [record] + rest.value;
      assert MapAll(lines, LineParser(parsers)).value == records;
      assert records[1..] == rest.value;
    }
  }

  /** A successful read holds the vertices of the `v` lines, the normals of the `vn`
      lines and the faces of the `f` lines, each in file order. */
  lemma ObjLinesFromLines(lines: seq<Option<string>>, parsers: Parsers)
    requires ObjLines(lines, parsers).Ok?
    ensures ObjLines(lines, parsers).value ==
              MeshGeometry(LineFaces(lines, parsers), [], LineNormals(lines, parsers), LineVertices(lines, parsers))
  {
    ObjLinesCollectsInOrder(lines, parsers);
    RecordsOfLines(lines, parsers);
  }

  /** Texture coordinates are never read. */
  lemma NoTextureCoordinates(lines: seq<Option<string>>, parsers: Parsers)
    requires ObjLines(lines, parsers).Ok?
    ensures ObjLines(lines, parsers).value.textureCoordinates == []
  {
    ObjLinesCollectsInOrder(lines, parsers);
  }

  /** `5//1`: vertex 5, no texture index, normal 1. */
  lemma FaceElementWithoutTexture(parsers: Parsers)
    requires parsers.index("5") == Ok(5) && parsers.index("1") == Ok(1)
    ensures ParseFaceElement("5//1", parsers) == Ok(FaceElement(5, 0, 1))
  {
    SplitNoSeparator("1", '/');
    SplitAppend("", "1", '/');
    assert "" + ['/'] + "1" == "/1";
    SplitAppend("5", "/1", '/');
    assert "5" + ['/'] + "/1" == "5//1";
  }

  /** A trailing space after the last face element leaves an empty final part, whose
      missing texture component is indexed past the end: the read panics. */
  lemma TrailingSpaceInFacePanics(parsers: Parsers)
    requires parsers.index("5") == Ok(5) && parsers.index("1") == Ok(1)
    ensures ParseLine(Some("f 5//1 "), parsers) == Err(Panicked(IndexOutOfBounds))
  {
    SplitNoSeparator("", ' ');
    SplitAppend("5//1", "", ' ');
    assert "5//1" + [' '] + "" == "5//1 ";
    SplitAppend("f", "5//1 ", ' ');
    assert "f" + [' '] + "5//1 " == "f 5//1 ";
    FaceElementWithoutTexture(parsers);
    assert Split("", '/') == [""];
    assert ParseFaceElement("", parsers) == Err(Panicked(IndexOutOfBounds));
    FaceFirstError(["5//1", ""], parsers);
  }
}
