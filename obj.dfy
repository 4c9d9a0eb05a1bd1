/**
 * The Wavefront OBJ reader of package poly (poly/obj.go). The input is a
 * sequence of lines. `v`, `vt` and `vn` lines append to three lists, and an
 * `f` line builds a face from entries already in those lists. Any other first
 * token ends the parse.
 */
module Obj {
  import opened Wrappers
  import opened GoLib
  import opened Vectors
  import opened Geometry
  import opened Parsing

  /** The three lists parseObj keeps and the faces read so far, as values. */
  datatype ObjState = ObjState(vertices: seq<Vector3>, uvs: seq<Vector3>, normals: seq<Vector3>, faces: seq<Triangle>)

  /** parseVertex: the x, y and z of `v x y z`, read in that order. */
  function ParseVertex(cols: seq<string>): (r: Result<Vector3, ParseError>)
    ensures r.Success? <==> |cols| >= 4 && ParseFloat32(cols[1]).Some? && ParseFloat32(cols[2]).Some? && ParseFloat32(cols[3]).Some?
    ensures r.Success? ==> r.value == Vector3(ParseFloat32(cols[1]).value, ParseFloat32(cols[2]).value, ParseFloat32(cols[3]).value)
  {
    var x :- FloatColumn(cols, 1);
    var y :- FloatColumn(cols, 2);
    var z :- FloatColumn(cols, 3);
    Success(NewVector3(x, y, z))
  }

  /** parseUv: the u and v of `vt u v`; the third component is 0. */
  function ParseUv(cols: seq<string>): (r: Result<Vector3, ParseError>)
    ensures r.Success? <==> |cols| >= 3 && ParseFloat32(cols[1]).Some? && ParseFloat32(cols[2]).Some?
    ensures r.Success? ==> r.value == Vector3(ParseFloat32(cols[1]).value, ParseFloat32(cols[2]).value, 0.0)
  {
    var u :- FloatColumn(cols, 1);
    var v :- FloatColumn(cols, 2);
    Success(NewVector3(u, v, 0.0))
  }

  /** parseNormal: the x, y and z of `vn x y z`; its body is parseVertex's. */
  function ParseNormal(cols: seq<string>): (r: Result<Vector3, ParseError>)
    ensures r.Success? <==> |cols| >= 4 && ParseFloat32(cols[1]).Some? && ParseFloat32(cols[2]).Some? && ParseFloat32(cols[3]).Some?
    ensures r.Success? ==> r.value == Vector3(ParseFloat32(cols[1]).value, ParseFloat32(cols[2]).value, ParseFloat32(cols[3]).value)
  {
    ParseVertex(cols)
  }

  /** strconv.ParseInt(parts[k], 10, 32). */
  function Int32Column(parts: seq<string>, k: nat): (r: Result<int, ParseError>)
    ensures r.Success? <==> k < |parts| && ParseInt32(parts[k]).Some?
    ensures r.Success? ==> r.value == ParseInt32(parts[k]).value
  {
    var text :- Column(parts, k);
    match ParseInt32(text)
    case Some(n) => Success(n)
    case None => Failure(BadNumber(text))
  }

  /**
   * parseFaceIndices: `a/b/c` split on '/', each part a 32-bit decimal,
   * converted from OBJ's 1-based numbering to 0-based indices.
   */
  function ParseFaceIndices(col: string): (r: Result<seq<int>, ParseError>)
    ensures var parts := Split(col, '/');
      r.Success? <==> |parts| >= 3 && ParseInt32(parts[0]).Some? && ParseInt32(parts[1]).Some? && ParseInt32(parts[2]).Some?
    ensures var parts := Split(col, '/');
      r.Success? ==> r.value == [ParseInt32(parts[0]).value - 1, ParseInt32(parts[1]).value - 1, ParseInt32(parts[2]).value - 1]
    ensures r.Success? ==> forall k :: 0 <= k < 3 ==> -Int32Limit - 1 <= r.value[k] < Int32Limit - 1
  {
    var parts := Split(col, '/');
    var a :- Int32Column(parts, 0);
    var b :- Int32Column(parts, 1);
    var c :- Int32Column(parts, 2);
    Success([a - 1, b - 1, c - 1])
  }

  /**
   * One corner of an `f` line: its position, texture coordinate and normal
   * from the three lists at the given indices; the world position is zero.
   */
  function Corner(vertices: seq<Vector3>, uvs: seq<Vector3>, normals: seq<Vector3>, idx: seq<int>): (r: Result<Vertex, ParseError>)
    requires |idx| == 3
    ensures r.Success? <==> 0 <= idx[0] < |vertices| && 0 <= idx[1] < |uvs| && 0 <= idx[2] < |normals|
    ensures r.Success? ==> r.value == Vertex(vertices[idx[0]], Zero(), uvs[idx[1]], normals[idx[2]])
  {
    var c :- Lookup(vertices, idx[0]);
    var uv :- Lookup(uvs, idx[1]);
    var n :- Lookup(normals, idx[2]);
    Success(Vertex(c, Zero(), uv, n))
  }

  /**
   * The face of an `f` line: the three index triples are read first, then the
   * corners are looked up in the lists as they stand, so a face can refer only
   * to entries of earlier lines.
   */
  function FaceLine(vertices: seq<Vector3>, uvs: seq<Vector3>, normals: seq<Vector3>, cols: seq<string>): (r: Result<Triangle, ParseError>)
    ensures r.Success? ==> |cols| >= 4
    ensures r.Success? ==> r.value.v1.coordinates in vertices && r.value.v2.coordinates in vertices && r.value.v3.coordinates in vertices
    ensures r.Success? ==> r.value.v1.uv in uvs && r.value.v2.uv in uvs && r.value.v3.uv in uvs
    ensures r.Success? ==> r.value.v1.normal in normals && r.value.v2.normal in normals && r.value.v3.normal in normals
    ensures vertices == [] ==> r.Failure?
  {
    var s1 :- Column(cols, 1);
    var i1 :- ParseFaceIndices(s1);
    var s2 :- Column(cols, 2);
    var i2 :- ParseFaceIndices(s2);
    var s3 :- Column(cols, 3);
    var i3 :- ParseFaceIndices(s3);
    var v1 :- Corner(vertices, uvs, normals, i1);
    var v2 :- Corner(vertices, uvs, normals, i2);
    var v3 :- Corner(vertices, uvs, normals, i3);
    Success(Triangle(v1, v2, v3))
  }

  /** A column of an `f` line reads as an index triple whose three indices fall inside the lists. */
  predicate CornerReads(vertices: seq<Vector3>, uvs: seq<Vector3>, normals: seq<Vector3>, col: string) {
    ParseFaceIndices(col).Success? && Corner(vertices, uvs, normals, ParseFaceIndices(col).value).Success?
  }

  /**
   * An `f` line gives a face exactly when it has three more columns, each an
   * index triple that refers to entries already in the lists, and the face's
   * corners are those entries, in column order.
   */
  lemma FaceLineCorners(vertices: seq<Vector3>, uvs: seq<Vector3>, normals: seq<Vector3>, cols: seq<string>)
    ensures FaceLine(vertices, uvs, normals, cols).Success? <==> (|cols| >= 4 && CornerReads(vertices, uvs, normals, cols[1])
      && CornerReads(vertices, uvs, normals, cols[2]) && CornerReads(vertices, uvs, normals, cols[3]))
    ensures FaceLine(vertices, uvs, normals, cols).Success? ==> FaceLine(vertices, uvs, normals, cols).value == Triangle(
      Corner(vertices, uvs, normals, ParseFaceIndices(cols[1]).value).value,
      Corner(vertices, uvs, normals, ParseFaceIndices(cols[2]).value).value,
      Corner(vertices, uvs, normals, ParseFaceIndices(cols[3]).value).value)
  {
  }

  /** The cases of parseObj's switch on the first token of a line. */
  datatype Kind = V | Vt | Vn | F | Unknown(token: string)

  function Classify(token: string): (k: Kind)
    ensures k == V <==> token == "v"
    ensures k == Vt <==> token == "vt"
    ensures k == Vn <==> token == "vn"
    ensures k == F <==> token == "f"
    ensures k.Unknown? ==> k.token == token
  {
    if token == "v" then V
    else if token == "vt" then Vt
    else if token == "vn" then Vn
    else if token == "f" then F
    else Unknown(token)
  }

  /** The kind of a line, from its first space-separated token. */
  function KindOf(line: string): Kind {
    Classify(Fields(line)[0])
  }

  /** What one line does to the state: the body of parseObj's switch. */
  function ObjStep(st: ObjState, line: string): Result<ObjState, ParseError> {
    var cols := Fields(line);
    match Classify(cols[0])
    case V =>
      var v :- ParseVertex(cols);
      Success(st.(vertices := st.vertices + [v]))
    case Vt =>
      var uv :- ParseUv(cols);
      Success(st.(uvs := st.uvs + [uv]))
    case Vn =>
      var n :- ParseNormal(cols);
      Success(st.(normals := st.normals + [n]))
    case F =>
      var t :- FaceLine(st.vertices, st.uvs, st.normals, cols);
      Success(st.(faces := st.faces + [t]))
    case Unknown(token) =>
      Failure(UnknownKind(token))
  }

  function EmptyObj(): ObjState {
    ObjState([], [], [], [])
  }

  /** The state after all lines, or the failure of the first line that fails. */
  function ParseLines(lines: seq<string>): Result<ObjState, ParseError> {
    FoldLines(ObjStep, EmptyObj(), lines)
  }

  /** How many of the lines are of the given kind. */
  function CountKind(lines: seq<string>, kind: Kind): (n: nat)
    ensures n <= |lines|
  {
    if lines == [] then 0
    else CountKind(lines[..|lines| - 1], kind) + (if KindOf(lines[|lines| - 1]) == kind then 1 else 0)
  }

  /**
   * parseObj: reads the lines in order. Each line goes through the switch
   * (ObjStep), which extends the three lists; each `f` line also allocates a
   * new Face. The result has NewMesh's transform. It computes exactly
   * ParseLines: it fails when ParseLines fails, with the same error, and
   * otherwise its faces hold ParseLines' triangles in order.
   */
  method ParseObj(lines: seq<string>) returns (r: Result<Mesh, ParseError>)
    ensures r.Success? <==> ParseLines(lines).Success?
    ensures r.Failure? ==> r.error == ParseLines(lines).error
    ensures r.Success? ==> Triangles(r.value.faces) == ParseLines(lines).value.faces
    ensures r.Success? ==> Distinct(r.value.faces) && forall f :: f in r.value.faces ==> fresh(f)
    ensures r.Success? ==> r.value.(faces := []) == NewMesh()
  {
    var st := EmptyObj();
    var faces: seq<Face> := [];
    var i := 0;
    while i < |lines|
      invariant 0 <= i <= |lines|
      invariant ParseLines(lines[..i]) == Success(st)
      invariant Triangles(faces) == st.faces
      invariant Distinct(faces)
      invariant forall f :: f in faces ==> fresh(f)
    {
      FoldNext(ObjStep, EmptyObj(), lines, i);
      var next := ObjStep(st, lines[i]);
      if next.Failure? {
        FoldFailureSticks(ObjStep, EmptyObj(), lines, i + 1);
        return Failure(next.error);
      }
      StepAppends(st, lines[i]);
      if |next.value.faces| > |st.faces| {
        var t := next.value.faces[|st.faces|];
        assert next.value.faces == st.faces + [t];
        var f := new Face(t.v1, t.v2, t.v3);
        DistinctAppend(faces, f);
        TrianglesAppend(faces, f);
        faces := faces + [f];
      }
      st := next.value;
      i := i + 1;
    }
    assert lines[..i] == lines;
    return Success(NewMesh().(faces := faces));
  }

  // ---------------------------------------------------------------------------
  // Laws

  /**
   * An `a/b/c` triple written with Go's decimal format reads back as the
   * three numbers less one, for every 32-bit a, b and c.
   */
  lemma FaceIndicesRoundTrip(a: int, b: int, c: int)
    requires -Int32Limit <= a < Int32Limit && -Int32Limit <= b < Int32Limit && -Int32Limit <= c < Int32Limit
    ensures ParseFaceIndices(FormatInt(a) + "/" + FormatInt(b) + "/" + FormatInt(c)) == Success([a - 1, b - 1, c - 1])
  {
    var sa, sb, sc := FormatInt(a), FormatInt(b), FormatInt(c);
    FormatIntHasNo(a, '/');
    FormatIntHasNo(b, '/');
    FormatIntHasNo(c, '/');
    SplitThree(sa, sb, sc, '/');
    var parts := Split(sa + "/" + sb + "/" + sc, '/');
    assert parts == [sa, sb, sc];
    ParseFormat(a, Int32Limit);
    ParseFormat(b, Int32Limit);
    ParseFormat(c, Int32Limit);
    assert Int32Column(parts, 0) == Success(a);
    assert Int32Column(parts, 1) == Success(b);
    assert Int32Column(parts, 2) == Success(c);
  }

  /** A face column without slashes (`f 1 2 3`) lacks the uv and normal parts and fails. */
  lemma FaceIndicesNeedSlashes(col: string)
    requires '/' !in col
    ensures ParseFaceIndices(col).Failure?
    ensures ParseInt32(col).Some? ==> ParseFaceIndices(col) == Failure(MissingColumn(1))
  {
    SplitPiece(col, '/', []);
  }

  /** The column `v/t/n` of an `f` line, for 1-based indices v, t and n. */
  function IndexTriple(i: seq<int>): string
    requires |i| == 3
  {
    FormatInt(i[0]) + "/" + FormatInt(i[1]) + "/" + FormatInt(i[2])
  }

  /** The line `f a b c` for three index triples. */
  function FaceText(a: seq<int>, b: seq<int>, c: seq<int>): string
    requires |a| == 3 && |b| == 3 && |c| == 3
  {
    "f" + [' '] + IndexTriple(a) + [' '] + IndexTriple(b) + [' '] + IndexTriple(c)
  }

  /** A 1-based, 32-bit index triple whose entries are present in the three lists. */
  predicate Refers(st: ObjState, i: seq<int>) {
    |i| == 3 && 1 <= i[0] <= |st.vertices| && 1 <= i[1] <= |st.uvs| && 1 <= i[2] <= |st.normals|
    && i[0] < Int32Limit && i[1] < Int32Limit && i[2] < Int32Limit
  }

  /** The corner an index triple refers to. */
  function Referenced(st: ObjState, i: seq<int>): Vertex
    requires Refers(st, i)
  {
    Vertex(st.vertices[i[0] - 1], Zero(), st.uvs[i[1] - 1], st.normals[i[2] - 1])
  }

  /**
   * An `f` line whose triples refer to entries already read appends the face
   * of the referenced position, texture coordinate and normal at each corner,
   * and changes nothing else.
   */
  lemma FaceLineRoundTrip(st: ObjState, a: seq<int>, b: seq<int>, c: seq<int>)
    requires Refers(st, a) && Refers(st, b) && Refers(st, c)
    ensures ObjStep(st, FaceText(a, b, c))
      == Success(st.(faces := st.faces + [Triangle(Referenced(st, a), Referenced(st, b), Referenced(st, c))]))
  {
    FaceTextFields(a, b, c);
    var cols := Fields(FaceText(a, b, c));
    TripleCorner(st, a);
    TripleCorner(st, b);
    TripleCorner(st, c);
    FaceLineCorners(st.vertices, st.uvs, st.normals, cols);
    assert FaceLine(st.vertices, st.uvs, st.normals, cols)
      == Success(Triangle(Referenced(st, a), Referenced(st, b), Referenced(st, c)));
  }

  /** The columns of `f a b c` are the keyword and the three triples. */
  lemma FaceTextFields(a: seq<int>, b: seq<int>, c: seq<int>)
    requires |a| == 3 && |b| == 3 && |c| == 3
    ensures Fields(FaceText(a, b, c)) == ["f", IndexTriple(a), IndexTriple(b), IndexTriple(c)]
  {
    TripleHasNoSpace(a);
    TripleHasNoSpace(b);
    TripleHasNoSpace(c);
    SplitFour("f", IndexTriple(a), IndexTriple(b), IndexTriple(c), ' ');
  }

  /** A triple that refers to entries already read gives the corner it refers to. */
  lemma TripleCorner(st: ObjState, i: seq<int>)
    requires Refers(st, i)
    ensures ParseFaceIndices(IndexTriple(i)) == Success([i[0] - 1, i[1] - 1, i[2] - 1])
    ensures Corner(st.vertices, st.uvs, st.normals, [i[0] - 1, i[1] - 1, i[2] - 1]) == Success(Referenced(st, i))
  {
    FaceIndicesRoundTrip(i[0], i[1], i[2]);
  }

  /** An index triple has no spaces, so it stays one column of its line. */
  lemma TripleHasNoSpace(i: seq<int>)
    requires |i| == 3
    ensures ' ' !in IndexTriple(i)
  {
    FormatIntHasNo(i[0], ' ');
    FormatIntHasNo(i[1], ' ');
    FormatIntHasNo(i[2], ' ');
  }

  /**
   * A line whose first token is not v, vt, vn or f (an empty line and a `#`
   * comment among them) makes the whole parse fail, whatever the other
   * lines are.
   */
  lemma {:induction false} UnknownLineAborts(lines: seq<string>, n: nat)
    requires n < |lines|
    requires Fields(lines[n])[0] !in ["v", "vt", "vn", "f"]
    ensures ParseLines(lines).Failure?
    ensures ParseLines(lines[..n]).Success? ==> ParseLines(lines) == Failure(UnknownKind(Fields(lines[n])[0]))
  {
    FoldNext(ObjStep, EmptyObj(), lines, n);
    FoldFailureSticks(ObjStep, EmptyObj(), lines, n + 1);
  }

  /** Blank lines and comments are not allowed in this reader. */
  lemma BlankAndCommentLinesFail(st: ObjState, comment: string)
    ensures ObjStep(st, "") == Failure(UnknownKind(""))
    ensures ObjStep(st, "#" + [' '] + comment) == Failure(UnknownKind("#"))
  {
    SplitPiece("#", ' ', comment);
  }

  /**
   * One line appends at most one entry, to the list its kind selects, and
   * changes nothing else.
   */
  lemma StepAppends(st: ObjState, line: string)
    requires ObjStep(st, line).Success?
    ensures var q := ObjStep(st, line).value;
      st.faces <= q.faces && st.vertices <= q.vertices && st.uvs <= q.uvs && st.normals <= q.normals
    ensures var q := ObjStep(st, line).value;
      |q.faces| == |st.faces| + (if KindOf(line) == F then 1 else 0) &&
      |q.vertices| == |st.vertices| + (if KindOf(line) == V then 1 else 0) &&
      |q.uvs| == |st.uvs| + (if KindOf(line) == Vt then 1 else 0) &&
      |q.normals| == |st.normals| + (if KindOf(line) == Vn then 1 else 0)
  {
  }

  /**
   * After a successful parse there is one face per `f` line, one vertex per
   * `v` line, one texture coordinate per `vt` line and one normal per `vn`
   * line.
   */
  lemma {:induction false} Counts(lines: seq<string>)
    requires ParseLines(lines).Success?
    ensures |ParseLines(lines).value.faces| == CountKind(lines, F)
    ensures |ParseLines(lines).value.vertices| == CountKind(lines, V)
    ensures |ParseLines(lines).value.uvs| == CountKind(lines, Vt)
    ensures |ParseLines(lines).value.normals| == CountKind(lines, Vn)
  {
    if lines != [] {
      var init := lines[..|lines| - 1];
      FoldNext(ObjStep, EmptyObj(), lines, |lines| - 1);
      assert lines[..|lines|] == lines;
      FoldPrefixSucceeds(ObjStep, EmptyObj(), lines, |lines| - 1);
      StepAppends(ParseLines(init).value, lines[|lines| - 1]);
      Counts(init);
    }
  }

  /**
   * Reading more lines only appends: the lists and faces after any prefix of
   * a successful input are prefixes of the final ones, so faces come out in
   * line order.
   */
  lemma {:induction false} PrefixOrder(lines: seq<string>, n: nat)
    requires n <= |lines| && ParseLines(lines).Success?
    ensures ParseLines(lines[..n]).Success?
    ensures var p, q := ParseLines(lines[..n]).value, ParseLines(lines).value;
      p.faces <= q.faces && p.vertices <= q.vertices && p.uvs <= q.uvs && p.normals <= q.normals
    decreases |lines| - n
  {
    FoldPrefixSucceeds(ObjStep, EmptyObj(), lines, n);
    if n < |lines| {
      FoldNext(ObjStep, EmptyObj(), lines, n);
      FoldPrefixSucceeds(ObjStep, EmptyObj(), lines, n + 1);
      StepAppends(ParseLines(lines[..n]).value, lines[n]);
      PrefixOrder(lines, n + 1);
    } else {
      assert lines[..n] == lines;
    }
  }
}
