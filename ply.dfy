/**
 * The PLY reader of package poly (poly/ply.go). A header gives the number of
 * vertices and faces; then come exactly that many vertex lines and face
 * lines. Faces refer to vertices by 0-based index and carry positions only.
 */
module Ply {
  import opened Wrappers
  import opened GoLib
  import opened Vectors
  import opened Geometry
  import opened Parsing

  /** The two counts parseHeader returns. */
  datatype Header = Header(numVertex: int, numFace: int)

  /** strconv.Atoi(cols[k]). */
  function AtoiColumn(cols: seq<string>, k: nat): (r: Result<int, ParseError>)
    ensures r.Success? <==> k < |cols| && Atoi(cols[k]).Some?
    ensures r.Success? ==> r.value == Atoi(cols[k]).value
  {
    var text :- Column(cols, k);
    match Atoi(text)
    case Some(n) => Success(n)
    case None => Failure(BadNumber(text))
  }

  /**
   * One header line. `element vertex N` sets the vertex count and `element
   * face M` the face count; every other line, including `element` lines
   * of other kinds, leaves the counts alone. An `element` line without a
   * kind, or a vertex or face line without a valid count, fails.
   */
  function HeaderLine(h: Header, line: string): (r: Result<Header, ParseError>)
    ensures Fields(line)[0] != "element" ==> r == Success(h)
    ensures r.Failure? ==> Fields(line)[0] == "element"
    ensures var cols := Fields(line);
      r.Failure? <==> cols[0] == "element" && (|cols| < 2 || ((cols[1] == "vertex" || cols[1] == "face") && AtoiColumn(cols, 2).Failure?))
    ensures var cols := Fields(line);
      r.Success? && |cols| >= 2 && cols[0] == "element" && cols[1] == "vertex" ==> r.value == h.(numVertex := AtoiColumn(cols, 2).value)
    ensures var cols := Fields(line);
      r.Success? && |cols| >= 2 && cols[0] == "element" && cols[1] == "face" ==> r.value == h.(numFace := AtoiColumn(cols, 2).value)
    ensures var cols := Fields(line);
      |cols| >= 2 && cols[0] == "element" && cols[1] != "vertex" && cols[1] != "face" ==> r == Success(h)
    ensures r.Success? && r.value.numVertex != h.numVertex ==> var cols := Fields(line);
      |cols| >= 3 && cols[0] == "element" && cols[1] == "vertex" && Atoi(cols[2]) == Some(r.value.numVertex) && r.value.numFace == h.numFace
    ensures r.Success? && r.value.numFace != h.numFace ==> var cols := Fields(line);
      |cols| >= 3 && cols[0] == "element" && cols[1] == "face" && Atoi(cols[2]) == Some(r.value.numFace) && r.value.numVertex == h.numVertex
  {
    var cols := Fields(line);
    if cols[0] != "element" then Success(h)
    else
      var kind :- Column(cols, 1);
      if kind == "vertex" then
        var n :- AtoiColumn(cols, 2);
        Success(h.(numVertex := n))
      else if kind == "face" then
        var n :- AtoiColumn(cols, 2);
        Success(h.(numFace := n))
      else
        Success(h)
  }

  /** The counts after the given header lines; both start at 0. */
  function HeaderCounts(lines: seq<string>): Result<Header, ParseError> {
    FoldLines(HeaderLine, Header(0, 0), lines)
  }

  /** Where the header ends: the index of the first `end_header` line, or the number of lines if there is none. */
  function HeaderEnd(lines: seq<string>): (e: nat)
    ensures e <= |lines|
    ensures e < |lines| ==> lines[e] == "end_header"
  {
    if lines == [] || lines[0] == "end_header" then 0 else 1 + HeaderEnd(lines[1..])
  }

  /** No line before the end of the header is `end_header`: the header ends at the first one. */
  lemma {:induction false} HeaderEndFirst(lines: seq<string>, k: nat)
    requires k < HeaderEnd(lines)
    ensures lines[k] != "end_header"
  {
    if k > 0 {
      HeaderEndFirst(lines[1..], k - 1);
    }
  }

  /**
   * parseHeader: reads lines until `end_header` (or the end of the input)
   * and returns the counts. On success, `next` is the line after
   * `end_header`, where the vertex lines start.
   */
  method ParseHeader(lines: seq<string>) returns (r: Result<Header, ParseError>, next: nat)
    ensures r == HeaderCounts(lines[..HeaderEnd(lines)])
    ensures r.Success? ==> next == HeaderEnd(lines) + 1
  {
    var h := Header(0, 0);
    var i := 0;
    ghost var header := lines[..HeaderEnd(lines)];
    while i < |lines|
      invariant 0 <= i <= HeaderEnd(lines)
      invariant header[..i] == lines[..i]
      invariant HeaderCounts(lines[..i]) == Success(h)
    {
      if lines[i] == "end_header" {
        if i < HeaderEnd(lines) {
          HeaderEndFirst(lines, i);
        }
        break;
      }
      FoldNext(HeaderLine, Header(0, 0), header, i);
      var step := HeaderLine(h, lines[i]);
      if step.Failure? {
        FoldFailureSticks(HeaderLine, Header(0, 0), header, i + 1);
        return Failure(step.error), 0;
      }
      h := step.value;
      i := i + 1;
    }
    assert lines[..i] == header;
    return Success(h), i + 1;
  }

  /** parsePlyVertex: the x, y and z of a vertex line, in that order. */
  function ParsePlyVertex(cols: seq<string>): (r: Result<Vector3, ParseError>)
    ensures r.Success? <==> |cols| >= 3 && ParseFloat32(cols[0]).Some? && ParseFloat32(cols[1]).Some? && ParseFloat32(cols[2]).Some?
    ensures r.Success? ==> r.value == Vector3(ParseFloat32(cols[0]).value, ParseFloat32(cols[1]).value, ParseFloat32(cols[2]).value)
  {
    var x :- FloatColumn(cols, 0);
    var y :- FloatColumn(cols, 1);
    var z :- FloatColumn(cols, 2);
    Success(NewVector3(x, y, z))
  }

  /**
   * parsePlyFace: the three vertex indices of a face line `3 a b c`. The
   * leading count is skipped, not checked, and the indices are kept as they
   * are (PLY numbers vertices from 0).
   */
  function ParsePlyFace(cols: seq<string>): (r: Result<seq<int>, ParseError>)
    ensures r.Success? <==> |cols| >= 4 && Atoi(cols[1]).Some? && Atoi(cols[2]).Some? && Atoi(cols[3]).Some?
    ensures r.Success? ==> r.value == [Atoi(cols[1]).value, Atoi(cols[2]).value, Atoi(cols[3]).value]
  {
    var a :- AtoiColumn(cols, 1);
    var b :- AtoiColumn(cols, 2);
    var c :- AtoiColumn(cols, 3);
    Success([a, b, c])
  }

  /**
   * The face with the given vertex indices: each corner has the position of
   * its vertex and zero texture coordinate, normal and world position.
   */
  function PlyTriangle(vertices: seq<Vector3>, idx: seq<int>): (r: Result<Triangle, ParseError>)
    requires |idx| == 3
    ensures r.Success? <==> forall k :: 0 <= k < 3 ==> 0 <= idx[k] < |vertices|
    ensures r.Success? ==> r.value == Triangle(VertexAt(vertices[idx[0]], Zero()), VertexAt(vertices[idx[1]], Zero()), VertexAt(vertices[idx[2]], Zero()))
  {
    var a :- Lookup(vertices, idx[0]);
    var b :- Lookup(vertices, idx[1]);
    var c :- Lookup(vertices, idx[2]);
    Success(Triangle(VertexAt(a, Zero()), VertexAt(b, Zero()), VertexAt(c, Zero())))
  }

  /** The n lines from `start` as the scanner yields them: empty past the end of the input. */
  function Window(lines: seq<string>, start: nat, n: nat): (w: seq<string>)
    ensures |w| == n
  {
    seq(n, k requires 0 <= k < n => LineAt(lines, start + k))
  }

  /** Line k of a window is line start + k of the input. */
  lemma WindowAt(lines: seq<string>, start: nat, n: nat, k: nat)
    requires k < n
    ensures Window(lines, start, n)[k] == LineAt(lines, start + k)
  {
  }

  /** One vertex line: the vertex is appended. */
  function VertexStep(vertices: seq<Vector3>, line: string): Result<seq<Vector3>, ParseError> {
    var v :- ParsePlyVertex(Fields(line));
    Success(vertices + [v])
  }

  /** The face loop's state: the vertices faces refer to, and the faces read so far. */
  datatype FaceState = FaceState(vertices: seq<Vector3>, faces: seq<Triangle>)

  /** A corner that has the position of one of the vertices and zero texture coordinate, normal and world position. */
  predicate PositionOnly(c: Vertex, vertices: seq<Vector3>) {
    c.coordinates in vertices && c.uv == Zero() && c.normal == Zero() && c.worldCoordinates == Zero()
  }

  /** Three indices, each of a vertex in the list. */
  predicate Indexes(idx: seq<int>, vertices: seq<Vector3>) {
    |idx| == 3 && 0 <= idx[0] < |vertices| && 0 <= idx[1] < |vertices| && 0 <= idx[2] < |vertices|
  }

  /**
   * The face of one face line over the given vertices: each corner takes the
   * position of the vertex at its index and nothing else.
   */
  function FaceOfLine(vertices: seq<Vector3>, line: string): (r: Result<Triangle, ParseError>)
    ensures r.Success? ==> ParsePlyFace(Fields(line)).Success?
    ensures r.Success? <==> ParsePlyFace(Fields(line)).Success? && Indexes(ParsePlyFace(Fields(line)).value, vertices)
    ensures r.Success? ==> var idx := ParsePlyFace(Fields(line)).value;
      r.value == Triangle(VertexAt(vertices[idx[0]], Zero()), VertexAt(vertices[idx[1]], Zero()), VertexAt(vertices[idx[2]], Zero()))
    ensures r.Success? ==> PositionOnly(r.value.v1, vertices) && PositionOnly(r.value.v2, vertices) && PositionOnly(r.value.v3, vertices)
  {
    var idx :- ParsePlyFace(Fields(line));
    PlyTriangle(vertices, idx)
  }

  /** One face line: its face is appended. */
  function FaceStep(st: FaceState, line: string): Result<FaceState, ParseError> {
    var t :- FaceOfLine(st.vertices, line);
    Success(st.(faces := st.faces + [t]))
  }

  /** The faces of a face-loop result, or its failure. */
  function FacesOf(r: Result<FaceState, ParseError>): (f: Result<seq<Triangle>, ParseError>)
    ensures f.Success? <==> r.Success?
    ensures f.Success? ==> f.value == r.value.faces
    ensures f.Failure? ==> f.error == r.error
  {
    match r
    case Failure(e) => Failure(e)
    case Success(st) => Success(st.faces)
  }

  lemma FacesOfSuccess(r: Result<FaceState, ParseError>)
    requires FacesOf(r).Success?
    ensures r.Success? && FacesOf(r).value == r.value.faces
  {
  }

  /** The vertices read from the given lines. */
  function ReadVertices(lines: seq<string>): Result<seq<Vector3>, ParseError> {
    FoldLines(VertexStep, [], lines)
  }

  /** The faces over `vertices` read from the given lines. */
  function ReadFaces(vertices: seq<Vector3>, lines: seq<string>): Result<FaceState, ParseError> {
    FoldLines(FaceStep, FaceState(vertices, []), lines)
  }

  /**
   * What parsePly computes: the header, a failure for a negative count (make
   * panics on a negative capacity; the vertex count is checked first), then
   * numVertex vertex lines and numFace face lines.
   */
  function PlyFaces(lines: seq<string>): Result<seq<Triangle>, ParseError> {
    match HeaderCounts(lines[..HeaderEnd(lines)])
    case Failure(e) => Failure(e)
    case Success(h) => PlyBody(h, lines, HeaderEnd(lines) + 1)
  }

  /** What follows the header: the count checks, then the vertex lines from `start` and the face lines after them. */
  function PlyBody(h: Header, lines: seq<string>, start: nat): Result<seq<Triangle>, ParseError> {
    if h.numVertex < 0 then Failure(NegativeCount(h.numVertex))
    else if h.numFace < 0 then Failure(NegativeCount(h.numFace))
    else
      match ReadVertices(Window(lines, start, h.numVertex))
      case Failure(e) => Failure(e)
      case Success(vertices) =>
        FacesOf(ReadFaces(vertices, Window(lines, start + h.numVertex, h.numFace)))
  }

  /** The vertex loop of parsePly: n vertex lines from `start`. */
  method ReadVertexLines(lines: seq<string>, start: nat, n: nat) returns (r: Result<seq<Vector3>, ParseError>)
    ensures r == ReadVertices(Window(lines, start, n))
  {
    ghost var w := Window(lines, start, n);
    var vertices: seq<Vector3> := [];
    var i := 0;
    while i < n
      invariant 0 <= i <= n
      invariant ReadVertices(w[..i]) == Success(vertices)
    {
      FoldNext(VertexStep, [], w, i);
      WindowAt(lines, start, n, i);
      var v := ParsePlyVertex(Fields(LineAt(lines, start + i)));
      if v.Failure? {
        FoldFailureSticks(VertexStep, [], w, i + 1);
        return Failure(v.error);
      }
      vertices := vertices + [v.value];
      i := i + 1;
    }
    assert w[..i] == w;
    return Success(vertices);
  }

  /**
   * The face loop of parsePly: n face lines from `start`, one new Face per
   * line, with the triangles ReadFaces gives.
   */
  method NewFaceLines(vertices: seq<Vector3>, lines: seq<string>, start: nat, n: nat) returns (r: Result<seq<Face>, ParseError>)
    ensures r.Success? ==> ReadFaces(vertices, Window(lines, start, n)) == Success(FaceState(vertices, Triangles(r.value)))
    ensures r.Failure? ==> ReadFaces(vertices, Window(lines, start, n)) == Failure(r.error)
    ensures r.Success? ==> Distinct(r.value) && forall f :: f in r.value ==> fresh(f)
  {
    ghost var w := Window(lines, start, n);
    ghost var ts: seq<Triangle> := [];
    var faces: seq<Face> := [];
    var j := 0;
    while j < n
      invariant 0 <= j <= n
      invariant ReadFaces(vertices, w[..j]) == Success(FaceState(vertices, ts))
      invariant Triangles(faces) == ts
      invariant Distinct(faces)
      invariant forall f :: f in faces ==> fresh(f)
    {
      FoldNext(FaceStep, FaceState(vertices, []), w, j);
      WindowAt(lines, start, n, j);
      var t := FaceOfLine(vertices, LineAt(lines, start + j));
      if t.Failure? {
        FoldFailureSticks(FaceStep, FaceState(vertices, []), w, j + 1);
        return Failure(t.error);
      }
      var f := new Face(t.value.v1, t.value.v2, t.value.v3);
      DistinctAppend(faces, f);
      TrianglesAppend(faces, f);
      faces := faces + [f];
      ts := ts + [t.value];
      j := j + 1;
    }
    assert w[..j] == w;
    return Success(faces);
  }

  /**
   * What parsePly does after the header: it rejects a negative count, then
   * runs the vertex loop from `start` and the face loop after it.
   */
  method ParseBody(h: Header, lines: seq<string>, start: nat) returns (r: Result<seq<Face>, ParseError>)
    ensures r.Success? ==> PlyBody(h, lines, start) == Success(Triangles(r.value))
    ensures r.Failure? ==> PlyBody(h, lines, start) == Failure(r.error)
    ensures r.Success? ==> Distinct(r.value) && forall f :: f in r.value ==> fresh(f)
  {
    if h.numVertex < 0 {
      return Failure(NegativeCount(h.numVertex));
    }
    if h.numFace < 0 {
      return Failure(NegativeCount(h.numFace));
    }
    var vertices := ReadVertexLines(lines, start, h.numVertex);
    if vertices.Failure? {
      return Failure(vertices.error);
    }
    BodyAfterVertices(h, lines, start, vertices.value);
    r := NewFaceLines(vertices.value, lines, start + h.numVertex, h.numFace);
  }

  /** Once the vertex lines give `vertices`, the body is what the face lines give over them. */
  lemma BodyAfterVertices(h: Header, lines: seq<string>, start: nat, vertices: seq<Vector3>)
    requires h.numVertex >= 0 && h.numFace >= 0
    requires ReadVertices(Window(lines, start, h.numVertex)) == Success(vertices)
    ensures PlyBody(h, lines, start) == FacesOf(ReadFaces(vertices, Window(lines, start + h.numVertex, h.numFace)))
  {
  }

  /**
   * parsePly: the header, then two counted loops, the first collecting the
   * vertices and the second allocating one Face per face line. The result
   * has NewMesh's transform and exactly PlyFaces' triangles, or PlyFaces'
   * failure.
   */
  method ParsePly(lines: seq<string>) returns (r: Result<Mesh, ParseError>)
    ensures r.Success? <==> PlyFaces(lines).Success?
    ensures r.Failure? ==> r.error == PlyFaces(lines).error
    ensures r.Success? ==> Triangles(r.value.faces) == PlyFaces(lines).value
    ensures r.Success? ==> Distinct(r.value.faces) && forall f :: f in r.value.faces ==> fresh(f)
    ensures r.Success? ==> r.value.(faces := []) == NewMesh()
  {
    var h, next := ParseHeader(lines);
    if h.Failure? {
      return Failure(h.error);
    }
    var faces := ParseBody(h.value, lines, next);
    if faces.Failure? {
      return Failure(faces.error);
    }
    return Success(NewMesh().(faces := faces.value));
  }

  // ---------------------------------------------------------------------------
  // Laws

  /** The header line `element <kind> <n>`. */
  function ElementLine(kind: string, n: int): string {
    "element" + [' '] + kind + [' '] + FormatInt(n)
  }

  /** An `element` line for a kind without spaces splits into the keyword, the kind and the count. */
  lemma ElementLineFields(kind: string, n: int)
    requires ' ' !in kind
    ensures Fields(ElementLine(kind, n)) == ["element", kind, FormatInt(n)]
  {
    FormatIntHasNo(n, ' ');
    SplitThree("element", kind, FormatInt(n), ' ');
  }

  /**
   * A header line `element vertex n` (or `element face n`) for any 64-bit n
   * sets that count to n and keeps the other, whatever came before: a later
   * line overwrites an earlier one.
   */
  lemma ElementLineSets(lines: seq<string>, h: Header, n: int)
    requires HeaderCounts(lines) == Success(h)
    requires MinInt64 <= n <= MaxInt64
    ensures HeaderCounts(lines + [ElementLine("vertex", n)]) == Success(h.(numVertex := n))
    ensures HeaderCounts(lines + [ElementLine("face", n)]) == Success(h.(numFace := n))
  {
    ElementLineStep(h, n);
    FoldSnoc(HeaderLine, Header(0, 0), lines, ElementLine("vertex", n));
    FoldSnoc(HeaderLine, Header(0, 0), lines, ElementLine("face", n));
  }

  /** The single-line step behind ElementLineSets. */
  lemma ElementLineStep(h: Header, n: int)
    requires MinInt64 <= n <= MaxInt64
    ensures HeaderLine(h, ElementLine("vertex", n)) == Success(h.(numVertex := n))
    ensures HeaderLine(h, ElementLine("face", n)) == Success(h.(numFace := n))
  {
    ParseFormat(n, Int64Limit);
    ElementLineFields("vertex", n);
    ElementLineFields("face", n);
  }

  /** Without `element` lines both counts keep their default, 0. */
  lemma {:induction false} HeaderWithoutElements(lines: seq<string>)
    requires forall k :: 0 <= k < |lines| ==> Fields(lines[k])[0] != "element"
    ensures HeaderCounts(lines) == Success(Header(0, 0))
  {
    if lines != [] {
      var n := |lines| - 1;
      assert forall k :: 0 <= k < n ==> lines[..n][k] == lines[k];
      HeaderWithoutElements(lines[..n]);
    }
  }

  /** The leading count of a face line is skipped: any text may stand in its place. */
  lemma PlyFaceIgnoresCount(cols: seq<string>, x: string)
    requires |cols| >= 1
    ensures ParsePlyFace([x] + cols[1..]) == ParsePlyFace(cols)
  {
    var d := [x] + cols[1..];
    assert |d| == |cols| && forall k :: 1 <= k < |cols| ==> d[k] == cols[k];
  }

  /** The face line `3 a b c`. */
  function PlyFaceText(a: int, b: int, c: int): string {
    "3" + [' '] + FormatInt(a) + [' '] + FormatInt(b) + [' '] + FormatInt(c)
  }

  /** The indices of a face line come back as written, 0-based and unshifted. */
  lemma PlyFaceRoundTrip(a: int, b: int, c: int)
    requires MinInt64 <= a <= MaxInt64 && MinInt64 <= b <= MaxInt64 && MinInt64 <= c <= MaxInt64
    ensures ParsePlyFace(Fields(PlyFaceText(a, b, c))) == Success([a, b, c])
  {
    var sa, sb, sc := FormatInt(a), FormatInt(b), FormatInt(c);
    FormatIntHasNo(a, ' ');
    FormatIntHasNo(b, ' ');
    FormatIntHasNo(c, ' ');
    SplitThree(sa, sb, sc, ' ');
    var rest := sa + [' '] + sb + [' '] + sc;
    assert PlyFaceText(a, b, c) == "3" + [' '] + rest;
    SplitPiece("3", ' ', rest);
    var cols := Fields(PlyFaceText(a, b, c));
    assert cols == ["3", sa, sb, sc];
    ParseFormat(a, Int64Limit);
    ParseFormat(b, Int64Limit);
    ParseFormat(c, Int64Limit);
  }

  /** The vertex lines that parse give one vertex each, in line order. */
  lemma {:induction false} ReadVerticesLines(lines: seq<string>)
    requires ReadVertices(lines).Success?
    ensures |ReadVertices(lines).value| == |lines|
    ensures forall k :: 0 <= k < |lines| ==> ParsePlyVertex(Fields(lines[k])) == Success(ReadVertices(lines).value[k])
  {
    if lines != [] {
      var n := |lines| - 1;
      ReadVerticesLines(lines[..n]);
      assert forall k :: 0 <= k < n ==> lines[..n][k] == lines[k];
    }
  }

  /** The face lines that parse give one face each, in line order, over the same vertices. */
  lemma {:induction false} ReadFacesLines(vertices: seq<Vector3>, lines: seq<string>)
    requires ReadFaces(vertices, lines).Success?
    ensures ReadFaces(vertices, lines).value.vertices == vertices
    ensures |ReadFaces(vertices, lines).value.faces| == |lines|
    ensures forall k :: 0 <= k < |lines| ==> FaceOfLine(vertices, lines[k]) == Success(ReadFaces(vertices, lines).value.faces[k])
  {
    if lines != [] {
      var n := |lines| - 1;
      var prev := ReadFaces(vertices, lines[..n]);
      assert prev.Success?;
      ReadFacesLines(vertices, lines[..n]);
      var t := FaceOfLine(vertices, lines[n]);
      assert t.Success?;
      var faces := ReadFaces(vertices, lines).value.faces;
      assert faces == prev.value.faces + [t.value];
      forall k | 0 <= k < |lines|
        ensures FaceOfLine(vertices, lines[k]) == Success(faces[k])
      {
        if k < n {
          assert lines[..n][k] == lines[k];
          assert FaceOfLine(vertices, lines[..n][k]) == Success(prev.value.faces[k]);
          assert faces[k] == prev.value.faces[k];
        } else {
          assert k == n && faces[k] == t.value;
        }
      }
    }
  }

  /** The vertices of a window that parses: one per line, in line order. */
  lemma WindowVertices(lines: seq<string>, start: nat, n: nat, vertices: seq<Vector3>)
    requires ReadVertices(Window(lines, start, n)) == Success(vertices)
    ensures |vertices| == n
    ensures forall k :: 0 <= k < n ==> ParsePlyVertex(Fields(LineAt(lines, start + k))) == Success(vertices[k])
  {
    var w := Window(lines, start, n);
    ReadVerticesLines(w);
    forall k | 0 <= k < n
      ensures ParsePlyVertex(Fields(LineAt(lines, start + k))) == Success(vertices[k])
    {
      WindowAt(lines, start, n, k);
    }
  }

  /** The faces of a window that parses: one per line, in line order, each over the given vertices. */
  lemma WindowFaces(vertices: seq<Vector3>, lines: seq<string>, start: nat, n: nat, faces: seq<Triangle>)
    requires FacesOf(ReadFaces(vertices, Window(lines, start, n))) == Success(faces)
    ensures |faces| == n
    ensures forall k :: 0 <= k < n ==> FaceOfLine(vertices, LineAt(lines, start + k)) == Success(faces[k])
  {
    var w := Window(lines, start, n);
    FacesOfSuccess(ReadFaces(vertices, w));
    ReadFacesLines(vertices, w);
    forall k | 0 <= k < n
      ensures FaceOfLine(vertices, LineAt(lines, start + k)) == Success(faces[k])
    {
      WindowAt(lines, start, n, k);
    }
  }

  /** The header decides the body: the parse is PlyBody from the line after `end_header`. */
  lemma PlyFacesBody(lines: seq<string>, h: Header)
    requires HeaderCounts(lines[..HeaderEnd(lines)]) == Success(h)
    ensures PlyFaces(lines) == PlyBody(h, lines, HeaderEnd(lines) + 1)
  {
  }

  /** A body that parses has non-negative counts and vertex lines that parse. */
  lemma BodySucceeds(h: Header, lines: seq<string>, start: nat)
    requires PlyBody(h, lines, start).Success?
    ensures h.numVertex >= 0 && h.numFace >= 0
    ensures ReadVertices(Window(lines, start, h.numVertex)).Success?
  {
  }

  /** A negative count in the header makes the parse fail, the vertex count being checked first. */
  lemma NegativeCountFails(lines: seq<string>, h: Header)
    requires HeaderCounts(lines[..HeaderEnd(lines)]) == Success(h)
    requires h.numVertex < 0 || h.numFace < 0
    ensures PlyFaces(lines) == Failure(NegativeCount(if h.numVertex < 0 then h.numVertex else h.numFace))
  {
  }

  /** The scanner's empty text past the end of the input is neither a vertex line nor a face line. */
  lemma BlankLineFails(vertices: seq<Vector3>)
    ensures forall s :: VertexStep(s, "").Failure?
    ensures forall st :: FaceStep(st, "").Failure?
  {
    assert Fields("") == [""];
  }

  /** A window that reaches past the end of the input holds an empty line: the index of the first one. */
  function PastEnd(lines: seq<string>, start: nat): nat {
    if |lines| >= start then |lines| - start else 0
  }

  /** A vertex window that reaches past the end of the input fails. */
  lemma VerticesPastEnd(lines: seq<string>, start: nat, n: nat)
    requires start + n > |lines| && n > 0
    ensures ReadVertices(Window(lines, start, n)).Failure?
  {
    var k := PastEnd(lines, start);
    WindowAt(lines, start, n, k);
    BlankLineFails([]);
    FoldStopsAt(VertexStep, [], Window(lines, start, n), k);
  }

  /** A face window that reaches past the end of the input fails. */
  lemma FacesPastEnd(vertices: seq<Vector3>, lines: seq<string>, start: nat, n: nat)
    requires start + n > |lines| && n > 0
    ensures ReadFaces(vertices, Window(lines, start, n)).Failure?
  {
    var k := PastEnd(lines, start);
    WindowAt(lines, start, n, k);
    BlankLineFails([]);
    FoldStopsAt(FaceStep, FaceState(vertices, []), Window(lines, start, n), k);
  }

  /** Vertex lines that do not parse make the body fail. */
  lemma BodyVerticesFail(h: Header, lines: seq<string>, start: nat)
    requires h.numVertex >= 0 && h.numFace >= 0
    requires ReadVertices(Window(lines, start, h.numVertex)).Failure?
    ensures PlyBody(h, lines, start) == Failure(ReadVertices(Window(lines, start, h.numVertex)).error)
  {
  }

  /**
   * A body that needs more lines than the input has left fails: the missing
   * lines read as empty text.
   */
  lemma BodyMissingLines(h: Header, lines: seq<string>, start: nat)
    requires h.numVertex >= 0 && h.numFace >= 0 && h.numVertex + h.numFace > 0
    requires start + h.numVertex + h.numFace > |lines|
    ensures PlyBody(h, lines, start).Failure?
  {
    if h.numVertex > 0 && start + h.numVertex > |lines| {
      VerticesPastEnd(lines, start, h.numVertex);
      BodyVerticesFail(h, lines, start);
    } else if ReadVertices(Window(lines, start, h.numVertex)).Failure? {
      BodyVerticesFail(h, lines, start);
    } else {
      BodyFacesPastEnd(h, lines, start, ReadVertices(Window(lines, start, h.numVertex)).value);
    }
  }

  /** Vertex lines that parse, followed by too few face lines, make the body fail. */
  lemma BodyFacesPastEnd(h: Header, lines: seq<string>, start: nat, vertices: seq<Vector3>)
    requires h.numVertex >= 0 && h.numFace > 0
    requires ReadVertices(Window(lines, start, h.numVertex)) == Success(vertices)
    requires start + h.numVertex + h.numFace > |lines|
    ensures PlyBody(h, lines, start).Failure?
  {
    FacesPastEnd(vertices, lines, start + h.numVertex, h.numFace);
  }

  /** Face lines that do not parse make the body fail. */
  lemma BodyFacesFail(h: Header, lines: seq<string>, start: nat, vertices: seq<Vector3>)
    requires h.numVertex >= 0 && h.numFace >= 0
    requires ReadVertices(Window(lines, start, h.numVertex)) == Success(vertices)
    requires ReadFaces(vertices, Window(lines, start + h.numVertex, h.numFace)).Failure?
    ensures PlyBody(h, lines, start) == Failure(ReadFaces(vertices, Window(lines, start + h.numVertex, h.numFace)).error)
  {
  }

  /**
   * An input that ends before all the vertex and face lines the header
   * announces fails.
   */
  lemma MissingLinesFail(lines: seq<string>, h: Header)
    requires HeaderCounts(lines[..HeaderEnd(lines)]) == Success(h)
    requires h.numVertex >= 0 && h.numFace >= 0 && h.numVertex + h.numFace > 0
    requires HeaderEnd(lines) + 1 + h.numVertex + h.numFace > |lines|
    ensures PlyFaces(lines).Failure?
  {
    PlyFacesBody(lines, h);
    BodyMissingLines(h, lines, HeaderEnd(lines) + 1);
  }
}
