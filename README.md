# poly in Dafny

A model of the core of poly, a small software renderer written in Go. The
model covers the following parts of the renderer:

- **Vector algebra** (package vecmath): three-component vectors, 4x4
  matrices and the integer and clamp helpers.
- **Scene model** (package poly): RGBA colours and their 8-bit conversion,
  vertices, faces and their normals, meshes, and the built-in plane
  primitive.
- **Shaders**: the vertex and fragment rules of the five shaders (solid,
  flat, texture, normal and Phong).
- **File readers**: the Wavefront OBJ reader and the ASCII PLY reader.
- **Device**: the frame buffer, which can be cleared, written one pixel at a
  time, and used to plot the points of a mesh.

Floating point is modelled by `real`. Go's `int` is a 64-bit integer, with
two's-complement wrap-around written out where it matters.

The parts of Go's standard library that the renderer calls are stand-ins,
in modules `GoLib` and `GoConv`:

- `strings.Split`, `strconv.ParseInt` and `strconv.Atoi` are defined
  exactly.
- `math.Sqrt` is only known to give zero on zero and a positive root of a
  positive number.
- `math.Sin`, `math.Cos`, `math.Tan`, `math.Pow` and `strconv.ParseFloat`
  are functions with no definition. Every proof holds for any function in
  their place.

Each source file has its own module:

| module | source |
|---|---|
| `Scalars` | vecmath/math.go |
| `PolyMath` | poly/math.go, a copy of vecmath/math.go |
| `Vectors` | vecmath/vector3.go |
| `Matrices` | vecmath/matrix4.go, plus `TransformCoordinate` from vector3.go (it needs a matrix) |
| `Colors` | poly/color.go |
| `Geometry` | poly/vertex.go, face.go, mesh.go and camera.go |
| `Primitives` | poly/primitive.go |
| `Shaders` | poly/shader.go |
| `Parsing` | what the two readers share |
| `Obj` | poly/obj.go |
| `Ply` | poly/ply.go |
| `Devices` | poly/device.go |

Values stay values; only what the Go code updates in place is imperative:

- `Vector3`, `Matrix4`, `Color` and `Vertex` are datatypes with functions.
- A face is a class, because `CalcNormal` rewrites its corners in
  place.
- The device is a class over an `array2` of pixels. `ClearColorBuffer` and
  `DrawMesh` are loops proved against the functions `Filled` and
  `PlottedAll`.

The readers take their input as a sequence of lines, as `bufio.Scanner`
yields them. A line read past the end of the input is empty, as
`Scanner.Text` gives it.

- **Panics become failures.** A panic (an index out of range, a strconv
  error, a negative capacity given to `make`) becomes a `Failure` carrying
  a `ParseError`. So does an OBJ line of unknown kind, where Go prints a
  message and exits.
- **Reference definitions.** `Obj.ParseLines` and `Ply.PlyFaces` are the
  readers written as folds over the lines. The methods `Obj.ParseObj` and
  `Ply.ParsePly` keep Go's loops, allocate one `Face` per face line, and are
  proved to compute exactly what those folds compute.

## Model

| member | source | states |
|---|---|---|
| Scalars.Abs | vecmath/math.go:5-10 | n for n >= 0 and -n for negative n; the result is non-negative exactly when n is not the most negative int, which negates to itself |
| Scalars.Min | vecmath/math.go:12-17 | the result is one of the arguments and at most both |
| Scalars.Max | vecmath/math.go:19-24 | the result is one of the arguments and at least both |
| Scalars.Sign | vecmath/math.go:26-35 | the result is -1, 0 or 1; it is 0 exactly for 0 and 1 exactly for positive n |
| Scalars.SignTimesAbs | vecmath/math.go:5-35 | Sign(n) * Abs(n) is n for every int under Go's wrapping multiplication, and in exact arithmetic for every int but the most negative |
| Scalars.Clamp | vecmath/math.go:37-39 | for min <= max the result lies in [min, max], is the value when it is already inside and the nearer bound otherwise; for min > max it is min |
| Scalars.Interpolate | vecmath/math.go:41-43 | min for t <= 0, max for t >= 1, min + (max - min) t in between, and always between min and max |
| PolyMath.Abs | poly/math.go:5-10 | the result is n or -n, and non-negative exactly when n is not the most negative int |
| PolyMath.Min | poly/math.go:12-17 | the result is one of the arguments and at most both |
| PolyMath.Max | poly/math.go:19-24 | the result is one of the arguments and at least both |
| PolyMath.Sign | poly/math.go:26-35 | the result is -1, 0 or 1, 0 exactly for 0, and sign(n) * abs(n) wraps back to n |
| PolyMath.Clamp | poly/math.go:37-39 | for min <= max the result lies in [min, max] and is the value when inside; for min > max it is min |
| PolyMath.Interpolate | poly/math.go:41-43 | min for t <= 0, max for t >= 1, and always between min and max |
| Vectors.Vector3.LengthSq | vecmath/vector3.go:86-88 | never negative, and zero exactly for the zero vector |
| Vectors.Vector3.Length | vecmath/vector3.go:82-84 | never negative, and zero exactly for the zero vector |
| Vectors.Vector3.Normalize | vecmath/vector3.go:90-93 | defined for a non-zero vector; the result scaled back by the length is the vector |
| Vectors.Vector3.Clamp | vecmath/vector3.go:99-105 | for min <= max every component lies in [min, max], is kept when inside and becomes the nearer bound when outside; for min > max every component is min |
| Vectors.Vector3.Reflected | vecmath/vector3.go:107-109 | the result is the mirror image 2(v.n)n - v divided by its length, so it needs a non-zero mirror image |
| Vectors.AddSubInverse | vecmath/vector3.go:38-44 | Add and Sub undo each other, and v - v is Zero() |
| Vectors.NegateInvolutive | vecmath/vector3.go:95-97 | negating twice is the identity, v + (-v) is Zero(), and -v is Zero() - v |
| Vectors.MulScalarDivScalar | vecmath/vector3.go:61-68 | v.MulScalar(f).DivScalar(f) == v for f != 0 |
| Vectors.MulDiv | vecmath/vector3.go:46-52 | componentwise division undoes componentwise multiplication by a vector with no zero component |
| Vectors.DotSymmetric | vecmath/vector3.go:70-72 | Dot is symmetric and v.Dot(v) == v.LengthSq() >= 0 |
| Vectors.CrossOrthogonal | vecmath/vector3.go:74-80 | v x w is orthogonal to v and to w |
| Vectors.CrossAntiCommutative | vecmath/vector3.go:74-80 | v x w == -(w x v) |
| Vectors.CrossParallel | vecmath/vector3.go:74-80 | a vector crossed with a multiple of itself is Zero() |
| Vectors.NormalizeParallel | vecmath/vector3.go:90-93 | the normalised vector points along the original: their cross product is zero |
| Vectors.MirrorIsReflection | vecmath/vector3.go:107-109 | for a unit normal, the mirror image keeps both its dot product with the normal and its squared length |
| Matrices.RotateX | vecmath/matrix4.go:23-32 | the matrix is affine (bottom row 0, 0, 0, 1) for every angle |
| Matrices.RotateY | vecmath/matrix4.go:34-43 | the matrix is affine for every angle |
| Matrices.RotateZ | vecmath/matrix4.go:45-54 | the matrix is affine for every angle |
| Matrices.RotateAxis | vecmath/matrix4.go:56-76 | the matrix, entry for entry as written, is affine with no translation; it needs a non-zero axis |
| Matrices.Translate | vecmath/matrix4.go:78-85 | the matrix is affine |
| Matrices.Scale | vecmath/matrix4.go:87-94 | the matrix is affine |
| Matrices.LookAt | vecmath/matrix4.go:96-107 | the view matrix is affine; it needs from != to and an up vector not parallel to the line of sight |
| Matrices.Orthographic | vecmath/matrix4.go:109-116 | the matrix is affine; it needs right != left, top != bottom and far != near |
| Matrices.Frustum | vecmath/matrix4.go:118-125 | the bottom row is (0, 0, -1, 0); same requirements as Orthographic |
| Matrices.Perspective | vecmath/matrix4.go:127-133 | the frustum is symmetric (entries M02 and M12 are 0) with bottom row (0, 0, -1, 0) |
| Matrices.MulIdentity | vecmath/matrix4.go:153-172 | Identity() is a unit of Mul on both sides |
| Matrices.IdentityMapsPoints | vecmath/matrix4.go:14-21 | Identity() maps every point to itself, with w = 1, also through TransformCoordinate |
| Matrices.TransformAffine | vecmath/vector3.go:29-32 | for an affine matrix w is 1, so TransformCoordinate is MulVector |
| Matrices.TranslateScaleMulVector | vecmath/matrix4.go:78-94 | Translate(t) maps p to p + t and Scale(s) maps p to p * s componentwise |
| Matrices.TranslateCompose | vecmath/matrix4.go:78-85 | Translate(a) * Translate(b) == Translate(a + b) |
| Matrices.MulVectorCompose | vecmath/matrix4.go:153-189 | (a * b) applied to v is a applied to (b applied to v) when b is affine |
| Matrices.AddSubLaws | vecmath/matrix4.go:135-181 | Add is commutative and undone by Sub, m - m is all zeros, and MulScalar(1) is the identity |
| Matrices.RotateFixesAxis | vecmath/matrix4.go:23-54 | each axis rotation fixes every point of its own axis, for any angle |
| Matrices.RotateXKeepsLength | vecmath/matrix4.go:23-32 | RotateX keeps squared lengths whenever sin^2 + cos^2 = 1 |
| Matrices.RotateAxisFixesOrigin | vecmath/matrix4.go:56-76 | RotateAxis maps the origin to itself |
| Matrices.LookAtMapsEyeToOrigin | vecmath/matrix4.go:96-107 | LookAt maps the camera position to the origin |
| Matrices.LookAtRowsOrthogonal | vecmath/matrix4.go:96-107 | the three axes in LookAt's rows are mutually orthogonal |
| Matrices.OrthographicCorners | vecmath/matrix4.go:109-116 | the box corners (left, bottom, -near) and (right, top, -far) map to (-1, -1, -1) and (1, 1, 1) |
| Matrices.FrustumDepth | vecmath/matrix4.go:118-125 | Frustum gives w = -z; after the division the near plane has depth -1 and the far plane depth 1 |
| Colors.Color.MulScalar | poly/color.go:35-37 | red, green and blue are scaled by f and alpha is kept |
| Colors.Color.Min | poly/color.go:39-46 | each channel is the smaller of the two colours' channels |
| Colors.Color.ToNRGBA | poly/color.go:48-54 | a channel in [0, 1] becomes the floor of 255 times it |
| Colors.Channel8 | poly/color.go:49-52 | uint8(x * 255) truncates: floor(255 x) for x in [0, 1], so 1 gives 255 and 0 gives 0 |
| Colors.NewColorFromVec | poly/color.go:23-25 | red, green and blue are x, y and z, and alpha is 1 |
| Colors.AddMulChannelwise | poly/color.go:27-33 | Add and Mul act channel by channel on all four channels, alpha included, and both commute |
| Colors.MulWhite | poly/color.go:31-33 | WHITE is a unit of Mul on both sides |
| Colors.MinLaws | poly/color.go:39-46 | Min is idempotent and commutative |
| Colors.MinWhiteAtMostOne | poly/color.go:39-46 | c.Min(WHITE) has every channel at most 1, and keeps a channel already in [0, 1] |
| Colors.WhiteBlackPixels | poly/color.go:14-17 | WHITE becomes the pixel (255, 255, 255, 255) and BLACK becomes (0, 0, 0, 255) |
| Geometry.Triangle.WithNormals | poly/face.go:12-14 | all three corners get normal n and keep every other field |
| Geometry.Face.CalcNormal | poly/face.go:7-15 | the three normals become the normalised face normal, equal to each other; positions, world positions and texture coordinates are kept |
| Geometry.NewMesh | poly/mesh.go:13-19 | no faces, position and rotation Zero(), scale Unit() = (1, 1, 1) |
| Geometry.FaceNormalOrthogonal | poly/face.go:8-10 | (V2 - V1) x (V3 - V1) is orthogonal to both edges |
| Geometry.FaceNormalWinding | poly/face.go:8-10 | swapping V2 and V3 negates the face normal |
| Geometry.FaceNormalCollinear | poly/face.go:8-10 | collinear corners give the zero normal, so the face cannot be normalised |
| Geometry.WithNormalsKeepsNormal | poly/face.go:12-14 | setting the normals leaves the face normal as it was; setting them twice is setting them once |
| Geometry.WithNormalParallel | poly/face.go:7-15 | the stored normal, scaled by the face normal's length, is the face normal |
| Primitives.NewPlane | poly/primitive.go:5-51 | two new, distinct faces, each exactly its literal triangle after CalcNormal (WithNormal: corners kept, every normal the normalised face normal), the normal pointing straight up; position, rotation and scale are all Zero() |
| Primitives.NewMeshOfTwo | poly/primitive.go:16-50 | for two triangles whose face normals point up: two new, distinct faces, each its triangle after CalcNormal, in a mesh with zero position, rotation and scale |
| Primitives.NewFaceWithNormal | poly/primitive.go:49 | for an upward face normal, a new face equal to the triangle after CalcNormal (WithNormal), whose stored normal points up |
| Primitives.PlaneCorners | poly/primitive.go:6-9 | every corner has y = 0, with x and z each -1 or 1 |
| Primitives.PlaneSharedDiagonal | poly/primitive.go:18-45 | both faces contain v2 and v3 |
| Primitives.PlaneUvs | poly/primitive.go:11-45 | each corner carries the same texture coordinate wherever it occurs |
| Primitives.PlaneWinding | poly/primitive.go:18-45 | both faces have face normal (0, 4, 0): they wind the same way |
| Primitives.Face1Winding | poly/primitive.go:18-31 | the first face has face normal (0, 4, 0) |
| Primitives.Face2Winding | poly/primitive.go:32-45 | the second face has face normal (0, 4, 0) |
| Shaders.Shader.Vertex | poly/shader.go:22-26 | the position is divided by w, the normal is transformed and normalised, and uv and world position are kept; the same for all five shaders |
| Shaders.Diffuse | poly/shader.go:50-51 | Clamp(n.l, 0, 1): in [0, 1], 0 when n.l <= 0, 1 when n.l >= 1, n.l in between |
| Shaders.NewFlatShader | poly/shader.go:37-42 | the colour is stored and the light is stored normalised, so it must be non-zero |
| Shaders.NewPhongShader | poly/shader.go:99-106 | colour and power are stored; light and eye are stored normalised, so both must be non-zero |
| Matrices.TransformCoordinate | vecmath/vector3.go:29-32 | the point mapped by the matrix and divided by w: scaled back by w it is the undivided product MulVector(v) |
| Shaders.VertexAffine | poly/shader.go:22-26 | under an affine matrix the position is just MulVector, with no perspective division |
| Shaders.VertexIdentity | poly/shader.go:22-26 | under Identity() the position and uv are kept and the normal is only normalised |
| Shaders.SolidConstant | poly/shader.go:28-30 | the solid fragment is the stored colour whatever the vertex and point |
| Shaders.FlatFragment | poly/shader.go:50-53 | red, green and blue are scaled by Clamp(n.l, 0, 1) in [0, 1] and alpha is kept; n.l <= 0 gives black with the colour's alpha |
| Shaders.FlatInRange | poly/shader.go:50-53 | a colour with channels in [0, 1] gives fragments with channels in [0, 1] |
| Shaders.TextureSamplesUv | poly/shader.go:71-73 | the texture fragment depends on the texture coordinate alone |
| Shaders.NormalFragment | poly/shader.go:87-90 | red, green and blue are in [0, 1] and alpha is 1; components already in [0, 1] are shown as they are |
| Shaders.PhongAtMostOne | poly/shader.go:114-129 | every channel of a Phong fragment is at most 1 |
| Shaders.PhongUnlit | poly/shader.go:114-128 | for n.l <= 0 there is no specular term: the colour times (0.2, 0.2, 0.2, 2), capped by WHITE |
| Shaders.PhongLit | poly/shader.go:114-128 | for n.l > 0 the colour is multiplied by ambient + diffuse + specular, alpha 3, capped by WHITE |
| GoLib.Split | poly/obj.go:33 | strings.Split on one character always gives at least one piece |
| GoLib.JoinSplit | poly/obj.go:33 | the pieces of a split joined with the separator give back the line |
| GoLib.SplitJoin | poly/obj.go:127 | pieces without the separator, joined, split back into the same pieces |
| GoLib.ParseDecimal | poly/obj.go:128-131 | an accepted number lies in the bit size's range, has a digit, and the empty text is rejected |
| GoLib.ParseInt32 | poly/obj.go:128-131 | strconv.ParseInt(s, 10, 32) yields only 32-bit values |
| GoLib.Atoi | poly/ply.go:113-116 | strconv.Atoi yields only 64-bit values |
| GoLib.ParseFormat | poly/obj.go:128-131 | every in-range integer is parsed back from its decimal form |
| GoLib.ParseFloat32 | poly/obj.go:75-78 | the empty field is a syntax error |
| GoConv.Trunc | poly/device.go:45 | the float-to-int conversion drops the fraction toward zero |
| GoConv.ToUint8 | poly/color.go:49-52 | uint8(x) drops the fraction of x in [0, 256) |
| Parsing.Fields | poly/obj.go:33 | a line splits into at least one column |
| Parsing.LineAt | poly/ply.go:33-34 | line k of the input, or the empty text past the end |
| Parsing.Column | poly/obj.go:42-44 | cols[k] when it exists, the missing-column failure otherwise |
| Parsing.FloatColumn | poly/obj.go:75-78 | succeeds exactly when column k exists and parses, with its value |
| Parsing.Lookup | poly/obj.go:47-49 | xs[i] exactly when 0 <= i < len(xs), the index failure otherwise |
| Parsing.FoldNext | poly/obj.go:31-69 | reading one more line is one more step after the lines before it |
| Parsing.FoldSnoc | poly/ply.go:67-88 | the fold of lines plus one line is one step after the fold of the lines |
| Parsing.FoldFailureSticks | poly/obj.go:31-69 | a failure on a prefix is the failure of the whole input, whatever follows |
| Parsing.FoldPrefixSucceeds | poly/obj.go:31-69 | every prefix of an input that parses also parses |
| Parsing.FoldStopsAt | poly/obj.go:31-69 | a line on which the step fails makes the whole parse fail |
| Obj.ParseVertex | poly/obj.go:74-91 | succeeds exactly when columns 1 to 3 exist and parse, giving (x, y, z) in that order |
| Obj.ParseUv | poly/obj.go:93-105 | succeeds exactly when columns 1 and 2 exist and parse, giving (u, v, 0) |
| Obj.ParseNormal | poly/obj.go:107-124 | succeeds exactly when columns 1 to 3 exist and parse, giving (x, y, z) |
| Obj.Int32Column | poly/obj.go:128-131 | succeeds exactly when part k exists and is a 32-bit decimal, with its value |
| Obj.ParseFaceIndices | poly/obj.go:126-144 | succeeds exactly when the split on '/' has at least three parts and the first three are 32-bit decimals; the result is those three values minus 1, in order |
| Obj.FaceIndicesRoundTrip | poly/obj.go:126-144 | the column a/b/c written in decimal reads back as [a-1, b-1, c-1] |
| Obj.FaceIndicesNeedSlashes | poly/obj.go:126-136 | a column without slashes fails, at the missing second part when the first is a number |
| Obj.Corner | poly/obj.go:46-62 | succeeds exactly when all three indices are in range, taking position, uv and normal from the lists at them |
| Obj.FaceLine | poly/obj.go:41-64 | a face needs three columns and takes every corner field from the lists as they stand; with no vertices yet it fails |
| Obj.FaceLineCorners | poly/obj.go:41-64 | an f line gives a face exactly when columns 1 to 3 exist, parse as index triples and refer to entries in the lists; corner k is the Corner of column k's indices |
| Obj.FaceLineRoundTrip | poly/obj.go:41-64 | the line f a b c, for 1-based triples that refer to entries already read, appends the face of the referenced positions, uvs and normals and changes nothing else |
| Obj.TripleCorner | poly/obj.go:126-144 | a 1-based triple in range reads back as its indices less one and looks up the entries it refers to |
| Obj.Classify | poly/obj.go:34-68 | v, vt, vn and f select their cases; every other token is unknown |
| Obj.ParseObj | poly/obj.go:23-72 | succeeds exactly when the fold of the lines does, with its error otherwise; the faces are new, distinct and hold the fold's triangles in order; the transform is NewMesh's |
| Obj.UnknownLineAborts | poly/obj.go:65-67 | a line of unknown kind makes the parse fail, with its token when the lines before it parse |
| Obj.BlankAndCommentLinesFail | poly/obj.go:33-67 | an empty line and a # comment are lines of unknown kind |
| Obj.StepAppends | poly/obj.go:34-64 | a line that parses appends one entry to the list its kind selects and leaves the other lists as they were |
| Obj.Counts | poly/obj.go:31-69 | there are as many faces, vertices, uvs and normals as f, v, vt and vn lines |
| Obj.PrefixOrder | poly/obj.go:31-69 | the lists of a prefix are prefixes of the final lists: entries appear in line order |
| Ply.AtoiColumn | poly/ply.go:113-116 | succeeds exactly when column k exists and is a decimal int, with its value |
| Ply.HeaderLine | poly/ply.go:73-87 | fails exactly for an element line without a kind, or an element vertex or face line whose count is missing or not an int; element vertex N sets the vertex count to N, element face M the face count to M; every other line keeps both |
| Ply.HeaderEnd | poly/ply.go:67-71 | the header ends at an end_header line or at the end of the input |
| Ply.HeaderEndFirst | poly/ply.go:67-71 | no line before the end of the header is end_header |
| Ply.ParseHeader | poly/ply.go:62-91 | the loop gives the counts of the lines before the first end_header, starting from 0, and the body starts after it |
| Ply.ElementLineFields | poly/ply.go:73-75 | an element line splits into the keyword, the kind and the count |
| Ply.ElementLineStep | poly/ply.go:74-86 | element vertex N sets the vertex count and element face N the face count |
| Ply.ElementLineSets | poly/ply.go:74-86 | a later element line overwrites the count set by earlier lines |
| Ply.HeaderWithoutElements | poly/ply.go:62-91 | without element lines both counts are 0 |
| Ply.ParsePlyVertex | poly/ply.go:93-110 | succeeds exactly when columns 0 to 2 exist and parse, giving (x, y, z) |
| Ply.ParsePlyFace | poly/ply.go:112-129 | succeeds exactly when columns 1 to 3 exist and are ints, giving them unshifted |
| Ply.PlyFaceIgnoresCount | poly/ply.go:112-129 | the leading count column is not read |
| Ply.PlyFaceRoundTrip | poly/ply.go:112-129 | the line 3 a b c reads back as [a, b, c], 0-based as written |
| Ply.PlyTriangle | poly/ply.go:46-54 | succeeds exactly when all three indices are in range; each corner has only the vertex position, zero elsewhere |
| Ply.FaceOfLine | poly/ply.go:44-54 | succeeds exactly when the line parses and its three indices are in range; corner k is the position of vertex idx[k] with every other field zero |
| Ply.ReadVertexLines | poly/ply.go:32-38 | the vertex loop reads exactly n lines from the start and computes the fold over them |
| Ply.NewFaceLines | poly/ply.go:40-57 | the face loop reads exactly n lines, allocating new distinct faces that hold the fold's triangles, or fails with the fold's error |
| Ply.ParseBody | poly/ply.go:29-57 | the two loops compute PlyBody: its triangles in new, distinct faces, or its failure |
| Ply.ParsePly | poly/ply.go:23-60 | succeeds exactly when PlyFaces does, with its error otherwise; the faces are new, distinct and hold PlyFaces' triangles; the transform is NewMesh's |
| Ply.PlyFacesBody | poly/ply.go:23-44 | the parse is the body read from the line after end_header with the header's counts |
| Ply.BodyAfterVertices | poly/ply.go:29-57 | once the vertex lines give the vertices, the result is the faces read over them from the next numFace lines |
| Ply.ReadVerticesLines | poly/ply.go:32-38 | vertex lines that parse give one vertex each, in line order |
| Ply.ReadFacesLines | poly/ply.go:40-57 | face lines that parse give one face each, in line order, over the same vertices |
| Ply.WindowVertices | poly/ply.go:32-38 | a successful vertex loop gives exactly numVertex vertices, vertex k from line start + k |
| Ply.WindowFaces | poly/ply.go:40-57 | a successful face loop gives exactly numFace faces, face k from line start + k |
| Ply.BodySucceeds | poly/ply.go:29-44 | a body that parses has non-negative counts and vertex lines that parse |
| Ply.NegativeCountFails | poly/ply.go:29-30 | a negative count makes make panic, the vertex count first |
| Ply.BlankLineFails | poly/ply.go:33-36 | the empty text is neither a vertex line nor a face line |
| Ply.VerticesPastEnd | poly/ply.go:32-38 | vertex lines that run past the end of the input fail |
| Ply.FacesPastEnd | poly/ply.go:40-44 | face lines that run past the end of the input fail |
| Ply.BodyVerticesFail | poly/ply.go:32-38 | a vertex line that does not parse is the failure of the body |
| Ply.BodyFacesFail | poly/ply.go:40-57 | a face line that does not parse, or an index out of range, is the failure of the body |
| Ply.BodyFacesPastEnd | poly/ply.go:40-44 | vertices that parse followed by too few face lines fail |
| Ply.BodyMissingLines | poly/ply.go:32-44 | fewer lines than numVertex + numFace after the header make the body fail |
| Ply.MissingLinesFail | poly/ply.go:23-60 | an input shorter than the header promises fails |
| Devices.RectMin | poly/device.go:19 | the corner of image.Rect(0, 0, n): 0, or n when n is negative |
| Devices.RectSize | poly/device.go:19 | the extent of image.Rect(0, 0, n) along one axis, from the corner up to max(n, 0) |
| Devices.Half | poly/device.go:41 | Go's n / 2, truncated toward zero |
| Devices.PlotPoints | poly/device.go:39-47 | one plotted pixel per point, point k at PlotPoint(points[k]) |
| Devices.Device.constructor | poly/device.go:15-21 | width and height are stored; the buffer covers image.Rect(0, 0, width, height) and every pixel is transparent black |
| Devices.Device.SetNRGBA | poly/device.go:26 | pixel (x, y) becomes p when it lies in the buffer; no other pixel changes |
| Devices.Device.PutPixel | poly/device.go:35-37 | pixel (x, y) takes the 8-bit form of c when it lies in the buffer; no other pixel changes |
| Devices.Device.ClearColorBuffer | poly/device.go:23-29 | the nested loops leave the buffer Filled with the colour over 0 <= x < width, 0 <= y < height |
| Devices.Device.DrawMesh | poly/device.go:39-47 | the loop plots every point, in order, at PlotPoint in colour c |
| Devices.FilledDevice | poly/device.go:23-29 | with non-negative sizes every pixel of the buffer has the colour; with a negative size nothing changes |
| Devices.FilledIdempotent | poly/device.go:23-29 | clearing twice with the same colour is clearing once |
| Devices.FilledLastWins | poly/device.go:23-29 | clearing with p and then q is clearing with q |
| Devices.PlottedCells | poly/device.go:35-37 | one write keeps the buffer's shape, sets pixel (x, y) when it is inside, and changes no other pixel |
| Devices.PlottedAllCells | poly/device.go:39-47 | after plotting, a pixel has colour c exactly when some point lands on it and is unchanged otherwise |
| Devices.PlotOrigin | poly/device.go:40-45 | the origin is plotted at (Width/2, Height/2) in integer division |

## Left out

- Files and the scanner:
  - `LoadObj` and `LoadPly` (poly/obj.go:13-21, poly/ply.go:13-21) are not modelled; the readers take the lines of the input.
  - A scanner error other than the end of the input is not modelled.
- `fmt.Printf` and `os.Exit(1)` for an unknown OBJ line (poly/obj.go:66-67) become a failure carrying the token.
- Floating point: `float64` is `real`, so rounding, NaN, infinities and signed zeros are not modelled.
  - A division by zero that Go would carry out is excluded by a precondition instead. This applies to `Vectors.Vector3.Normalize`, `Vectors.Vector3.Reflected`, `Vectors.Vector3.Div`, `Vectors.Vector3.DivScalar`, `Matrices.TransformCoordinate`, `Matrices.LookAt`, `Matrices.Orthographic`, `Matrices.Frustum`, `Matrices.Perspective`, `Geometry.Face.CalcNormal`, `Shaders.Shader.Vertex`, `Shaders.Shader.Fragment` (the Phong rule's reflection, excluded by `CanShade`), `Shaders.NewFlatShader` and `Shaders.NewPhongShader`.
  - `GoLib.Max` and `GoLib.Min` leave out math.Max's and math.Min's NaN and signed-zero cases.
- `strconv.ParseFloat(s, 32)` is a function with no definition on non-empty text. Which texts it accepts and its float32 rounding are not modelled.
- `math.Sin`, `math.Cos`, `math.Tan` and `math.Pow` are functions with no definition. `math.Sqrt` is only known to give zero on zero and a positive root of a positive number.
- Matrices.RotateXKeepsLength: assumes sin^2 + cos^2 = 1 as a precondition, because nothing is known of math.Sin and math.Cos.
- Primitives.NewPlane: states that each stored normal points straight up (x = z = 0, y > 0), not that it is exactly (0, 1, 0), because the length comes from the abstract square root.
- Primitives.NewPlane: primitive.go:49 calls a mesh-level `CalcNormal` that does not exist in the package. The model calls `CalcNormal` on each of the two faces, and its `ensures` speaks of them rather than of a mesh-level operation.
- Obj.ParseObj: obj.go:64 appends a `Face` value to a slice of `*Face`. The model appends a reference to a newly allocated face, and says so in its `ensures`.
- Devices.Device.DrawMesh: device.go:42 ranges over `mesh.Vertices`, which `Mesh` does not have. The method takes the sequence of points to plot.
- The device's camera, projection and shader setters that the repository's example program calls are not part of device.go, and no triangle rasteriser or depth buffer is modelled.
- `Device.Image` (poly/device.go:31-33) only returns the buffer and is not modelled.
- Devices.Device.constructor: the buffer's size is not checked against Go's integer width; an image too large to allocate is not modelled.
- GoConv.Trunc and GoConv.ToUint8: Go leaves out-of-range float-to-integer conversions to the implementation. The model truncates, and for uint8 keeps the low eight bits.
- poly/texture.go is not part of this model. The texture shader samples an abstract `Map(u, v)`, and image decoding and file reading are left out.
- poly/vertex.go and poly/camera.go have no behaviour and are datatypes only.
- PolyMath.Abs: states only that the result is n or -n and its sign, not the case split. poly/math.go is the same code as vecmath/math.go, and Scalars.Abs states the exact cases.
- PolyMath.Interpolate: states the ends and the bounds but not the formula between them, which Scalars.Interpolate states for the same code.
- Matrices.RotateAxis: is modelled entry for entry as written. No claim is made that it is a rotation; several entries use the axis's x component where a rotation would use another component.
- The parse of a whole PLY input is described by several lemmas (`Ply.PlyFacesBody`, `Ply.BodyAfterVertices`, `Ply.WindowVertices`, `Ply.WindowFaces`), not by one lemma that states its whole shape.
