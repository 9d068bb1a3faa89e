# Wireframe shape engine: transformations and OBJ loading

The program draws 3D wireframe meshes on a 2D canvas. A `Shape` keeps its base vertices, its
edges and a working buffer of transformed vertices. The vertices are homogeneous rows
`(x, y, z, w)`. Every transformation (translate, scale, the three rotations, the three shears
and the two projections) builds a 4x4 matrix. It then replaces each working vertex `v` with
the row-vector product `v * M`. The perspective projection also divides `x`, `y` and `z` by a
nonzero `w`, in place. `undoTransformations` resets the buffer to a copy of the base vertices.
`draw` strokes one line per edge between the two working vertices it names, offset by the
shape's screen anchor. `ObjFileLoader.loadShape` reads a Wavefront OBJ file line by line:

- A `v x y z` line adds the vertex `(x, y, z, 1)`.
- An `f i j k ...` line adds the closed polygon through the 1-based vertex references. Each
  reference may carry `/texture/normal` suffixes, which are ignored.
- Every other line is ignored.

The loader then builds a `Shape` from what it collected.

The Dafny project has these modules:

- `Wrappers`: `Option` and `Result`.
- `Geometry`: vertices, matrices and the row-vector product. It has each operation's matrix
  literal and, for each one, a closed form of what the product does to one vertex.
- `Mesh`: the `Shape` class and its operations, as imperative methods over an `array`
  buffer.
- `Text`: the Java library behaviour the loader depends on:
  - `startsWith`.
  - `String.split` on one character, with trailing empty pieces dropped.
  - `Integer.parseInt`.
  - 32-bit wrap-around of `int` subtraction.
- `ObjLoader`: the loader.
  - Its line loop and face loop are methods.
  - Each is proved equal to a functional specification (`Contribution`, `LoadFrom`, `Load`,
    `LoadFile`).
  - The specification's properties are proved as lemmas.

Arithmetic is over `real`. The sines and cosines a rotation uses are parameters, and so is the
perspective scale `1 / tan(fov / 2)`. The OBJ file is given as its list of lines, or none when
it cannot be opened. `Float.parseFloat` is a partial function parameter. The screen anchor a
new shape takes is a parameter; in the program it is a process-wide default.

The matrices are used exactly as the code writes them. Both projection matrices put their
offsets in the last column. Under the row-vector product, those offsets therefore land in
`w`, not in `x`, `y` or `z`:

- **Perspective:** `z' = ds*z + w` and `w' = -ds*zNear*z`, with `ds = zFar / (zFar - zNear)`.
- **Orthographic:** `x`, `y` and `z` are only scaled, and `w` collects the offsets.

They are the textbook column-vector projection matrices, applied to row vectors, so the
offsets land in `w`. The model follows the code and proves `Geometry.OrthographicOffsetsLandInW`
about it. The perspective divide keeps `w` as it is; it does not reset it to 1.

## Model

| member | source | states |
|---|---|---|
| Mesh.Shape.constructor | Shape.java:13-19 | a new shape keeps the given vertices and edges, takes the given anchor, and its working buffer is a fresh copy of the vertices |
| Mesh.Shape.UndoTransformations | Shape.java:217-222 | the working buffer becomes a fresh array holding exactly the base vertices, whatever was done before |
| Mesh.Shape.VectorMatrixMultiplication | Shape.java:202-215 | the column-by-column accumulation computes the row-vector product: component i is the sum over j of vector[j] * matrix[j][i] |
| Mesh.Shape.Transform | Shape.java:197-200 | every working vertex is replaced by itself times the matrix, in a new buffer of the same length and in the same order |
| Mesh.Shape.Translate | Shape.java:30-43 | each vertex (x,y,z,w) becomes (x+w*tx, y+w*ty, z+w*tz, w); a zero offset leaves the buffer object and its contents untouched, and any other offset writes a fresh buffer |
| Mesh.Shape.Scale | Shape.java:45-58 | all three factors zero leaves the buffer untouched (it does not collapse to the origin); otherwise each vertex becomes (sx*x, sy*y, sz*z, w) |
| Mesh.Shape.RotateOnX | Shape.java:60-77 | an angle of 0 or a multiple of 360 degrees leaves the buffer untouched; otherwise x and w are kept and (y, z) becomes (y*cos - z*sin, y*sin + z*cos) |
| Mesh.Shape.RotateOnY | Shape.java:79-96 | a full turn leaves the buffer untouched; otherwise y and w are kept and (x, z) becomes (x*cos + z*sin, z*cos - x*sin) |
| Mesh.Shape.RotateOnZ | Shape.java:98-115 | a full turn leaves the buffer untouched; otherwise z and w are kept and (x, y) becomes (x*cos + y*sin, y*cos - x*sin) |
| Mesh.Shape.ShearOnX | Shape.java:117-130 | x and w are kept, y gains sy*x and z gains sz*x; zero factors leave the buffer untouched |
| Mesh.Shape.ShearOnY | Shape.java:132-145 | y and w are kept, x gains sx*y and z gains sz*y; zero factors leave the buffer untouched |
| Mesh.Shape.ShearOnZ | Shape.java:147-160 | z and w are kept, x gains sx*z and y gains sy*z; zero factors leave the buffer untouched |
| Mesh.Shape.Perspective | Shape.java:162-184 | each vertex is projected through the perspective matrix, and then x, y, z are divided by w when w is nonzero, with w kept |
| Mesh.Shape.Orthographic | Shape.java:186-195 | each vertex is projected through the orthographic matrix, with no divide afterwards |
| Mesh.Shape.Draw | Shape.java:22-28 | one segment per edge in edge order, between the edge's two working vertices shifted by the anchor; the first edge whose index is outside the buffer stops the drawing, and all edges are drawn exactly when every edge is in range |
| Mesh.Shape.GetOriginX | Shape.java:250-252 | gives the anchor's x |
| Mesh.Shape.GetOriginY | Shape.java:254-256 | gives the anchor's y |
| Mesh.Shape.SetOriginX | Shape.java:242-244 | moves the anchor's x and changes nothing else |
| Mesh.Shape.SetOriginY | Shape.java:246-248 | moves the anchor's y and changes nothing else |
| Mesh.ScaleTranslateOrder | Shape.java:30-58 | on the vertex (1,0,0,1), scale(2,2,2) then translate(5,0,0) gives (7,0,0,1), and the reverse order gives (12,0,0,1): the operations do not commute |
| Geometry.TimesExpanded | Shape.java:208-212 | each component of the product is the four-term sum v[0]*m[0][i] + v[1]*m[1][i] + v[2]*m[2][i] + v[3]*m[3][i] |
| Geometry.TranslationMatrixMeaning | Shape.java:35-40 | the translation matrix takes (x,y,z,w) to (x+w*tx, y+w*ty, z+w*tz, w) |
| Geometry.ScaleMatrixMeaning | Shape.java:50-55 | the scale matrix multiplies x, y and z by their factors and keeps w |
| Geometry.RotationXMatrixMeaning | Shape.java:69-74 | the x rotation matrix keeps x and w and turns the (y, z) plane |
| Geometry.RotationYMatrixMeaning | Shape.java:88-93 | the y rotation matrix keeps y and w and turns the (z, x) plane |
| Geometry.RotationZMatrixMeaning | Shape.java:107-112 | the z rotation matrix keeps z and w and turns the (x, y) plane |
| Geometry.ShearXMatrixMeaning | Shape.java:122-127 | the x shear matrix adds multiples of x to y and z |
| Geometry.ShearYMatrixMeaning | Shape.java:137-142 | the y shear matrix adds multiples of y to x and z |
| Geometry.ShearZMatrixMeaning | Shape.java:152-157 | the z shear matrix adds multiples of z to x and y |
| Geometry.PerspectiveMatrixMeaning | Shape.java:164-171 | the perspective matrix scales x by scale/aspect and y by scale, sets z' = ds*z + w and w' = -ds*zNear*z |
| Geometry.OrthographicMatrixMeaning | Shape.java:187-192 | the orthographic matrix scales x, y, z by 2/(right-left), 2/(top-bottom), -2/(zFar-zNear) and puts the offsets into w |
| Geometry.ZeroTranslationIsIdentity | Shape.java:30-43 | the translate fast path is sound: the zero translation matrix is the identity |
| Geometry.ZeroShearIsIdentity | Shape.java:117-160 | the shear fast paths are sound: each shear matrix with zero factors is the identity |
| Geometry.ZeroScaleMatrixCollapses | Shape.java:45-58 | the scale fast path is observable: the skipped zero matrix would send every vertex to (0,0,0,w), changing any vertex off the w axis |
| Geometry.IdentityRotations | Shape.java:60-115 | with sin 0 and cos 1 (what a full turn gives) each rotation matrix is the identity, so skipping it is exact |
| Geometry.FullTurnExamples | Shape.java:61 | the rotation fast path fires for 0, 360, 720 and -360 degrees and not for 90 or 180 |
| Geometry.TranslationsCompose | Shape.java:30-43 | two translations add their offsets, and the opposite offsets undo one |
| Geometry.ScaleInverse | Shape.java:45-58 | scaling by nonzero factors is undone by scaling by their reciprocals |
| Geometry.TranslateThenScale | Shape.java:30-58 | translating then scaling equals scaling then translating by the scaled offsets |
| Geometry.ScaleTranslateOrderExample | Shape.java:30-58 | the two orders of scale(2,2,2) and translate(5,0,0) take (1,0,0,1) to different vertices |
| Geometry.RotatedXIsRotation | Shape.java:60-77 | for a unit (sin, cos) the x rotation keeps x, w and y^2+z^2, and rotating with -sin undoes it |
| Geometry.RotatedYIsRotation | Shape.java:79-96 | for a unit (sin, cos) the y rotation keeps y, w and x^2+z^2, and rotating with -sin undoes it |
| Geometry.RotatedZIsRotation | Shape.java:98-115 | for a unit (sin, cos) the z rotation keeps z, w and x^2+y^2, and rotating with -sin undoes it |
| Geometry.ShearsAreInvertible | Shape.java:117-160 | each shear keeps its own axis, and shearing with the opposite factors undoes it |
| Geometry.PerspectiveDivideInverse | Shape.java:176-183 | the divide keeps w, multiplying back by a nonzero w restores x, y, z, and a zero w leaves the vertex as it is |
| Geometry.PerspectiveDivideExample | Shape.java:176-183 | (2,4,6,2) divides to (1,2,3,2): w is not reset to 1 |
| Geometry.OrthographicRightEdgeExample | Shape.java:186-195 | with the box -300..300, -300..300, 0.1..1000, the vertex (300,0,0,1) lands on x = 1 |
| Geometry.OrthographicOffsetsLandInW | Shape.java:187-192 | for a box symmetric in x and y, x is only divided by right, and w becomes w - z*(zFar+zNear)/(zFar-zNear) |
| Text.DropTrailingEmpty | ObjFileLoader.java:16 | the result is a prefix of the pieces, ends in a nonempty piece (or is empty), and only empty pieces were removed |
| Text.SplitJoin | ObjFileLoader.java:16 | split inverts joining: separator-free pieces whose last is nonempty come back unchanged |
| Text.SplitEmpty | ObjFileLoader.java:28 | split gives no pieces exactly when the text is nonempty and made of separators only |
| Text.SplitHead | ObjFileLoader.java:28 | the first piece of split is the text before the first separator, and it is present whenever that text is nonempty |
| Text.ParseInt | ObjFileLoader.java:29 | a parsed integer lies in the 32-bit range |
| Text.ParseIntDecimal | ObjFileLoader.java:29 | parseInt reads back the decimal digits of n, unsigned, with '+' or with '-', whenever the value fits in 32 bits |
| Text.Int32 | ObjFileLoader.java:29 | the wrapped value lies in the 32-bit range, is congruent to the input modulo 2^32, and is the input itself when that already fits |
| ObjLoader.FaceOf | ObjFileLoader.java:26-30 | a successful face has one index per token, and index k is what token k references |
| ObjLoader.ClosedPolygonAt | ObjFileLoader.java:41-47 | a face of N indices gives N edges, edge i joining face[i] to face[(i+1) mod N] |
| ObjLoader.ConsecutiveEdgesAt | ObjFileLoader.java:41-47 | the open chain of a face has one edge fewer than the face, edge k joining face[k] to face[k+1] |
| ObjLoader.MarkedLineSplits | ObjFileLoader.java:15-16 | a line that starts with a marker and a space splits with the marker as its first piece |
| ObjLoader.ParseVertex | ObjFileLoader.java:16-22 | reads tokens 1, 2, 3 as x, y, z and sets w = 1; the first token missing or rejected by the parser is the error |
| ObjLoader.FaceIndexMeaning | ObjFileLoader.java:28-29 | a token of nothing but '/' has no first piece and fails for the missing token; any other token names the int before its first '/' minus one, wrapped to 32 bits, or fails on that text when it is not an int |
| ObjLoader.ParseReference | ObjFileLoader.java:28-29 | a token of nothing but '/' fails for the missing token; any other token gives the int before its first '/' minus one, wrapped to 32 bits, or fails on that text when it is not an int |
| ObjLoader.ParseFace | ObjFileLoader.java:25-30 | reads every token after the marker as a reference, in order, the first bad one being the error |
| ObjLoader.FaceToEdges | ObjFileLoader.java:41-47 | the edge list gains the closed polygon of the face after its old contents |
| ObjLoader.LoadFromStep | ObjFileLoader.java:13-33 | reading from line i on is line i's contribution followed by the remaining lines, and a failing line ends the read with its error |
| ObjLoader.ReadMesh | ObjFileLoader.java:13-33 | the line loop collects exactly what the functional load gives: vertices and edges in file order, the first failing line ending it |
| ObjLoader.LoadShape | ObjFileLoader.java:7-39 | fails exactly when the file is missing, a line fails or there are no vertices, with that error; otherwise a fresh valid shape with the loaded vertices and edges, its buffer a copy of the vertices and its anchor the given one |
| ObjLoader.LoadFromAppend | ObjFileLoader.java:13-33 | reading two runs of lines in a row is reading the first and then the second onto its result |
| ObjLoader.LoadSnoc | ObjFileLoader.java:13-33 | one more line appends its contribution to a successful load, and an earlier or a new error ends the load |
| ObjLoader.LoadSnocOk | ObjFileLoader.java:13-33 | a line that reads without error extends a successful load by exactly its contribution |
| ObjLoader.ContributionSize | ObjFileLoader.java:15-32 | a vertex line adds exactly one vertex, a face line one edge per reference, and any other line nothing |
| ObjLoader.LoadFromCounts | ObjFileLoader.java:13-33 | what was collected before is kept as a prefix, growing by one vertex per vertex line and one edge per face token |
| ObjLoader.LoadCounts | ObjFileLoader.java:13-33 | a loaded mesh has one vertex per vertex line and one edge per face reference |
| ObjLoader.LoadKeepsOrder | ObjFileLoader.java:13-33 | in a successful load, the vertices and edges of line k come right after those of the lines before it |
| ObjLoader.AbortAtFirstBadLine | ObjFileLoader.java:13-33 | the first failing line decides the load: its error is the result, and no shape is built |
| ObjLoader.IgnoredLine | ObjFileLoader.java:15-32 | a line that is neither a vertex line nor a face line changes nothing |
| ObjLoader.NoShapeWithoutVertices | ObjFileLoader.java:11-12 | a missing file yields no shape, and a file without vertex lines yields no shape even when every line reads |
| ObjLoader.MarkedLine | ObjFileLoader.java:15-16 | space-free pieces after a one-character marker, joined by spaces, start with the marker and a space, and split gives them back |
| ObjLoader.VertexLineReads | ObjFileLoader.java:15-22 | a vertex line contributes the vertex its pieces read to, or that reading's error |
| ObjLoader.VertexLineTokens | ObjFileLoader.java:15-22 | a vertex line whose three coordinates parse to x, y, z adds exactly the vertex (x, y, z, 1) and no edge |
| ObjLoader.VertexLineBadToken | ObjFileLoader.java:18-20 | the first of the three coordinates the parser rejects is the line's error |
| ObjLoader.VertexLineShort | ObjFileLoader.java:18-20 | a vertex line with fewer than three coordinates fails for the missing token |
| ObjLoader.FaceLineTokens | ObjFileLoader.java:24-32 | a face line adds the closed polygon through its references, or fails with the first bad reference's error |
| ObjLoader.FaceIndexOneBased | ObjFileLoader.java:28-29 | a reference n, possibly followed by '/' and more, names vertex n - 1 |
| ObjLoader.FaceIndexWraps | ObjFileLoader.java:29 | the reference -2147483648 minus one wraps around to 2147483647 |
| ObjLoader.WrappedReferenceExample | ObjFileLoader.java:29 | the token "-2147483648" names vertex 2147483647 |
| ObjLoader.SlashReferenceExamples | ObjFileLoader.java:28-29 | the token "/" fails for the missing first piece, and "/2" fails on its empty first piece |
| ObjLoader.OneDigitReference | ObjFileLoader.java:28-29 | a one-digit reference n, with or without a '/' suffix, names vertex n - 1 |
| ObjLoader.TriangleReferences | ObjFileLoader.java:26-30 | the references 1, 2, 3 name the vertices 0, 1, 2 |
| ObjLoader.TriangleEdges | ObjFileLoader.java:41-47 | the triangle 0, 1, 2 closes as (0,1), (1,2), (2,0) |
| ObjLoader.PointEdges | ObjFileLoader.java:41-47 | a one-vertex face closes onto itself as the loop edge (0,0) |
| ObjLoader.TriangleFaceExample | ObjFileLoader.java:24-32 | "f 1 2 3" adds the edges (0,1), (1,2), (2,0) and no vertex |
| ObjLoader.PointFaceExample | ObjFileLoader.java:24-32 | "f 1" adds the single loop edge (0,0) |
| ObjLoader.ThreeCoordinateLine | ObjFileLoader.java:15-22 | "v a b c" with three numbers adds the vertex (a, b, c, 1) |
| ObjLoader.VertexLineExample | ObjFileLoader.java:15-22 | "v 1.0 2.0 3.0" adds the vertex (1, 2, 3, 1) |
| ObjLoader.MalformedVertexExample | ObjFileLoader.java:18-20 | "v 1.0 abc 3.0" fails on the token "abc" |
| ObjLoader.ShortVertexExample | ObjFileLoader.java:18-20 | "v 1.0 2.0" fails for its missing third coordinate |
| ObjLoader.LoadTwoLines | ObjFileLoader.java:13-38 | two lines that read load as their contributions in order, and give a shape when the first adds a vertex |
| ObjLoader.PointFileExample | ObjFileLoader.java:7-39 | the file "v 1.0 2.0 3.0", "f 1" loads as one vertex (1,2,3,1) and its loop edge (0,0) |

## Left out

- Floating point: coordinates are `real`, so there is no rounding, NaN, infinity or `float`
  precision, and Java's `==` on `-0.0` is not modelled apart from what `real` equality gives.
- Math.sin, Math.cos, Math.tan and Math.toRadians have no exact form over `real`. Rotations
  take the sine and cosine of the angle as parameters. Perspective takes the scale
  `1 / tan(fov / 2)` as a parameter. The angle itself decides only the full-turn fast path.
- Mesh.Shape.Perspective, Mesh.Shape.Orthographic: the model requires `aspectRatio`,
  `zFar - zNear`, `right - left` and `top - bottom` to be nonzero. In Java those cases divide
  by zero in `float` and give infinities or NaN, which `real` cannot represent.
- Mesh.Shape.constructor, Mesh.Shape.UndoTransformations: the model requires at least one base
  vertex. In Java an empty vertex array makes `vertices[0]` throw. The loader models that throw
  as the `NoVertices` error.
- Vertex rows are always four components long. Shape.java sizes rows from `vertices[0].length`
  and `vector.length`, and every row it builds is four long.
- Transform: the parallel stream is modelled as a sequential loop. Each element is computed
  independently, so the result is the same.
- Row aliasing is not modelled. In Java, `vertices[i].clone()` and `vectorMatrixMultiplication`
  create fresh rows. The model's rows are immutable sequences, so no row is shared either.
- The static default anchor (`setDefaultOriginX`, `setDefaultOriginY`) is process-wide mutable
  state. The constructor and the loader take the anchor as parameters instead.
- `printMatrix` is debugging output and is not modelled.
- Drawing on a JavaFX `GraphicsContext` is not modelled. `Draw` returns the segments it would
  stroke.
- Opening a file with `File` and `Scanner` is not modelled. The file is its list of lines, or
  `None` when it cannot be opened. Line-ending handling is not modelled.
- `Float.parseFloat` is a parameter, a partial function from token to `real`. Its grammar and
  the whitespace it trims are not modelled.
- Text.ParseInt: accepts ASCII digits only. Java's `Integer.parseInt` also accepts other
  Unicode decimal digits.
- Java exceptions are modelled as the `LoadError` values:
  - `FileNotFoundException` is `NotFound`.
  - `NumberFormatException` is `MalformedNumber`.
  - `ArrayIndexOutOfBoundsException` is `MissingToken` for a missing token, or `NoVertices` for
    a file without vertices.

  The exception's message is not modelled.
- Mesh.Shape.Draw: an edge index out of range throws after the earlier segments are stroked.
  The model returns those segments with `complete` false.
- GUI.java and Main.java, the JavaFX window and its key handling, are not part of this model.
