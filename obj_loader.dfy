/**
 * The mesh-text loader: the `v` / `f` subset of the Wavefront OBJ format. A line starting
 * with "v " adds one vertex made of its next three space-separated numbers and w = 1; a
 * line starting with "f " adds the closed polygon through the vertices it references (only
 * the part of each reference before the first '/' counts, and it is 1-based); every other
 * line is ignored. The first malformed line aborts the whole load.
 *
 * The file is given as its lines (None when it cannot be opened) and the float parser is a
 * parameter.
 */
module ObjLoader {
  import opened Wrappers
  import opened Geometry
  import opened Text
  import opened Mesh

  /** Why a load produced no shape. */
  datatype LoadError =
    | NotFound                       // the file could not be opened
    | MalformedNumber(token: string) // a token the number parser rejects
    | MissingToken                   // a line with fewer tokens than it is read for
    | NoVertices                     // no vertex line at all: the shape cannot copy vertices[0]

  /** The vertices and edges read so far, in order. */
  datatype MeshData = MeshData(vertices: seq<Vertex>, edges: seq<Edge>)

  /** A partial parser for floating-point tokens. */
  type FloatParser = string -> Option<real>

  const NoMesh := MeshData([], [])

  function Merge(a: MeshData, b: MeshData): MeshData
  {
    MeshData(a.vertices + b.vertices, a.edges + b.edges)
  }

  /** Merging with the empty mesh changes nothing. */
  lemma MergeNoMesh(m: MeshData)
    ensures Merge(m, NoMesh) == m && Merge(NoMesh, m) == m
  {
  }

  // ---------------------------------------------------------------------------
  // Vertex lines

  /** Token i of the line as a coordinate. */
  function Coordinate(parts: seq<string>, parseFloat: FloatParser, i: nat): Result<real, LoadError>
  {
    if i < |parts| then
      match parseFloat(parts[i])
      case Some(x) => Ok(x)
      case None => Err(MalformedNumber(parts[i]))
    else
      Err(MissingToken)
  }

  /** Tokens 1, 2 and 3 read in that order, with w = 1 appended. */
  function VertexOf(parts: seq<string>, parseFloat: FloatParser): Result<Vertex, LoadError>
  {
    var x :- Coordinate(parts, parseFloat, 1);
    var y :- Coordinate(parts, parseFloat, 2);
    var z :- Coordinate(parts, parseFloat, 3);
    Ok([x, y, z, 1.0])
  }

  // ---------------------------------------------------------------------------
  // Face lines

  /** A face token: the text before the first '/' as a 1-based index, made 0-based in 32-bit arithmetic. */
  function FaceIndex(token: string): Result<int, LoadError>
  {
    var references := Split(token, '/');
    if |references| == 0 then Err(MissingToken)
    else
      match ParseInt(references[0])
      case None => Err(MalformedNumber(references[0]))
      case Some(n) => Ok(Int32(n - 1))
  }

  /**
   * What a face token references: a token of nothing but '/' has no first piece (an
   * out-of-range index in Java); otherwise the text before the first '/' is parsed as an
   * int and one is subtracted with 32-bit wrap-around, a non-integer being the error.
   */
  lemma FaceIndexMeaning(token: string)
    ensures OnlySeparators(token, '/') ==> FaceIndex(token) == Err(MissingToken)
    ensures !OnlySeparators(token, '/') ==>
      var head := TakeUntil(token, '/');
      FaceIndex(token) == if ParseInt(head).Some? then Ok(Int32(ParseInt(head).value - 1)) else Err(MalformedNumber(head))
  {
    SplitEmpty(token, '/');
    SplitHead(token, '/');
  }

  /** All face tokens read in order; the first bad one is the error. */
  function FaceOf(tokens: seq<string>): (r: Result<seq<int>, LoadError>)
    ensures r.Ok? ==> |r.value| == |tokens|
    ensures r.Ok? ==> forall k :: 0 <= k < |tokens| ==> FaceIndex(tokens[k]) == Ok(r.value[k])
  {
    if tokens == [] then Ok([])
    else
      var first :- FaceIndex(tokens[0]);
      var rest :- FaceOf(tokens[1..]);
      assert forall k :: 1 <= k < |tokens| ==> tokens[k] == tokens[1..][k - 1];
      Ok([first] + rest)
  }

  /** The open chain (f0, f1), (f1, f2), ..., (f[n-2], f[n-1]). */
  function ConsecutiveEdges(face: seq<int>): seq<Edge>
  {
    if |face| < 2 then [] else [Edge(face[0], face[1])] + ConsecutiveEdges(face[1..])
  }

  /** The chain closed back to the first vertex (a one-vertex face gives one loop edge). */
  function ClosedPolygon(face: seq<int>): seq<Edge>
  {
    if face == [] then [] else ConsecutiveEdges(face) + [Edge(face[|face| - 1], face[0])]
  }

  lemma {:induction false} ConsecutiveEdgesAt(face: seq<int>)
    ensures |ConsecutiveEdges(face)| == if |face| < 2 then 0 else |face| - 1
    ensures forall k :: 0 <= k < |face| - 1 ==> ConsecutiveEdges(face)[k] == Edge(face[k], face[k + 1])
  {
    if |face| >= 2 {
      ConsecutiveEdgesAt(face[1..]);
      forall k | 0 <= k < |face| - 1 ensures ConsecutiveEdges(face)[k] == Edge(face[k], face[k + 1]) {
        if k > 0 {
          assert ConsecutiveEdges(face)[k] == ConsecutiveEdges(face[1..])[k - 1];
        }
      }
    }
  }

  /** The successor of position k among n positions, wrapping to 0 after the last. */
  lemma NextPosition(k: int, n: int)
    requires 0 <= k < n
    ensures (k + 1) % n == if k + 1 < n then k + 1 else 0
  {
  }

  /** A face of N indices gives N edges, edge i joining index i to index (i + 1) mod N. */
  lemma ClosedPolygonAt(face: seq<int>)
    ensures |ClosedPolygon(face)| == |face|
    ensures forall k :: 0 <= k < |face| ==> ClosedPolygon(face)[k] == Edge(face[k], face[(k + 1) % |face|])
  {
    if face != [] {
      var n := |face|;
      var chain := ConsecutiveEdges(face);
      ConsecutiveEdgesAt(face);
      assert ClosedPolygon(face) == chain + [Edge(face[n - 1], face[0])];
      forall k | 0 <= k < n ensures ClosedPolygon(face)[k] == Edge(face[k], face[(k + 1) % n]) {
        NextPosition(k, n);
        if k < n - 1 {
          assert ClosedPolygon(face)[k] == chain[k];
        }
      }
    }
  }

  // ---------------------------------------------------------------------------
  // Lines and files

  /** A line whose first two characters are a marker and a space splits into the marker first. */
  lemma MarkedLineSplits(line: string, marker: char)
    requires StartsWith(line, [marker, ' ']) && marker != ' '
    ensures |Split(line, ' ')| >= 1 && Split(line, ' ')[0] == [marker]
  {
    assert line[0] == line[..2][0] == marker;
    assert line[1] == line[..2][1] == ' ';
    assert TakeUntil(line[1..], ' ') == "";
    SplitHead(line, ' ');
  }

  /** What one line adds to the mesh. */
  function Contribution(line: string, parseFloat: FloatParser): Result<MeshData, LoadError>
  {
    if StartsWith(line, "v ") then
      var vertex :- VertexOf(Split(line, ' '), parseFloat);
      Ok(MeshData([vertex], []))
    else if StartsWith(line, "f ") then
      MarkedLineSplits(line, 'f');
      var face :- FaceOf(Split(line, ' ')[1..]);
      Ok(MeshData([], ClosedPolygon(face)))
    else
      Ok(NoMesh)
  }

  /** The lines read in order onto `acc`, stopping at the first line that fails. */
  function LoadFrom(lines: seq<string>, parseFloat: FloatParser, acc: MeshData): Result<MeshData, LoadError>
    decreases |lines|
  {
    if lines == [] then Ok(acc)
    else
      var c :- Contribution(lines[0], parseFloat);
      LoadFrom(lines[1..], parseFloat, Merge(acc, c))
  }

  function Load(lines: seq<string>, parseFloat: FloatParser): Result<MeshData, LoadError>
  {
    LoadFrom(lines, parseFloat, NoMesh)
  }

  /** The whole load: no file, a failing line, or a mesh with no vertices gives no shape. */
  function LoadFile(file: Option<seq<string>>, parseFloat: FloatParser): Result<MeshData, LoadError>
  {
    match file
    case None => Err(NotFound)
    case Some(lines) =>
      var mesh :- Load(lines, parseFloat);
      if mesh.vertices == [] then Err(NoVertices) else Ok(mesh)
  }

  // ---------------------------------------------------------------------------
  // The loader's loops

  /** Reads tokens 1 to 3 of a vertex line into a fresh row and sets w to 1. */
  method ParseVertex(parts: seq<string>, parseFloat: FloatParser) returns (r: Result<Vertex, LoadError>)
    ensures r == VertexOf(parts, parseFloat)
  {
    var vertex := new real[4](_ => 0.0);
    for i := 1 to 4
      invariant forall k :: 1 <= k < i ==> Coordinate(parts, parseFloat, k) == Ok(vertex[k - 1])
    {
      if i >= |parts| {
        return Err(MissingToken);
      }
      var x := parseFloat(parts[i]);
      if x.None? {
        return Err(MalformedNumber(parts[i]));
      }
      vertex[i - 1] := x.value;
    }
    vertex[3] := 1.0;
    r := Ok(vertex[..]);
    SameVertex(vertex[..], [vertex[0], vertex[1], vertex[2], 1.0]);
  }

  lemma {:induction false} FaceOfFirstError(tokens: seq<string>, k: nat, face: seq<int>)
    requires k < |tokens| && k <= |face|
    requires forall j :: 0 <= j < k ==> FaceIndex(tokens[j]) == Ok(face[j])
    requires FaceIndex(tokens[k]).Err?
    ensures FaceOf(tokens) == Err(FaceIndex(tokens[k]).error)
  {
    if k > 0 {
      FaceOfFirstError(tokens[1..], k - 1, face[1..]);
    }
  }

  lemma {:induction false} FaceOfAllOk(tokens: seq<string>, face: seq<int>)
    requires |face| == |tokens|
    requires forall j :: 0 <= j < |tokens| ==> FaceIndex(tokens[j]) == Ok(face[j])
    ensures FaceOf(tokens) == Ok(face)
  {
    if tokens != [] {
      FaceOfAllOk(tokens[1..], face[1..]);
      assert [face[0]] + face[1..] == face;
    }
  }

  /** The vertex a face token references: the number before its first '/', made 0-based. */
  method ParseReference(token: string) returns (r: Result<int, LoadError>)
    ensures r == FaceIndex(token)
    ensures OnlySeparators(token, '/') ==> r == Err(MissingToken)
    ensures !OnlySeparators(token, '/') ==>
      var head := TakeUntil(token, '/');
      r == if ParseInt(head).Some? then Ok(Int32(ParseInt(head).value - 1)) else Err(MalformedNumber(head))
  {
    FaceIndexMeaning(token);
    var vertexReferences := Split(token, '/');
    if |vertexReferences| == 0 {
      return Err(MissingToken);
    }
    var n := ParseInt(vertexReferences[0]);
    if n.None? {
      return Err(MalformedNumber(vertexReferences[0]));
    }
    r := Ok(Int32(n.value - 1));
  }

  /** Reads the references of a face line (every token after the marker) into a fresh array. */
  method ParseFace(parts: seq<string>) returns (r: Result<seq<int>, LoadError>)
    requires |parts| >= 1
    ensures r == FaceOf(parts[1..])
  {
    var tokens := parts[1..];
    var face := new int[|tokens|];
    for i := 0 to |tokens|
      invariant forall k :: 0 <= k < i ==> FaceIndex(tokens[k]) == Ok(face[k])
    {
      var index := ParseReference(tokens[i]);
      if index.Err? {
        FaceOfFirstError(tokens, i, face[..]);
        return Err(index.error);
      }
      face[i] := index.value;
    }
    FaceOfAllOk(tokens, face[..]);
    r := Ok(face[..]);
  }

  /** Appends edge (face[i], face[(i + 1) mod N]) for every i, in order. */
  method FaceToEdges(face: seq<int>, edges: seq<Edge>) returns (result: seq<Edge>)
    ensures result == edges + ClosedPolygon(face)
  {
    result := edges;
    for i := 0 to |face|
      invariant |result| == |edges| + i && result[..|edges|] == edges
      invariant forall k :: |edges| <= k < |result| ==> result[k] == Edge(face[k - |edges|], face[(k - |edges| + 1) % |face|])
    {
      var startVertexIndex := face[i];
      var endVertexIndex := face[(i + 1) % |face|];
      result := result + [Edge(startVertexIndex, endVertexIndex)];
    }
    ClosedPolygonAt(face);
    assert result == edges + ClosedPolygon(face) by {
      forall k | 0 <= k < |result| ensures result[k] == (edges + ClosedPolygon(face))[k] {
        if k >= |edges| {
          assert ClosedPolygon(face)[k - |edges|] == Edge(face[k - |edges|], face[(k - |edges| + 1) % |face|]);
        }
      }
    }
  }

  /** Reading from line i on is line i's contribution followed by the lines after it. */
  lemma LoadFromStep(lines: seq<string>, i: nat, parseFloat: FloatParser, acc: MeshData)
    requires i < |lines|
    ensures var c := Contribution(lines[i], parseFloat);
      LoadFrom(lines[i..], parseFloat, acc) ==
        if c.Err? then Err(c.error) else LoadFrom(lines[i + 1..], parseFloat, Merge(acc, c.value))
  {
  }

  /** The line loop: vertices and edges collected in order, the first failing line ending it. */
  method ReadMesh(lines: seq<string>, parseFloat: FloatParser) returns (r: Result<MeshData, LoadError>)
    ensures r == Load(lines, parseFloat)
  {
    var vertices: seq<Vertex> := [];
    var edges: seq<Edge> := [];
    var i := 0;
    while i < |lines|
      invariant 0 <= i <= |lines|
      invariant Load(lines, parseFloat) == LoadFrom(lines[i..], parseFloat, MeshData(vertices, edges))
    {
      var line := lines[i];
      LoadFromStep(lines, i, parseFloat, MeshData(vertices, edges));
      if StartsWith(line, "v ") {
        var parts := Split(line, ' ');
        var vertex := ParseVertex(parts, parseFloat);
        if vertex.Err? {
          assert Contribution(line, parseFloat) == Err(vertex.error);
          return Err(vertex.error);
        }
        assert Contribution(line, parseFloat) == Ok(MeshData([vertex.value], []));
        assert Merge(MeshData(vertices, edges), MeshData([vertex.value], [])) == MeshData(vertices + [vertex.value], edges);
        vertices := vertices + [vertex.value];
      } else if StartsWith(line, "f ") {
        var parts := Split(line, ' ');
        MarkedLineSplits(line, 'f');
        var face := ParseFace(parts);
        if face.Err? {
          assert Contribution(line, parseFloat) == Err(face.error);
          return Err(face.error);
        }
        assert Contribution(line, parseFloat) == Ok(MeshData([], ClosedPolygon(face.value)));
        var grown := FaceToEdges(face.value, edges);
        assert Merge(MeshData(vertices, edges), MeshData([], ClosedPolygon(face.value))) == MeshData(vertices, grown);
        edges := grown;
      } else {
        assert Contribution(line, parseFloat) == Ok(NoMesh);
        assert Merge(MeshData(vertices, edges), NoMesh) == MeshData(vertices, edges);
      }
      i := i + 1;
    }
    r := Ok(MeshData(vertices, edges));
  }

  /** Loads a shape anchored at (originX, originY); the buffer starts as a copy of the vertices. */
  method LoadShape(file: Option<seq<string>>, parseFloat: FloatParser, originX: real, originY: real)
    returns (r: Result<Shape, LoadError>)
    ensures r.Err? <==> LoadFile(file, parseFloat).Err?
    ensures r.Err? ==> r.error == LoadFile(file, parseFloat).error
    ensures r.Ok? ==> fresh(r.value) && r.value.Valid()
    ensures r.Ok? ==> r.value.vertices == LoadFile(file, parseFloat).value.vertices
    ensures r.Ok? ==> r.value.edges == LoadFile(file, parseFloat).value.edges
    ensures r.Ok? ==> r.value.Current() == r.value.vertices
    ensures r.Ok? ==> r.value.originX == originX && r.value.originY == originY
  {
    if file.None? {
      return Err(NotFound);
    }
    var mesh := ReadMesh(file.value, parseFloat);
    if mesh.Err? {
      return Err(mesh.error);
    }
    if |mesh.value.vertices| == 0 {
      return Err(NoVertices);
    }
    var shape := new Shape(mesh.value.vertices, mesh.value.edges, originX, originY);
    r := Ok(shape);
  }

  // ---------------------------------------------------------------------------
  // Properties of the load

  /** Loading a file in two parts: the first part, then the second onto what the first built. */
  lemma {:induction false} LoadFromAppend(lines: seq<string>, more: seq<string>, parseFloat: FloatParser, acc: MeshData)
    ensures var head := LoadFrom(lines, parseFloat, acc);
      LoadFrom(lines + more, parseFloat, acc) == if head.Err? then head else LoadFrom(more, parseFloat, head.value)
  {
    if lines == [] {
      assert lines + more == more;
    } else {
      assert (lines + more)[0] == lines[0];
      assert (lines + more)[1..] == lines[1..] + more;
      var c := Contribution(lines[0], parseFloat);
      if c.Ok? {
        LoadFromAppend(lines[1..], more, parseFloat, Merge(acc, c.value));
      }
    }
  }

  /** One more line adds its contribution to the mesh read so far; an earlier or a new error ends the load. */
  lemma LoadSnoc(lines: seq<string>, line: string, parseFloat: FloatParser)
    ensures var before := Load(lines, parseFloat);
      var c := Contribution(line, parseFloat);
      Load(lines + [line], parseFloat) ==
        if before.Err? then before
        else if c.Err? then Err(c.error)
        else Ok(Merge(before.value, c.value))
  {
    LoadFromAppend(lines, [line], parseFloat, NoMesh);
    assert [line][0] == line && [line][1..] == [];
  }

  /** A line that reads without error extends a successful load by its contribution. */
  lemma LoadSnocOk(lines: seq<string>, line: string, parseFloat: FloatParser, before: MeshData, c: MeshData)
    requires Load(lines, parseFloat) == Ok(before) && Contribution(line, parseFloat) == Ok(c)
    ensures Load(lines + [line], parseFloat) == Ok(Merge(before, c))
  {
    LoadSnoc(lines, line, parseFloat);
  }

  /** Lines that start with "v " (the vertex lines) among the given ones. */
  function VertexLineCount(lines: seq<string>): nat
  {
    if lines == [] then 0
    else (if StartsWith(lines[0], "v ") then 1 else 0) + VertexLineCount(lines[1..])
  }

  /** The tokens after the marker, summed over the lines that start with "f " (the face lines). */
  function FaceTokenCount(lines: seq<string>): nat
  {
    if lines == [] then 0
    else
      var here :=
        if StartsWith(lines[0], "f ") then
          MarkedLineSplits(lines[0], 'f');
          |Split(lines[0], ' ')| - 1
        else 0;
      here + FaceTokenCount(lines[1..])
  }

  /** A vertex line adds one vertex, a face line one edge per token, any other line nothing. */
  lemma ContributionSize(line: string, parseFloat: FloatParser)
    requires Contribution(line, parseFloat).Ok?
    ensures var c := Contribution(line, parseFloat).value;
      |c.vertices| == (if StartsWith(line, "v ") then 1 else 0)
      && |c.edges| == FaceTokenCount([line])
  {
    assert [line][0] == line && [line][1..] == [];
    if StartsWith(line, "f ") {
      assert line[0] == line[..2][0] == 'f';
      assert !StartsWith(line, "v ");
      MarkedLineSplits(line, 'f');
      var face := FaceOf(Split(line, ' ')[1..]);
      ClosedPolygonAt(face.value);
    }
  }

  /** What the load builds only ever grows, by one vertex per vertex line and one edge per face token. */
  lemma {:induction false} LoadFromCounts(lines: seq<string>, parseFloat: FloatParser, acc: MeshData)
    requires LoadFrom(lines, parseFloat, acc).Ok?
    ensures var m := LoadFrom(lines, parseFloat, acc).value;
      acc.vertices <= m.vertices && acc.edges <= m.edges
      && |m.vertices| == |acc.vertices| + VertexLineCount(lines)
      && |m.edges| == |acc.edges| + FaceTokenCount(lines)
  {
    if lines != [] {
      var c := Contribution(lines[0], parseFloat);
      ContributionSize(lines[0], parseFloat);
      assert [lines[0]][0] == lines[0] && [lines[0]][1..] == [];
      LoadFromCounts(lines[1..], parseFloat, Merge(acc, c.value));
    }
  }

  /** A loaded mesh has one vertex per vertex line and one edge per face token. */
  lemma LoadCounts(lines: seq<string>, parseFloat: FloatParser)
    requires Load(lines, parseFloat).Ok?
    ensures |Load(lines, parseFloat).value.vertices| == VertexLineCount(lines)
    ensures |Load(lines, parseFloat).value.edges| == FaceTokenCount(lines)
  {
    LoadFromCounts(lines, parseFloat, NoMesh);
  }

  /**
   * In a successful load every line was read, and line k's vertices and edges sit in the
   * result right after those of the lines before it: the order of the file is kept.
   */
  lemma LoadKeepsOrder(lines: seq<string>, k: nat, parseFloat: FloatParser)
    requires Load(lines, parseFloat).Ok? && k < |lines|
    ensures Load(lines[..k], parseFloat).Ok? && Contribution(lines[k], parseFloat).Ok?
    ensures var m := Load(lines, parseFloat).value;
      var p := Load(lines[..k], parseFloat).value;
      var c := Contribution(lines[k], parseFloat).value;
      |p.vertices| + |c.vertices| <= |m.vertices| && |p.edges| + |c.edges| <= |m.edges|
      && m.vertices[|p.vertices|..|p.vertices| + |c.vertices|] == c.vertices
      && m.edges[|p.edges|..|p.edges| + |c.edges|] == c.edges
  {
    var before := Load(lines[..k], parseFloat);
    assert lines[..k] + lines[k..] == lines;
    LoadFromAppend(lines[..k], lines[k..], parseFloat, NoMesh);
    LoadFromStep(lines, k, parseFloat, before.value);
    var c := Contribution(lines[k], parseFloat);
    var grown := Merge(before.value, c.value);
    LoadFromCounts(lines[k + 1..], parseFloat, grown);
    var m := Load(lines, parseFloat).value;
    assert m.vertices[..|grown.vertices|] == grown.vertices;
    assert m.edges[..|grown.edges|] == grown.edges;
    assert m.vertices[|before.value.vertices|..|grown.vertices|] == grown.vertices[|before.value.vertices|..];
    assert m.edges[|before.value.edges|..|grown.edges|] == grown.edges[|before.value.edges|..];
  }

  /** The first line that fails decides the load: its error is the result and no shape is built. */
  lemma AbortAtFirstBadLine(lines: seq<string>, k: nat, parseFloat: FloatParser)
    requires k < |lines| && Load(lines[..k], parseFloat).Ok?
    requires Contribution(lines[k], parseFloat).Err?
    ensures Load(lines, parseFloat) == Err(Contribution(lines[k], parseFloat).error)
    ensures LoadFile(Some(lines), parseFloat) == Err(Contribution(lines[k], parseFloat).error)
  {
    assert lines[..k] + lines[k..] == lines;
    LoadFromAppend(lines[..k], lines[k..], parseFloat, NoMesh);
    LoadFromStep(lines, k, parseFloat, Load(lines[..k], parseFloat).value);
    assert Load(lines, parseFloat) == Err(Contribution(lines[k], parseFloat).error);
  }

  /** A line that is neither a vertex line nor a face line changes nothing. */
  lemma IgnoredLine(lines: seq<string>, line: string, parseFloat: FloatParser)
    requires !StartsWith(line, "v ") && !StartsWith(line, "f ")
    ensures Contribution(line, parseFloat) == Ok(NoMesh)
    ensures Load(lines + [line], parseFloat) == Load(lines, parseFloat)
  {
    LoadSnoc(lines, line, parseFloat);
    var before := Load(lines, parseFloat);
    if before.Ok? {
      assert Merge(before.value, NoMesh) == before.value;
    }
  }

  /** Without a file, or without a single vertex line, there is no shape. */
  lemma NoShapeWithoutVertices(lines: seq<string>, parseFloat: FloatParser)
    requires VertexLineCount(lines) == 0
    ensures LoadFile(None, parseFloat) == Err(NotFound)
    ensures Load(lines, parseFloat).Ok? ==> LoadFile(Some(lines), parseFloat) == Err(NoVertices)
  {
    if Load(lines, parseFloat).Ok? {
      LoadCounts(lines, parseFloat);
    }
  }

  // ---------------------------------------------------------------------------
  // Properties of single lines

  /** Space-free pieces after a one-character marker, joined by spaces: the marker and a space start the line, and split gives the pieces back. */
  lemma MarkedLine(marker: char, pieces: seq<string>)
    requires marker != ' ' && |pieces| >= 2 && pieces[0] == [marker] && pieces[|pieces| - 1] != ""
    requires forall k :: 1 <= k < |pieces| ==> ' ' !in pieces[k]
    ensures StartsWith(Join(pieces, ' '), [marker, ' '])
    ensures Split(Join(pieces, ' '), ' ') == pieces
  {
    SplitJoin(pieces, ' ');
    var line := Join(pieces, ' ');
    assert line == [marker] + [' '] + Join(pieces[1..], ' ');
    assert line[0] == marker && line[1] == ' ';
    assert line[..2] == [marker, ' '];
  }

  /** A vertex line is read by VertexOf on its space-separated pieces. */
  lemma VertexLineReads(line: string, parts: seq<string>, parseFloat: FloatParser)
    requires |parts| >= 2 && parts[0] == "v" && parts[|parts| - 1] != ""
    requires forall k :: 1 <= k < |parts| ==> ' ' !in parts[k]
    requires line == Join(parts, ' ')
    ensures var v := VertexOf(parts, parseFloat);
      Contribution(line, parseFloat) == if v.Err? then Err(v.error) else Ok(MeshData([v.value], []))
  {
    MarkedLine('v', parts);
  }

  /** A vertex line reads its three tokens after the marker as x, y, z and sets w to 1. */
  lemma VertexLineTokens(line: string, parts: seq<string>, parseFloat: FloatParser, x: real, y: real, z: real)
    requires |parts| >= 4 && parts[0] == "v" && parts[|parts| - 1] != ""
    requires forall k :: 1 <= k < |parts| ==> ' ' !in parts[k]
    requires parseFloat(parts[1]) == Some(x) && parseFloat(parts[2]) == Some(y) && parseFloat(parts[3]) == Some(z)
    requires line == Join(parts, ' ')
    ensures Contribution(line, parseFloat) == Ok(MeshData([[x, y, z, 1.0]], []))
  {
    VertexLineReads(line, parts, parseFloat);
    assert VertexOf(parts, parseFloat) == Ok([x, y, z, 1.0]);
  }

  /** In a vertex line the first of the three coordinates that the parser rejects is the error. */
  lemma VertexLineBadToken(line: string, parts: seq<string>, parseFloat: FloatParser, j: nat)
    requires |parts| >= 2 && parts[0] == "v" && parts[|parts| - 1] != ""
    requires forall k :: 1 <= k < |parts| ==> ' ' !in parts[k]
    requires 1 <= j <= 3 && j < |parts| && parseFloat(parts[j]).None?
    requires forall k :: 1 <= k < j ==> parseFloat(parts[k]).Some?
    requires line == Join(parts, ' ')
    ensures Contribution(line, parseFloat) == Err(MalformedNumber(parts[j]))
  {
    VertexLineReads(line, parts, parseFloat);
    assert Coordinate(parts, parseFloat, j) == Err(MalformedNumber(parts[j]));
    if j >= 2 {
      assert Coordinate(parts, parseFloat, 1).Ok?;
    }
    if j == 3 {
      assert Coordinate(parts, parseFloat, 2).Ok?;
    }
  }

  /** A vertex line with fewer than three coordinates, all of them numbers, lacks a token. */
  lemma VertexLineShort(line: string, parts: seq<string>, parseFloat: FloatParser)
    requires 2 <= |parts| < 4 && parts[0] == "v" && parts[|parts| - 1] != ""
    requires forall k :: 1 <= k < |parts| ==> ' ' !in parts[k] && parseFloat(parts[k]).Some?
    requires line == Join(parts, ' ')
    ensures Contribution(line, parseFloat) == Err(MissingToken)
  {
    VertexLineReads(line, parts, parseFloat);
    assert Coordinate(parts, parseFloat, |parts|) == Err(MissingToken);
    assert Coordinate(parts, parseFloat, 1).Ok?;
    if |parts| == 3 {
      assert Coordinate(parts, parseFloat, 2).Ok?;
    }
  }

  /** A face line reads every token after the marker as a reference and adds the closed polygon through them. */
  lemma FaceLineTokens(line: string, parts: seq<string>, parseFloat: FloatParser)
    requires |parts| >= 2 && parts[0] == "f" && parts[|parts| - 1] != ""
    requires forall k :: 1 <= k < |parts| ==> ' ' !in parts[k]
    requires line == Join(parts, ' ')
    ensures var face := FaceOf(parts[1..]);
      var c := Contribution(line, parseFloat);
      (face.Err? ==> c == Err(face.error))
      && (face.Ok? ==> c == Ok(MeshData([], ClosedPolygon(face.value))) && |c.value.edges| == |parts| - 1)
  {
    MarkedLine('f', parts);
    if FaceOf(parts[1..]).Ok? {
      ClosedPolygonAt(FaceOf(parts[1..]).value);
    }
  }

  /** A face reference is 1-based: the number n before any '/' names vertex n - 1. */
  lemma FaceIndexOneBased(n: nat, suffix: string)
    requires 1 <= n <= MaxInt
    requires suffix == "" || suffix[0] == '/'
    ensures FaceIndex(DecimalString(n) + suffix) == Ok(n - 1)
  {
    var digits := DecimalString(n);
    DecimalDigitsValue(n);
    assert '/' !in digits by {
      forall k | 0 <= k < |digits| ensures digits[k] != '/' { assert IsDigit(digits[k]); }
    }
    TakeUntilPrefix(digits, suffix, '/');
    SplitHead(digits + suffix, '/');
    ParseIntDecimal(n);
  }

  /** The reference -2147483648 minus one wraps around to the largest int. */
  lemma FaceIndexWraps()
    ensures FaceIndex("-" + DecimalString(-MinInt)) == Ok(MaxInt)
  {
    var digits := DecimalString(-MinInt);
    DecimalDigitsValue(-MinInt);
    var token := "-" + digits;
    assert '/' !in token by {
      forall k | 0 <= k < |token| ensures token[k] != '/' {
        if k > 0 { assert token[k] == digits[k - 1] && IsDigit(digits[k - 1]); }
      }
    }
    TakeUntilPrefix(token, "", '/');
    assert token + "" == token;
    SplitHead(token, '/');
    ParseIntDecimal(-MinInt);
  }

  // ---------------------------------------------------------------------------
  // Examples

  /** The closed polygon through 0, 1, 2. */
  lemma TriangleEdges()
    ensures ClosedPolygon([0, 1, 2]) == [Edge(0, 1), Edge(1, 2), Edge(2, 0)]
  {
  }

  /** A one-vertex polygon is the loop edge from that vertex to itself. */
  lemma PointEdges()
    ensures ClosedPolygon([0]) == [Edge(0, 0)]
  {
  }

  /** A one-digit reference n, possibly followed by '/' and more, names vertex n - 1. */
  lemma OneDigitReference(token: string, n: nat, suffix: string)
    requires 1 <= n <= 9 && token == [('0' as int + n) as char] + suffix
    requires suffix == "" || suffix[0] == '/'
    ensures FaceIndex(token) == Ok(n - 1)
  {
    assert DecimalString(n) == [('0' as int + n) as char];
    FaceIndexOneBased(n, suffix);
  }

  /** The references 1, 2, 3 name the vertices 0, 1, 2. */
  lemma TriangleReferences(t1: string, t2: string, t3: string)
    requires t1 == "1" && t2 == "2" && t3 == "3"
    ensures FaceOf([t1, t2, t3]) == Ok([0, 1, 2])
  {
    OneDigitReference(t1, 1, "");
    OneDigitReference(t2, 2, "");
    OneDigitReference(t3, 3, "");
    FaceOfAllOk([t1, t2, t3], [0, 1, 2]);
  }

  /** "f 1 2 3" adds the triangle (0, 1), (1, 2), (2, 0): references are 1-based and the last vertex joins the first. */
  lemma TriangleFaceExample(line: string, parseFloat: FloatParser)
    requires line == "f 1 2 3"
    ensures Contribution(line, parseFloat) == Ok(MeshData([], [Edge(0, 1), Edge(1, 2), Edge(2, 0)]))
  {
    var parts := ["f", "1", "2", "3"];
    FaceLineTokens(line, parts, parseFloat);
    assert parts[1..] == ["1", "2", "3"];
    TriangleReferences("1", "2", "3");
    TriangleEdges();
  }

  /** "v a b c" for three numbers a, b, c adds the vertex (a, b, c, 1). */
  lemma ThreeCoordinateLine(line: string, a: string, b: string, c: string, parseFloat: FloatParser, x: real, y: real, z: real)
    requires line == "v " + a + " " + b + " " + c
    requires ' ' !in a && ' ' !in b && ' ' !in c && c != ""
    requires parseFloat(a) == Some(x) && parseFloat(b) == Some(y) && parseFloat(c) == Some(z)
    ensures Contribution(line, parseFloat) == Ok(MeshData([[x, y, z, 1.0]], []))
  {
    var parts := ["v", a, b, c];
    assert Join(parts, ' ') == line by {
      assert parts[1..] == [a, b, c] && parts[1..][1..] == [b, c] && parts[1..][1..][1..] == [c];
      assert Join([b, c], ' ') == b + " " + c;
      assert Join([a, b, c], ' ') == a + " " + (b + " " + c);
      assert Join(parts, ' ') == "v" + " " + (a + " " + (b + " " + c));
    }
    VertexLineTokens(line, parts, parseFloat, x, y, z);
  }

  /** "v 1.0 2.0 3.0" adds the vertex (1, 2, 3, 1). */
  lemma VertexLineExample(line: string, parseFloat: FloatParser)
    requires line == "v 1.0 2.0 3.0"
    requires parseFloat("1.0") == Some(1.0) && parseFloat("2.0") == Some(2.0) && parseFloat("3.0") == Some(3.0)
    ensures Contribution(line, parseFloat) == Ok(MeshData([[1.0, 2.0, 3.0, 1.0]], []))
  {
    ThreeCoordinateLine(line, "1.0", "2.0", "3.0", parseFloat, 1.0, 2.0, 3.0);
  }

  /** "v 1.0 abc 3.0" fails on "abc". */
  lemma MalformedVertexExample(line: string, parseFloat: FloatParser)
    requires line == "v 1.0 abc 3.0"
    requires parseFloat("1.0") == Some(1.0) && parseFloat("abc") == None
    ensures Contribution(line, parseFloat) == Err(MalformedNumber("abc"))
  {
    var parts := ["v", "1.0", "abc", "3.0"];
    VertexLineBadToken(line, parts, parseFloat, 2);
  }

  /** "v 1.0 2.0" lacks its third coordinate. */
  lemma ShortVertexExample(line: string, parseFloat: FloatParser)
    requires line == "v 1.0 2.0"
    requires parseFloat("1.0") == Some(1.0) && parseFloat("2.0") == Some(2.0)
    ensures Contribution(line, parseFloat) == Err(MissingToken)
  {
    var parts := ["v", "1.0", "2.0"];
    VertexLineShort(line, parts, parseFloat);
  }

  /** The digits of 2147483648, the magnitude of the smallest int. */
  lemma MinIntDigits()
    ensures DecimalString(-MinInt) == "2147483648"
  {
    assert DecimalString(2) == "2";
    assert DecimalString(21) == "21";
    assert DecimalString(214) == "214";
    assert DecimalString(2147) == "2147";
    assert DecimalString(21474) == "21474";
    assert DecimalString(214748) == "214748";
    assert DecimalString(2147483) == "2147483";
    assert DecimalString(21474836) == "21474836";
    assert DecimalString(214748364) == "214748364";
  }

  /** The face reference "-2147483648" becomes vertex 2147483647: the subtraction wraps around. */
  lemma WrappedReferenceExample(token: string)
    requires token == "-2147483648"
    ensures FaceIndex(token) == Ok(MaxInt)
  {
    FaceIndexWraps();
    MinIntDigits();
    assert "-" + "2147483648" == token;
  }

  /** The token "/" has no pieces at all; "/2" has an empty first piece, which is not an int. */
  lemma SlashReferenceExamples(bare: string, leading: string)
    requires bare == "/" && leading == "/2"
    ensures FaceIndex(bare) == Err(MissingToken)
    ensures FaceIndex(leading) == Err(MalformedNumber(""))
  {
    FaceIndexMeaning(bare);
    FaceIndexMeaning(leading);
    assert !OnlySeparators(leading, '/') by { assert leading[1] != '/'; }
  }

  /** "f 1" is a one-vertex face: it closes onto itself as the edge (0, 0). */
  lemma PointFaceExample(line: string, parseFloat: FloatParser)
    requires line == "f 1"
    ensures Contribution(line, parseFloat) == Ok(MeshData([], [Edge(0, 0)]))
  {
    var parts := ["f", "1"];
    FaceLineTokens(line, parts, parseFloat);
    assert parts[1..] == ["1"];
    OneDigitReference("1", 1, "");
    FaceOfAllOk(["1"], [0]);
    PointEdges();
  }

  /** Two lines that both read without error load as their contributions, in order. */
  lemma LoadTwoLines(l0: string, l1: string, parseFloat: FloatParser, a: MeshData, b: MeshData)
    requires Contribution(l0, parseFloat) == Ok(a) && Contribution(l1, parseFloat) == Ok(b)
    ensures Load([l0, l1], parseFloat) == Ok(Merge(a, b))
    ensures a.vertices != [] ==> LoadFile(Some([l0, l1]), parseFloat) == Ok(Merge(a, b))
  {
    MergeNoMesh(a);
    LoadSnocOk([], l0, parseFloat, NoMesh, a);
    assert [] + [l0] == [l0];
    LoadSnocOk([l0], l1, parseFloat, a, b);
    assert [l0] + [l1] == [l0, l1];
  }

  /** A whole file, "v 1.0 2.0 3.0" and then "f 1": one vertex and its loop edge. */
  lemma PointFileExample(l0: string, l1: string, parseFloat: FloatParser)
    requires l0 == "v 1.0 2.0 3.0" && l1 == "f 1"
    requires parseFloat("1.0") == Some(1.0) && parseFloat("2.0") == Some(2.0) && parseFloat("3.0") == Some(3.0)
    ensures LoadFile(Some([l0, l1]), parseFloat) == Ok(MeshData([[1.0, 2.0, 3.0, 1.0]], [Edge(0, 0)]))
  {
    var vertex := MeshData([[1.0, 2.0, 3.0, 1.0]], []);
    var loop := MeshData([], [Edge(0, 0)]);
    assert Contribution(l0, parseFloat) == Ok(vertex) by {
      VertexLineExample(l0, parseFloat);
    }
    assert Contribution(l1, parseFloat) == Ok(loop) by {
      PointFaceExample(l1, parseFloat);
    }
    assert Merge(vertex, loop) == MeshData([[1.0, 2.0, 3.0, 1.0]], [Edge(0, 0)]);
    LoadTwoLines(l0, l1, parseFloat, vertex, loop);
  }
}
