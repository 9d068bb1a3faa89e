/**
 * The transformation engine: a shape owns an immutable base vertex list, an immutable edge
 * list and a working buffer of transformed vertices. Every transformation replaces each
 * working vertex v by the row-vector product v * M of its matrix M; the perspective
 * projection then divides x, y and z by a nonzero w in place. Drawing reads the buffer and
 * turns each edge into a line segment offset by the shape's screen anchor.
 */
module Mesh {
  import opened Geometry

  /** An edge between two vertices, by 0-based index (an int[2] in Shape.java). */
  datatype Edge = Edge(start: int, end: int)

  /** A 2D line segment (startX, startY, endX, endY) in screen coordinates. */
  datatype Segment = Segment(startX: real, startY: real, endX: real, endY: real)

  class Shape {
    /** The base geometry, fixed at construction. */
    const vertices: seq<Vertex>
    /** The edges, fixed at construction. */
    const edges: seq<Edge>
    /** The working buffer, reset to a copy of `vertices` and overwritten by each transformation. */
    var transformedVertices: array<Vertex>
    /** The screen anchor added at draw time. */
    var originX: real
    var originY: real

    /** The object invariant: a nonempty base and a buffer with one row per base vertex. */
    ghost predicate Valid()
      reads this
    {
      |vertices| > 0 && transformedVertices.Length == |vertices|
    }

    /** The working vertices. */
    ghost function Current(): seq<Vertex>
      reads this, transformedVertices
    {
      transformedVertices[..]
    }

    /** The anchor is given here instead of being read from a process-wide default. */
    constructor (vertices: seq<Vertex>, edges: seq<Edge>, originX: real, originY: real)
      requires |vertices| > 0
      ensures Valid() && fresh(transformedVertices)
      ensures this.vertices == vertices && this.edges == edges
      ensures this.originX == originX && this.originY == originY
      ensures Current() == vertices
    {
      this.vertices := vertices;
      this.edges := edges;
      this.originX := originX;
      this.originY := originY;
      transformedVertices := new Vertex[0];
      new;
      UndoTransformations();
    }

    /** Resets the buffer to a fresh copy of the base vertices. */
    method UndoTransformations()
      requires |vertices| > 0
      modifies this`transformedVertices
      ensures Valid() && fresh(transformedVertices)
      ensures Current() == vertices
    {
      var copy := new Vertex[|vertices|];
      for i := 0 to |vertices|
        invariant forall k :: 0 <= k < i ==> copy[k] == vertices[k]
      {
        copy[i] := vertices[i];
      }
      transformedVertices := copy;
    }

    /** The row vector `vector` times `matrix`, accumulated column by column as `vectorMatrixMultiplication` does. */
    static method VectorMatrixMultiplication(vector: Vertex, matrix: Matrix) returns (result: Vertex)
      ensures result == Times(vector, matrix)
    {
      var sums := new real[4](_ => 0.0);
      for i := 0 to 4
        invariant forall k :: 0 <= k < i ==> sums[k] == ColumnSum(vector, matrix, k, 4)
        invariant forall k :: i <= k < 4 ==> sums[k] == 0.0
      {
        for j := 0 to 4
          invariant forall k :: 0 <= k < i ==> sums[k] == ColumnSum(vector, matrix, k, 4)
          invariant sums[i] == ColumnSum(vector, matrix, i, j)
          invariant forall k :: i < k < 4 ==> sums[k] == 0.0
        {
          sums[i] := sums[i] + vector[j] * matrix[j][i];
        }
      }
      result := sums[..];
      SameVertex(result, Times(vector, matrix));
    }

    /** Replaces every working vertex v by v * matrix, in a new buffer; count and order are kept. */
    method Transform(matrix: Matrix)
      requires Valid()
      modifies this`transformedVertices
      ensures Valid() && fresh(transformedVertices)
      ensures |Current()| == |old(Current())|
      ensures forall i :: 0 <= i < |Current()| ==> Current()[i] == Times(old(Current())[i], matrix)
    {
      var source := transformedVertices;
      var result := new Vertex[source.Length];
      for i := 0 to source.Length
        invariant forall k :: 0 <= k < i ==> result[k] == Times(source[k], matrix)
      {
        result[i] := VectorMatrixMultiplication(source[i], matrix);
      }
      transformedVertices := result;
    }

    /** (x, y, z, w) becomes (x + w*tx, y + w*ty, z + w*tz, w); a zero offset returns at once. */
    method Translate(tx: real, ty: real, tz: real)
      requires Valid()
      modifies this`transformedVertices
      ensures Valid() && |Current()| == |old(Current())|
      ensures !(tx == 0.0 && ty == 0.0 && tz == 0.0) ==> fresh(transformedVertices)
      ensures forall i :: 0 <= i < |Current()| ==> Current()[i] == Translated(old(Current())[i], tx, ty, tz)
      ensures tx == 0.0 && ty == 0.0 && tz == 0.0 ==> transformedVertices == old(transformedVertices) && Current() == old(Current())
    {
      if tx == 0.0 && ty == 0.0 && tz == 0.0 {
        return;
      }
      Transform(TranslationMatrix(tx, ty, tz));
      forall i | 0 <= i < |Current()| ensures Current()[i] == Translated(old(Current())[i], tx, ty, tz) {
        TranslationMatrixMeaning(old(Current())[i], tx, ty, tz);
      }
    }

    /**
     * (x, y, z, w) becomes (sx*x, sy*y, sz*z, w). All three factors zero returns at once and
     * leaves the buffer as it was: it does not collapse the vertices.
     */
    method Scale(sx: real, sy: real, sz: real)
      requires Valid()
      modifies this`transformedVertices
      ensures Valid() && |Current()| == |old(Current())|
      ensures !(sx == 0.0 && sy == 0.0 && sz == 0.0) ==> fresh(transformedVertices)
      ensures sx == 0.0 && sy == 0.0 && sz == 0.0 ==> transformedVertices == old(transformedVertices) && Current() == old(Current())
      ensures !(sx == 0.0 && sy == 0.0 && sz == 0.0) ==>
        forall i :: 0 <= i < |Current()| ==> Current()[i] == Scaled(old(Current())[i], sx, sy, sz)
    {
      if sx == 0.0 && sy == 0.0 && sz == 0.0 {
        return;
      }
      Transform(ScaleMatrix(sx, sy, sz));
      forall i | 0 <= i < |Current()| ensures Current()[i] == Scaled(old(Current())[i], sx, sy, sz) {
        ScaleMatrixMeaning(old(Current())[i], sx, sy, sz);
      }
    }

    /**
     * Rotation about the x axis by theta degrees, given the sine and cosine of theta:
     * x and w are kept, y' = y*cos - z*sin, z' = y*sin + z*cos. Skipped for a full turn.
     */
    method RotateOnX(theta: real, sin: real, cos: real)
      requires Valid()
      modifies this`transformedVertices
      ensures Valid() && |Current()| == |old(Current())|
      ensures !IsFullTurn(theta) ==> fresh(transformedVertices)
      ensures IsFullTurn(theta) ==> transformedVertices == old(transformedVertices) && Current() == old(Current())
      ensures !IsFullTurn(theta) ==>
        forall i :: 0 <= i < |Current()| ==> Current()[i] == RotatedX(old(Current())[i], sin, cos)
    {
      if IsFullTurn(theta) {
        return;
      }
      Transform(RotationXMatrix(sin, cos));
      forall i | 0 <= i < |Current()| ensures Current()[i] == RotatedX(old(Current())[i], sin, cos) {
        RotationXMatrixMeaning(old(Current())[i], sin, cos);
      }
    }

    /** Rotation about the y axis: y and w are kept, x' = x*cos + z*sin, z' = z*cos - x*sin. */
    method RotateOnY(theta: real, sin: real, cos: real)
      requires Valid()
      modifies this`transformedVertices
      ensures Valid() && |Current()| == |old(Current())|
      ensures !IsFullTurn(theta) ==> fresh(transformedVertices)
      ensures IsFullTurn(theta) ==> transformedVertices == old(transformedVertices) && Current() == old(Current())
      ensures !IsFullTurn(theta) ==>
        forall i :: 0 <= i < |Current()| ==> Current()[i] == RotatedY(old(Current())[i], sin, cos)
    {
      if IsFullTurn(theta) {
        return;
      }
      Transform(RotationYMatrix(sin, cos));
      forall i | 0 <= i < |Current()| ensures Current()[i] == RotatedY(old(Current())[i], sin, cos) {
        RotationYMatrixMeaning(old(Current())[i], sin, cos);
      }
    }

    /** Rotation about the z axis: z and w are kept, x' = x*cos + y*sin, y' = y*cos - x*sin. */
    method RotateOnZ(theta: real, sin: real, cos: real)
      requires Valid()
      modifies this`transformedVertices
      ensures Valid() && |Current()| == |old(Current())|
      ensures !IsFullTurn(theta) ==> fresh(transformedVertices)
      ensures IsFullTurn(theta) ==> transformedVertices == old(transformedVertices) && Current() == old(Current())
      ensures !IsFullTurn(theta) ==>
        forall i :: 0 <= i < |Current()| ==> Current()[i] == RotatedZ(old(Current())[i], sin, cos)
    {
      if IsFullTurn(theta) {
        return;
      }
      Transform(RotationZMatrix(sin, cos));
      forall i | 0 <= i < |Current()| ensures Current()[i] == RotatedZ(old(Current())[i], sin, cos) {
        RotationZMatrixMeaning(old(Current())[i], sin, cos);
      }
    }

    /** Shear along x: x and w are kept, y' = y + sy*x, z' = z + sz*x; zero factors return at once. */
    method ShearOnX(sy: real, sz: real)
      requires Valid()
      modifies this`transformedVertices
      ensures Valid() && |Current()| == |old(Current())|
      ensures !(sy == 0.0 && sz == 0.0) ==> fresh(transformedVertices)
      ensures forall i :: 0 <= i < |Current()| ==> Current()[i] == ShearedX(old(Current())[i], sy, sz)
      ensures sy == 0.0 && sz == 0.0 ==> transformedVertices == old(transformedVertices) && Current() == old(Current())
    {
      if sy == 0.0 && sz == 0.0 {
        forall i | 0 <= i < |Current()| ensures Current()[i] == ShearedX(old(Current())[i], sy, sz) {
          SameVertex(Current()[i], ShearedX(old(Current())[i], sy, sz));
        }
        return;
      }
      Transform(ShearXMatrix(sy, sz));
      forall i | 0 <= i < |Current()| ensures Current()[i] == ShearedX(old(Current())[i], sy, sz) {
        ShearXMatrixMeaning(old(Current())[i], sy, sz);
      }
    }

    /** Shear along y: y and w are kept, x' = x + sx*y, z' = z + sz*y; zero factors return at once. */
    method ShearOnY(sx: real, sz: real)
      requires Valid()
      modifies this`transformedVertices
      ensures Valid() && |Current()| == |old(Current())|
      ensures !(sx == 0.0 && sz == 0.0) ==> fresh(transformedVertices)
      ensures forall i :: 0 <= i < |Current()| ==> Current()[i] == ShearedY(old(Current())[i], sx, sz)
      ensures sx == 0.0 && sz == 0.0 ==> transformedVertices == old(transformedVertices) && Current() == old(Current())
    {
      if sx == 0.0 && sz == 0.0 {
        forall i | 0 <= i < |Current()| ensures Current()[i] == ShearedY(old(Current())[i], sx, sz) {
          SameVertex(Current()[i], ShearedY(old(Current())[i], sx, sz));
        }
        return;
      }
      Transform(ShearYMatrix(sx, sz));
      forall i | 0 <= i < |Current()| ensures Current()[i] == ShearedY(old(Current())[i], sx, sz) {
        ShearYMatrixMeaning(old(Current())[i], sx, sz);
      }
    }

    /** Shear along z: z and w are kept, x' = x + sx*z, y' = y + sy*z; zero factors return at once. */
    method ShearOnZ(sx: real, sy: real)
      requires Valid()
      modifies this`transformedVertices
      ensures Valid() && |Current()| == |old(Current())|
      ensures !(sx == 0.0 && sy == 0.0) ==> fresh(transformedVertices)
      ensures forall i :: 0 <= i < |Current()| ==> Current()[i] == ShearedZ(old(Current())[i], sx, sy)
      ensures sx == 0.0 && sy == 0.0 ==> transformedVertices == old(transformedVertices) && Current() == old(Current())
    {
      if sx == 0.0 && sy == 0.0 {
        forall i | 0 <= i < |Current()| ensures Current()[i] == ShearedZ(old(Current())[i], sx, sy) {
          SameVertex(Current()[i], ShearedZ(old(Current())[i], sx, sy));
        }
        return;
      }
      Transform(ShearZMatrix(sx, sy));
      forall i | 0 <= i < |Current()| ensures Current()[i] == ShearedZ(old(Current())[i], sx, sy) {
        ShearZMatrixMeaning(old(Current())[i], sx, sy);
      }
    }

    /**
     * The perspective product, followed in place by the divide: each vertex whose w is
     * nonzero has x, y and z divided by w, and w is left as it is. `perspectiveScale` is
     * 1 / tan(fov / 2), computed by the caller.
     */
    method Perspective(zNear: real, zFar: real, perspectiveScale: real, aspectRatio: real)
      requires Valid() && aspectRatio != 0.0 && zFar != zNear
      modifies this`transformedVertices
      ensures Valid() && fresh(transformedVertices) && |Current()| == |old(Current())|
      ensures forall i :: 0 <= i < |Current()| ==>
        Current()[i] == PerspectiveDivided(PerspectiveProjected(old(Current())[i], perspectiveScale, aspectRatio, zNear, zFar))
    {
      Transform(PerspectiveMatrix(perspectiveScale, aspectRatio, zNear, zFar));
      var buffer := transformedVertices;
      ghost var projected := buffer[..];
      for i := 0 to buffer.Length
        invariant transformedVertices == buffer
        invariant forall k :: 0 <= k < i ==> buffer[k] == PerspectiveDivided(projected[k])
        invariant forall k :: i <= k < buffer.Length ==> buffer[k] == projected[k]
      {
        var vertex := buffer[i];
        var w := vertex[3];
        if w != 0.0 {
          buffer[i] := [vertex[0] / w, vertex[1] / w, vertex[2] / w, w];
        }
      }
      forall i | 0 <= i < |Current()| ensures
        Current()[i] == PerspectiveDivided(PerspectiveProjected(old(Current())[i], perspectiveScale, aspectRatio, zNear, zFar))
      {
        PerspectiveMatrixMeaning(old(Current())[i], perspectiveScale, aspectRatio, zNear, zFar);
      }
    }

    /** The orthographic product; there is no divide afterwards. */
    method Orthographic(left: real, right: real, bottom: real, top: real, zNear: real, zFar: real)
      requires Valid() && right != left && top != bottom && zFar != zNear
      modifies this`transformedVertices
      ensures Valid() && fresh(transformedVertices) && |Current()| == |old(Current())|
      ensures forall i :: 0 <= i < |Current()| ==>
        Current()[i] == OrthographicProjected(old(Current())[i], left, right, bottom, top, zNear, zFar)
    {
      Transform(OrthographicMatrix(left, right, bottom, top, zNear, zFar));
      forall i | 0 <= i < |Current()| ensures
        Current()[i] == OrthographicProjected(old(Current())[i], left, right, bottom, top, zNear, zFar)
      {
        OrthographicMatrixMeaning(old(Current())[i], left, right, bottom, top, zNear, zFar);
      }
    }

    /** Both endpoints of `e` index the buffer. */
    ghost predicate Drawable(e: Edge)
      reads this
    {
      0 <= e.start < transformedVertices.Length && 0 <= e.end < transformedVertices.Length
    }

    /** The segment between the working vertices of `e`, offset by the anchor. */
    ghost function AnchoredSegment(e: Edge): Segment
      reads this, transformedVertices
      requires Drawable(e)
    {
      var a := transformedVertices[e.start];
      var b := transformedVertices[e.end];
      Segment(a[0] + originX, a[1] + originY, b[0] + originX, b[1] + originY)
    }

    /**
     * The segments drawn, one per edge and in edge order, without changing anything. An edge
     * whose index is outside the buffer stops the drawing there (`draw` throws after the
     * earlier segments have been stroked); `complete` tells whether every edge was drawn.
     */
    method Draw() returns (segments: seq<Segment>, complete: bool)
      ensures complete <==> forall k :: 0 <= k < |edges| ==> Drawable(edges[k])
      ensures complete <==> |segments| == |edges|
      ensures !complete ==> |segments| < |edges| && !Drawable(edges[|segments|])
      ensures |segments| <= |edges|
      ensures forall k :: 0 <= k < |segments| ==> Drawable(edges[k]) && segments[k] == AnchoredSegment(edges[k])
    {
      segments, complete := [], true;
      var i := 0;
      while i < |edges|
        invariant 0 <= i <= |edges| && |segments| == i
        invariant forall k :: 0 <= k < i ==> Drawable(edges[k]) && segments[k] == AnchoredSegment(edges[k])
      {
        var edge := edges[i];
        if !(0 <= edge.start < transformedVertices.Length && 0 <= edge.end < transformedVertices.Length) {
          complete := false;
          return;
        }
        var startVertex := transformedVertices[edge.start];
        var endVertex := transformedVertices[edge.end];
        segments := segments + [Segment(startVertex[0] + originX, startVertex[1] + originY,
                                        endVertex[0] + originX, endVertex[1] + originY)];
        i := i + 1;
      }
    }

    function GetOriginX(): (x: real)
      reads this
      ensures x == originX
    {
      originX
    }

    function GetOriginY(): (y: real)
      reads this
      ensures y == originY
    {
      originY
    }

    /** Moves the anchor; the buffer and the base are untouched. */
    method SetOriginX(newOriginX: real)
      modifies this`originX
      ensures originX == newOriginX
    {
      originX := newOriginX;
    }

    method SetOriginY(newOriginY: real)
      modifies this`originY
      ensures originY == newOriginY
    {
      originY := newOriginY;
    }
  }

  /**
   * Order matters: on the single vertex (1, 0, 0, 1), scale(2, 2, 2) then translate(5, 0, 0)
   * gives (7, 0, 0, 1), and the reverse order gives (12, 0, 0, 1).
   */
  method ScaleTranslateOrder() returns (scaledFirst: Vertex, translatedFirst: Vertex)
    ensures scaledFirst == [7.0, 0.0, 0.0, 1.0]
    ensures translatedFirst == [12.0, 0.0, 0.0, 1.0]
  {
    var a := new Shape([[1.0, 0.0, 0.0, 1.0]], [], 0.0, 0.0);
    a.Scale(2.0, 2.0, 2.0);
    a.Translate(5.0, 0.0, 0.0);
    scaledFirst := a.transformedVertices[0];
    var b := new Shape([[1.0, 0.0, 0.0, 1.0]], [], 0.0, 0.0);
    b.Translate(5.0, 0.0, 0.0);
    b.Scale(2.0, 2.0, 2.0);
    translatedFirst := b.transformedVertices[0];
  }
}
