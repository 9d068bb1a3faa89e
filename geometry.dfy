/**
 * The per-vertex algebra of the transformation engine: homogeneous vertices, 4x4 matrices,
 * the row-vector product every operation uses, the matrix literals each operation builds,
 * and, for each of them, a closed form of what the product does to one vertex.
 *
 * Arithmetic is over `real`; sines, cosines and the perspective scale are inputs.
 */
module Geometry {

  /** A homogeneous vertex (x, y, z, w), a 4-element row. */
  type Vertex = v: seq<real> | |v| == 4 witness [0.0, 0.0, 0.0, 0.0]

  /** A 4x4 matrix, as its four rows. */
  type Matrix = m: seq<Vertex> | |m| == 4 witness [Origin, Origin, Origin, Origin]

  const Origin: Vertex := [0.0, 0.0, 0.0, 0.0]

  // ---------------------------------------------------------------------------
  // The row-vector product

  /** v[0]*m[0][col] + ... + v[n-1]*m[n-1][col], accumulated from the first row on. */
  function ColumnSum(v: Vertex, m: Matrix, col: nat, n: nat): real
    requires col < 4 && n <= 4
  {
    if n == 0 then 0.0 else ColumnSum(v, m, col, n - 1) + v[n - 1] * m[n - 1][col]
  }

  /** The row vector v times the matrix m: component i is the sum over j of v[j] * m[j][i]. */
  function Times(v: Vertex, m: Matrix): Vertex
  {
    [ColumnSum(v, m, 0, 4), ColumnSum(v, m, 1, 4), ColumnSum(v, m, 2, 4), ColumnSum(v, m, 3, 4)]
  }

  /** The four-term sum that Times computes in column `col`, written out. */
  lemma {:induction false} ColumnSumExpanded(v: Vertex, m: Matrix, col: nat)
    requires col < 4
    ensures ColumnSum(v, m, col, 4)
         == v[0] * m[0][col] + v[1] * m[1][col] + v[2] * m[2][col] + v[3] * m[3][col]
  {
    assert ColumnSum(v, m, col, 1) == v[0] * m[0][col];
    assert ColumnSum(v, m, col, 2) == ColumnSum(v, m, col, 1) + v[1] * m[1][col];
    assert ColumnSum(v, m, col, 3) == ColumnSum(v, m, col, 2) + v[2] * m[2][col];
  }

  /** Times written out component by component. */
  lemma TimesExpanded(v: Vertex, m: Matrix)
    ensures Times(v, m)[0] == v[0] * m[0][0] + v[1] * m[1][0] + v[2] * m[2][0] + v[3] * m[3][0]
    ensures Times(v, m)[1] == v[0] * m[0][1] + v[1] * m[1][1] + v[2] * m[2][1] + v[3] * m[3][1]
    ensures Times(v, m)[2] == v[0] * m[0][2] + v[1] * m[1][2] + v[2] * m[2][2] + v[3] * m[3][2]
    ensures Times(v, m)[3] == v[0] * m[0][3] + v[1] * m[1][3] + v[2] * m[2][3] + v[3] * m[3][3]
  {
    ColumnSumExpanded(v, m, 0);
    ColumnSumExpanded(v, m, 1);
    ColumnSumExpanded(v, m, 2);
    ColumnSumExpanded(v, m, 3);
  }

  /** Two vertices are equal when their four components are. */
  lemma SameVertex(a: Vertex, b: Vertex)
    requires a[0] == b[0] && a[1] == b[1] && a[2] == b[2] && a[3] == b[3]
    ensures a == b
  {
  }

  // ---------------------------------------------------------------------------
  // The matrix literals, as the operations build them

  function TranslationMatrix(tx: real, ty: real, tz: real): Matrix
  {
    [[1.0, 0.0, 0.0, 0.0],
     [0.0, 1.0, 0.0, 0.0],
     [0.0, 0.0, 1.0, 0.0],
     [tx, ty, tz, 1.0]]
  }

  function ScaleMatrix(sx: real, sy: real, sz: real): Matrix
  {
    [[sx, 0.0, 0.0, 0.0],
     [0.0, sy, 0.0, 0.0],
     [0.0, 0.0, sz, 0.0],
     [0.0, 0.0, 0.0, 1.0]]
  }

  function RotationXMatrix(sin: real, cos: real): Matrix
  {
    [[1.0, 0.0, 0.0, 0.0],
     [0.0, cos, sin, 0.0],
     [0.0, -sin, cos, 0.0],
     [0.0, 0.0, 0.0, 1.0]]
  }

  function RotationYMatrix(sin: real, cos: real): Matrix
  {
    [[cos, 0.0, -sin, 0.0],
     [0.0, 1.0, 0.0, 0.0],
     [sin, 0.0, cos, 0.0],
     [0.0, 0.0, 0.0, 1.0]]
  }

  function RotationZMatrix(sin: real, cos: real): Matrix
  {
    [[cos, -sin, 0.0, 0.0],
     [sin, cos, 0.0, 0.0],
     [0.0, 0.0, 1.0, 0.0],
     [0.0, 0.0, 0.0, 1.0]]
  }

  function ShearXMatrix(sy: real, sz: real): Matrix
  {
    [[1.0, sy, sz, 0.0],
     [0.0, 1.0, 0.0, 0.0],
     [0.0, 0.0, 1.0, 0.0],
     [0.0, 0.0, 0.0, 1.0]]
  }

  function ShearYMatrix(sx: real, sz: real): Matrix
  {
    [[1.0, 0.0, 0.0, 0.0],
     [sx, 1.0, sz, 0.0],
     [0.0, 0.0, 1.0, 0.0],
     [0.0, 0.0, 0.0, 1.0]]
  }

  function ShearZMatrix(sx: real, sy: real): Matrix
  {
    [[1.0, 0.0, 0.0, 0.0],
     [0.0, 1.0, 0.0, 0.0],
     [sx, sy, 1.0, 0.0],
     [0.0, 0.0, 0.0, 1.0]]
  }

  /** zFar / (zFar - zNear). */
  function DepthScale(zNear: real, zFar: real): real
    requires zFar != zNear
  {
    zFar / (zFar - zNear)
  }

  /** The perspective matrix, with its projection terms in the last column. */
  function PerspectiveMatrix(perspectiveScale: real, aspectRatio: real, zNear: real, zFar: real): Matrix
    requires aspectRatio != 0.0 && zFar != zNear
  {
    var depthScale := DepthScale(zNear, zFar);
    [[perspectiveScale / aspectRatio, 0.0, 0.0, 0.0],
     [0.0, perspectiveScale, 0.0, 0.0],
     [0.0, 0.0, depthScale, -depthScale * zNear],
     [0.0, 0.0, 1.0, 0.0]]
  }

  /** The orthographic matrix, with its offset terms in the last column. */
  function OrthographicMatrix(left: real, right: real, bottom: real, top: real, zNear: real, zFar: real): Matrix
    requires right != left && top != bottom && zFar != zNear
  {
    [[2.0 / (right - left), 0.0, 0.0, -(right + left) / (right - left)],
     [0.0, 2.0 / (top - bottom), 0.0, -(top + bottom) / (top - bottom)],
     [0.0, 0.0, -2.0 / (zFar - zNear), -(zFar + zNear) / (zFar - zNear)],
     [0.0, 0.0, 0.0, 1.0]]
  }

  // ---------------------------------------------------------------------------
  // Closed forms: what each operation does to one vertex (x, y, z, w)

  function Translated(v: Vertex, tx: real, ty: real, tz: real): Vertex
  {
    [v[0] + v[3] * tx, v[1] + v[3] * ty, v[2] + v[3] * tz, v[3]]
  }

  function Scaled(v: Vertex, sx: real, sy: real, sz: real): Vertex
  {
    [sx * v[0], sy * v[1], sz * v[2], v[3]]
  }

  function RotatedX(v: Vertex, sin: real, cos: real): Vertex
  {
    [v[0], v[1] * cos - v[2] * sin, v[1] * sin + v[2] * cos, v[3]]
  }

  function RotatedY(v: Vertex, sin: real, cos: real): Vertex
  {
    [v[0] * cos + v[2] * sin, v[1], v[2] * cos - v[0] * sin, v[3]]
  }

  function RotatedZ(v: Vertex, sin: real, cos: real): Vertex
  {
    [v[0] * cos + v[1] * sin, v[1] * cos - v[0] * sin, v[2], v[3]]
  }

  function ShearedX(v: Vertex, sy: real, sz: real): Vertex
  {
    [v[0], v[1] + sy * v[0], v[2] + sz * v[0], v[3]]
  }

  function ShearedY(v: Vertex, sx: real, sz: real): Vertex
  {
    [v[0] + sx * v[1], v[1], v[2] + sz * v[1], v[3]]
  }

  function ShearedZ(v: Vertex, sx: real, sy: real): Vertex
  {
    [v[0] + sx * v[2], v[1] + sy * v[2], v[2], v[3]]
  }

  /** The perspective product before the divide: z picks up w, and w becomes a multiple of z. */
  function PerspectiveProjected(v: Vertex, perspectiveScale: real, aspectRatio: real, zNear: real, zFar: real): Vertex
    requires aspectRatio != 0.0 && zFar != zNear
  {
    var depthScale := DepthScale(zNear, zFar);
    [v[0] * perspectiveScale / aspectRatio,
     v[1] * perspectiveScale,
     depthScale * v[2] + v[3],
     -depthScale * zNear * v[2]]
  }

  /** The orthographic product: x, y, z are only scaled, and every offset lands in w. */
  function OrthographicProjected(v: Vertex, left: real, right: real, bottom: real, top: real, zNear: real, zFar: real): Vertex
    requires right != left && top != bottom && zFar != zNear
  {
    [2.0 * v[0] / (right - left),
     2.0 * v[1] / (top - bottom),
     -2.0 * v[2] / (zFar - zNear),
     v[3] - v[0] * (right + left) / (right - left)
          - v[1] * (top + bottom) / (top - bottom)
          - v[2] * (zFar + zNear) / (zFar - zNear)]
  }

  /** The perspective divide: x, y, z divided by a nonzero w; w itself is kept. */
  function PerspectiveDivided(v: Vertex): Vertex
  {
    if v[3] != 0.0 then [v[0] / v[3], v[1] / v[3], v[2] / v[3], v[3]] else v
  }

  /** The rotation fast path: an angle of 0 or a whole multiple of 360 degrees. */
  predicate IsFullTurn(theta: real)
  {
    theta == 0.0 || (theta / 360.0).Floor as real == theta / 360.0
  }

  // ---------------------------------------------------------------------------
  // The matrix literals compute the closed forms

  lemma TranslationMatrixMeaning(v: Vertex, tx: real, ty: real, tz: real)
    ensures Times(v, TranslationMatrix(tx, ty, tz)) == Translated(v, tx, ty, tz)
  {
    TimesExpanded(v, TranslationMatrix(tx, ty, tz));
    SameVertex(Times(v, TranslationMatrix(tx, ty, tz)), Translated(v, tx, ty, tz));
  }

  lemma ScaleMatrixMeaning(v: Vertex, sx: real, sy: real, sz: real)
    ensures Times(v, ScaleMatrix(sx, sy, sz)) == Scaled(v, sx, sy, sz)
  {
    TimesExpanded(v, ScaleMatrix(sx, sy, sz));
    SameVertex(Times(v, ScaleMatrix(sx, sy, sz)), Scaled(v, sx, sy, sz));
  }

  lemma RotationXMatrixMeaning(v: Vertex, sin: real, cos: real)
    ensures Times(v, RotationXMatrix(sin, cos)) == RotatedX(v, sin, cos)
  {
    TimesExpanded(v, RotationXMatrix(sin, cos));
    SameVertex(Times(v, RotationXMatrix(sin, cos)), RotatedX(v, sin, cos));
  }

  lemma RotationYMatrixMeaning(v: Vertex, sin: real, cos: real)
    ensures Times(v, RotationYMatrix(sin, cos)) == RotatedY(v, sin, cos)
  {
    TimesExpanded(v, RotationYMatrix(sin, cos));
    SameVertex(Times(v, RotationYMatrix(sin, cos)), RotatedY(v, sin, cos));
  }

  lemma RotationZMatrixMeaning(v: Vertex, sin: real, cos: real)
    ensures Times(v, RotationZMatrix(sin, cos)) == RotatedZ(v, sin, cos)
  {
    TimesExpanded(v, RotationZMatrix(sin, cos));
    SameVertex(Times(v, RotationZMatrix(sin, cos)), RotatedZ(v, sin, cos));
  }

  lemma ShearXMatrixMeaning(v: Vertex, sy: real, sz: real)
    ensures Times(v, ShearXMatrix(sy, sz)) == ShearedX(v, sy, sz)
  {
    TimesExpanded(v, ShearXMatrix(sy, sz));
    SameVertex(Times(v, ShearXMatrix(sy, sz)), ShearedX(v, sy, sz));
  }

  lemma ShearYMatrixMeaning(v: Vertex, sx: real, sz: real)
    ensures Times(v, ShearYMatrix(sx, sz)) == ShearedY(v, sx, sz)
  {
    TimesExpanded(v, ShearYMatrix(sx, sz));
    SameVertex(Times(v, ShearYMatrix(sx, sz)), ShearedY(v, sx, sz));
  }

  lemma ShearZMatrixMeaning(v: Vertex, sx: real, sy: real)
    ensures Times(v, ShearZMatrix(sx, sy)) == ShearedZ(v, sx, sy)
  {
    TimesExpanded(v, ShearZMatrix(sx, sy));
    SameVertex(Times(v, ShearZMatrix(sx, sy)), ShearedZ(v, sx, sy));
  }

  lemma PerspectiveMatrixMeaning(v: Vertex, perspectiveScale: real, aspectRatio: real, zNear: real, zFar: real)
    requires aspectRatio != 0.0 && zFar != zNear
    ensures Times(v, PerspectiveMatrix(perspectiveScale, aspectRatio, zNear, zFar))
         == PerspectiveProjected(v, perspectiveScale, aspectRatio, zNear, zFar)
  {
    var m := PerspectiveMatrix(perspectiveScale, aspectRatio, zNear, zFar);
    TimesExpanded(v, m);
    SameVertex(Times(v, m), PerspectiveProjected(v, perspectiveScale, aspectRatio, zNear, zFar));
  }

  lemma OrthographicMatrixMeaning(v: Vertex, left: real, right: real, bottom: real, top: real, zNear: real, zFar: real)
    requires right != left && top != bottom && zFar != zNear
    ensures Times(v, OrthographicMatrix(left, right, bottom, top, zNear, zFar))
         == OrthographicProjected(v, left, right, bottom, top, zNear, zFar)
  {
    var m := OrthographicMatrix(left, right, bottom, top, zNear, zFar);
    TimesExpanded(v, m);
    SameVertex(Times(v, m), OrthographicProjected(v, left, right, bottom, top, zNear, zFar));
  }

  // ---------------------------------------------------------------------------
  // Properties of the closed forms

  /** The translate fast path agrees with the matrix: a zero translation is the identity. */
  lemma ZeroTranslationIsIdentity(v: Vertex)
    ensures Times(v, TranslationMatrix(0.0, 0.0, 0.0)) == v
  {
    TranslationMatrixMeaning(v, 0.0, 0.0, 0.0);
  }

  /** The shear fast paths agree with the matrices: zero factors give the identity. */
  lemma ZeroShearIsIdentity(v: Vertex)
    ensures Times(v, ShearXMatrix(0.0, 0.0)) == v
    ensures Times(v, ShearYMatrix(0.0, 0.0)) == v
    ensures Times(v, ShearZMatrix(0.0, 0.0)) == v
  {
    ShearXMatrixMeaning(v, 0.0, 0.0);
    ShearYMatrixMeaning(v, 0.0, 0.0);
    ShearZMatrixMeaning(v, 0.0, 0.0);
  }

  /** The scale fast path is observable: the zero matrix it skips would collapse x, y and z. */
  lemma ZeroScaleMatrixCollapses(v: Vertex)
    ensures Times(v, ScaleMatrix(0.0, 0.0, 0.0)) == [0.0, 0.0, 0.0, v[3]]
    ensures v[0] != 0.0 || v[1] != 0.0 || v[2] != 0.0 ==> Times(v, ScaleMatrix(0.0, 0.0, 0.0)) != v
  {
    ScaleMatrixMeaning(v, 0.0, 0.0, 0.0);
    SameVertex(Times(v, ScaleMatrix(0.0, 0.0, 0.0)), [0.0, 0.0, 0.0, v[3]]);
  }

  /** Translations compose by adding their offsets; the opposite offset undoes one. */
  lemma TranslationsCompose(v: Vertex, a: real, b: real, c: real, d: real, e: real, f: real)
    ensures Translated(Translated(v, a, b, c), d, e, f) == Translated(v, a + d, b + e, c + f)
    ensures Translated(Translated(v, a, b, c), -a, -b, -c) == v
  {
    var t := Translated(Translated(v, a, b, c), d, e, f);
    var u := Translated(v, a + d, b + e, c + f);
    assert t[0] == v[0] + v[3] * a + v[3] * d == u[0];
    assert t[1] == v[1] + v[3] * b + v[3] * e == u[1];
    assert t[2] == v[2] + v[3] * c + v[3] * f == u[2];
    SameVertex(t, u);
    var back := Translated(Translated(v, a, b, c), -a, -b, -c);
    assert back[0] == v[0] + v[3] * a + v[3] * -a == v[0];
    assert back[1] == v[1] + v[3] * b + v[3] * -b == v[1];
    assert back[2] == v[2] + v[3] * c + v[3] * -c == v[2];
    SameVertex(back, v);
  }

  /** Scaling by nonzero factors is undone by their reciprocals. */
  lemma ScaleInverse(v: Vertex, sx: real, sy: real, sz: real)
    requires sx != 0.0 && sy != 0.0 && sz != 0.0
    ensures Scaled(Scaled(v, sx, sy, sz), 1.0 / sx, 1.0 / sy, 1.0 / sz) == v
  {
    var s := Scaled(Scaled(v, sx, sy, sz), 1.0 / sx, 1.0 / sy, 1.0 / sz);
    assert s[0] == (1.0 / sx) * (sx * v[0]) == v[0];
    assert s[1] == (1.0 / sy) * (sy * v[1]) == v[1];
    assert s[2] == (1.0 / sz) * (sz * v[2]) == v[2];
    SameVertex(s, v);
  }

  /**
   * Order matters: translating by t and then scaling equals scaling first and then
   * translating by the scaled offset, so the two orders differ whenever w * t is scaled.
   */
  lemma TranslateThenScale(v: Vertex, sx: real, sy: real, sz: real, tx: real, ty: real, tz: real)
    ensures Scaled(Translated(v, tx, ty, tz), sx, sy, sz)
         == Translated(Scaled(v, sx, sy, sz), sx * tx, sy * ty, sz * tz)
  {
    var lhs := Scaled(Translated(v, tx, ty, tz), sx, sy, sz);
    var rhs := Translated(Scaled(v, sx, sy, sz), sx * tx, sy * ty, sz * tz);
    assert lhs[0] == sx * v[0] + v[3] * (sx * tx) == rhs[0];
    assert lhs[1] == sy * v[1] + v[3] * (sy * ty) == rhs[1];
    assert lhs[2] == sz * v[2] + v[3] * (sz * tz) == rhs[2];
  }

  /** scale(2,2,2) then translate(5,0,0) takes (1,0,0,1) to (7,0,0,1); the reverse order to (12,0,0,1). */
  lemma ScaleTranslateOrderExample()
    ensures Translated(Scaled([1.0, 0.0, 0.0, 1.0], 2.0, 2.0, 2.0), 5.0, 0.0, 0.0) == [7.0, 0.0, 0.0, 1.0]
    ensures Scaled(Translated([1.0, 0.0, 0.0, 1.0], 5.0, 0.0, 0.0), 2.0, 2.0, 2.0) == [12.0, 0.0, 0.0, 1.0]
  {
  }

  /** (a*c - b*s)^2 + (a*s + b*c)^2 == a^2 + b^2 when s^2 + c^2 == 1. */
  lemma PlaneRotationKeepsRadius(a: real, b: real, sin: real, cos: real)
    requires sin * sin + cos * cos == 1.0
    ensures (a * cos - b * sin) * (a * cos - b * sin) + (a * sin + b * cos) * (a * sin + b * cos)
         == a * a + b * b
  {
  }

  /** Rotating back by -sin undoes a rotation when s^2 + c^2 == 1. */
  lemma PlaneRotationInverse(a: real, b: real, sin: real, cos: real)
    requires sin * sin + cos * cos == 1.0
    ensures (a * cos - b * sin) * cos + (a * sin + b * cos) * sin == a
    ensures (a * sin + b * cos) * cos - (a * cos - b * sin) * sin == b
  {
  }

  /** rotateOnX keeps x and w, and keeps y^2 + z^2 for a unit (sin, cos); -sin undoes it. */
  lemma RotatedXIsRotation(v: Vertex, sin: real, cos: real)
    requires sin * sin + cos * cos == 1.0
    ensures var r := RotatedX(v, sin, cos);
      r[0] == v[0] && r[3] == v[3] && r[1] * r[1] + r[2] * r[2] == v[1] * v[1] + v[2] * v[2]
    ensures RotatedX(RotatedX(v, sin, cos), -sin, cos) == v
  {
    PlaneRotationKeepsRadius(v[1], v[2], sin, cos);
    PlaneRotationInverse(v[1], v[2], sin, cos);
    SameVertex(RotatedX(RotatedX(v, sin, cos), -sin, cos), v);
  }

  /** rotateOnY keeps y and w, and keeps x^2 + z^2 for a unit (sin, cos); -sin undoes it. */
  lemma RotatedYIsRotation(v: Vertex, sin: real, cos: real)
    requires sin * sin + cos * cos == 1.0
    ensures var r := RotatedY(v, sin, cos);
      r[1] == v[1] && r[3] == v[3] && r[0] * r[0] + r[2] * r[2] == v[0] * v[0] + v[2] * v[2]
    ensures RotatedY(RotatedY(v, sin, cos), -sin, cos) == v
  {
    PlaneRotationKeepsRadius(v[2], v[0], sin, cos);
    PlaneRotationInverse(v[2], v[0], sin, cos);
    SameVertex(RotatedY(RotatedY(v, sin, cos), -sin, cos), v);
  }

  /** rotateOnZ keeps z and w, and keeps x^2 + y^2 for a unit (sin, cos); -sin undoes it. */
  lemma RotatedZIsRotation(v: Vertex, sin: real, cos: real)
    requires sin * sin + cos * cos == 1.0
    ensures var r := RotatedZ(v, sin, cos);
      r[2] == v[2] && r[3] == v[3] && r[0] * r[0] + r[1] * r[1] == v[0] * v[0] + v[1] * v[1]
    ensures RotatedZ(RotatedZ(v, sin, cos), -sin, cos) == v
  {
    PlaneRotationKeepsRadius(v[1], v[0], sin, cos);
    PlaneRotationInverse(v[1], v[0], sin, cos);
    SameVertex(RotatedZ(RotatedZ(v, sin, cos), -sin, cos), v);
  }

  /** Each shear keeps its own axis and w, and the opposite factors undo it. */
  lemma ShearsAreInvertible(v: Vertex, a: real, b: real)
    ensures ShearedX(v, a, b)[0] == v[0] && ShearedX(ShearedX(v, a, b), -a, -b) == v
    ensures ShearedY(v, a, b)[1] == v[1] && ShearedY(ShearedY(v, a, b), -a, -b) == v
    ensures ShearedZ(v, a, b)[2] == v[2] && ShearedZ(ShearedZ(v, a, b), -a, -b) == v
  {
    var x := ShearedX(ShearedX(v, a, b), -a, -b);
    assert x[1] == v[1] + a * v[0] + -a * v[0] == v[1];
    assert x[2] == v[2] + b * v[0] + -b * v[0] == v[2];
    SameVertex(x, v);
    var y := ShearedY(ShearedY(v, a, b), -a, -b);
    assert y[0] == v[0] + a * v[1] + -a * v[1] == v[0];
    assert y[2] == v[2] + b * v[1] + -b * v[1] == v[2];
    SameVertex(y, v);
    var z := ShearedZ(ShearedZ(v, a, b), -a, -b);
    assert z[0] == v[0] + a * v[2] + -a * v[2] == v[0];
    assert z[1] == v[1] + b * v[2] + -b * v[2] == v[1];
    SameVertex(z, v);
  }

  /** The divide keeps w, and multiplying back by a nonzero w restores x, y and z. */
  lemma PerspectiveDivideInverse(v: Vertex)
    ensures PerspectiveDivided(v)[3] == v[3]
    ensures v[3] != 0.0 ==> forall k :: 0 <= k < 3 ==> PerspectiveDivided(v)[k] * v[3] == v[k]
    ensures v[3] == 0.0 ==> PerspectiveDivided(v) == v
  {
  }

  /** The homogeneous vertex (2,4,6,2) divides to (1,2,3,2): w is not reset to 1. */
  lemma PerspectiveDivideExample()
    ensures PerspectiveDivided([2.0, 4.0, 6.0, 2.0]) == [1.0, 2.0, 3.0, 2.0]
  {
  }

  /**
   * With left = -300, right = 300, bottom = -300, top = 300, zNear = 0.1 and zFar = 1000,
   * the vertex (300, 0, 0, 1) projects to x = 1: the right edge of the box.
   */
  lemma OrthographicRightEdgeExample()
    ensures OrthographicProjected([300.0, 0.0, 0.0, 1.0], -300.0, 300.0, -300.0, 300.0, 0.1, 1000.0)
         == [1.0, 0.0, 0.0, 1.0]
  {
  }

  /**
   * For a box symmetric in x and y, w keeps its value exactly when z * (zFar + zNear) is 0:
   * the orthographic offsets land in w, not in x, y, z.
   */
  lemma OrthographicOffsetsLandInW(v: Vertex, right: real, top: real, zNear: real, zFar: real)
    requires right != 0.0 && top != 0.0 && zFar != zNear
    ensures OrthographicProjected(v, -right, right, -top, top, zNear, zFar)[3]
         == v[3] - v[2] * (zFar + zNear) / (zFar - zNear)
    ensures OrthographicProjected(v, -right, right, -top, top, zNear, zFar)[0] == v[0] / right
  {
  }

  /** The rotation fast path fires for 0, 360, 720 and -360 degrees, and not for 90 or 180. */
  lemma FullTurnExamples()
    ensures IsFullTurn(0.0) && IsFullTurn(360.0) && IsFullTurn(720.0) && IsFullTurn(-360.0)
    ensures !IsFullTurn(90.0) && !IsFullTurn(180.0)
  {
    assert (720.0 / 360.0) == 2.0;
    assert (-360.0 / 360.0) == -1.0;
    assert (90.0 / 360.0).Floor == 0;
    assert (180.0 / 360.0).Floor == 0;
  }

  /** A rotation matrix with sin = 0 and cos = 1 is the identity, so skipping it is exact. */
  lemma IdentityRotations(v: Vertex)
    ensures Times(v, RotationXMatrix(0.0, 1.0)) == v
    ensures Times(v, RotationYMatrix(0.0, 1.0)) == v
    ensures Times(v, RotationZMatrix(0.0, 1.0)) == v
  {
    RotationXMatrixMeaning(v, 0.0, 1.0);
    RotationYMatrixMeaning(v, 0.0, 1.0);
    RotationZMatrixMeaning(v, 0.0, 1.0);
  }
}
