/** Geometry used by the tap hit test of HelloArActivity: 2-, 3- and 4-vectors,
    the 16-float column-major matrix of android.opengl.Matrix, the product
    Matrix.multiplyMV, the projection of a model-space vertex, the 2-D sign
    (cross product), the two triangle-area helpers and the pixel-to-frame
    normalisation of a touch point. Floats are modelled as exact reals. */
module Geometry {

  datatype Vec2 = Vec2(x: real, y: real)
  datatype Vec3 = Vec3(x: real, y: real, z: real)
  datatype Vec4 = Vec4(x: real, y: real, z: real, w: real)

  /** A 4x4 matrix stored as 16 floats in OpenGL's column-major order:
      the entry in row `row` and column `col` is m[4 * col + row]. */
  type Mat4 = m: seq<real> | |m| == 16 witness seq(16, _ => 0.0)

  function Entry(m: Mat4, row: nat, col: nat): real
    requires row < 4 && col < 4
  {
    m[4 * col + row]
  }

  /** Row `row` of M times the column vector v. */
  function RowTimes(m: Mat4, row: nat, v: Vec4): real
    requires row < 4
  {
    Entry(m, row, 0) * v.x + Entry(m, row, 1) * v.y + Entry(m, row, 2) * v.z + Entry(m, row, 3) * v.w
  }

  /** M · v, as Matrix.multiplyMV computes it. */
  function MultiplyMV(m: Mat4, v: Vec4): Vec4
  {
    Vec4(RowTimes(m, 0, v), RowTimes(m, 1, v), RowTimes(m, 2, v), RowTimes(m, 3, v))
  }

  /** A model-space vertex as the homogeneous 4-vector the hit test builds:
      its three coordinates and w = 0. */
  function Lift(v: Vec3): Vec4
  {
    Vec4(v.x, v.y, v.z, 0.0)
  }

  /** The screen-space point of a vertex: the x and y of M · (v, 0), with no
      perspective divide. Because w = 0, only the entries m[0], m[1], m[4],
      m[5], m[8] and m[9] take part: the translation column m[12..16] and the
      z and w rows never do. */
  function Project(m: Mat4, v: Vec3): (p: Vec2)
    ensures p.x == m[0] * v.x + m[4] * v.y + m[8] * v.z
    ensures p.y == m[1] * v.x + m[5] * v.y + m[9] * v.z
  {
    var h := MultiplyMV(m, Lift(v));
    Vec2(h.x, h.y)
  }

  /** Two matrices that agree on the six entries of the upper-left 2x3 block
      project every vertex to the same point. */
  lemma ProjectIgnoresTranslationAndDepth(m: Mat4, m': Mat4, v: Vec3)
    requires m[0] == m'[0] && m[1] == m'[1] && m[4] == m'[4]
    requires m[5] == m'[5] && m[8] == m'[8] && m[9] == m'[9]
    ensures Project(m, v) == Project(m', v)
  {
  }

  function Add3(a: Vec3, b: Vec3): Vec3 { Vec3(a.x + b.x, a.y + b.y, a.z + b.z) }
  function Scale3(k: real, a: Vec3): Vec3 { Vec3(k * a.x, k * a.y, k * a.z) }

  /** With w = 0 the projection is linear: the origin goes to (0, 0), sums
      to sums and multiples to multiples (a translation in M has no effect). */
  lemma ProjectIsLinear(m: Mat4, a: Vec3, b: Vec3, k: real)
    ensures Project(m, Vec3(0.0, 0.0, 0.0)) == Vec2(0.0, 0.0)
    ensures Project(m, Add3(a, b)) == Vec2(Project(m, a).x + Project(m, b).x, Project(m, a).y + Project(m, b).y)
    ensures Project(m, Scale3(k, a)) == Vec2(k * Project(m, a).x, k * Project(m, a).y)
  {
  }

  /** sign(p1, p2, p3) of HelloArActivity: the 2-D cross product (p1 - p3) x (p2 - p3). */
  function Sign(p1: Vec2, p2: Vec2, p3: Vec2): real
  {
    (p1.x - p3.x) * (p2.y - p3.y) - (p2.x - p3.x) * (p1.y - p3.y)
  }

  /** Sign is unchanged by a cyclic rotation of its arguments and negated by
      swapping any two of them. */
  lemma SignSymmetries(p: Vec2, q: Vec2, r: Vec2)
    ensures Sign(p, q, r) == Sign(q, r, p) == Sign(r, p, q)
    ensures Sign(q, p, r) == -Sign(p, q, r)
    ensures Sign(p, r, q) == -Sign(p, q, r)
    ensures Sign(r, q, p) == -Sign(p, q, r)
  {
  }

  /** The signs of a point against the three edges of a triangle add up to the
      sign of the triangle itself (twice its signed area). */
  lemma SignSum(q: Vec2, a: Vec2, b: Vec2, c: Vec2)
    ensures Sign(q, a, b) + Sign(q, b, c) + Sign(q, c, a) == Sign(a, b, c)
  {
  }

  /** calcTriangleArea: the signed area with every coordinate offset by 5. */
  function TriangleArea(p1: Vec2, p2: Vec2, p3: Vec2): real
  {
    (((p1.x + 5.0) - (p3.x + 5.0)) * ((p2.y + 5.0) - (p3.y + 5.0))
      - ((p2.x + 5.0) - (p3.x + 5.0)) * ((p1.y + 5.0) - (p3.y + 5.0))) / 2.0
  }

  /** calcTriangleAreaGeneral: the signed area without the offset. */
  function TriangleAreaGeneral(p1: Vec2, p2: Vec2, p3: Vec2): real
  {
    ((p1.x - p3.x) * (p2.y - p3.y) - (p2.x - p3.x) * (p1.y - p3.y)) / 2.0
  }

  /** Over the reals the +5 offsets cancel: both area helpers agree, and each
      is half of Sign. */
  lemma AreasAgreeWithSign(p1: Vec2, p2: Vec2, p3: Vec2)
    ensures TriangleArea(p1, p2, p3) == TriangleAreaGeneral(p1, p2, p3)
    ensures 2.0 * TriangleAreaGeneral(p1, p2, p3) == Sign(p1, p2, p3)
  {
  }

  /** convertToFrame: a pixel (px, py) of a width x height view to the
      [-1, 1] x [-1, 1] frame, y flipped because pixel rows grow downwards. */
  function ConvertToFrame(px: real, py: real, width: real, height: real): Vec2
    requires width > 0.0 && height > 0.0
  {
    Vec2((px / (width / 2.0)) - 1.0, ((py / (height / 2.0)) - 1.0) * -1.0)
  }

  /** The pixel of a normalised frame point: the inverse of ConvertToFrame. */
  function FrameToPixel(n: Vec2, width: real, height: real): Vec2
  {
    Vec2((n.x + 1.0) * width / 2.0, (1.0 - n.y) * height / 2.0)
  }

  /** ConvertToFrame in closed form. */
  lemma ConvertToFrameClosedForm(px: real, py: real, width: real, height: real)
    requires width > 0.0 && height > 0.0
    ensures ConvertToFrame(px, py, width, height) == Vec2(2.0 * px / width - 1.0, 1.0 - 2.0 * py / height)
  {
    assert px / (width / 2.0) == 2.0 * px / width;
    assert py / (height / 2.0) == 2.0 * py / height;
  }

  /** Normalising a pixel and mapping it back gives the pixel. */
  lemma PixelRoundTrip(px: real, py: real, width: real, height: real)
    requires width > 0.0 && height > 0.0
    ensures FrameToPixel(ConvertToFrame(px, py, width, height), width, height) == Vec2(px, py)
  {
    ConvertToFrameClosedForm(px, py, width, height);
    assert (2.0 * px / width - 1.0 + 1.0) * width / 2.0 == px;
    assert (1.0 - (1.0 - 2.0 * py / height)) * height / 2.0 == py;
  }

  /** Mapping a frame point to its pixel and normalising it gives the point. */
  lemma FrameRoundTrip(n: Vec2, width: real, height: real)
    requires width > 0.0 && height > 0.0
    ensures ConvertToFrame(FrameToPixel(n, width, height).x, FrameToPixel(n, width, height).y, width, height) == n
  {
    var p := FrameToPixel(n, width, height);
    ConvertToFrameClosedForm(p.x, p.y, width, height);
    var a, b := n.x + 1.0, 1.0 - n.y;
    assert 2.0 * (a * width / 2.0) == a * width;
    assert a * width / width == a;
    assert 2.0 * (b * height / 2.0) == b * height;
    assert b * height / height == b;
  }

  /** The view's corners and centre land on the corners and centre of the frame. */
  lemma ConvertToFrameCorners(width: real, height: real)
    requires width > 0.0 && height > 0.0
    ensures ConvertToFrame(0.0, 0.0, width, height) == Vec2(-1.0, 1.0)
    ensures ConvertToFrame(width, height, width, height) == Vec2(1.0, -1.0)
    ensures ConvertToFrame(width, 0.0, width, height) == Vec2(1.0, 1.0)
    ensures ConvertToFrame(0.0, height, width, height) == Vec2(-1.0, -1.0)
    ensures ConvertToFrame(width / 2.0, height / 2.0, width, height) == Vec2(0.0, 0.0)
  {
    ConvertToFrameClosedForm(width, height, width, height);
    ConvertToFrameClosedForm(width, 0.0, width, height);
    ConvertToFrameClosedForm(0.0, height, width, height);
    ConvertToFrameClosedForm(width / 2.0, height / 2.0, width, height);
  }

  /** A pixel lies inside the view exactly when its normalised point lies in
      [-1, 1] x [-1, 1]. */
  lemma ConvertToFrameInRange(px: real, py: real, width: real, height: real)
    requires width > 0.0 && height > 0.0
    ensures (0.0 <= px <= width && 0.0 <= py <= height)
        <==> (-1.0 <= ConvertToFrame(px, py, width, height).x <= 1.0
              && -1.0 <= ConvertToFrame(px, py, width, height).y <= 1.0)
  {
    ConvertToFrameClosedForm(px, py, width, height);
    var u, v := 2.0 * px / width, 2.0 * py / height;
    assert px == u * width / 2.0;
    assert py == v * height / 2.0;
    assert 0.0 <= px <= width <==> 0.0 <= u <= 2.0;
    assert 0.0 <= py <= height <==> 0.0 <= v <= 2.0;
  }

  /** A 1000 x 2000 view maps pixel (750, 500) to (0.5, 0.5). */
  lemma ConvertToFrameExample()
    ensures ConvertToFrame(750.0, 500.0, 1000.0, 2000.0) == Vec2(0.5, 0.5)
  {
  }
}
