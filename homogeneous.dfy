/**
  3x3 homogeneous matrices over the reals: the transform matrices that the
  builders produce, that the composers multiply and that the centering step
  conjugates. A 2-D affine map is a matrix whose bottom row is [0, 0, 1]; its
  top-left 2x2 block is the linear part and its top-right column the offset.
*/
module Homogeneous {

  datatype Mat3 = Mat3(m00: real, m01: real, m02: real,
                       m10: real, m11: real, m12: real,
                       m20: real, m21: real, m22: real)

  datatype Mat2 = Mat2(a00: real, a01: real,
                       a10: real, a11: real)

  datatype Vec2 = Vec2(x: real, y: real)

  function Identity(): Mat3 {
    Mat3(1.0, 0.0, 0.0,
         0.0, 1.0, 0.0,
         0.0, 0.0, 1.0)
  }

  function Identity2(): Mat2 {
    Mat2(1.0, 0.0, 0.0, 1.0)
  }

  /** The bottom row is [0, 0, 1]. */
  predicate IsAffine(m: Mat3) {
    m.m20 == 0.0 && m.m21 == 0.0 && m.m22 == 1.0
  }

  /** The top-left 2x2 block (`transform[:2, :2]`). */
  function Linear(m: Mat3): Mat2 {
    Mat2(m.m00, m.m01, m.m10, m.m11)
  }

  /** The top-right column without its bottom entry (`transform[:2, 2]`). */
  function Offset(m: Mat3): Vec2 {
    Vec2(m.m02, m.m12)
  }

  /** The affine matrix with linear part `a` and offset `b`. */
  function Embed(a: Mat2, b: Vec2): (m: Mat3)
    ensures IsAffine(m) && Linear(m) == a && Offset(m) == b
  {
    Mat3(a.a00, a.a01, b.x,
         a.a10, a.a11, b.y,
         0.0, 0.0, 1.0)
  }

  function Mul2(a: Mat2, b: Mat2): Mat2 {
    Mat2(a.a00 * b.a00 + a.a01 * b.a10, a.a00 * b.a01 + a.a01 * b.a11,
         a.a10 * b.a00 + a.a11 * b.a10, a.a10 * b.a01 + a.a11 * b.a11)
  }

  function Apply2(a: Mat2, v: Vec2): Vec2 {
    Vec2(a.a00 * v.x + a.a01 * v.y, a.a10 * v.x + a.a11 * v.y)
  }

  function Add(u: Vec2, v: Vec2): Vec2 {
    Vec2(u.x + v.x, u.y + v.y)
  }

  function Sub(u: Vec2, v: Vec2): Vec2 {
    Vec2(u.x - v.x, u.y - v.y)
  }

  function Det2(a: Mat2): real {
    a.a00 * a.a11 - a.a01 * a.a10
  }

  function Transpose2(a: Mat2): Mat2 {
    Mat2(a.a00, a.a10, a.a01, a.a11)
  }

  /** The dot product of a row (x0, x1, x2) with a column (y0, y1, y2). */
  function Dot(x0: real, x1: real, x2: real, y0: real, y1: real, y2: real): real {
    x0 * y0 + x1 * y1 + x2 * y2
  }

  /** The matrix product a·b (numpy.dot on two 3x3 arrays): row i of a against column j of b. */
  function Mul(a: Mat3, b: Mat3): (r: Mat3)
    ensures IsAffine(a) && IsAffine(b) ==> IsAffine(r)
  {
    Mat3(Dot(a.m00, a.m01, a.m02, b.m00, b.m10, b.m20),
         Dot(a.m00, a.m01, a.m02, b.m01, b.m11, b.m21),
         Dot(a.m00, a.m01, a.m02, b.m02, b.m12, b.m22),
         Dot(a.m10, a.m11, a.m12, b.m00, b.m10, b.m20),
         Dot(a.m10, a.m11, a.m12, b.m01, b.m11, b.m21),
         Dot(a.m10, a.m11, a.m12, b.m02, b.m12, b.m22),
         Dot(a.m20, a.m21, a.m22, b.m00, b.m10, b.m20),
         Dot(a.m20, a.m21, a.m22, b.m01, b.m11, b.m21),
         Dot(a.m20, a.m21, a.m22, b.m02, b.m12, b.m22))
  }

  /** The image of the point p under an affine matrix. */
  function ApplyPoint(m: Mat3, p: Vec2): Vec2 {
    Add(Apply2(Linear(m), p), Offset(m))
  }

  /** The pure translation by (tx, ty): `[[1, 0, tx], [0, 1, ty], [0, 0, 1]]`. */
  function Translation(tx: real, ty: real): (m: Mat3)
    ensures IsAffine(m) && Linear(m) == Identity2() && Offset(m) == Vec2(tx, ty)
  {
    Mat3(1.0, 0.0, tx,
         0.0, 1.0, ty,
         0.0, 0.0, 1.0)
  }

  /**
    The product of affine matrices is affine; its linear part is the product
    of the linear parts and its offset is A_a·b_b + b_a: the map "b, then a".
  */
  lemma MulAffine(a: Mat3, b: Mat3)
    requires IsAffine(a) && IsAffine(b)
    ensures IsAffine(Mul(a, b))
    ensures Linear(Mul(a, b)) == Mul2(Linear(a), Linear(b))
    ensures Offset(Mul(a, b)) == Add(Apply2(Linear(a), Offset(b)), Offset(a))
  {
  }

  lemma MulIdentity(m: Mat3)
    ensures Mul(Identity(), m) == m && Mul(m, Identity()) == m
  {
  }

  /**
    One entry of (a·b)·c against the same entry of a·(b·c): x is a row of a,
    the b's are the entries of b and y is a column of c.
  */
  lemma DotAssociative(x0: real, x1: real, x2: real,
                       b00: real, b01: real, b02: real,
                       b10: real, b11: real, b12: real,
                       b20: real, b21: real, b22: real,
                       y0: real, y1: real, y2: real)
    ensures Dot(Dot(x0, x1, x2, b00, b10, b20), Dot(x0, x1, x2, b01, b11, b21), Dot(x0, x1, x2, b02, b12, b22), y0, y1, y2)
         == Dot(x0, x1, x2, Dot(b00, b01, b02, y0, y1, y2), Dot(b10, b11, b12, y0, y1, y2), Dot(b20, b21, b22, y0, y1, y2))
  {
  }

  /** Matrix multiplication is associative, so a chain of products may be regrouped. */
  lemma MulAssociative(a: Mat3, b: Mat3, c: Mat3)
    ensures Mul(Mul(a, b), c) == Mul(a, Mul(b, c))
  {
    DotAssociative(a.m00, a.m01, a.m02, b.m00, b.m01, b.m02, b.m10, b.m11, b.m12, b.m20, b.m21, b.m22, c.m00, c.m10, c.m20);
    DotAssociative(a.m00, a.m01, a.m02, b.m00, b.m01, b.m02, b.m10, b.m11, b.m12, b.m20, b.m21, b.m22, c.m01, c.m11, c.m21);
    DotAssociative(a.m00, a.m01, a.m02, b.m00, b.m01, b.m02, b.m10, b.m11, b.m12, b.m20, b.m21, b.m22, c.m02, c.m12, c.m22);
    DotAssociative(a.m10, a.m11, a.m12, b.m00, b.m01, b.m02, b.m10, b.m11, b.m12, b.m20, b.m21, b.m22, c.m00, c.m10, c.m20);
    DotAssociative(a.m10, a.m11, a.m12, b.m00, b.m01, b.m02, b.m10, b.m11, b.m12, b.m20, b.m21, b.m22, c.m01, c.m11, c.m21);
    DotAssociative(a.m10, a.m11, a.m12, b.m00, b.m01, b.m02, b.m10, b.m11, b.m12, b.m20, b.m21, b.m22, c.m02, c.m12, c.m22);
    DotAssociative(a.m20, a.m21, a.m22, b.m00, b.m01, b.m02, b.m10, b.m11, b.m12, b.m20, b.m21, b.m22, c.m00, c.m10, c.m20);
    DotAssociative(a.m20, a.m21, a.m22, b.m00, b.m01, b.m02, b.m10, b.m11, b.m12, b.m20, b.m21, b.m22, c.m01, c.m11, c.m21);
    DotAssociative(a.m20, a.m21, a.m22, b.m00, b.m01, b.m02, b.m10, b.m11, b.m12, b.m20, b.m21, b.m22, c.m02, c.m12, c.m22);
  }

  /** Multiplying affine matrices composes the maps they stand for, right factor first. */
  lemma ApplyMul(a: Mat3, b: Mat3, p: Vec2)
    requires IsAffine(a) && IsAffine(b)
    ensures ApplyPoint(Mul(a, b), p) == ApplyPoint(a, ApplyPoint(b, p))
  {
    MulAffine(a, b);
  }

  /**
    An affine matrix is determined by its `[:2, :2]` block and its `[:2, 2]`
    column, and it is its offset translation after its linear part.
  */
  lemma AffineDecomposes(m: Mat3)
    requires IsAffine(m)
    ensures m == Embed(Linear(m), Offset(m))
    ensures m == Mul(Translation(m.m02, m.m12), Embed(Linear(m), Vec2(0.0, 0.0)))
  {
  }

  /** Translations add up, and the translation by -v undoes the one by v. */
  lemma TranslationsCompose(tx: real, ty: real, ux: real, uy: real)
    ensures Mul(Translation(tx, ty), Translation(ux, uy)) == Translation(tx + ux, ty + uy)
    ensures Mul(Translation(tx, ty), Translation(-tx, -ty)) == Identity()
  {
  }
}
