/**
 Real-valued 3-vectors, homogeneous 4-vectors and 4x4 matrices.

 A `Mat4` is stored by rows, the order in which `Matrix4.set` receives its
 sixteen arguments. `Mul(a, b)` is the ordinary product a x b, which is what
 `multiplyMatrices(a, b)` stores, and `Apply(m, v)` is the matrix acting on a
 column vector.
 */
module Linear {

  datatype Vec3 = Vec3(x: real, y: real, z: real)

  function Sub3(a: Vec3, b: Vec3): Vec3 {
    Vec3(a.x - b.x, a.y - b.y, a.z - b.z)
  }

  function Dot3(a: Vec3, b: Vec3): real {
    a.x * b.x + a.y * b.y + a.z * b.z
  }

  function Cross(a: Vec3, b: Vec3): Vec3 {
    Vec3(a.y * b.z - a.z * b.y, a.z * b.x - a.x * b.z, a.x * b.y - a.y * b.x)
  }

  datatype Vec4 = Vec4(x: real, y: real, z: real, w: real)

  /** The homogeneous coordinates of a point (w = 1). */
  function Point(x: real, y: real, z: real): Vec4 {
    Vec4(x, y, z, 1.0)
  }

  /** r + t * q, componentwise. */
  function AddScaled(r: Vec4, t: real, q: Vec4): Vec4 {
    Vec4(r.x + t * q.x, r.y + t * q.y, r.z + t * q.z, r.w + t * q.w)
  }

  function Scale(k: real, a: Vec4): Vec4 {
    Vec4(k * a.x, k * a.y, k * a.z, k * a.w)
  }

  function Dot(a: Vec4, b: Vec4): real {
    a.x * b.x + a.y * b.y + a.z * b.z + a.w * b.w
  }

  /** Squared Euclidean distance between the x, y, z parts of two points. */
  function DistSq(a: Vec4, b: Vec4): real {
    (a.x - b.x) * (a.x - b.x) + (a.y - b.y) * (a.y - b.y) + (a.z - b.z) * (a.z - b.z)
  }

  datatype Mat4 = Mat4(r0: Vec4, r1: Vec4, r2: Vec4, r3: Vec4)

  function Identity(): Mat4 {
    Mat4(Vec4(1.0, 0.0, 0.0, 0.0),
         Vec4(0.0, 1.0, 0.0, 0.0),
         Vec4(0.0, 0.0, 1.0, 0.0),
         Vec4(0.0, 0.0, 0.0, 1.0))
  }

  function ColX(m: Mat4): Vec4 { Vec4(m.r0.x, m.r1.x, m.r2.x, m.r3.x) }
  function ColY(m: Mat4): Vec4 { Vec4(m.r0.y, m.r1.y, m.r2.y, m.r3.y) }
  function ColZ(m: Mat4): Vec4 { Vec4(m.r0.z, m.r1.z, m.r2.z, m.r3.z) }
  function ColW(m: Mat4): Vec4 { Vec4(m.r0.w, m.r1.w, m.r2.w, m.r3.w) }

  /** The row vector u times the matrix b. */
  function Comb(u: Vec4, b: Mat4): Vec4 {
    Vec4(Dot(u, ColX(b)), Dot(u, ColY(b)), Dot(u, ColZ(b)), Dot(u, ColW(b)))
  }

  function Mul(a: Mat4, b: Mat4): Mat4 {
    Mat4(Comb(a.r0, b), Comb(a.r1, b), Comb(a.r2, b), Comb(a.r3, b))
  }

  function Apply(m: Mat4, v: Vec4): Vec4 {
    Vec4(Dot(m.r0, v), Dot(m.r1, v), Dot(m.r2, v), Dot(m.r3, v))
  }

  function Add(a: Vec4, b: Vec4): Vec4 {
    Vec4(a.x + b.x, a.y + b.y, a.z + b.z, a.w + b.w)
  }

  /** The combination of b's rows weighted by u. */
  function WeightedRows(u: Vec4, b: Mat4): Vec4 {
    Add(Add(Scale(u.x, b.r0), Scale(u.y, b.r1)), Add(Scale(u.z, b.r2), Scale(u.w, b.r3)))
  }

  lemma CombRowsX(u: Vec4, b: Mat4)
    ensures Comb(u, b).x == WeightedRows(u, b).x
  {}

  lemma CombRowsY(u: Vec4, b: Mat4)
    ensures Comb(u, b).y == WeightedRows(u, b).y
  {}

  lemma CombRowsZ(u: Vec4, b: Mat4)
    ensures Comb(u, b).z == WeightedRows(u, b).z
  {}

  lemma CombRowsW(u: Vec4, b: Mat4)
    ensures Comb(u, b).w == WeightedRows(u, b).w
  {}

  /** The row vector u times b is the combination of b's rows weighted by u. */
  lemma CombRows(u: Vec4, b: Mat4)
    ensures Comb(u, b) == WeightedRows(u, b)
  {
    CombRowsX(u, b);
    CombRowsY(u, b);
    CombRowsZ(u, b);
    CombRowsW(u, b);
  }

  lemma DotAdd(a: Vec4, c: Vec4, v: Vec4)
    ensures Dot(Add(a, c), v) == Dot(a, v) + Dot(c, v)
  {}

  lemma DotScale(k: real, a: Vec4, v: Vec4)
    ensures Dot(Scale(k, a), v) == k * Dot(a, v)
  {
    assert (k * a.x) * v.x == k * (a.x * v.x);
    assert (k * a.y) * v.y == k * (a.y * v.y);
    assert (k * a.z) * v.z == k * (a.z * v.z);
    assert (k * a.w) * v.w == k * (a.w * v.w);
  }

  lemma CombDot(u: Vec4, b: Mat4, v: Vec4)
    ensures Dot(Comb(u, b), v) == Dot(u, Apply(b, v))
  {
    var (s0, s1, s2, s3) := (Scale(u.x, b.r0), Scale(u.y, b.r1), Scale(u.z, b.r2), Scale(u.w, b.r3));
    CombRows(u, b);
    DotAdd(Add(s0, s1), Add(s2, s3), v);
    DotAdd(s0, s1, v);
    DotAdd(s2, s3, v);
    DotScale(u.x, b.r0, v);
    DotScale(u.y, b.r1, v);
    DotScale(u.z, b.r2, v);
    DotScale(u.w, b.r3, v);
  }

  /** Each column of a product is the left factor applied to that column. */
  lemma MulCols(b: Mat4, c: Mat4)
    ensures ColX(Mul(b, c)) == Apply(b, ColX(c))
    ensures ColY(Mul(b, c)) == Apply(b, ColY(c))
    ensures ColZ(Mul(b, c)) == Apply(b, ColZ(c))
    ensures ColW(Mul(b, c)) == Apply(b, ColW(c))
  {
  }

  lemma CombMul(u: Vec4, b: Mat4, c: Mat4)
    ensures Comb(u, Mul(b, c)) == Comb(Comb(u, b), c)
  {
    MulCols(b, c);
    CombDot(u, b, ColX(c));
    CombDot(u, b, ColY(c));
    CombDot(u, b, ColZ(c));
    CombDot(u, b, ColW(c));
  }

  /** Applying a product is applying the right factor, then the left one. */
  lemma ApplyMul(a: Mat4, b: Mat4, v: Vec4)
    ensures Apply(Mul(a, b), v) == Apply(a, Apply(b, v))
  {
    CombDot(a.r0, b, v);
    CombDot(a.r1, b, v);
    CombDot(a.r2, b, v);
    CombDot(a.r3, b, v);
  }

  lemma MulAssoc(a: Mat4, b: Mat4, c: Mat4)
    ensures Mul(a, Mul(b, c)) == Mul(Mul(a, b), c)
  {
    CombMul(a.r0, b, c);
    CombMul(a.r1, b, c);
    CombMul(a.r2, b, c);
    CombMul(a.r3, b, c);
  }

  lemma MulIdentityLeft(m: Mat4)
    ensures Mul(Identity(), m) == m
  {}

  lemma CombIdentity(u: Vec4)
    ensures Comb(u, Identity()) == u
  {}

  lemma MulIdentityRight(m: Mat4)
    ensures Mul(m, Identity()) == m
  {
    CombIdentity(m.r0);
    CombIdentity(m.r1);
    CombIdentity(m.r2);
    CombIdentity(m.r3);
  }

  lemma ApplyIdentity(v: Vec4)
    ensures Apply(Identity(), v) == v
  {}

  /** h multiplied by itself n times. */
  function Power(h: Mat4, n: nat): Mat4 {
    if n == 0 then Identity() else Mul(h, Power(h, n - 1))
  }

  /** A power of h commutes with h, so the extra factor may go on either side. */
  lemma {:induction false} PowerCommutes(h: Mat4, n: nat)
    ensures Mul(h, Power(h, n)) == Mul(Power(h, n), h)
  {
    if n == 0 {
      MulIdentityRight(h);
      MulIdentityLeft(h);
    } else {
      PowerCommutes(h, n - 1);
      MulAssoc(h, Power(h, n - 1), h);
    }
  }
}
