/**
 The three 4x4 transform constructors of main.js: `translationMatrix`,
 `rotationMatrixZ` and `scalingMatrix`.

 `rotationMatrixZ` receives an angle and evaluates Math.cos and Math.sin of
 it; here the angle is given by that cosine/sine pair, which for a real angle
 lies on the unit circle.
 */
module Transforms {
  import opened Linear

  function TranslationMatrix(tx: real, ty: real, tz: real): Mat4
  {
    Mat4(Vec4(1.0, 0.0, 0.0, tx),
         Vec4(0.0, 1.0, 0.0, ty),
         Vec4(0.0, 0.0, 1.0, tz),
         Vec4(0.0, 0.0, 0.0, 1.0))
  }

  /** The cosine and sine of a rotation angle. */
  datatype Rotation = Rotation(cos: real, sin: real)

  predicate OnUnitCircle(a: Rotation) {
    a.cos * a.cos + a.sin * a.sin == 1.0
  }

  /** The zero angle: cos 0 = 1, sin 0 = 0. */
  const NoRotation: Rotation := Rotation(1.0, 0.0)

  function RotationMatrixZ(a: Rotation): Mat4
  {
    Mat4(Vec4(a.cos, -a.sin, 0.0, 0.0),
         Vec4(a.sin,  a.cos, 0.0, 0.0),
         Vec4(0.0,    0.0,   1.0, 0.0),
         Vec4(0.0,    0.0,   0.0, 1.0))
  }

  function ScalingMatrix(sx: real, sy: real, sz: real): Mat4
  {
    Mat4(Vec4(sx,  0.0, 0.0, 0.0),
         Vec4(0.0, sy,  0.0, 0.0),
         Vec4(0.0, 0.0, sz,  0.0),
         Vec4(0.0, 0.0, 0.0, 1.0))
  }

  /* ---------- what each matrix does to a point ---------- */

  /** A translation moves every point (w = 1) by t and leaves directions (w = 0) alone. */
  lemma TranslationMovesPoints(t: Vec3, v: Vec4)
    ensures Apply(TranslationMatrix(t.x, t.y, t.z), v)
         == Vec4(v.x + t.x * v.w, v.y + t.y * v.w, v.z + t.z * v.w, v.w)
  {}

  /** A rotation about z turns the (x, y) part by the angle and keeps z and w. */
  lemma RotationTurnsPoints(a: Rotation, v: Vec4)
    ensures Apply(RotationMatrixZ(a), v)
         == Vec4(a.cos * v.x - a.sin * v.y, a.sin * v.x + a.cos * v.y, v.z, v.w)
  {}

  /** Every point of the z axis stays where it is, whatever the angle. */
  lemma RotationFixesAxis(a: Rotation, z: real)
    ensures Apply(RotationMatrixZ(a), Point(0.0, 0.0, z)) == Point(0.0, 0.0, z)
  {}

  /** A scaling multiplies each coordinate by its own factor. */
  lemma ScalingScalesPoints(k: Vec3, v: Vec4)
    ensures Apply(ScalingMatrix(k.x, k.y, k.z), v) == Vec4(k.x * v.x, k.y * v.y, k.z * v.z, v.w)
  {}

  /* ---------- left-multiplying a matrix by each constructor ---------- */

  lemma UnitRowX(t: real, m: Mat4)
    ensures Comb(Vec4(1.0, 0.0, 0.0, t), m) == AddScaled(m.r0, t, m.r3)
  {}

  lemma UnitRowY(t: real, m: Mat4)
    ensures Comb(Vec4(0.0, 1.0, 0.0, t), m) == AddScaled(m.r1, t, m.r3)
  {}

  lemma UnitRowZ(t: real, m: Mat4)
    ensures Comb(Vec4(0.0, 0.0, 1.0, t), m) == AddScaled(m.r2, t, m.r3)
  {}

  lemma UnitRowW(m: Mat4)
    ensures Comb(Vec4(0.0, 0.0, 0.0, 1.0), m) == m.r3
  {}

  lemma TranslationTimes(t: Vec3, m: Mat4)
    ensures Mul(TranslationMatrix(t.x, t.y, t.z), m)
         == Mat4(AddScaled(m.r0, t.x, m.r3), AddScaled(m.r1, t.y, m.r3), AddScaled(m.r2, t.z, m.r3), m.r3)
  {
    UnitRowX(t.x, m);
    UnitRowY(t.y, m);
    UnitRowZ(t.z, m);
    UnitRowW(m);
  }

  lemma ScalingTimes(k: Vec3, m: Mat4)
    ensures Mul(ScalingMatrix(k.x, k.y, k.z), m)
         == Mat4(Scale(k.x, m.r0), Scale(k.y, m.r1), Scale(k.z, m.r2), m.r3)
  {
    assert Comb(Vec4(k.x, 0.0, 0.0, 0.0), m) == Scale(k.x, m.r0);
    assert Comb(Vec4(0.0, k.y, 0.0, 0.0), m) == Scale(k.y, m.r1);
    assert Comb(Vec4(0.0, 0.0, k.z, 0.0), m) == Scale(k.z, m.r2);
    assert Comb(Vec4(0.0, 0.0, 0.0, 1.0), m) == m.r3;
  }

  /* ---------- composition laws ---------- */

  lemma TranslatedTranslation(a: Vec3, b: Vec3)
    ensures (var m := TranslationMatrix(b.x, b.y, b.z);
             Mat4(AddScaled(m.r0, a.x, m.r3), AddScaled(m.r1, a.y, m.r3), AddScaled(m.r2, a.z, m.r3), m.r3)
             == TranslationMatrix(a.x + b.x, a.y + b.y, a.z + b.z))
  {}

  /** Translating by b and then by a is translating by a + b. */
  lemma TranslationsCompose(a: Vec3, b: Vec3)
    ensures Mul(TranslationMatrix(a.x, a.y, a.z), TranslationMatrix(b.x, b.y, b.z))
         == TranslationMatrix(a.x + b.x, a.y + b.y, a.z + b.z)
  {
    TranslationTimes(a, TranslationMatrix(b.x, b.y, b.z));
    TranslatedTranslation(a, b);
  }

  /** Translating by the opposite vector undoes a translation. */
  lemma TranslationInverse(t: Vec3)
    ensures Mul(TranslationMatrix(-t.x, -t.y, -t.z), TranslationMatrix(t.x, t.y, t.z)) == Identity()
  {
    var m := Mul(TranslationMatrix(-t.x, -t.y, -t.z), TranslationMatrix(t.x, t.y, t.z));
    assert m.r0 == Identity().r0;
    assert m.r1 == Identity().r1;
    assert m.r2 == Identity().r2;
    assert m.r3 == Identity().r3;
  }

  /** The zero angle gives the identity matrix. */
  lemma NoRotationIsIdentity()
    ensures RotationMatrixZ(NoRotation) == Identity()
  {}

  /** A rotation keeps the distance between any two points. */
  lemma RotationIsRigid(a: Rotation, p: Vec4, q: Vec4)
    requires OnUnitCircle(a)
    ensures DistSq(Apply(RotationMatrixZ(a), p), Apply(RotationMatrixZ(a), q)) == DistSq(p, q)
  {
    var (c, s) := (a.cos, a.sin);
    var (dx, dy) := (p.x - q.x, p.y - q.y);
    RotationTurnsPoints(a, p);
    RotationTurnsPoints(a, q);
    var (p', q') := (Apply(RotationMatrixZ(a), p), Apply(RotationMatrixZ(a), q));
    assert p'.x - q'.x == c * dx - s * dy;
    assert p'.y - q'.y == s * dx + c * dy;
    calc {
      (c * dx - s * dy) * (c * dx - s * dy) + (s * dx + c * dy) * (s * dx + c * dy);
      (c * c + s * s) * (dx * dx) + (c * c + s * s) * (dy * dy);
      dx * dx + dy * dy;
    }
  }

  /** Rotating back by the angle with the opposite sine undoes a rotation. */
  lemma RotationInverse(a: Rotation)
    requires OnUnitCircle(a)
    ensures Mul(RotationMatrixZ(Rotation(a.cos, -a.sin)), RotationMatrixZ(a)) == Identity()
  {
    var m := Mul(RotationMatrixZ(Rotation(a.cos, -a.sin)), RotationMatrixZ(a));
    assert m.r0 == Vec4(a.cos * a.cos + a.sin * a.sin, a.cos * -a.sin + a.sin * a.cos, 0.0, 0.0);
    assert m.r1 == Vec4(-a.sin * a.cos + a.cos * a.sin, a.sin * a.sin + a.cos * a.cos, 0.0, 0.0);
    assert m.r2 == Identity().r2;
    assert m.r3 == Identity().r3;
  }

  lemma ScaledScaling(a: Vec3, b: Vec3)
    ensures (var m := ScalingMatrix(b.x, b.y, b.z);
             Mat4(Scale(a.x, m.r0), Scale(a.y, m.r1), Scale(a.z, m.r2), m.r3)
             == ScalingMatrix(a.x * b.x, a.y * b.y, a.z * b.z))
  {}

  /** Scaling by b and then by a is scaling by the products. */
  lemma ScalingsCompose(a: Vec3, b: Vec3)
    ensures Mul(ScalingMatrix(a.x, a.y, a.z), ScalingMatrix(b.x, b.y, b.z))
         == ScalingMatrix(a.x * b.x, a.y * b.y, a.z * b.z)
  {
    ScalingTimes(a, ScalingMatrix(b.x, b.y, b.z));
    ScaledScaling(a, b);
  }

  /** A translation keeps the distance between two points and keeps them points. */
  lemma TranslationIsRigid(t: Vec3, p: Vec4, q: Vec4)
    requires p.w == 1.0 && q.w == 1.0
    ensures Apply(TranslationMatrix(t.x, t.y, t.z), p).w == 1.0
    ensures Apply(TranslationMatrix(t.x, t.y, t.z), q).w == 1.0
    ensures DistSq(Apply(TranslationMatrix(t.x, t.y, t.z), p), Apply(TranslationMatrix(t.x, t.y, t.z), q))
         == DistSq(p, q)
  {
    TranslationMovesPoints(t, p);
    TranslationMovesPoints(t, q);
  }

  /** The height reached after n lifts by d, added up one lift at a time. */
  function Lift(d: real, n: nat): real {
    if n == 0 then 0.0 else Lift(d, n - 1) + d
  }

  /** n lifts by d reach d * n. */
  lemma {:induction false} LiftIsProduct(d: real, n: nat)
    ensures Lift(d, n) == d * (n as real)
  {
    if n > 0 {
      LiftIsProduct(d, n - 1);
    }
  }

  /** Lifting n times by d lifts every point by `Lift(d, n)`. */
  lemma {:induction false} LiftPower(d: real, n: nat, v: Vec4)
    requires v.w == 1.0
    ensures Apply(Power(TranslationMatrix(0.0, d, 0.0), n), v) == Vec4(v.x, v.y + Lift(d, n), v.z, 1.0)
  {
    var m := TranslationMatrix(0.0, d, 0.0);
    if n == 0 {
      ApplyIdentity(v);
    } else {
      LiftPower(d, n - 1, v);
      ApplyMul(m, Power(m, n - 1), v);
      TranslationMovesPoints(Vec3(0.0, d, 0.0), Apply(Power(m, n - 1), v));
    }
  }
}
