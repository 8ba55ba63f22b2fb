/**
 The hinged stack of cubes built in `animate` (main.js).

 Every frame starts from the identity, left-multiplies it by the scaling S,
 and then for each cube in turn stores the running matrix M and replaces it
 by T2 * (R * (T1 * M)). Cube 0 therefore gets S and cube i gets H^i * S
 with H = T2 * R * T1: T1 moves the scaled cube's bottom-left edge onto the
 z axis, R turns about that axis and T2 carries the edge onto the cube's
 top-left edge, where the next cube hangs.

 The members take the half-edge l as a parameter; main.js uses
 `CubeGeometry.L` (0.5), and every property below holds for any l.
 */
module Stacking {
  import opened Linear
  import opened Transforms

  /** `scalingMatrix(1.0, 1.5, 1.0)`: the cube is stretched to height 3l. */
  function Scaling(): Mat4 {
    ScalingMatrix(1.0, 1.5, 1.0)
  }

  /** `translationMatrix(l, l * 1.5, 0)` */
  function Translation1(l: real): Mat4 {
    TranslationMatrix(l, l * 1.5, 0.0)
  }

  /** `translationMatrix(-l, 2 * l * 1.5 - l * 1.5, 0)` */
  function Translation2(l: real): Mat4 {
    TranslationMatrix(-l, 2.0 * l * 1.5 - l * 1.5, 0.0)
  }

  /**
   The matrix that takes each cube's placement to the next one's, written
   out (its product form is `HingeIsProduct`). It lifts by the cube height 3l
   and then turns about the edge x = -l, y = 1.5l (`HingeIsLiftThenTurn`).
   */
  function Hinge(l: real, a: Rotation): Mat4 {
    var (c, s) := (a.cos, a.sin);
    Mat4(Vec4(c, -s, 0.0, c * l - s * (1.5 * l) - l),
         Vec4(s, c, 0.0, s * l + c * (1.5 * l) + 1.5 * l),
         Vec4(0.0, 0.0, 1.0, 0.0),
         Vec4(0.0, 0.0, 0.0, 1.0))
  }

  /** The matrix of cube i when cube 0 gets s and each next cube h times the last: h^i * s. */
  function Placement(h: Mat4, s: Mat4, i: nat): Mat4 {
    Mul(Power(h, i), s)
  }

  /** Closed form of the matrix cube i receives in main.js: H^i * S. */
  function CubeMatrix(l: real, a: Rotation, i: nat): Mat4 {
    Placement(Hinge(l, a), Scaling(), i)
  }

  /* ---------- the loop ---------- */

  /**
   The loop of main.js:270-283 over `count` active cubes, for whatever four
   matrices were built before it. It returns the matrix copied into each
   cube, in order.
   */
  method AssignMatrices(scaling: Mat4, translation1: Mat4, rotation: Mat4, translation2: Mat4, count: nat)
    returns (placed: seq<Mat4>)
    ensures |placed| == count
    ensures count > 0 ==> placed[0] == scaling
    ensures forall i :: 0 <= i < count ==>
              placed[i] == Placement(Mul(translation2, Mul(rotation, translation1)), scaling, i)
  {
    ghost var h := Mul(translation2, Mul(rotation, translation1));
    var model := Identity();
    model := Mul(scaling, model);
    MulIdentityRight(scaling);
    MulIdentityLeft(scaling);
    placed := [];
    var i := 0;
    while i < count
      invariant 0 <= i <= count
      invariant |placed| == i
      invariant forall k :: 0 <= k < i ==> placed[k] == Placement(h, scaling, k)
      invariant model == Placement(h, scaling, i)
    {
      placed := placed + [model];
      model := Advance(translation1, rotation, translation2, model);
      PlacementStep(h, scaling, i);
      i := i + 1;
    }
  }

  /**
   One turn of the loop (main.js:280-282): three multiplications in place,
   which together multiply the running matrix by T2 * R * T1.
   */
  method Advance(translation1: Mat4, rotation: Mat4, translation2: Mat4, model: Mat4) returns (next: Mat4)
    ensures next == Mul(Mul(translation2, Mul(rotation, translation1)), model)
  {
    next := Mul(translation1, model);
    next := Mul(rotation, next);
    next := Mul(translation2, next);
    MulAssoc(rotation, translation1, model);
    MulAssoc(translation2, Mul(rotation, translation1), model);
  }

  /** With the matrices of one frame, the loop hands cube i the matrix H^i * S. */
  method AnimateFrame(l: real, a: Rotation, count: nat) returns (placed: seq<Mat4>)
    ensures |placed| == count
    ensures forall i :: 0 <= i < count ==> placed[i] == CubeMatrix(l, a, i)
  {
    placed := AssignMatrices(Scaling(), Translation1(l), RotationMatrixZ(a), Translation2(l), count);
    HingeIsProduct(l, a);
  }

  /** The written-out hinge is the product T2 * (R * T1) the loop multiplies by. */
  lemma HingeIsProduct(l: real, a: Rotation)
    ensures Mul(Translation2(l), Mul(RotationMatrixZ(a), Translation1(l))) == Hinge(l, a)
  {
    var (c, s) := (a.cos, a.sin);
    var rt := Mul(RotationMatrixZ(a), Translation1(l));
    assert rt.r0 == Vec4(c, -s, 0.0, c * l - s * (l * 1.5));
    assert rt.r1 == Vec4(s, c, 0.0, s * l + c * (l * 1.5));
    assert rt.r2 == Vec4(0.0, 0.0, 1.0, 0.0);
    assert rt.r3 == Vec4(0.0, 0.0, 0.0, 1.0);
    TranslationTimes(Vec3(-l, 2.0 * l * 1.5 - l * 1.5, 0.0), rt);
  }

  /** The turn by the angle about the edge x = px, y = py parallel to the z axis, written out. */
  function TurnAbout(px: real, py: real, a: Rotation): Mat4 {
    var (c, s) := (a.cos, a.sin);
    Mat4(Vec4(c, -s, 0.0, px - c * px + s * py),
         Vec4(s, c, 0.0, py - s * px - c * py),
         Vec4(0.0, 0.0, 1.0, 0.0),
         Vec4(0.0, 0.0, 0.0, 1.0))
  }

  /** The written-out turn is: move the edge onto the z axis, rotate, move it back. */
  lemma TurnIsConjugate(px: real, py: real, a: Rotation)
    ensures Mul(TranslationMatrix(px, py, 0.0), Mul(RotationMatrixZ(a), TranslationMatrix(-px, -py, 0.0)))
         == TurnAbout(px, py, a)
  {
    var (c, s) := (a.cos, a.sin);
    var ru := Mul(RotationMatrixZ(a), TranslationMatrix(-px, -py, 0.0));
    assert ru.r0 == Vec4(c, -s, 0.0, c * -px - s * -py);
    assert ru.r1 == Vec4(s, c, 0.0, s * -px + c * -py);
    assert ru.r2 == Vec4(0.0, 0.0, 1.0, 0.0);
    assert ru.r3 == Vec4(0.0, 0.0, 0.0, 1.0);
    TranslationTimes(Vec3(px, py, 0.0), ru);
  }

  /** A turn about an edge leaves every point of that edge where it is. */
  lemma TurnFixesEdge(px: real, py: real, a: Rotation, z: real)
    ensures Apply(TurnAbout(px, py, a), Point(px, py, z)) == Point(px, py, z)
  {
  }

  /**
   The hinge moves every point up by the cube height 3l and then turns it by
   the angle about the edge x = -l, y = 1.5l.
   */
  lemma HingeIsLiftThenTurn(l: real, a: Rotation, p: Vec4)
    requires p.w == 1.0
    ensures Apply(Hinge(l, a), p) == Apply(TurnAbout(-l, 1.5 * l, a), Point(p.x, p.y + 3.0 * l, p.z))
  {
    var (c, s) := (a.cos, a.sin);
    var (h, t) := (Apply(Hinge(l, a), p), Apply(TurnAbout(-l, 1.5 * l, a), Point(p.x, p.y + 3.0 * l, p.z)));
    assert h.x == c * p.x - s * p.y + (c * l - s * (1.5 * l) - l);
    assert t.x == c * p.x - s * (p.y + 3.0 * l) + (-l - c * -l + s * (1.5 * l));
    assert h.y == s * p.x + c * p.y + (s * l + c * (1.5 * l) + 1.5 * l);
    assert t.y == s * p.x + c * (p.y + 3.0 * l) + (1.5 * l - s * -l - c * (1.5 * l));
  }

  /** Cube i + 1 is placed by h times the placement of cube i. */
  lemma PlacementStep(h: Mat4, s: Mat4, i: nat)
    ensures Placement(h, s, i + 1) == Mul(h, Placement(h, s, i))
  {
    MulAssoc(h, Power(h, i), s);
  }

  /* ---------- the geometry of the stack ---------- */

  /** T2 * T1 lifts by 3l, which is exactly the height of the scaled cube. */
  lemma StackTranslations(l: real)
    ensures Mul(Translation2(l), Translation1(l)) == TranslationMatrix(0.0, 3.0 * l, 0.0)
    ensures Apply(Scaling(), Point(0.0, l, 0.0)).y - Apply(Scaling(), Point(0.0, -l, 0.0)).y == 3.0 * l
  {
    var m := Mul(Translation2(l), Translation1(l));
    assert m.r0 == Vec4(1.0, 0.0, 0.0, 0.0);
    assert m.r1 == Vec4(0.0, 1.0, 0.0, 3.0 * l);
    assert m.r2 == Vec4(0.0, 0.0, 1.0, 0.0);
    assert m.r3 == Vec4(0.0, 0.0, 0.0, 1.0);
  }

  /**
   Whatever the angle, the hinge takes the bottom-left edge of the scaled
   cube onto its top-left edge: that edge is the axis the next cube turns about.
   */
  lemma HingeMapsBottomToTop(l: real, a: Rotation, z: real)
    ensures Apply(Hinge(l, a), Point(-l, -1.5 * l, z)) == Point(-l, 1.5 * l, z)
  {
  }

  /** The scaling stretches the left edges to y = -1.5l and y = 1.5l. */
  lemma ScaledLeftEdges(l: real, z: real)
    ensures Apply(Scaling(), Point(-l, -l, z)) == Point(-l, -1.5 * l, z)
    ensures Apply(Scaling(), Point(-l, l, z)) == Point(-l, 1.5 * l, z)
  {
    ScalingScalesPoints(Vec3(1.0, 1.5, 1.0), Point(-l, -l, z));
    ScalingScalesPoints(Vec3(1.0, 1.5, 1.0), Point(-l, l, z));
  }

  /**
   Consecutive cubes share an edge for every angle: the bottom-left edge of
   cube i + 1 lands exactly on the top-left edge of cube i.
   */
  lemma CubesStayHinged(l: real, a: Rotation, i: nat, z: real)
    ensures Apply(CubeMatrix(l, a, i + 1), Point(-l, -l, z)) == Apply(CubeMatrix(l, a, i), Point(-l, l, z))
  {
    var h := Hinge(l, a);
    var p := Power(h, i);
    PowerCommutes(h, i);
    MulAssoc(p, h, Scaling());
    ApplyMul(p, Mul(h, Scaling()), Point(-l, -l, z));
    ApplyMul(h, Scaling(), Point(-l, -l, z));
    ScaledLeftEdges(l, z);
    HingeMapsBottomToTop(l, a, z);
    ApplyMul(p, Scaling(), Point(-l, l, z));
  }

  /** At the zero angle the hinge is a plain lift by the cube height. */
  lemma StraightHinge(l: real)
    ensures Hinge(l, NoRotation) == TranslationMatrix(0.0, 3.0 * l, 0.0)
  {
  }

  /** At the zero angle every point of cube i is the scaled point lifted i times by 3l. */
  lemma StraightStacking(l: real, i: nat, p: Vec4)
    requires p.w == 1.0
    ensures Apply(CubeMatrix(l, NoRotation, i), p) == Vec4(p.x, 1.5 * p.y + Lift(3.0 * l, i), p.z, 1.0)
  {
    ScalingScalesPoints(Vec3(1.0, 1.5, 1.0), p);
    ApplyMul(Power(Hinge(l, NoRotation), i), Scaling(), p);
    StraightHinge(l);
    LiftPower(3.0 * l, i, Apply(Scaling(), p));
  }

  /**
   At the zero angle the whole top face of cube i coincides with the bottom
   face of cube i + 1.
   */
  lemma StraightCubesTouch(l: real, i: nat, x: real, z: real)
    ensures Apply(CubeMatrix(l, NoRotation, i + 1), Point(x, -l, z))
         == Apply(CubeMatrix(l, NoRotation, i), Point(x, l, z))
  {
    StraightStacking(l, i, Point(x, l, z));
    StraightStacking(l, i + 1, Point(x, -l, z));
  }

  /* ---------- rigidity ---------- */

  /** The hinge moves points as a rigid body when R is a true rotation. */
  lemma HingeIsRigid(l: real, a: Rotation, p: Vec4, q: Vec4)
    requires OnUnitCircle(a)
    requires p.w == 1.0 && q.w == 1.0
    ensures Apply(Hinge(l, a), p).w == 1.0
    ensures DistSq(Apply(Hinge(l, a), p), Apply(Hinge(l, a), q)) == DistSq(p, q)
  {
    var (c, s) := (a.cos, a.sin);
    var (dx, dy) := (p.x - q.x, p.y - q.y);
    var (p', q') := (Apply(Hinge(l, a), p), Apply(Hinge(l, a), q));
    assert p'.x - q'.x == c * dx - s * dy;
    assert p'.y - q'.y == s * dx + c * dy;
    assert p'.z - q'.z == p.z - q.z;
    calc {
      (c * dx - s * dy) * (c * dx - s * dy) + (s * dx + c * dy) * (s * dx + c * dy);
      (c * c + s * s) * (dx * dx) + (c * c + s * s) * (dy * dy);
      dx * dx + dy * dy;
    }
  }

  /** So does every power of the hinge. */
  lemma {:induction false} HingePowerIsRigid(l: real, a: Rotation, n: nat, p: Vec4, q: Vec4)
    requires OnUnitCircle(a)
    requires p.w == 1.0 && q.w == 1.0
    ensures Apply(Power(Hinge(l, a), n), p).w == 1.0
    ensures Apply(Power(Hinge(l, a), n), q).w == 1.0
    ensures DistSq(Apply(Power(Hinge(l, a), n), p), Apply(Power(Hinge(l, a), n), q)) == DistSq(p, q)
  {
    var h := Hinge(l, a);
    if n == 0 {
      ApplyIdentity(p);
      ApplyIdentity(q);
    } else {
      HingePowerIsRigid(l, a, n - 1, p, q);
      var (p1, q1) := (Apply(Power(h, n - 1), p), Apply(Power(h, n - 1), q));
      HingeIsRigid(l, a, p1, q1);
      ApplyMul(h, Power(h, n - 1), p);
      ApplyMul(h, Power(h, n - 1), q);
    }
  }

  /**
   Every cube of the stack is a congruent copy of the scaled cube: two of its
   points lie as far apart as the same two points of the scaled cube.
   */
  lemma CubesAreCongruent(l: real, a: Rotation, i: nat, p: Vec4, q: Vec4)
    requires OnUnitCircle(a)
    requires p.w == 1.0 && q.w == 1.0
    ensures DistSq(Apply(CubeMatrix(l, a, i), p), Apply(CubeMatrix(l, a, i), q))
         == DistSq(Apply(Scaling(), p), Apply(Scaling(), q))
  {
    ScalingScalesPoints(Vec3(1.0, 1.5, 1.0), p);
    ScalingScalesPoints(Vec3(1.0, 1.5, 1.0), q);
    HingePowerIsRigid(l, a, i, Apply(Scaling(), p), Apply(Scaling(), q));
    ApplyMul(Power(Hinge(l, a), i), Scaling(), p);
    ApplyMul(Power(Hinge(l, a), i), Scaling(), q);
  }
}
