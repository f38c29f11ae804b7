/**
  The per-frame rotation kernel: three planar rotations applied to a vertex in
  X, then Y, then Z order, each by the axis' angular velocity divided by the
  frame rate. Over exact reals the kernel is a rigid motion about the origin;
  the drift the running program shows is floating-point error only.
 */
module Rotation {
  import opened Trig
  import opened Geometry
  import opened Constants

  /** Rotates the coordinate pair (a1, a2) by `angle` within its own plane. */
  function RotateInPlane(t: SinCos, a1: real, a2: real, angle: real): (real, real) {
    (a1 * t.cos(angle) - a2 * t.sin(angle), a2 * t.cos(angle) + a1 * t.sin(angle))
  }

  /** The X step: rotates in the Y-Z plane. */
  function RotateX(t: SinCos, p: Point3D, angle: real): (r: Point3D)
    ensures r.x == p.x
    ensures ZeroAngle(t) && angle == 0.0 ==> r == p
  {
    var (y, z) := RotateInPlane(t, p.y, p.z, angle);
    Point3D(p.x, y, z)
  }

  /** The Y step: rotates in the X-Z plane. */
  function RotateY(t: SinCos, p: Point3D, angle: real): (r: Point3D)
    ensures r.y == p.y
    ensures ZeroAngle(t) && angle == 0.0 ==> r == p
  {
    var (x, z) := RotateInPlane(t, p.x, p.z, angle);
    Point3D(x, p.y, z)
  }

  /** The Z step: rotates in the X-Y plane. */
  function RotateZ(t: SinCos, p: Point3D, angle: real): (r: Point3D)
    ensures r.z == p.z
    ensures ZeroAngle(t) && angle == 0.0 ==> r == p
  {
    var (x, y) := RotateInPlane(t, p.x, p.y, angle);
    Point3D(x, y, p.z)
  }

  /** The angle a velocity in radians per second turns through in one frame. */
  function PerFrame(v: Angle3D): Angle3D {
    Angle3D(v.xa / FrameRate, v.ya / FrameRate, v.za / FrameRate)
  }

  /** One frame of rotation of `p` under angular velocity `v`. */
  function Rotate(t: SinCos, v: Angle3D, p: Point3D): (r: Point3D)
    ensures ZeroAngle(t) && v == Angle3D(0.0, 0.0, 0.0) ==> r == p
  {
    var a := PerFrame(v);
    RotateZ(t, RotateY(t, RotateX(t, p, a.xa), a.ya), a.za)
  }

  /** The inverse of one frame: the negated angles applied in the reverse
      axis order, Z, then Y, then X. */
  function Unrotate(t: SinCos, v: Angle3D, p: Point3D): Point3D {
    var a := PerFrame(v);
    RotateX(t, RotateY(t, RotateZ(t, p, -a.za), -a.ya), -a.xa)
  }

  /** A rotation about a single axis: with no Y or Z velocity the frame is the
      X step alone. */
  lemma RotateAboutXOnly(t: SinCos, v: Angle3D, p: Point3D)
    requires ZeroAngle(t)
    requires v.ya == 0.0 && v.za == 0.0
    ensures var c, s := t.cos(v.xa / 200.0), t.sin(v.xa / 200.0);
            Rotate(t, v, p) == Point3D(p.x, p.y * c - p.z * s, p.z * c + p.y * s)
  {
  }

  /** With no X or Z velocity the frame is the Y step alone: y is kept and
      (x, z) turns by ya/200. */
  lemma RotateAboutYOnly(t: SinCos, v: Angle3D, p: Point3D)
    requires ZeroAngle(t)
    requires v.xa == 0.0 && v.za == 0.0
    ensures var c, s := t.cos(v.ya / 200.0), t.sin(v.ya / 200.0);
            Rotate(t, v, p) == Point3D(p.x * c - p.z * s, p.y, p.z * c + p.x * s)
  {
  }

  /** With no X or Y velocity the frame is the Z step alone: z is kept and
      (x, y) turns by za/200. */
  lemma RotateAboutZOnly(t: SinCos, v: Angle3D, p: Point3D)
    requires ZeroAngle(t)
    requires v.xa == 0.0 && v.ya == 0.0
    ensures var c, s := t.cos(v.za / 200.0), t.sin(v.za / 200.0);
            Rotate(t, v, p) == Point3D(p.x * c - p.y * s, p.y * c + p.x * s, p.z)
  {
  }

  /** A planar rotation keeps the distance from the plane's origin. */
  lemma RotateInPlaneKeepsNorm(t: SinCos, a1: real, a2: real, angle: real)
    requires Pythagorean(t)
    ensures var r := RotateInPlane(t, a1, a2, angle);
            r.0 * r.0 + r.1 * r.1 == a1 * a1 + a2 * a2
  {
    var c, s := t.cos(angle), t.sin(angle);
    assert s * s + c * c == 1.0;
    calc {
      (a1 * c - a2 * s) * (a1 * c - a2 * s) + (a2 * c + a1 * s) * (a2 * c + a1 * s);
      a1 * a1 * (c * c + s * s) + a2 * a2 * (c * c + s * s);
      a1 * a1 + a2 * a2;
    }
  }

  /** Rotating by an angle and then by its opposite restores the pair. */
  lemma RotateInPlaneInverse(t: SinCos, a1: real, a2: real, angle: real, back: real)
    requires Pythagorean(t) && Parity(t)
    requires angle + back == 0.0
    ensures var r := RotateInPlane(t, a1, a2, angle);
            RotateInPlane(t, r.0, r.1, back) == (a1, a2)
  {
    var c, s := t.cos(angle), t.sin(angle);
    var r := RotateInPlane(t, a1, a2, angle);
    assert t.sin(back) == -s && t.cos(back) == c;
    assert s * s + c * c == 1.0;
    assert r.0 == a1 * c - a2 * s && r.1 == a2 * c + a1 * s;
    assert RotateInPlane(t, r.0, r.1, back).0 == r.0 * c - r.1 * (-s);
    assert RotateInPlane(t, r.0, r.1, back).1 == r.1 * c + r.0 * (-s);
    calc {
      (a1 * c - a2 * s) * c - (a2 * c + a1 * s) * (-s);
      a1 * (c * c + s * s);
      a1;
    }
    calc {
      (a2 * c + a1 * s) * c + (a1 * c - a2 * s) * (-s);
      a2 * (c * c + s * s);
      a2;
    }
    assert RotateInPlane(t, r.0, r.1, back).0 == a1;
    assert RotateInPlane(t, r.0, r.1, back).1 == a2;
  }

  /** A planar rotation is linear: it commutes with taking differences. */
  lemma RotateInPlaneLinear(t: SinCos, a1: real, a2: real, b1: real, b2: real, angle: real)
    ensures var ra, rb := RotateInPlane(t, a1, a2, angle), RotateInPlane(t, b1, b2, angle);
            RotateInPlane(t, a1 - b1, a2 - b2, angle) == (ra.0 - rb.0, ra.1 - rb.1)
  {
    var c, s := t.cos(angle), t.sin(angle);
    assert (a1 - b1) * c - (a2 - b2) * s == (a1 * c - a2 * s) - (b1 * c - b2 * s);
    assert (a2 - b2) * c + (a1 - b1) * s == (a2 * c + a1 * s) - (b2 * c + b1 * s);
  }

  /** One frame of rotation keeps every vertex at its distance from the origin. */
  lemma RotateKeepsNorm(t: SinCos, v: Angle3D, p: Point3D)
    requires Pythagorean(t)
    ensures NormSq(Rotate(t, v, p)) == NormSq(p)
  {
    var a := PerFrame(v);
    var p1 := RotateX(t, p, a.xa);
    var p2 := RotateY(t, p1, a.ya);
    RotateInPlaneKeepsNorm(t, p.y, p.z, a.xa);
    RotateInPlaneKeepsNorm(t, p1.x, p1.z, a.ya);
    RotateInPlaneKeepsNorm(t, p2.x, p2.y, a.za);
  }

  /** One frame of rotation commutes with taking differences of points. */
  lemma RotateLinear(t: SinCos, v: Angle3D, p: Point3D, q: Point3D)
    ensures Rotate(t, v, Sub(p, q)) == Sub(Rotate(t, v, p), Rotate(t, v, q))
  {
    var a := PerFrame(v);
    var p1, q1 := RotateX(t, p, a.xa), RotateX(t, q, a.xa);
    var p2, q2 := RotateY(t, p1, a.ya), RotateY(t, q1, a.ya);
    RotateInPlaneLinear(t, p.y, p.z, q.y, q.z, a.xa);
    assert RotateX(t, Sub(p, q), a.xa) == Sub(p1, q1);
    RotateInPlaneLinear(t, p1.x, p1.z, q1.x, q1.z, a.ya);
    assert RotateY(t, Sub(p1, q1), a.ya) == Sub(p2, q2);
    RotateInPlaneLinear(t, p2.x, p2.y, q2.x, q2.y, a.za);
  }

  /** One frame of rotation keeps the distance between any two vertices:
      over exact reals the cube never deforms. */
  lemma RotateKeepsDistance(t: SinCos, v: Angle3D, p: Point3D, q: Point3D)
    requires Pythagorean(t)
    ensures DistSq(Rotate(t, v, p), Rotate(t, v, q)) == DistSq(p, q)
  {
    RotateLinear(t, v, p, q);
    RotateKeepsNorm(t, v, Sub(p, q));
  }

  /** Undoing a frame: the reversed-order, negated-angle kernel inverts `Rotate`. */
  lemma UnrotateRotate(t: SinCos, v: Angle3D, p: Point3D)
    requires Pythagorean(t) && Parity(t)
    ensures Unrotate(t, v, Rotate(t, v, p)) == p
  {
    var a := PerFrame(v);
    var p1 := RotateX(t, p, a.xa);
    var p2 := RotateY(t, p1, a.ya);
    var p3 := RotateZ(t, p2, a.za);
    RotateInPlaneInverse(t, p2.x, p2.y, a.za, -a.za);
    assert RotateZ(t, p3, -a.za) == p2;
    RotateInPlaneInverse(t, p1.x, p1.z, a.ya, -a.ya);
    assert RotateY(t, p2, -a.ya) == p1;
    RotateInPlaneInverse(t, p.y, p.z, a.xa, -a.xa);
  }

  /** And `Rotate` inverts the reversed-order kernel, so each frame is a bijection. */
  lemma RotateUnrotate(t: SinCos, v: Angle3D, p: Point3D)
    requires Pythagorean(t) && Parity(t)
    ensures Rotate(t, v, Unrotate(t, v, p)) == p
  {
    var a := PerFrame(v);
    var p1 := RotateZ(t, p, -a.za);
    var p2 := RotateY(t, p1, -a.ya);
    var p3 := RotateX(t, p2, -a.xa);
    RotateInPlaneInverse(t, p2.y, p2.z, -a.xa, a.xa);
    assert RotateX(t, p3, a.xa) == p2;
    RotateInPlaneInverse(t, p1.x, p1.z, -a.ya, a.ya);
    assert RotateY(t, p2, a.ya) == p1;
    RotateInPlaneInverse(t, p.x, p.y, -a.za, a.za);
  }
}
