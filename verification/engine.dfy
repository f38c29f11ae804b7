/**
  The `Shape` component's state and its message handler. `Update` applies a
  message's effect and then advances one frame: every vertex is rotated
  under the (post-effect) angular velocity and the velocity is damped. This
  frame advance follows EVERY message, button presses included, not only
  the timer's `Click`.
 */
module Engine {
  import opened Trig
  import opened Geometry
  import opened Rotation
  import opened Constants

  datatype Msg =
    | RotX | RotY | RotZ
    | RotRev
    | VelocityIncrement | VelocityDecrement
    | AddBox | RemoveBox
    | Click

  /** The component state. `shapes` counts the replica views: the pushed
      values are all 0 and never read, so only their number matters. */
  datatype Shape = Shape(
    shapes: nat,
    vertices: seq<Point3D>,
    edges: seq<Edge>,
    angleVelocity: Angle3D,
    directionMultiplier: bool,
    velocityMultiplier: real)

  /** What holds of the state at all times after `Create`. */
  predicate Valid(s: Shape) {
    && |s.vertices| == 8
    && |s.edges| == 12
    && EdgesInRange(s.edges, |s.vertices|)
    && s.velocityMultiplier > 0.0
  }

  /** The initial state: the eight corners of the cube of half-side 100 in
      binary order, its twelve edges, ten degrees per second about each axis. */
  function Create(): (s: Shape)
    ensures Valid(s)
    ensures forall i :: 0 <= i < 8 ==> s.vertices[i] == Corner(i)
    ensures forall i :: 0 <= i < 12 ==> IsCubeEdge(s.edges[i])
    ensures forall i, j :: 0 <= i < j < 12 ==> s.edges[i] != s.edges[j]
    ensures forall e :: IsCubeEdge(e) ==> e in s.edges
    ensures s.angleVelocity == Angle3D(0.1745329255, 0.1745329255, 0.1745329255)
    ensures s.directionMultiplier && s.velocityMultiplier == 1.0 && s.shapes == 0
  {
    Shape(
      0,
      [ Point3D(100.0, 100.0, 100.0), Point3D(-100.0, 100.0, 100.0),
        Point3D(100.0, -100.0, 100.0), Point3D(-100.0, -100.0, 100.0),
        Point3D(100.0, 100.0, -100.0), Point3D(-100.0, 100.0, -100.0),
        Point3D(100.0, -100.0, -100.0), Point3D(-100.0, -100.0, -100.0) ],
      [ Edge(0, 1), Edge(0, 2), Edge(0, 4), Edge(1, 5), Edge(1, 3), Edge(2, 3),
        Edge(2, 6), Edge(4, 5), Edge(4, 6), Edge(3, 7), Edge(6, 7), Edge(5, 7) ],
      Angle3D(TenDegreeInRadian, TenDegreeInRadian, TenDegreeInRadian),
      true,
      1.0)
  }

  /** +1 when the direction flag is set, -1 when it is cleared. */
  function Sign(direction: bool): real {
    if direction then 1.0 else -1.0
  }

  /** One acceleration impulse on a velocity component `c`. */
  function Accelerate(s: Shape, c: real): real {
    if s.directionMultiplier then c + AccelerateBy * s.velocityMultiplier
    else c - AccelerateBy * s.velocityMultiplier
  }

  /** The message's own effect, before the frame advance. */
  function Effect(s: Shape, m: Msg): (r: Shape)
    ensures r.vertices == s.vertices && r.edges == s.edges
    ensures m == Click ==> r == s
    ensures !(m.RotX? || m.RotY? || m.RotZ?) ==> r.angleVelocity == s.angleVelocity
    ensures m != RotRev ==> r.directionMultiplier == s.directionMultiplier
    ensures !(m.VelocityIncrement? || m.VelocityDecrement?) ==> r.velocityMultiplier == s.velocityMultiplier
    ensures !(m.AddBox? || m.RemoveBox?) ==> r.shapes == s.shapes
    ensures s.velocityMultiplier > 0.0 ==> r.velocityMultiplier > 0.0
  {
    var v := s.angleVelocity;
    match m
    case VelocityIncrement => s.(velocityMultiplier := s.velocityMultiplier * 2.0)
    case VelocityDecrement => s.(velocityMultiplier := s.velocityMultiplier / 2.0)
    case RotRev => s.(directionMultiplier := !s.directionMultiplier)
    case RotX => s.(angleVelocity := v.(xa := Accelerate(s, v.xa)))
    case RotY => s.(angleVelocity := v.(ya := Accelerate(s, v.ya)))
    case RotZ => s.(angleVelocity := v.(za := Accelerate(s, v.za)))
    case AddBox => s.(shapes := s.shapes + 1)
    case RemoveBox => s.(shapes := if s.shapes == 0 then 0 else s.shapes - 1)
    case Click => s
  }

  /** Every velocity component multiplied by `k`. */
  function Scale(v: Angle3D, k: real): Angle3D {
    Angle3D(v.xa * k, v.ya * k, v.za * k)
  }

  /** Magnitude of a real. */
  function Abs(x: real): real {
    if x < 0.0 then -x else x
  }

  /** One frame of damping. */
  function Damp(v: Angle3D): Angle3D {
    Scale(v, DampenPercent)
  }

  /** Damping never lets a component grow in magnitude or change sign, and a
      non-zero component strictly shrinks. */
  lemma DampShrinks(v: Angle3D)
    ensures var r := Damp(v);
            && Abs(r.xa) <= Abs(v.xa) && Abs(r.ya) <= Abs(v.ya) && Abs(r.za) <= Abs(v.za)
            && (v.xa != 0.0 ==> Abs(r.xa) < Abs(v.xa))
            && (v.ya != 0.0 ==> Abs(r.ya) < Abs(v.ya))
            && (v.za != 0.0 ==> Abs(r.za) < Abs(v.za))
            && (r.xa < 0.0 <==> v.xa < 0.0) && (r.ya < 0.0 <==> v.ya < 0.0) && (r.za < 0.0 <==> v.za < 0.0)
  {
  }

  /** Scaling twice is scaling by the product. */
  lemma ScaleScale(v: Angle3D, a: real, b: real)
    ensures Scale(Scale(v, a), b) == Scale(v, a * b)
  {
    assert v.xa * a * b == v.xa * (a * b);
    assert v.ya * a * b == v.ya * (a * b);
    assert v.za * a * b == v.za * (a * b);
  }

  /** Scaling by one changes nothing. */
  lemma ScaleByOne(v: Angle3D)
    ensures Scale(v, 1.0) == v
  {
  }

  /** A factor in (0, 1] never grows a magnitude. */
  lemma ShrinkByFactor(x: real, p: real)
    requires 0.0 < p <= 1.0
    ensures Abs(x * p) <= Abs(x)
  {
    if x >= 0.0 {
      assert x * p <= x * 1.0;
    } else {
      assert -(x * p) == (-x) * p <= (-x) * 1.0;
    }
  }

  /** Scaling by a factor in (0, 1] never grows any component's magnitude. */
  lemma ScaleNeverSpeedsUp(v: Angle3D, p: real)
    requires 0.0 < p <= 1.0
    ensures var r := Scale(v, p);
            Abs(r.xa) <= Abs(v.xa) && Abs(r.ya) <= Abs(v.ya) && Abs(r.za) <= Abs(v.za)
  {
    ShrinkByFactor(v.xa, p);
    ShrinkByFactor(v.ya, p);
    ShrinkByFactor(v.za, p);
  }

  /** Every vertex replaced by its image under one frame of rotation. */
  function RotateAll(t: SinCos, v: Angle3D, vs: seq<Point3D>): seq<Point3D> {
    seq(|vs|, i requires 0 <= i < |vs| => Rotate(t, v, vs[i]))
  }

  /** The message handler: the message's effect, then one frame of rotation
      under the resulting velocity, then damping of that velocity. */
  function Update(t: SinCos, s: Shape, m: Msg): (r: Shape)
    ensures |r.vertices| == |s.vertices| && r.edges == s.edges
    ensures forall i :: 0 <= i < |s.vertices| ==>
              r.vertices[i] == Rotate(t, Effect(s, m).angleVelocity, s.vertices[i])
    ensures Valid(s) ==> Valid(r)
  {
    var e := Effect(s, m);
    e.(vertices := RotateAll(t, e.angleVelocity, e.vertices),
       angleVelocity := Damp(e.angleVelocity))
  }

  /** An acceleration message changes its own axis by one signed impulse
      scaled by the multiplier, then damps all three components; nothing
      else but the vertices changes. */
  lemma UpdateAccelerates(t: SinCos, s: Shape, m: Msg)
    requires m.RotX? || m.RotY? || m.RotZ?
    ensures var r, v, d := Update(t, s, m), s.angleVelocity, Sign(s.directionMultiplier) * AccelerateBy * s.velocityMultiplier;
            && r.angleVelocity.xa == (if m.RotX? then v.xa + d else v.xa) * DampenPercent
            && r.angleVelocity.ya == (if m.RotY? then v.ya + d else v.ya) * DampenPercent
            && r.angleVelocity.za == (if m.RotZ? then v.za + d else v.za) * DampenPercent
            && r.directionMultiplier == s.directionMultiplier
            && r.velocityMultiplier == s.velocityMultiplier
            && r.shapes == s.shapes
  {
  }

  /** A message that does not accelerate advances the frame exactly as the
      timer's `Click` does: same vertices, same damped velocity. */
  lemma NonAcceleratingMessagesAdvanceLikeClick(t: SinCos, s: Shape, m: Msg)
    requires !(m.RotX? || m.RotY? || m.RotZ?)
    ensures Update(t, s, m).vertices == Update(t, s, Click).vertices
    ensures Update(t, s, m).angleVelocity == Update(t, s, Click).angleVelocity == Damp(s.angleVelocity)
  {
  }

  /** `RotRev` flips the direction flag, and twice restores it; the pair
      changes no multiplier or replica count and leaves the velocity damped
      twice. */
  lemma RotRevTwice(t: SinCos, s: Shape)
    ensures Update(t, s, RotRev).directionMultiplier == !s.directionMultiplier
    ensures var r := Update(t, Update(t, s, RotRev), RotRev);
            && r.directionMultiplier == s.directionMultiplier
            && r.velocityMultiplier == s.velocityMultiplier
            && r.shapes == s.shapes
            && r.angleVelocity == Scale(s.angleVelocity, DampenPercent * DampenPercent)
  {
  }

  /** Doubling and halving the multiplier undo each other in either order:
      the effects compose to the identity, and across two full updates the
      multiplier, flag and replica count are restored. */
  lemma VelocityScalingInverse(t: SinCos, s: Shape)
    ensures Effect(Effect(s, VelocityIncrement), VelocityDecrement) == s
    ensures Effect(Effect(s, VelocityDecrement), VelocityIncrement) == s
    ensures Update(t, Update(t, s, VelocityIncrement), VelocityDecrement).velocityMultiplier == s.velocityMultiplier
    ensures Update(t, Update(t, s, VelocityDecrement), VelocityIncrement).velocityMultiplier == s.velocityMultiplier
  {
  }

  /** The replica count is a stack: a push then a pop is the identity, and a
      pop on an empty stack changes nothing. */
  lemma ReplicaPushPop(t: SinCos, s: Shape)
    ensures Update(t, s, AddBox).shapes == s.shapes + 1
    ensures Update(t, s, RemoveBox).shapes == if s.shapes > 0 then s.shapes - 1 else 0
    ensures Effect(Effect(s, AddBox), RemoveBox) == s
    ensures s.shapes == 0 ==> Effect(s, RemoveBox) == s
  {
  }

  /** Accelerating, reversing and accelerating again about the same axis
      cancels the two impulses exactly. */
  lemma AccelerateReverseCancels(s: Shape, m: Msg)
    requires m.RotX? || m.RotY? || m.RotZ?
    ensures var r := Effect(Effect(Effect(s, m), RotRev), m);
            r.angleVelocity == s.angleVelocity && r.directionMultiplier == !s.directionMultiplier
  {
  }

  /** With no angular velocity a tick is a fixed point of the whole state. */
  lemma StillShapeStaysStill(t: SinCos, s: Shape)
    requires ZeroAngle(t)
    requires s.angleVelocity == Angle3D(0.0, 0.0, 0.0)
    ensures Update(t, s, Click) == s
  {
  }
}
