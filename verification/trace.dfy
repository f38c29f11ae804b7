/**
  Sequences of messages delivered to the component one after another, in
  arrival order, and the properties every reachable state has.
 */
module Trace {
  import opened Trig
  import opened Geometry
  import opened Constants
  import opened Rotation
  import opened Engine

  /** The state after handling `msgs` in order, starting from `s`. */
  function Run(t: SinCos, s: Shape, msgs: seq<Msg>): (r: Shape)
    ensures |r.vertices| == |s.vertices| && r.edges == s.edges
    ensures Valid(s) ==> Valid(r)
    decreases |msgs|
  {
    if |msgs| == 0 then s else Run(t, Update(t, s, msgs[0]), msgs[1..])
  }

  /** The message `m`, `n` times in a row. */
  function Repeat(m: Msg, n: nat): seq<Msg> {
    if n == 0 then [] else [m] + Repeat(m, n - 1)
  }

  /** `x` to the power `n`. */
  function Pow(x: real, n: nat): real {
    if n == 0 then 1.0 else x * Pow(x, n - 1)
  }

  /** Handling two batches in a row is handling their concatenation. */
  lemma {:induction false} RunAppend(t: SinCos, s: Shape, a: seq<Msg>, b: seq<Msg>)
    ensures Run(t, s, a + b) == Run(t, Run(t, s, a), b)
    decreases |a|
  {
    if |a| == 0 {
      assert a + b == b;
    } else {
      assert (a + b)[0] == a[0];
      assert (a + b)[1..] == a[1..] + b;
      RunAppend(t, Update(t, s, a[0]), a[1..], b);
    }
  }

  /** Every reachable state has eight vertices, the twelve edges it was
      created with, all edge ends in range, and a positive multiplier. */
  lemma ReachableIsValid(t: SinCos, msgs: seq<Msg>)
    ensures var r := Run(t, Create(), msgs);
            Valid(r) && r.edges == Create().edges
  {
  }

  /** The vertices are the cube's corners moved rigidly about the origin:
      each keeps its distance from the origin and every pair keeps its
      distance, as in the initial cube. */
  ghost predicate CongruentToCube(vs: seq<Point3D>) {
    && |vs| == 8
    && (forall i :: 0 <= i < 8 ==> NormSq(vs[i]) == NormSq(Corner(i)))
    && (forall i, j :: 0 <= i < 8 && 0 <= j < 8 ==> DistSq(vs[i], vs[j]) == DistSq(Corner(i), Corner(j)))
  }

  /** One update keeps the vertices congruent to the initial cube. */
  lemma UpdateKeepsCongruence(t: SinCos, s: Shape, m: Msg)
    requires Pythagorean(t)
    requires CongruentToCube(s.vertices)
    ensures CongruentToCube(Update(t, s, m).vertices)
  {
    var v := Effect(s, m).angleVelocity;
    var r := Update(t, s, m).vertices;
    forall i | 0 <= i < 8
      ensures NormSq(r[i]) == NormSq(Corner(i))
    {
      RotateKeepsNorm(t, v, s.vertices[i]);
    }
    forall i, j | 0 <= i < 8 && 0 <= j < 8
      ensures DistSq(r[i], r[j]) == DistSq(Corner(i), Corner(j))
    {
      RotateKeepsDistance(t, v, s.vertices[i], s.vertices[j]);
    }
  }

  /** Any message sequence keeps the vertices congruent to the initial cube. */
  lemma {:induction false} RunKeepsCongruence(t: SinCos, s: Shape, msgs: seq<Msg>)
    requires Pythagorean(t)
    requires CongruentToCube(s.vertices)
    ensures CongruentToCube(Run(t, s, msgs).vertices)
    decreases |msgs|
  {
    if |msgs| > 0 {
      UpdateKeepsCongruence(t, s, msgs[0]);
      RunKeepsCongruence(t, Update(t, s, msgs[0]), msgs[1..]);
    }
  }

  /** Over exact reals the cube never deforms: in every reachable state each
      vertex lies at distance 100√3 from the origin and every drawn edge has
      length 200. */
  lemma ReachableCubeIsRigid(t: SinCos, msgs: seq<Msg>)
    requires Pythagorean(t)
    ensures var r := Run(t, Create(), msgs);
            && CongruentToCube(r.vertices)
            && (forall i :: 0 <= i < 8 ==> NormSq(r.vertices[i]) == 30000.0)
            && (forall k :: 0 <= k < |r.edges| ==>
                  DistSq(r.vertices[r.edges[k].first], r.vertices[r.edges[k].second]) == 40000.0)
  {
    var s := Create();
    RunKeepsCongruence(t, s, msgs);
    var r := Run(t, s, msgs);
    forall k | 0 <= k < |r.edges|
      ensures DistSq(r.vertices[r.edges[k].first], r.vertices[r.edges[k].second]) == 40000.0
    {
      CubeEdgeLength(s.edges[k]);
    }
  }

  /** Handling a non-empty batch is handling its first message, then the rest. */
  lemma RunStep(t: SinCos, s: Shape, msgs: seq<Msg>)
    requires |msgs| > 0
    ensures Run(t, s, msgs) == Run(t, Update(t, s, msgs[0]), msgs[1..])
  {
  }

  /** Handling `n` copies of a message is handling one, then `n - 1` more. */
  lemma RunRepeatStep(t: SinCos, s: Shape, m: Msg, n: nat)
    requires n > 0
    ensures Run(t, s, Repeat(m, n)) == Run(t, Update(t, s, m), Repeat(m, n - 1))
  {
    var ms := Repeat(m, n);
    assert ms[0] == m && ms[1..] == Repeat(m, n - 1);
  }

  /** `n` timer ticks scale each velocity component by DampenPercent^n and
      change nothing else but the vertices. */
  lemma {:induction false} ClicksDamp(t: SinCos, s: Shape, n: nat)
    ensures var r := Run(t, s, Repeat(Click, n));
            && r.angleVelocity == Scale(s.angleVelocity, Pow(DampenPercent, n))
            && r.directionMultiplier == s.directionMultiplier
            && r.velocityMultiplier == s.velocityMultiplier
            && r.shapes == s.shapes
    decreases n
  {
    if n == 0 {
      ScaleByOne(s.angleVelocity);
    } else {
      var s1 := Update(t, s, Click);
      RunRepeatStep(t, s, Click, n);
      ClicksDamp(t, s1, n - 1);
      ScaleScale(s.angleVelocity, DampenPercent, Pow(DampenPercent, n - 1));
    }
  }

  /** DampenPercent lies strictly between 0 and 1, so its powers lie in
      (0, 1] and are strictly below 1 from the first on. */
  lemma {:induction false} DampingPowerBounds(n: nat)
    ensures 0.0 < DampenPercent < 1.0
    ensures 0.0 < Pow(DampenPercent, n) <= 1.0
    ensures n > 0 ==> Pow(DampenPercent, n) < 1.0
  {
    if n > 0 {
      DampingPowerBounds(n - 1);
      var p := Pow(DampenPercent, n - 1);
      assert DampenPercent * p <= p;
    }
  }

  /** Left to the timer alone, no velocity component ever grows in magnitude. */
  lemma ClicksNeverSpeedUp(t: SinCos, s: Shape, n: nat)
    ensures var v, r := s.angleVelocity, Run(t, s, Repeat(Click, n)).angleVelocity;
            Abs(r.xa) <= Abs(v.xa) && Abs(r.ya) <= Abs(v.ya) && Abs(r.za) <= Abs(v.za)
  {
    ClicksDamp(t, s, n);
    DampingPowerBounds(n);
    ScaleNeverSpeedsUp(s.angleVelocity, Pow(DampenPercent, n));
  }

  /** The velocity of the freshly created cube after 200 ticks. */
  lemma InitialDecay(t: SinCos)
    ensures var r := Run(t, Create(), Repeat(Click, 200)).angleVelocity;
            r == Angle3D(0.1745329255 * Pow(0.9955, 200), 0.1745329255 * Pow(0.9955, 200),
                         0.1745329255 * Pow(0.9955, 200))
  {
    ClicksDamp(t, Create(), 200);
  }

  /** From the start, two doublings make the multiplier 4, and a Y impulse
      then adds four times 50 degrees (in radians) before that frame's damping. */
  lemma DoubledImpulseFromStart(t: SinCos)
    ensures var r := Run(t, Create(), [VelocityIncrement, VelocityIncrement]);
            && r.velocityMultiplier == 4.0
            && Update(t, r, RotY).angleVelocity.ya == (r.angleVelocity.ya + 3.49065851) * 0.9955
  {
    var s := Create();
    var msgs := [VelocityIncrement, VelocityIncrement];
    RunStep(t, s, msgs);
    RunStep(t, Update(t, s, VelocityIncrement), msgs[1..]);
  }

  /** `x` doubled `k` times, or halved `-k` times when `k` is negative. */
  function Doubled(x: real, k: int): real
    decreases if k >= 0 then k else -k
  {
    if k == 0 then x
    else if k > 0 then Doubled(x, k - 1) * 2.0
    else Doubled(x, k + 1) / 2.0
  }

  /** One more doubling is one multiplication by two. */
  lemma DoubledStep(x: real, k: int)
    ensures Doubled(x, k + 1) == Doubled(x, k) * 2.0
  {
  }

  /** Doubling `a` times and then `b` times is doubling `a + b` times. */
  lemma {:induction false} DoubledAdd(x: real, a: int, b: int)
    ensures Doubled(Doubled(x, a), b) == Doubled(x, a + b)
    decreases if b >= 0 then b else -b
  {
    if b > 0 {
      DoubledAdd(x, a, b - 1);
      DoubledStep(x, a + b - 1);
    } else if b < 0 {
      DoubledAdd(x, a, b + 1);
      DoubledStep(x, a + b);
    }
  }

  /** The power of two one message multiplies the multiplier by. */
  function Doublings(m: Msg): int {
    match m
    case VelocityIncrement => 1
    case VelocityDecrement => -1
    case _ => 0
  }

  /** Number of `VelocityIncrement`s minus number of `VelocityDecrement`s. */
  function NetDoublings(msgs: seq<Msg>): int {
    if |msgs| == 0 then 0 else Doublings(msgs[0]) + NetDoublings(msgs[1..])
  }

  /** One message doubles the multiplier `Doublings(m)` times. */
  lemma UpdateDoublesMultiplier(t: SinCos, s: Shape, m: Msg)
    ensures Update(t, s, m).velocityMultiplier == Doubled(s.velocityMultiplier, Doublings(m))
  {
  }

  /** The multiplier depends only on the net number of doublings: it is the
      starting multiplier doubled (increments - decrements) times, so an
      increment and a decrement cancel wherever they occur. */
  lemma {:induction false} MultiplierIsNetDoubling(t: SinCos, s: Shape, msgs: seq<Msg>)
    ensures Run(t, s, msgs).velocityMultiplier == Doubled(s.velocityMultiplier, NetDoublings(msgs))
    decreases |msgs|
  {
    if |msgs| > 0 {
      var s1 := Update(t, s, msgs[0]);
      RunStep(t, s, msgs);
      UpdateDoublesMultiplier(t, s, msgs[0]);
      MultiplierIsNetDoubling(t, s1, msgs[1..]);
      DoubledAdd(s.velocityMultiplier, Doublings(msgs[0]), NetDoublings(msgs[1..]));
    }
  }

  /** Number of `RotRev` messages. */
  function Reversals(msgs: seq<Msg>): nat {
    if |msgs| == 0 then 0
    else (if msgs[0] == RotRev then 1 else 0) + Reversals(msgs[1..])
  }

  /** The direction flag is the starting flag flipped once per `RotRev`. */
  lemma {:induction false} DirectionIsReversalParity(t: SinCos, s: Shape, msgs: seq<Msg>)
    ensures Run(t, s, msgs).directionMultiplier == (s.directionMultiplier == (Reversals(msgs) % 2 == 0))
    decreases |msgs|
  {
    if |msgs| > 0 {
      DirectionIsReversalParity(t, Update(t, s, msgs[0]), msgs[1..]);
    }
  }

  /** `n` pushes add exactly `n` replicas; `k` pops remove `k` of them but
      never go below zero. */
  lemma {:induction false} ReplicaRuns(t: SinCos, s: Shape, n: nat)
    ensures Run(t, s, Repeat(AddBox, n)).shapes == s.shapes + n
    ensures Run(t, s, Repeat(RemoveBox, n)).shapes == if s.shapes >= n then s.shapes - n else 0
    decreases n
  {
    if n > 0 {
      ReplicaRuns(t, Update(t, s, AddBox), n - 1);
      ReplicaRuns(t, Update(t, s, RemoveBox), n - 1);
    }
  }

  /** Five replicas added and seven removed leave none, and one more removal
      keeps the count at zero. */
  lemma ReplicaLifecycle(t: SinCos)
    ensures var r := Run(t, Create(), Repeat(AddBox, 5) + Repeat(RemoveBox, 7));
            r.shapes == 0 && Update(t, r, RemoveBox).shapes == 0
  {
    var s := Create();
    RunAppend(t, s, Repeat(AddBox, 5), Repeat(RemoveBox, 7));
    ReplicaRuns(t, s, 5);
    ReplicaRuns(t, Run(t, s, Repeat(AddBox, 5)), 7);
  }
}
