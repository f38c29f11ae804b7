# Cube rotation engine — a Dafny model

This project models the rotation-animation engine of a small single-page
program. The program draws a wireframe cube and rotates it in three
dimensions under user control. Its state is the `Shape` component:

- the eight cube vertices and the twelve edges between them;
- an angular velocity about each axis;
- a direction flag and a velocity multiplier, both driving acceleration;
- a count of replica views.

The component handles nine messages. `Click` is the 200 Hz timer tick. The
other eight are button presses: accelerate about X, Y or Z; reverse
direction; double or halve the multiplier; add or remove a replica view.

Modules, leaves first:

- `Constants` holds the program's numeric constants in one place: the view
  box size, the frame rate, one and ten degrees in radians, the impulse
  `AccelerateBy` and the damping factor `DampenPercent`.
- `Trig` holds the sine and cosine the kernel calls, as a parameter. A
  `SinCos` is any pair of real functions. Each lemma that needs a
  trigonometric fact names it as a precondition:
  - `ZeroAngle`: sin 0 = 0 and cos 0 = 1;
  - `Pythagorean`: sin² + cos² = 1;
  - `Parity`: sine is odd and cosine is even.
- `Geometry` holds the points, edges and angle triples, the view
  centre and the orthographic projection. It also gives reference
  definitions of the cube's corners (`Corner`) and edges (`IsCubeEdge`).
- `Rotation` is the per-frame kernel. It applies three planar rotations in
  X, then Y, then Z order, each by that axis' velocity divided by the frame
  rate. Over exact reals the kernel is a rigid motion:
  - it keeps distances from the origin and between points;
  - applying the negated angles in the reverse order (Z, Y, X) undoes it.
- `Engine` holds the state record, `Create`, and the message handler
  `Update`. `Update` applies the message's `Effect`. It then rotates every
  vertex under the resulting velocity and multiplies each velocity
  component by `DampenPercent = 1 - 0.9/200`. This rotate-and-damp frame
  follows every message, button presses included, because the `match` in
  the handler ends before the rotation code.
- `Trace` runs a sequence of messages in arrival order (`Run`). It proves
  what holds in every reachable state and what repeated messages do.

All `f64` values are modelled as `real`. Integer widths play no part: the
replica stack becomes a `nat`, since every pushed value is 0 and is never
read.

Because a button press also advances a frame, the velocity after a press
includes that frame's damping. One X impulse from the start gives (0.1745329255 + 0.8726646275) ×
0.9955, not the undamped sum (`UpdateAccelerates`). An impulse, a reversal
and a second impulse cancel exactly only in the message effects themselves
(`AccelerateReverseCancels`).

## Model

| member | source | states |
|---|---|---|
| Geometry.Project | src/main.rs:253-258 | A vertex is drawn at (x + 300, y + 300); the centre 300 is half the 600-unit view box |
| Geometry.ProjectDropsOnlyDepth | src/main.rs:253-258 | Two points project to the same place exactly when their x and y agree: depth is ignored and nothing else is lost |
| Geometry.Corner | src/main.rs:73-118 | Corner i of the cube, with bits 0, 1, 2 of i giving the signs of x, y, z, lies at squared distance 30000 from the origin |
| Geometry.CubeEdgeLength | src/main.rs:120-134 | Two corners whose indices differ in one bit are 200 apart |
| Rotation.RotateX | src/main.rs:206-211 | The X step keeps x, and at angle 0 it is the identity when cos 0 = 1 and sin 0 = 0 |
| Rotation.RotateY | src/main.rs:213-218 | The Y step keeps y, and at angle 0 it is the identity when cos 0 = 1 and sin 0 = 0; RotateAboutYOnly states that it turns (x, z) to (x cos θ − z sin θ, z cos θ + x sin θ) |
| Rotation.RotateZ | src/main.rs:220-225 | The Z step keeps z, and at angle 0 it is the identity when cos 0 = 1 and sin 0 = 0; RotateAboutZOnly states that it turns (x, y) to (x cos θ − y sin θ, y cos θ + x sin θ) |
| Rotation.RotateInPlane | src/main.rs:230-235 | The planar rotation (a1 cos θ − a2 sin θ, a2 cos θ + a1 sin θ); its contract is stated by RotateInPlaneKeepsNorm (keeps a1² + a2²), RotateInPlaneInverse (the opposite angle undoes it) and RotateInPlaneLinear (commutes with differences) |
| Rotation.PerFrame | src/main.rs:200-204 | The angle turned in one frame is the velocity divided by the 200 Hz frame rate, on each axis; RotateAboutXOnly, RotateAboutYOnly and RotateAboutZOnly state it, a frame at velocity v about one axis turning by +v/200 |
| Rotation.Rotate | src/main.rs:199-228 | A zero angular velocity maps every vertex to itself when cos 0 = 1 and sin 0 = 0 |
| Rotation.RotateAboutXOnly | src/main.rs:199-235 | With no Y or Z velocity a frame keeps x and rotates (y, z) by velocity/200 |
| Rotation.RotateAboutYOnly | src/main.rs:199-235 | With no X or Z velocity a frame keeps y and rotates (x, z) by +ya/200 |
| Rotation.RotateAboutZOnly | src/main.rs:199-235 | With no X or Y velocity a frame keeps z and rotates (x, y) by +za/200 |
| Rotation.RotateInPlaneKeepsNorm | src/main.rs:230-235 | A planar rotation keeps a1² + a2² when sin² + cos² = 1 |
| Rotation.RotateInPlaneInverse | src/main.rs:230-235 | Rotating by an angle and then by its opposite restores the pair, given sin² + cos² = 1 and the parity of sin and cos |
| Rotation.RotateInPlaneLinear | src/main.rs:230-235 | A planar rotation of a difference is the difference of the rotations |
| Rotation.RotateKeepsNorm | src/main.rs:199-235 | One frame keeps every vertex's distance from the origin |
| Rotation.RotateLinear | src/main.rs:199-235 | One frame commutes with taking differences of points |
| Rotation.RotateKeepsDistance | src/main.rs:199-235 | One frame keeps the distance between any two points |
| Rotation.UnrotateRotate | src/main.rs:199-235 | Negated angles applied in reverse axis order (Z, Y, X) undo one frame |
| Rotation.RotateUnrotate | src/main.rs:199-235 | One frame undoes the reversed-order kernel, so each frame is a bijection |
| Engine.Create | src/main.rs:76-148 | Initial state: the 8 corners in binary order and 12 distinct cube edges, which are all the cube's edges, every index below 8; velocity 0.1745329255 on each axis; direction set; multiplier 1; no replicas |
| Engine.Effect | src/main.rs:166-196 | A message's effect never touches vertices or edges; Click changes nothing; each field changes only under its own messages; the multiplier stays positive |
| Engine.Accelerate | src/main.rs:172-186 | One impulse adds AccelerateBy × multiplier to a component when the direction flag is set and subtracts it when cleared; stated by UpdateAccelerates and AccelerateReverseCancels |
| Engine.Damp | src/main.rs:243-247 | Each velocity component is multiplied by DampenPercent once per frame; stated by DampShrinks (never grows or flips, strictly shrinks a non-zero component) and ClicksDamp (n frames scale by DampenPercent^n) |
| Engine.RotateAll | src/main.rs:237-241 | Every vertex is replaced by its image under one frame at the current velocity, count unchanged; stated by Update's per-vertex ensures |
| Engine.DampShrinks | src/main.rs:243-247 | Damping never grows a velocity component or flips its sign, and it strictly shrinks a non-zero one |
| Engine.Update | src/main.rs:164-250 | For every message: vertex count and edges are kept; vertex i becomes vertex i rotated under the post-effect, pre-damping velocity; the invariant (8 vertices, 12 in-range edges, positive multiplier) is preserved |
| Engine.UpdateAccelerates | src/main.rs:172-247 | RotX, RotY or RotZ adds ±AccelerateBy × multiplier to its own component (+ when the direction flag is set), then damps all three; flag, multiplier and replica count are unchanged |
| Engine.NonAcceleratingMessagesAdvanceLikeClick | src/main.rs:166-247 | Any non-accelerating message moves the vertices and damps the velocity exactly as a Click does |
| Engine.RotRevTwice | src/main.rs:170-247 | RotRev flips the direction flag and twice restores it; the pair keeps multiplier and replica count and leaves the velocity damped twice |
| Engine.VelocityScalingInverse | src/main.rs:167-168 | VelocityIncrement and VelocityDecrement undo each other in either order, both as effects and as full updates of the multiplier |
| Engine.ReplicaPushPop | src/main.rs:188-193 | AddBox adds one replica; RemoveBox removes one when there is one and is a no-op at zero; a push then a pop is the identity |
| Engine.AccelerateReverseCancels | src/main.rs:170-186 | An impulse, a reversal and the same impulse again leave the velocity as it was, with the flag flipped |
| Engine.StillShapeStaysStill | src/main.rs:195-247 | With zero velocity and cos 0 = 1, sin 0 = 0, a Click leaves the whole state unchanged |
| Trace.Run | src/main.rs:164-250 | Handling any sequence of messages keeps the vertex count and the edges, and preserves the state invariant |
| Trace.RunAppend | src/main.rs:164-250 | Handling two batches one after the other equals handling their concatenation |
| Trace.ReachableIsValid | src/main.rs:76-250 | Every reachable state has 8 vertices, the created 12 edges with every index in range, and a positive multiplier |
| Trace.UpdateKeepsCongruence | src/main.rs:237-241 | Given sin² + cos² = 1, one update keeps the vertices congruent to the initial cube about the origin |
| Trace.RunKeepsCongruence | src/main.rs:237-241 | Given sin² + cos² = 1, any message sequence keeps the vertices congruent to the initial cube |
| Trace.ReachableCubeIsRigid | src/main.rs:77-241 | Given sin² + cos² = 1, in every reachable state each vertex is at squared distance 30000 from the origin and every edge has length 200 |
| Trace.ClicksDamp | src/main.rs:243-247 | After n Clicks each velocity component equals its starting value × DampenPercent^n; flag, multiplier and replica count are unchanged |
| Trace.DampingPowerBounds | src/main.rs:63-67 | DampenPercent lies strictly between 0 and 1; its n-th power lies in (0, 1] and is below 1 for n > 0 |
| Trace.ClicksNeverSpeedUp | src/main.rs:243-247 | Under Clicks alone no velocity component ever grows in magnitude |
| Trace.InitialDecay | src/main.rs:139-247 | From the initial state, 200 Clicks leave each component at 0.1745329255 × 0.9955^200 |
| Trace.DoubledImpulseFromStart | src/main.rs:145-181 | Two doublings from the start give multiplier 4, and a RotY then adds 3.49065851 to ya before that frame's damping |
| Trace.UpdateDoublesMultiplier | src/main.rs:167-168 | One message doubles the multiplier once (VelocityIncrement), halves it once (VelocityDecrement), or leaves it alone |
| Trace.MultiplierIsNetDoubling | src/main.rs:167-168 | After any message sequence the multiplier is the start value doubled (increments − decrements) times, so it depends only on that net count |
| Trace.DirectionIsReversalParity | src/main.rs:170 | After any message sequence the direction flag is the start flag flipped once per RotRev |
| Trace.ReplicaRuns | src/main.rs:188-193 | n AddBox messages add exactly n replicas; n RemoveBox messages remove n of them but never go below zero |
| Trace.ReplicaLifecycle | src/main.rs:188-193 | From the start, five additions then seven removals leave no replicas, and a further removal keeps the count at zero |

## Left out

- The view adapter is not modelled beyond `Project`. That covers the SVG
  lines and labelled points, the replica views and the buttons
  (src/main.rs:260-358). It is UI construction for the host framework.
  The edge-index invariant matters to it, because it indexes the projected
  points by edge ends (src/main.rs:308-309).
- `changed` and `main` are not modelled (src/main.rs:150-152, 362-364).
  They are framework glue.
- The timer in `rendered` is not modelled (src/main.rs:154-162). It is a
  host interval; a tick appears only as an explicit `Click` message.
- The `Axis` enum is not modelled, because it is never used
  (src/main.rs:51-56).
- The `Spawn` value is not modelled. It is always 0 and never read, so the
  replica stack is a count.
- IEEE-754 rounding, overflow of the unbounded multiplier, and the slow
  deformation of the cube from rounding are not modelled. Every `f64` is a
  `real`. So `ReachableCubeIsRigid` describes exact arithmetic: any drift
  the running program shows comes only from floating-point error.
- Trace.ReachableIsValid: the positive multiplier holds only over exact
  reals. In `f64`, halving underflows: 1075 `VelocityDecrement` presses from
  1.0 leave the multiplier at exactly 0.0 (src/main.rs:168), because 2^-1075
  rounds to zero. From then on `VelocityIncrement` keeps it at 0 and RotX, RotY
  and RotZ add nothing (src/main.rs:172-186). The same caveat applies to the
  invariant as stated by `Engine.Valid`, `Engine.Effect`, `Engine.Update` and
  `Trace.Run`.
- Engine.VelocityScalingInverse: doubling and halving cancel only over exact
  reals. In `f64`, a halving that underflows loses the value, so from 2^-1074
  a decrement followed by an increment gives 0, not 2^-1074. Overflow of a
  doubled multiplier to infinity is likewise not modelled, and neither is
  `Trace.MultiplierIsNetDoubling`'s dependence on it.
- The `bool` that `update` returns is not modelled (src/main.rs:249). It is
  the host framework's re-render signal and is always `true`, so every
  message re-renders the view.
- The values of `sin` and `cos` are not modelled. They are abstract
  parameters. The lemmas that need trigonometric facts take them as
  preconditions: `ZeroAngle`, `Pythagorean` and `Parity`.
