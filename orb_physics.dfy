/**
  The body simulator of the orbital background (src/FloatingOrbs.js): three point
  masses under a softened pairwise attraction, a soft push back from the viewport
  edges, and a kick-drift-kick step with damping and a speed cap.

  Numbers are `real`. `Math.sqrt`, `Math.sin` and `Math.cos` are passed in as
  function values; the only facts used about them are IsSqrt and IsTrig.
*/
module OrbPhysics {

  const G: real := 500.0
  const Mass: real := 1.0
  const Softening: real := 120.0
  const Damping: real := 0.9999
  const BoundaryForce: real := 0.3
  const BoundaryMargin: real := 80.0
  const DT: real := 0.5
  const MaxSpeed: real := 3.5

  const Pi: real := 3.141592653589793
  const RadiusFactor: real := 0.22
  const OrbitalFactor: real := 0.85
  const JitterFactor: real := 0.15

  datatype Vec = Vec(x: real, y: real)

  /** One simulated orb: position in viewport pixels and velocity. */
  datatype Body = Body(x: real, y: real, vx: real, vy: real)

  const Zero: Vec := Vec(0.0, 0.0)

  function Add(a: Vec, b: Vec): Vec { Vec(a.x + b.x, a.y + b.y) }
  function Neg(a: Vec): Vec { Vec(-a.x, -a.y) }
  function SpeedSq(v: Vec): real { v.x * v.x + v.y * v.y }
  /** Zero exactly when the two vectors are parallel. */
  function Cross(a: Vec, b: Vec): real { a.x * b.y - a.y * b.x }
  function Dot(a: Vec, b: Vec): real { a.x * b.x + a.y * b.y }
  function Position(b: Body): Vec { Vec(b.x, b.y) }
  function Velocity(b: Body): Vec { Vec(b.vx, b.vy) }
  function Offset(a: Body, b: Body): Vec { Vec(b.x - a.x, b.y - a.y) }
  function MinReal(a: real, b: real): real { if a <= b then a else b }

  /** What the model assumes of `Math.sqrt` on non-negative arguments. */
  ghost predicate IsSqrt(sqrt: real -> real) {
    forall q: real :: 0.0 <= q ==> 0.0 <= sqrt(q) && sqrt(q) * sqrt(q) == q
  }

  /** What the model assumes of `Math.sin` and `Math.cos`. */
  ghost predicate IsTrig(sin: real -> real, cos: real -> real) {
    forall a: real :: sin(a) * sin(a) + cos(a) * cos(a) == 1.0
  }

  lemma SqrtPositive(sqrt: real -> real, q: real)
    requires IsSqrt(sqrt) && 0.0 < q
    ensures 0.0 < sqrt(q)
  {
    assert sqrt(q) * sqrt(q) == q;
  }

  /** Square root is monotone: a farther orb has a larger distance. */
  lemma SqrtMonotone(sqrt: real -> real, p: real, q: real)
    requires IsSqrt(sqrt) && 0.0 <= p <= q
    ensures sqrt(p) <= sqrt(q)
  {
    var a, b := sqrt(p), sqrt(q);
    assert 0.0 <= a && a * a == p;
    assert 0.0 <= b && b * b == q;
    SquareStrictlyMonotone(b, a);
  }

  lemma SquareStrictlyMonotone(a: real, b: real)
    requires 0.0 <= a && 0.0 <= b
    ensures a < b ==> a * a < b * b
  {
    if a < b {
      var aa, ab, bb := a * a, a * b, b * b;
      assert aa <= ab;
      assert ab < bb;
    }
  }

  // ---------------------------------------------------------------------------
  // clampSpeed (src/FloatingOrbs.js:31-37)
  // ---------------------------------------------------------------------------

  lemma SpeedVsLimit(q: real, s: real)
    requires 0.0 <= s && s * s == q
    ensures s > MaxSpeed <==> q > MaxSpeed * MaxSpeed
  {
    assert MaxSpeed * MaxSpeed == 12.25;
    if s > MaxSpeed {
      assert s * s > MaxSpeed * s > MaxSpeed * MaxSpeed;
    } else {
      assert s * s <= 3.5 * s;
    }
  }

  lemma RescaledToLimit(v: Vec, s: real)
    requires s > MaxSpeed && s * s == SpeedSq(v)
    ensures var r := Vec(v.x / s * MaxSpeed, v.y / s * MaxSpeed);
      SpeedSq(r) == MaxSpeed * MaxSpeed && Cross(r, v) == 0.0 && Dot(r, v) > 0.0
  {
    var k := MaxSpeed / s;
    var r := Vec(v.x / s * MaxSpeed, v.y / s * MaxSpeed);
    assert r.x == k * v.x && r.y == k * v.y;
    assert k * s == MaxSpeed;
    calc {
      SpeedSq(r);
      (k * v.x) * (k * v.x) + (k * v.y) * (k * v.y);
      k * k * SpeedSq(v);
      (k * s) * (k * s);
    }
    assert Dot(r, v) == k * SpeedSq(v);
    assert SpeedSq(v) > 0.0 by { assert s * s > MaxSpeed * MaxSpeed by { SpeedVsLimit(s * s, s); } }
  }

  /**
    A velocity within the speed limit is returned unchanged; a faster one is
    rescaled to exactly the limit, keeping its direction (parallel, same sense).
  */
  function ClampSpeed(v: Vec, sqrt: real -> real): (r: Vec)
    requires IsSqrt(sqrt)
    ensures SpeedSq(v) <= MaxSpeed * MaxSpeed ==> r == v
    ensures SpeedSq(v) > MaxSpeed * MaxSpeed ==>
      SpeedSq(r) == MaxSpeed * MaxSpeed && Cross(r, v) == 0.0 && Dot(r, v) > 0.0
    ensures SpeedSq(r) <= MaxSpeed * MaxSpeed
  {
    var speed := sqrt(SpeedSq(v));
    SpeedVsLimit(SpeedSq(v), speed);
    if speed > MaxSpeed then
      RescaledToLimit(v, speed);
      Vec(v.x / speed * MaxSpeed, v.y / speed * MaxSpeed)
    else
      v
  }

  // ---------------------------------------------------------------------------
  // computeAccelerations (src/FloatingOrbs.js:39-62)
  // ---------------------------------------------------------------------------

  lemma SoftenedDenominator(sqrt: real -> real, dx: real, dy: real)
    requires IsSqrt(sqrt)
    ensures var softSq := dx * dx + dy * dy + Softening * Softening;
      0.0 < softSq && 0.0 < softSq * sqrt(softSq)
  {
    var xx, yy := dx * dx, dy * dy;
    assert 0.0 <= xx && 0.0 <= yy;
    var softSq := xx + yy + Softening * Softening;
    assert 0.0 < softSq;
    SqrtPositive(sqrt, softSq);
    var root := sqrt(softSq);
    var prod := softSq * root;
    assert 0.0 < prod;
  }

  /** The magnitude factor `G·m / softSq^(3/2)` of a pair; always positive. */
  function PairStrength(a: Body, b: Body, sqrt: real -> real): (inv: real)
    requires IsSqrt(sqrt)
    ensures 0.0 < inv
  {
    var dx := b.x - a.x;
    var dy := b.y - a.y;
    var distSq := dx * dx + dy * dy;
    var softSq := distSq + Softening * Softening;
    SoftenedDenominator(sqrt, dx, dy);
    (G * Mass) / (softSq * sqrt(softSq))
  }

  /** The softened attraction that body `a` feels towards body `b`. */
  function PairForce(a: Body, b: Body, sqrt: real -> real): Vec
    requires IsSqrt(sqrt)
  {
    var inv := PairStrength(a, b, sqrt);
    Vec(inv * (b.x - a.x), inv * (b.y - a.y))
  }

  /** A positive multiple of a vector is parallel to it and not against it. */
  lemma PositiveMultipleParallel(k: real, d: Vec)
    requires 0.0 < k
    ensures Cross(Vec(k * d.x, k * d.y), d) == 0.0
    ensures Dot(Vec(k * d.x, k * d.y), d) >= 0.0
  {
    var xx, yy, xy := d.x * d.x, d.y * d.y, d.x * d.y;
    assert (k * d.x) * d.y == k * xy && (k * d.y) * d.x == k * xy;
    assert (k * d.x) * d.x == k * xx && (k * d.y) * d.y == k * yy;
    assert 0.0 <= xx + yy;
    assert k * xx + k * yy == k * (xx + yy);
  }

  /** The pair force lies on the line joining the bodies and points from `a` towards `b`. */
  lemma PairForceAttracts(a: Body, b: Body, sqrt: real -> real)
    requires IsSqrt(sqrt)
    ensures Cross(PairForce(a, b, sqrt), Offset(a, b)) == 0.0
    ensures Dot(PairForce(a, b, sqrt), Offset(a, b)) >= 0.0
  {
    PositiveMultipleParallel(PairStrength(a, b, sqrt), Offset(a, b));
  }

  /** Newton's third law: the two bodies of a pair feel opposite forces. */
  lemma {:induction false} PairForceAntisymmetric(a: Body, b: Body, sqrt: real -> real)
    requires IsSqrt(sqrt)
    ensures PairForce(b, a, sqrt) == Neg(PairForce(a, b, sqrt))
  {
    var dx, dy := b.x - a.x, b.y - a.y;
    var ex, ey := a.x - b.x, a.y - b.y;
    assert ex * ex == dx * dx && ey * ey == dy * dy by {
      assert ex == -dx && ey == -dy;
    }
  }

  /** Sum of the pair forces on body `k` from bodies `0 .. m-1` other than `k`. */
  function PartialGravity(bs: seq<Body>, k: nat, m: nat, sqrt: real -> real): Vec
    requires IsSqrt(sqrt) && k < |bs| && m <= |bs|
  {
    if m == 0 then Zero
    else if m - 1 == k then PartialGravity(bs, k, m - 1, sqrt)
    else Add(PartialGravity(bs, k, m - 1, sqrt), PairForce(bs[k], bs[m - 1], sqrt))
  }

  /** The total softened attraction on body `k` from every other body. */
  function Gravity(bs: seq<Body>, k: nat, sqrt: real -> real): Vec
    requires IsSqrt(sqrt) && k < |bs|
  {
    PartialGravity(bs, k, |bs|, sqrt)
  }

  /**
    The soft wall on one axis: nothing inside [margin, size - margin], otherwise
    a push back towards the interior proportional to how far the coordinate is
    past the margin. When the viewport is narrower than two margins the low
    edge is checked first.
  */
  function BoundaryPush(p: real, size: real): (r: real)
    ensures BoundaryMargin <= p <= size - BoundaryMargin ==> r == 0.0
    ensures p < BoundaryMargin ==> 0.0 < r && r == BoundaryForce * (BoundaryMargin - p)
    ensures BoundaryMargin <= p && size - BoundaryMargin < p ==>
      r < 0.0 && r == -BoundaryForce * (p - (size - BoundaryMargin))
  {
    if p < BoundaryMargin then BoundaryForce * (BoundaryMargin - p)
    else if p > size - BoundaryMargin then -(BoundaryForce * (p - (size - BoundaryMargin)))
    else 0.0
  }

  function Boundary(b: Body, w: real, h: real): Vec {
    Vec(BoundaryPush(b.x, w), BoundaryPush(b.y, h))
  }

  ghost predicate Inside(b: Body, w: real, h: real) {
    BoundaryMargin <= b.x <= w - BoundaryMargin && BoundaryMargin <= b.y <= h - BoundaryMargin
  }

  /** The acceleration of every body: gravity from the others plus the wall push. */
  function Accelerations(bs: seq<Body>, w: real, h: real, sqrt: real -> real): (acc: seq<Vec>)
    requires IsSqrt(sqrt)
    ensures |acc| == |bs|
  {
    seq(|bs|, k requires 0 <= k < |bs| => Add(Gravity(bs, k, sqrt), Boundary(bs[k], w, h)))
  }

  /** The accumulator once rows `0 .. i-1` of the pair loop are done. */
  ghost function RowsDone(bs: seq<Body>, i: nat, sqrt: real -> real): (acc: seq<Vec>)
    requires IsSqrt(sqrt) && i <= |bs|
  {
    seq(|bs|, k requires 0 <= k < |bs| =>
      if k < i then Gravity(bs, k, sqrt) else PartialGravity(bs, k, i, sqrt))
  }

  /** The accumulator in row `i` once the pairs (i, i+1) .. (i, j-1) are done. */
  ghost function PairsDone(bs: seq<Body>, i: nat, j: nat, sqrt: real -> real): (acc: seq<Vec>)
    requires IsSqrt(sqrt) && i < j <= |bs|
  {
    seq(|bs|, k requires 0 <= k < |bs| =>
      if k < i then Gravity(bs, k, sqrt)
      else if k == i then PartialGravity(bs, i, j, sqrt)
      else if k < j then PartialGravity(bs, k, i + 1, sqrt)
      else PartialGravity(bs, k, i, sqrt))
  }

  lemma RowBoundaries(bs: seq<Body>, i: nat, sqrt: real -> real)
    requires IsSqrt(sqrt) && i < |bs|
    ensures PairsDone(bs, i, i + 1, sqrt) == RowsDone(bs, i, sqrt)
    ensures PairsDone(bs, i, |bs|, sqrt) == RowsDone(bs, i + 1, sqrt)
  {
    assert PartialGravity(bs, i, i + 1, sqrt) == PartialGravity(bs, i, i, sqrt);
  }

  /** Visiting pair (i, j) adds its force to body i and subtracts it from body j. */
  lemma PairVisit(bs: seq<Body>, i: nat, j: nat, sqrt: real -> real)
    requires IsSqrt(sqrt) && i < j < |bs|
    ensures var before, f := PairsDone(bs, i, j, sqrt), PairForce(bs[i], bs[j], sqrt);
      PairsDone(bs, i, j + 1, sqrt)
        == before[i := Vec(before[i].x + f.x, before[i].y + f.y)][j := Vec(before[j].x - f.x, before[j].y - f.y)]
  {
    var before, after := PairsDone(bs, i, j, sqrt), PairsDone(bs, i, j + 1, sqrt);
    var f := PairForce(bs[i], bs[j], sqrt);
    PairForceAntisymmetric(bs[i], bs[j], sqrt);
    assert before[i] == PartialGravity(bs, i, j, sqrt);
    assert after[i] == PartialGravity(bs, i, j + 1, sqrt) == Add(before[i], f);
    assert after[j] == PartialGravity(bs, j, i + 1, sqrt) == Add(before[j], Neg(f));
    forall k | 0 <= k < |bs| && k != i && k != j
      ensures after[k] == before[k]
    {
    }
  }

  /**
    The first loop of computeAccelerations: each unordered pair is visited once,
    adding the force to the first body and subtracting it from the second.
  */
  method AccumulatePairForces(bs: seq<Body>, sqrt: real -> real) returns (acc: seq<Vec>)
    requires IsSqrt(sqrt)
    ensures |acc| == |bs|
    ensures forall k :: 0 <= k < |bs| ==> acc[k] == Gravity(bs, k, sqrt)
  {
    var n := |bs|;
    acc := seq(n, _ => Zero);
    for i := 0 to n
      invariant acc == RowsDone(bs, i, sqrt)
    {
      RowBoundaries(bs, i, sqrt);
      for j := i + 1 to n
        invariant acc == PairsDone(bs, i, j, sqrt)
      {
        var f := PairForce(bs[i], bs[j], sqrt);
        PairVisit(bs, i, j, sqrt);
        acc := acc[i := Vec(acc[i].x + f.x, acc[i].y + f.y)];
        acc := acc[j := Vec(acc[j].x - f.x, acc[j].y - f.y)];
      }
    }
  }

  /** computeAccelerations: the pair forces, then the wall push added body by body. */
  method ComputeAccelerations(bs: seq<Body>, w: real, h: real, sqrt: real -> real)
    returns (acc: seq<Vec>)
    requires IsSqrt(sqrt)
    ensures acc == Accelerations(bs, w, h, sqrt)
  {
    var n := |bs|;
    acc := AccumulatePairForces(bs, sqrt);
    for i := 0 to n
      invariant |acc| == n
      invariant forall k :: 0 <= k < i ==> acc[k] == Add(Gravity(bs, k, sqrt), Boundary(bs[k], w, h))
      invariant forall k :: i <= k < n ==> acc[k] == Gravity(bs, k, sqrt)
    {
      acc := acc[i := Add(acc[i], Boundary(bs[i], w, h))];
    }
  }

  /** Velocities summed left to right, as `reduce((s, b) => s + b.v, 0)` does. */
  function VelocitySum(bs: seq<Body>): Vec {
    if |bs| == 0 then Zero else Add(VelocitySum(bs[..|bs| - 1]), Velocity(bs[|bs| - 1]))
  }

  /** The pair terms cancel: the three gravity vectors add up to zero. */
  lemma {:induction false} NetGravityZero(bs: seq<Body>, sqrt: real -> real)
    requires IsSqrt(sqrt) && |bs| == 3
    ensures Add(Add(Gravity(bs, 0, sqrt), Gravity(bs, 1, sqrt)), Gravity(bs, 2, sqrt)) == Zero
  {
    var f01, f02, f12 := PairForce(bs[0], bs[1], sqrt), PairForce(bs[0], bs[2], sqrt), PairForce(bs[1], bs[2], sqrt);
    PairForceAntisymmetric(bs[0], bs[1], sqrt);
    PairForceAntisymmetric(bs[0], bs[2], sqrt);
    PairForceAntisymmetric(bs[1], bs[2], sqrt);
    assert PartialGravity(bs, 0, 1, sqrt) == PartialGravity(bs, 0, 0, sqrt) == Zero;
    assert PartialGravity(bs, 0, 2, sqrt) == Add(Zero, f01);
    assert Gravity(bs, 0, sqrt) == Add(Add(Zero, f01), f02);
    assert PartialGravity(bs, 1, 1, sqrt) == Add(PartialGravity(bs, 1, 0, sqrt), Neg(f01));
    assert PartialGravity(bs, 1, 2, sqrt) == Add(Zero, Neg(f01));
    assert Gravity(bs, 1, sqrt) == Add(Add(Zero, Neg(f01)), f12);
    assert PartialGravity(bs, 2, 1, sqrt) == Add(PartialGravity(bs, 2, 0, sqrt), Neg(f02));
    assert PartialGravity(bs, 2, 2, sqrt) == Add(Add(Zero, Neg(f02)), Neg(f12));
    assert Gravity(bs, 2, sqrt) == Add(Add(Zero, Neg(f02)), Neg(f12));
  }

  lemma VelocitySumOfThree(bs: seq<Body>)
    requires |bs| == 3
    ensures VelocitySum(bs) == Add(Add(Add(Zero, Velocity(bs[0])), Velocity(bs[1])), Velocity(bs[2]))
  {
    var b2, b1, b0 := bs[..2], bs[..2][..1], bs[..2][..1][..0];
    assert b2[1] == bs[1] && b1[0] == bs[0] && b0 == [];
    assert VelocitySum(b1) == Add(VelocitySum(b0), Velocity(bs[0]));
    assert VelocitySum(b2) == Add(VelocitySum(b1), Velocity(bs[1]));
  }

  // ---------------------------------------------------------------------------
  // One physics frame (src/FloatingOrbs.js:199-217)
  // ---------------------------------------------------------------------------

  /** Half a velocity kick: v += a * DT / 2 for every body. */
  function HalfKick(bs: seq<Body>, acc: seq<Vec>): (r: seq<Body>)
    requires |acc| == |bs|
    ensures |r| == |bs|
  {
    seq(|bs|, i requires 0 <= i < |bs| =>
      bs[i].(vx := bs[i].vx + acc[i].x * DT * 0.5, vy := bs[i].vy + acc[i].y * DT * 0.5))
  }

  /** The drift: every position advances by DT times its velocity. */
  function Drift(bs: seq<Body>): (r: seq<Body>)
    ensures |r| == |bs|
  {
    seq(|bs|, i requires 0 <= i < |bs| =>
      bs[i].(x := bs[i].x + bs[i].vx * DT, y := bs[i].y + bs[i].vy * DT))
  }

  /**
    The end of the frame for one body: the second half-kick, damping, then the
    speed cap. Its position is not touched and its speed ends within the cap.
  */
  function Settle(b: Body, a: Vec, sqrt: real -> real): (r: Body)
    requires IsSqrt(sqrt)
    ensures r.x == b.x && r.y == b.y
    ensures SpeedSq(Velocity(r)) <= MaxSpeed * MaxSpeed
  {
    var vx := (b.vx + a.x * DT * 0.5) * Damping;
    var vy := (b.vy + a.y * DT * 0.5) * Damping;
    var v := ClampSpeed(Vec(vx, vy), sqrt);
    b.(vx := v.x, vy := v.y)
  }

  /**
    One physics frame: kick, drift, recompute the accelerations at the new
    positions, settle. Every body ends the frame within the speed limit.
  */
  function PhysicsStep(bs: seq<Body>, w: real, h: real, sqrt: real -> real): (r: seq<Body>)
    requires IsSqrt(sqrt)
    ensures |r| == |bs|
    ensures forall i :: 0 <= i < |r| ==> SpeedSq(Velocity(r[i])) <= MaxSpeed * MaxSpeed
  {
    var moved := Drift(HalfKick(bs, Accelerations(bs, w, h, sqrt)));
    var acc := Accelerations(moved, w, h, sqrt);
    seq(|bs|, i requires 0 <= i < |bs| => Settle(moved[i], acc[i], sqrt))
  }

  /**
    While all three bodies are inside the margins no wall pushes, so a kick
    leaves the total velocity (the momentum, masses being equal) unchanged.
  */
  lemma {:induction false} KickKeepsMomentumInside(bs: seq<Body>, w: real, h: real, sqrt: real -> real)
    requires IsSqrt(sqrt) && |bs| == 3
    requires forall i :: 0 <= i < 3 ==> Inside(bs[i], w, h)
    ensures VelocitySum(HalfKick(bs, Accelerations(bs, w, h, sqrt))) == VelocitySum(bs)
  {
    var acc := Accelerations(bs, w, h, sqrt);
    var kicked := HalfKick(bs, acc);
    NetGravityZero(bs, sqrt);
    forall i | 0 <= i < 3 ensures acc[i] == Gravity(bs, i, sqrt) {
      assert Boundary(bs[i], w, h) == Zero;
    }
    VelocitySumOfThree(bs);
    VelocitySumOfThree(kicked);
  }

  // ---------------------------------------------------------------------------
  // initBodies (src/FloatingOrbs.js:64-89)
  // ---------------------------------------------------------------------------

  function InitRadius(w: real, h: real): real {
    MinReal(w, h) * RadiusFactor
  }

  ghost predicate OnCircle(p: Vec, cx: real, cy: real, r: real) {
    SpeedSq(Vec(p.x - cx, p.y - cy)) == r * r
  }

  lemma CircleIdentity(r: real, c: real, s: real)
    requires s * s + c * c == 1.0
    ensures (r * c) * (r * c) + (r * s) * (r * s) == r * r
  {
    var rr, cc, ss := r * r, c * c, s * s;
    assert (r * c) * (r * c) == rr * cc;
    assert (r * s) * (r * s) == rr * ss;
    assert rr * cc + rr * ss == rr * (cc + ss);
  }

  /**
    The circular-orbit speed for the triangle's side length `radius * sqrt(3)`,
    scaled by 0.85.
  */
  function OrbitalSpeed(radius: real, sqrt: real -> real): (speed: real)
    requires 0.0 < radius && IsSqrt(sqrt)
    ensures 0.0 < speed
  {
    SqrtPositive(sqrt, 3.0);
    var sideLength := radius * sqrt(3.0);
    assert 0.0 < sideLength;
    SqrtPositive(sqrt, (G * Mass) / sideLength);
    sqrt((G * Mass) / sideLength) * OrbitalFactor
  }

  /** The point at `angle` on the circle of `radius` around (cx, cy). */
  function CirclePoint(cx: real, cy: real, radius: real, angle: real,
                       sin: real -> real, cos: real -> real): (p: Vec)
    requires IsTrig(sin, cos)
    ensures OnCircle(p, cx, cy, radius)
  {
    CircleIdentity(radius, cos(angle), sin(angle));
    Vec(cx + radius * cos(angle), cy + radius * sin(angle))
  }

  /**
    The offset `d` turned a quarter anticlockwise and divided by its length:
    the direction of circular motion about the centre. Scaled back by that
    length it is exactly the turned offset. A zero offset, which no seeded body
    has, gives the zero vector.
  */
  function Tangent(d: Vec, sqrt: real -> real): (t: Vec)
    requires IsSqrt(sqrt)
    ensures Dot(t, d) == 0.0
    ensures var dist := sqrt(SpeedSq(d));
      dist != 0.0 ==> t.x * dist == -d.y && t.y * dist == d.x
  {
    var dist := sqrt(SpeedSq(d));
    if dist == 0.0 then Zero
    else
      var tx, ty := -d.y / dist, d.x / dist;
      assert tx * dist == -d.y && ty * dist == d.x;
      assert (tx * d.x + ty * d.y) * dist == tx * dist * d.x + ty * dist * d.y;
      Vec(tx, ty)
  }

  /**
    One vertex of the initial triangle, `radius` from the centre at `angle`,
    moving along the tangent at `orbitalSpeed` plus the jitter drawn by `rx`
    and `ry`.
  */
  function SeedBody(cx: real, cy: real, radius: real, angle: real, orbitalSpeed: real,
                    jitterMag: real, rx: real, ry: real,
                    sqrt: real -> real, sin: real -> real, cos: real -> real): (b: Body)
    requires 0.0 < radius && IsSqrt(sqrt) && IsTrig(sin, cos)
    ensures OnCircle(Position(b), cx, cy, radius)
  {
    var p := CirclePoint(cx, cy, radius, angle, sin, cos);
    var t := Tangent(Vec(p.x - cx, p.y - cy), sqrt);
    Body(p.x, p.y, t.x * orbitalSpeed + (rx - 0.5) * jitterMag, t.y * orbitalSpeed + (ry - 0.5) * jitterMag)
  }

  /**
    Seeds the three bodies on an equilateral triangle of radius 0.22 * min(w, h)
    around the viewport centre, moving tangentially at a circular-orbit speed
    plus jitter, then subtracts the mean velocity so that it is exactly zero.
    `rand` holds the seven `Math.random()` draws in the order the source makes
    them: the base angle, then the x and y jitter of each body in turn.
  */
  method InitBodies(w: real, h: real, rand: seq<real>,
                    sqrt: real -> real, sin: real -> real, cos: real -> real)
    returns (bs: seq<Body>)
    requires 0.0 < w && 0.0 < h && |rand| == 7
    requires IsSqrt(sqrt) && IsTrig(sin, cos)
    ensures |bs| == 3
    ensures VelocitySum(bs) == Zero
    ensures forall i :: 0 <= i < 3 ==> OnCircle(Position(bs[i]), w / 2.0, h / 2.0, InitRadius(w, h))
  {
    var cx, cy := w / 2.0, h / 2.0;
    var radius := MinReal(w, h) * RadiusFactor;
    var baseAngle := rand[0] * Pi * 2.0;
    var orbitalSpeed := OrbitalSpeed(radius, sqrt);
    var jitterMag := orbitalSpeed * JitterFactor;
    var raw: seq<Body> := [];
    for i := 0 to 3
      invariant |raw| == i
      invariant forall k :: 0 <= k < i ==> OnCircle(Position(raw[k]), cx, cy, radius)
    {
      var angle := baseAngle + (i as real * 2.0 * Pi) / 3.0;
      raw := raw + [SeedBody(cx, cy, radius, angle, orbitalSpeed, jitterMag,
                             rand[1 + 2 * i], rand[2 + 2 * i], sqrt, sin, cos)];
    }
    bs := CancelMomentum(raw);
  }

  /**
    The momentum correction of initBodies: the mean velocity is subtracted from
    every body in place. Positions are kept, all velocities shift by the same
    vector, and the velocities then sum to exactly zero.
  */
  method CancelMomentum(raw: seq<Body>) returns (bs: seq<Body>)
    requires |raw| == 3
    ensures |bs| == 3
    ensures VelocitySum(bs) == Zero
    ensures forall k :: 0 <= k < 3 ==> Position(bs[k]) == Position(raw[k])
    ensures forall k :: 0 <= k < 3 ==>
      bs[k].vx - raw[k].vx == bs[0].vx - raw[0].vx && bs[k].vy - raw[k].vy == bs[0].vy - raw[0].vy
  {
    var avgVx := (((0.0 + raw[0].vx) + raw[1].vx) + raw[2].vx) / 3.0;
    var avgVy := (((0.0 + raw[0].vy) + raw[1].vy) + raw[2].vy) / 3.0;
    bs := raw;
    for i := 0 to 3
      invariant |bs| == 3
      invariant forall k :: 0 <= k < i ==> bs[k] == raw[k].(vx := raw[k].vx - avgVx, vy := raw[k].vy - avgVy)
      invariant forall k :: i <= k < 3 ==> bs[k] == raw[k]
    {
      bs := bs[i := bs[i].(vx := bs[i].vx - avgVx, vy := bs[i].vy - avgVy)];
    }
    VelocitySumOfThree(bs);
  }
}
