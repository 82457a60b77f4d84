/**
  Shared numeric vocabulary of the playground: two-component vectors over
  `real` (the program's `glam::Vec2` of `f32`), the floating-point library
  calls the program makes but `real` does not have, and the rounding and
  clamping rules of Rust's `f32` that the grid maths relies on.
 */
module Numerics {

  /** A 2-D vector; `f32` components are modelled as exact reals. */
  datatype Vec2 = Vec2(x: real, y: real) {

    function Add(o: Vec2): Vec2 {
      Vec2(x + o.x, y + o.y)
    }

    function Sub(o: Vec2): Vec2 {
      Vec2(x - o.x, y - o.y)
    }

    function Neg(): Vec2 {
      Vec2(-x, -y)
    }

    /** Multiplication by a scalar (`k * v` and `v * k` in glam). */
    function Scale(k: real): Vec2 {
      Vec2(k * x, k * y)
    }

    /** Component-wise product (`v * w` in glam). */
    function Mul(o: Vec2): Vec2 {
      Vec2(x * o.x, y * o.y)
    }

    /** Component-wise quotient (`v / w` in glam). */
    function Div(o: Vec2): Vec2
      requires o.NonZero()
    {
      Vec2(x / o.x, y / o.y)
    }

    /** Both components differ from zero, so the vector can be divided by. */
    predicate NonZero() {
      x != 0.0 && y != 0.0
    }
  }

  const Origin: Vec2 := Vec2(0.0, 0.0)

  /** A size in pixels (`UVec2`, or a non-negative `IVec2`). */
  datatype Size = Size(w: nat, h: nat)

  /** `Vec2::splat`. */
  function Splat(v: real): Vec2 {
    Vec2(v, v)
  }

  /**
    The floating-point library calls of the program, left uninterpreted:
    `f32::cos`, `f32::sin`, `f32::sqrt` (inside `Vec2::distance`) and
    `f32::powf`. Properties that need facts about them take those facts
    as preconditions.
   */
  datatype Libm = Libm(cos: real -> real, sin: real -> real, sqrt: real -> real, powf: (real, real) -> real)

  /** The `f32` constants `PI` and `TAU`, written as their shortest decimals. */
  const PI: real := 3.1415927
  const TAU: real := 6.2831855

  /** The x/y rows of `Mat4::from_rotation_z(angle)` applied to a point. */
  function Rotate(v: Vec2, angle: real, libm: Libm): Vec2 {
    var c := libm.cos(angle);
    var s := libm.sin(angle);
    Vec2(c * v.x - s * v.y, s * v.x + c * v.y)
  }

  /** `cos(0) = 1` and `sin(0) = 0`: all that rotation by zero needs. */
  predicate TrigAtZero(libm: Libm) {
    libm.cos(0.0) == 1.0 && libm.sin(0.0) == 0.0
  }

  /** The identities of cosine and sine at `angle` that make `Rotate` by `-angle` undo `Rotate` by `angle`. */
  predicate TrigIdentitiesAt(libm: Libm, angle: real) {
    && libm.cos(-angle) == libm.cos(angle)
    && libm.sin(-angle) == -libm.sin(angle)
    && libm.cos(angle) * libm.cos(angle) + libm.sin(angle) * libm.sin(angle) == 1.0
  }

  lemma RotateByZero(v: Vec2, libm: Libm)
    requires TrigAtZero(libm)
    ensures Rotate(v, 0.0, libm) == v
  {
  }

  /** Rotation fixes the origin, and rotation by zero fixes every point. */
  lemma RotateOriginOrByZero(v: Vec2, angle: real, libm: Libm)
    ensures v == Origin ==> Rotate(v, angle, libm) == Origin
    ensures angle == 0.0 && TrigAtZero(libm) ==> Rotate(v, angle, libm) == v
  {
  }

  /** Rotation is linear: it commutes with negation. */
  lemma RotateNeg(v: Vec2, angle: real, libm: Libm)
    ensures Rotate(v.Neg(), angle, libm) == Rotate(v, angle, libm).Neg()
  {
    var c := libm.cos(angle);
    var s := libm.sin(angle);
    assert c * -v.x - s * -v.y == -(c * v.x - s * v.y);
    assert s * -v.x + c * -v.y == -(s * v.x + c * v.y);
  }

  /** Rotating back by the opposite angle restores the point. */
  lemma {:induction false} RotateInverse(v: Vec2, angle: real, libm: Libm)
    requires TrigIdentitiesAt(libm, angle)
    ensures Rotate(Rotate(v, angle, libm), -angle, libm) == v
  {
    var c := libm.cos(angle);
    var s := libm.sin(angle);
    var w := Rotate(v, angle, libm);
    assert w == Vec2(c * v.x - s * v.y, s * v.x + c * v.y);
    calc {
      c * w.x + s * w.y;
      c * (c * v.x - s * v.y) + s * (s * v.x + c * v.y);
      (c * c + s * s) * v.x;
      v.x;
    }
    calc {
      -s * w.x + c * w.y;
      -s * (c * v.x - s * v.y) + c * (s * v.x + c * v.y);
      (c * c + s * s) * v.y;
      v.y;
    }
  }

  /**
    Rust's `f32::round`: the nearest integer, halfway cases away from zero.
   */
  function Round(v: real): (r: int)
    ensures v >= 0.0 ==> v - 0.5 < r as real <= v + 0.5
    ensures v < 0.0 ==> v - 0.5 <= r as real < v + 0.5
  {
    if v >= 0.0 then (v + 0.5).Floor else -((-v + 0.5).Floor)
  }

  lemma RoundOfInteger(n: int)
    ensures Round(n as real) == n
  {
  }

  lemma RoundMonotone(a: real, b: real)
    requires a <= b
    ensures Round(a) <= Round(b)
  {
  }

  /** `clamp(lo, hi)`; Rust panics when `lo > hi`. */
  function Clamp(v: int, lo: int, hi: int): (r: int)
    requires lo <= hi
    ensures lo <= r <= hi
    ensures lo <= v <= hi ==> r == v
    ensures v < lo ==> r == lo
    ensures v > hi ==> r == hi
  {
    if v < lo then lo else if v > hi then hi else v
  }

  lemma ClampMonotone(a: int, b: int, lo: int, hi: int)
    requires lo <= hi
    requires a <= b
    ensures Clamp(a, lo, hi) <= Clamp(b, lo, hi)
  {
  }

  /** `f32::min`. */
  function Min(a: real, b: real): (r: real)
    ensures r <= a && r <= b
    ensures r == a || r == b
  {
    if a <= b then a else b
  }

  /** `f32::max`. */
  function Max(a: real, b: real): (r: real)
    ensures r >= a && r >= b
    ensures r == a || r == b
  {
    if a >= b then a else b
  }
}
