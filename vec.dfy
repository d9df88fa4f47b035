/** Two-dimensional vectors over exact reals: the part of pygame's Vector2
    that the curling games use (sum, difference, scaling, dot product). */
module Vectors {

  datatype Vec2 = Vec2(x: real, y: real)

  const Zero: Vec2 := Vec2(0.0, 0.0)

  function Add(a: Vec2, b: Vec2): Vec2 { Vec2(a.x + b.x, a.y + b.y) }

  function Sub(a: Vec2, b: Vec2): Vec2 { Vec2(a.x - b.x, a.y - b.y) }

  function Scale(k: real, a: Vec2): Vec2 { Vec2(k * a.x, k * a.y) }

  function Dot(a: Vec2, b: Vec2): real { a.x * b.x + a.y * b.y }

  /** Squared length; `v.length() < c` is `LenSq(v) < c * c` for c >= 0. */
  function LenSq(a: Vec2): (r: real)
    ensures r >= 0.0
  {
    SquarePositive(a.x);
    SquarePositive(a.y);
    a.x * a.x + a.y * a.y
  }

  /** `root` gives the exact square root of `x`: it stands for the square
      root inside Vector2.length() and Vector2.normalize(). (That the root
      of 0 is 0 is stated outright: it follows only by non-linear reasoning.) */
  ghost predicate RootAt(root: real -> real, x: real) {
    0.0 <= root(x) && root(x) * root(x) == x && (x == 0.0 ==> root(x) == 0.0)
  }

  /** A non-zero real has a positive square. */
  lemma SquarePositive(x: real)
    ensures x * x >= 0.0
    ensures x != 0.0 ==> x * x > 0.0
  {
    if x < 0.0 {
      assert x * x == (-x) * (-x);
    }
  }

  /** The zero vector has length 0 ... */
  lemma LenSqZero()
    ensures LenSq(Zero) == 0.0
  {
  }

  /** ... adds nothing ... */
  lemma AddZero(a: Vec2)
    ensures Add(a, Zero) == a
  {
  }

  /** ... and stays zero under scaling. */
  lemma ScaleZero(k: real)
    ensures Scale(k, Zero) == Zero
  {
  }

  /** The product of two non-negative reals is non-negative. */
  lemma ProductNonNegative(x: real, y: real)
    requires 0.0 <= x && 0.0 <= y
    ensures 0.0 <= x * y
  {
  }
}
