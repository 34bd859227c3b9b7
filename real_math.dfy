/** Exact real-number stand-ins for the floating-point helpers the simulator uses:
    the maths-library functions it calls (kept uninterpreted, with only the laws the
    code relies on), Python's float `%` and `int()`, and numpy's clip. */
module RealMath {

  /** `math.pi`, written as the float literal the interpreter prints. */
  const Pi: real := 3.141592653589793

  /** One full turn, `2 * math.pi`. */
  const Tau: real := 2.0 * Pi

  /** The transcendental functions of `math`/numpy the code calls. They are left
      uninterpreted: a caller supplies them, and `Lawful` states the only facts
      the model may use about them. */
  datatype Elementary = Elementary(
    sqrt: real -> real,
    sin: real -> real,
    cos: real -> real,
    tan: real -> real,
    acos: real -> real,
    atan2: (real, real) -> real,
    exp: real -> real,
    pow: (real, real) -> real)

  /** The laws the code relies on: square roots of non-negative numbers are
      non-negative square roots, sin² + cos² = 1, and acos maps [-1, 1] into [0, π]. */
  ghost predicate Lawful(m: Elementary)
  {
    && (forall x :: 0.0 <= x ==> 0.0 <= m.sqrt(x) && Sq(m.sqrt(x)) == x)
    && (forall x :: Sq(m.sin(x)) + Sq(m.cos(x)) == 1.0)
    && (forall x :: -1.0 <= x <= 1.0 ==> 0.0 <= m.acos(x) <= Pi)
  }

  /** The further laws the haversine distance relies on, kept apart from
      `Lawful` so that the proofs that do not need them do not see them:
      sin 0 = 0, cos is non-negative on [-π/2, π/2], and atan2 maps a
      non-negative first argument into [0, π], to 0 when it is zero and the
      second argument is positive. */
  ghost predicate TrigLawful(m: Elementary)
  {
    && m.sin(0.0) == 0.0
    && (forall x :: -Pi / 2.0 <= x <= Pi / 2.0 ==> 0.0 <= m.cos(x))
    && (forall y, x :: 0.0 <= y ==> 0.0 <= m.atan2(y, x) <= Pi)
    && (forall x :: 0.0 < x ==> m.atan2(0.0, x) == 0.0)
  }

  /** Python's `min`/numpy's `minimum` on two reals. */
  function Min(a: real, b: real): (r: real)
    ensures r <= a && r <= b
    ensures r == a || r == b
  {
    if b < a then b else a
  }

  /** Python's `max` on two reals. */
  function Max(a: real, b: real): (r: real)
    ensures a <= r && b <= r
    ensures r == a || r == b
  {
    if b > a then b else a
  }

  /** numpy's `clip(x, lo, hi)`, i.e. `minimum(maximum(x, lo), hi)`. */
  function Clip(x: real, lo: real, hi: real): (r: real)
    ensures lo <= hi ==> lo <= r <= hi
    ensures lo <= x <= hi ==> r == x
    ensures lo <= hi && x < lo ==> r == lo
    ensures x > hi ==> r == hi
  {
    Min(Max(x, lo), hi)
  }

  /** Python's float `x % (2 * math.pi)`: the remainder lies in [0, 2π) and
      differs from `x` by a whole number of turns. */
  function WrapAngle(x: real): (r: real)
    ensures 0.0 <= r < Tau
    ensures (x - r) / Tau == ((x - r) / Tau).Floor as real
    ensures 0.0 <= x < Tau ==> r == x
  {
    FloorTurns(x);
    x - (x / Tau).Floor as real * Tau
  }

  /** The whole turns `k = ⌊x / 2π⌋` in `x` satisfy `k·2π ≤ x < k·2π + 2π`. */
  lemma FloorTurns(x: real)
    ensures (x / Tau).Floor as real * Tau <= x < (x / Tau).Floor as real * Tau + Tau
    ensures ((x / Tau).Floor as real * Tau) / Tau == (x / Tau).Floor as real
    ensures 0.0 <= x < Tau ==> (x / Tau).Floor == 0
  {
    var q := x / Tau;
    var k := q.Floor as real;
    assert x == q * Tau;
    ScaleMonotone(Tau, k, q);
    ScaleMonotone(Tau, q, k + 1.0);
    assert Tau * q < Tau * (k + 1.0) by {
      ProductPositive(Tau, k + 1.0 - q, Tau * (k + 1.0 - q));
    }
  }

  /** Python's `int(x)` on a float, which truncates toward zero. */
  function Trunc(x: real): (i: int)
    ensures 0.0 <= x ==> 0 <= i && i as real <= x < i as real + 1.0
    ensures x <= 0.0 ==> i <= 0 && i as real - 1.0 < x <= i as real
  {
    if 0.0 <= x then x.Floor else -((-x).Floor)
  }

  /** `math.radians`. */
  function Radians(degrees: real): real
  {
    degrees * (Pi / 180.0)
  }

  /** `x * x`. Squares are always written with this function, so that the facts
      the proofs combine about a square mention it as a single term. */
  function Sq(x: real): real
  {
    x * x
  }

  /** A product of two numbers of the same sign is positive. */
  lemma ProductPositive(a: real, b: real, p: real)
    requires p == a * b
    requires (0.0 < a && 0.0 < b) || (a < 0.0 && b < 0.0)
    ensures 0.0 < p
  {
  }

  /** A square is never negative, and is zero exactly at zero. */
  lemma SqSign(n: real)
    ensures 0.0 <= Sq(n)
    ensures Sq(n) == 0.0 <==> n == 0.0
  {
    if n != 0.0 {
      ProductPositive(n, n, Sq(n));
    }
  }

  /** A product is zero only if a factor is. */
  lemma ZeroProduct(a: real, b: real)
    requires a * b == 0.0 && b != 0.0
    ensures a == 0.0
  {
    assert a == (a * b) / b;
  }

  /** A positive number has a positive square root. */
  lemma SqrtPositive(m: Elementary, x: real)
    requires Lawful(m) && 0.0 < x
    ensures 0.0 < m.sqrt(x)
  {
    SqSign(m.sqrt(x));
  }

  /** The square root of zero is zero. */
  lemma SqrtZero(m: Elementary)
    requires Lawful(m)
    ensures m.sqrt(0.0) == 0.0
  {
    SqSign(m.sqrt(0.0));
  }

  /** The square root of one is one. */
  lemma SqrtOne(m: Elementary)
    requires Lawful(m)
    ensures m.sqrt(1.0) == 1.0
  {
    var s := m.sqrt(1.0);
    assert 0.0 <= s && Sq(s) == 1.0;
    assert (s - 1.0) * (s + 1.0) == Sq(s) - 1.0;
    ZeroProduct(s - 1.0, s + 1.0);
  }

  /** The square of a product is the product of the squares. */
  lemma SqProduct(a: real, b: real)
    ensures Sq(a * b) == Sq(a) * Sq(b)
  {
  }

  /** Squaring a quotient: `(a / n)² · n² = a²`. */
  lemma SqQuotient(a: real, n: real)
    requires n != 0.0
    ensures Sq(a / n) * Sq(n) == Sq(a)
  {
    var q := a / n;
    assert q * n == a;
    SqProduct(q, n);
  }

  /** Cancelling a non-zero factor: `d · k = k` forces `d = 1`. */
  lemma CancelFactor(d: real, k: real)
    requires d * k == k && k != 0.0
    ensures d == 1.0
  {
    assert (d - 1.0) * k == 0.0;
    ZeroProduct(d - 1.0, k);
  }

  /** sin and cos stay in [-1, 1]: a consequence of sin² + cos² = 1. */
  lemma SinCosBounded(m: Elementary, x: real)
    requires Lawful(m)
    ensures -1.0 <= m.sin(x) <= 1.0 && -1.0 <= m.cos(x) <= 1.0
  {
    var s, c := m.sin(x), m.cos(x);
    assert Sq(s) + Sq(c) == 1.0;
    SqSign(s);
    SqSign(c);
    SqAtMostOne(s);
    SqAtMostOne(c);
  }

  /** A number whose square is at most one lies in [-1, 1]. */
  lemma SqAtMostOne(s: real)
    requires Sq(s) <= 1.0
    ensures -1.0 <= s <= 1.0
  {
    if s > 1.0 {
      ProductPositive(s - 1.0, s + 1.0, Sq(s) - 1.0);
    } else if s < -1.0 {
      ProductPositive(s - 1.0, s + 1.0, Sq(s) - 1.0);
    }
  }

  /** A product of two numbers in [-1, 1] is in [-1, 1]. */
  lemma UnitProduct(a: real, b: real)
    requires -1.0 <= a <= 1.0 && -1.0 <= b <= 1.0
    ensures -1.0 <= a * b <= 1.0
  {
    if 0.0 <= a {
      assert a * b <= a * 1.0 && a * b >= a * -1.0;
    } else {
      assert a * b <= a * -1.0 && a * b >= a * 1.0;
    }
  }

  /** A point `(R·c, R·s)` with `c² + s² = 1` lies on the circle of radius `|R|`. */
  lemma PolarSq(R: real, c: real, s: real, x: real, y: real)
    requires x == R * c && y == R * s && Sq(c) + Sq(s) == 1.0
    ensures Sq(x) + Sq(y) == Sq(R)
  {
    SqProduct(R, c);
    SqProduct(R, s);
    Distribute(Sq(R), Sq(c), Sq(s));
  }

  /** Multiplication distributes over addition. */
  lemma Distribute(k: real, a: real, b: real)
    ensures k * (a + b) == k * a + k * b
  {
  }

  /** Wrapping is unaffected by whole turns: wrapping an already wrapped angle
      plus `d` is the same as wrapping the unwrapped angle plus `d`. */
  lemma WrapAngleShift(x: real, d: real)
    ensures WrapAngle(WrapAngle(x) + d) == WrapAngle(x + d)
  {
    var k := (x / Tau).Floor;
    assert WrapAngle(x) + d == (x + d) - k as real * Tau;
    WholeTurns(x + d, k);
  }

  /** Subtracting `k` whole turns does not change the wrapped angle. */
  lemma WholeTurns(y: real, k: int)
    ensures WrapAngle(y - k as real * Tau) == WrapAngle(y)
  {
    assert (y - k as real * Tau) / Tau == y / Tau - k as real;
    assert ((y - k as real * Tau) / Tau).Floor == (y / Tau).Floor - k;
  }

  /** Negation does not change a square. */
  lemma SqNeg(x: real)
    ensures Sq(-x) == Sq(x)
  {
  }

  /** The Pythagorean identity at one angle. */
  lemma Pythagoras(m: Elementary, x: real)
    requires Lawful(m)
    ensures Sq(m.sin(x)) + Sq(m.cos(x)) == 1.0
  {
  }

  /** Scaling by a non-negative factor keeps order. */
  lemma ScaleMonotone(a: real, x: real, y: real)
    requires 0.0 <= a && x <= y
    ensures a * x <= a * y
  {
    if a != 0.0 && x != y {
      ProductPositive(a, y - x, a * (y - x));
    }
  }

  /** Scaling by a positive factor keeps strict order. */
  lemma ScaleStrict(a: real, x: real, y: real)
    requires 0.0 < a && x < y
    ensures a * x < a * y
  {
    ProductPositive(a, y - x, a * (y - x));
  }

  /** A product of non-negative numbers is non-negative. */
  lemma MulNonneg(a: real, b: real)
    requires 0.0 <= a && 0.0 <= b
    ensures 0.0 <= a * b
  {
    if a != 0.0 && b != 0.0 {
      ProductPositive(a, b, a * b);
    }
  }

  /** Scaling a number in [-1, 1] by a non-negative factor keeps it within
      that factor of zero. */
  lemma UnitScale(a: real, w: real)
    requires 0.0 <= a && -1.0 <= w <= 1.0
    ensures -a <= a * w <= a
  {
    ScaleMonotone(a, w, 1.0);
    ScaleMonotone(a, -1.0, w);
  }
}
