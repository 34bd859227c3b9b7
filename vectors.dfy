/** Three-component real vectors: the numpy arrays of length 3 the renderer,
    camera and orbit pass around, with the operations the code applies to them. */
module Vectors {
  import opened RealMath

  datatype Vec3 = Vec3(x: real, y: real, z: real)

  const Zero: Vec3 := Vec3(0.0, 0.0, 0.0)

  /** The world "up" axis `(0, 0, 1)`. */
  const UnitZ: Vec3 := Vec3(0.0, 0.0, 1.0)

  function Add(a: Vec3, b: Vec3): Vec3
  {
    Vec3(a.x + b.x, a.y + b.y, a.z + b.z)
  }

  function Sub(a: Vec3, b: Vec3): Vec3
  {
    Vec3(a.x - b.x, a.y - b.y, a.z - b.z)
  }

  function Neg(a: Vec3): Vec3
  {
    Vec3(-a.x, -a.y, -a.z)
  }

  /** `a * k` for a vector and a scalar. */
  function Scale(a: Vec3, k: real): Vec3
  {
    Vec3(a.x * k, a.y * k, a.z * k)
  }

  /** `a / k` for a vector and a non-zero scalar. */
  function Div(a: Vec3, k: real): Vec3
    requires k != 0.0
  {
    Vec3(a.x / k, a.y / k, a.z / k)
  }

  /** numpy broadcasting of `a + k` for a vector and a scalar. */
  function AddScalar(a: Vec3, k: real): Vec3
  {
    Vec3(a.x + k, a.y + k, a.z + k)
  }

  /** `np.dot` */
  function Dot(a: Vec3, b: Vec3): real
  {
    a.x * b.x + a.y * b.y + a.z * b.z
  }

  /** `np.cross` */
  function Cross(a: Vec3, b: Vec3): Vec3
  {
    Vec3(a.y * b.z - a.z * b.y, a.z * b.x - a.x * b.z, a.x * b.y - a.y * b.x)
  }

  /** A vector's squared length is the sum of the squares of its components, is
      never negative, and is zero only for the zero vector. */
  lemma DotSelf(v: Vec3)
    ensures Dot(v, v) == Sq(v.x) + Sq(v.y) + Sq(v.z)
    ensures 0.0 <= Dot(v, v)
    ensures Dot(v, v) == 0.0 <==> v == Zero
  {
    SqSign(v.x);
    SqSign(v.y);
    SqSign(v.z);
  }

  /** `np.linalg.norm`: the Euclidean length, the non-negative square root of
      the squared length. */
  function Norm(m: Elementary, v: Vec3): (r: real)
    requires Lawful(m)
    ensures 0.0 <= r && Sq(r) == Dot(v, v)
    ensures r == 0.0 <==> v == Zero
  {
    DotSelf(v);
    var r := m.sqrt(Dot(v, v));
    SqSign(r);
    r
  }

  /** `v / np.linalg.norm(v)`. Dividing the zero vector by its length gives NaN
      in the source; here the zero vector is returned unchanged instead. */
  function Normalize(m: Elementary, v: Vec3): (u: Vec3)
    requires Lawful(m)
    ensures v == Zero ==> u == Zero
    ensures v != Zero ==> Dot(u, u) == 1.0
  {
    var n := Norm(m, v);
    if n == 0.0 then v
    else
      DotOfDiv(v, n);
      Div(v, n)
  }

  /** Dividing a vector by its length gives squared length one. */
  lemma DotOfDiv(v: Vec3, n: real)
    requires n != 0.0 && Sq(n) == Dot(v, v)
    ensures Dot(Div(v, n), Div(v, n)) == 1.0
  {
    var u := Div(v, n);
    SqQuotient(v.x, n);
    SqQuotient(v.y, n);
    SqQuotient(v.z, n);
    DotSelf(u);
    DotSelf(v);
    SqSign(n);
    UnitFromScaled(Sq(u.x), Sq(u.y), Sq(u.z), Sq(n), Sq(v.x), Sq(v.y), Sq(v.z));
  }

  /** If each of `a, b, c` scaled by `k` gives `A, B, C`, and `A + B + C = k`
      with `k` non-zero, then `a + b + c = 1`. */
  lemma UnitFromScaled(a: real, b: real, c: real, k: real, A: real, B: real, C: real)
    requires a * k == A && b * k == B && c * k == C
    requires A + B + C == k && k != 0.0
    ensures a + b + c == 1.0
  {
    var s := a + b + c;
    SumScaled(a, b, c, k);
    assert s * k == A + B + C;
    CancelFactor(s, k);
  }

  /** Multiplication distributes over a sum of three terms. */
  lemma SumScaled(a: real, b: real, c: real, k: real)
    ensures (a + b + c) * k == a * k + b * k + c * k
  {
  }

  /** The cross product is orthogonal to both of its factors. */
  lemma CrossOrthogonal(a: Vec3, b: Vec3)
    ensures Dot(Cross(a, b), a) == 0.0
    ensures Dot(Cross(a, b), b) == 0.0
  {
  }

  /** Scaling a vector by `k` scales its squared length by `k²`. */
  lemma ScaleDot(v: Vec3, k: real)
    ensures Dot(Scale(v, k), Scale(v, k)) == Sq(k) * Dot(v, v)
  {
    DotSelf(v);
    DotSelf(Scale(v, k));
    SqProduct(v.x, k);
    SqProduct(v.y, k);
    SqProduct(v.z, k);
    SumScaled(Sq(v.x), Sq(v.y), Sq(v.z), Sq(k));
  }

  /** Normalising a unit vector leaves it unchanged. */
  lemma NormalizeUnit(m: Elementary, n: Vec3)
    requires Lawful(m) && Dot(n, n) == 1.0
    ensures Normalize(m, n) == n
  {
    SqrtOne(m);
    assert Norm(m, n) == 1.0;
  }
}
