/** Three-component vectors over the reals, standing in for the `std::tuple<float,float,float>`
    triples of the PLY reader and for `glm::vec3` in the sample-kernel setup. Float rounding is
    not modelled; `sqrt` is an abstract function that is only known to be a square root. */
module Vectors {

  datatype Vec3 = Vec3(x: real, y: real, z: real)

  const Zero := Vec3(0.0, 0.0, 0.0)

  function Add(a: Vec3, b: Vec3): Vec3 {
    Vec3(a.x + b.x, a.y + b.y, a.z + b.z)
  }

  lemma AddAssoc(a: Vec3, b: Vec3, c: Vec3)
    ensures Add(Add(a, b), c) == Add(a, Add(b, c))
  {
  }

  function Sub(a: Vec3, b: Vec3): Vec3 {
    Vec3(a.x - b.x, a.y - b.y, a.z - b.z)
  }

  function Scale(v: Vec3, k: real): Vec3 {
    Vec3(v.x * k, v.y * k, v.z * k)
  }

  /** The product of two reals. Squared terms are written through it so that facts about a
      square (its sign, its value) are stated about one named term. */
  function Mul(a: real, b: real): real {
    a * b
  }

  function Dot(a: Vec3, b: Vec3): real {
    Mul(a.x, b.x) + Mul(a.y, b.y) + Mul(a.z, b.z)
  }

  /** A square-root function on the non-negative reals (the `sqrt` the source calls). */
  ghost predicate IsSqrt(sqrt: real -> real) {
    forall r :: 0.0 <= r ==> 0.0 <= sqrt(r) && Mul(sqrt(r), sqrt(r)) == r
  }

  lemma SignOfProduct(a: real, b: real)
    ensures 0.0 <= a && 0.0 <= b ==> 0.0 <= Mul(a, b)
    ensures 0.0 < a && 0.0 < b ==> 0.0 < Mul(a, b)
    ensures 0.0 <= a && b <= 1.0 ==> Mul(a, b) <= a
    ensures Mul(-a, -b) == Mul(a, b)
  {
  }

  /** A square is never negative, and it is zero only for zero. */
  lemma SquareSign(a: real)
    ensures 0.0 <= Mul(a, a)
    ensures a != 0.0 ==> 0.0 < Mul(a, a)
  {
    SignOfProduct(a, a);
    SignOfProduct(-a, -a);
  }

  /** The squared length of a vector is never negative, and it is zero only for the zero vector. */
  lemma DotSelf(v: Vec3)
    ensures 0.0 <= Dot(v, v)
    ensures v != Zero ==> 0.0 < Dot(v, v)
  {
    SquareSign(v.x);
    SquareSign(v.y);
    SquareSign(v.z);
  }

  /** `sqrt(x*x + y*y + z*z)`: the Euclidean length, positive for every non-zero vector. */
  function Length(v: Vec3, sqrt: real -> real): (len: real)
    requires IsSqrt(sqrt)
    ensures 0.0 <= len && Mul(len, len) == Dot(v, v)
    ensures v != Zero ==> 0.0 < len
  {
    DotSelf(v);
    sqrt(Dot(v, v))
  }

  lemma QuotientTimes(a: real, len: real)
    requires len != 0.0
    ensures (a / len) * len == a
  {
  }

  lemma QuotientSquare(a: real, len: real)
    requires len != 0.0
    ensures Mul(Mul(a / len, a / len), Mul(len, len)) == Mul(a, a)
  {
    var q := a / len;
    assert q * len == a;
    assert q * q * (len * len) == (q * len) * (q * len);
  }

  lemma Distribute(a: real, b: real, c: real, k: real)
    ensures Mul(a + b + c, k) == Mul(a, k) + Mul(b, k) + Mul(c, k)
  {
  }

  lemma CancelPositive(d: real, k: real)
    requires 0.0 < k && Mul(d, k) == k
    ensures d == 1.0
  {
    assert (d - 1.0) * k == 0.0;
  }

  /** Each component divided by len. */
  function Quotient(v: Vec3, len: real): Vec3
    requires len != 0.0
  {
    Vec3(v.x / len, v.y / len, v.z / len)
  }

  /** Scaling the quotient back by len restores the vector. */
  lemma QuotientScale(v: Vec3, len: real)
    requires len != 0.0
    ensures Scale(Quotient(v, len), len) == v
  {
    QuotientTimes(v.x, len);
    QuotientTimes(v.y, len);
    QuotientTimes(v.z, len);
  }

  /** Dividing by a length whose square is the squared length leaves squared length one. */
  lemma QuotientUnit(v: Vec3, len: real)
    requires 0.0 < len && Mul(len, len) == Dot(v, v)
    ensures Dot(Quotient(v, len), Quotient(v, len)) == 1.0
  {
    var u := Quotient(v, len);
    QuotientSquare(v.x, len);
    QuotientSquare(v.y, len);
    QuotientSquare(v.z, len);
    SignOfProduct(len, len);
    Distribute(Mul(u.x, u.x), Mul(u.y, u.y), Mul(u.z, u.z), Mul(len, len));
    CancelPositive(Dot(u, u), Mul(len, len));
  }

  /** Dividing each component by the vector's length gives a unit vector pointing the same way:
      scaling it back by the length restores the input. */
  function Normalize(v: Vec3, len: real): (u: Vec3)
    requires 0.0 < len && Mul(len, len) == Dot(v, v)
    ensures Dot(u, u) == 1.0
    ensures Scale(u, len) == v
  {
    QuotientScale(v, len);
    QuotientUnit(v, len);
    Quotient(v, len)
  }

  /** `v / length(v)` for a non-zero vector: the normalisation of plyreader.h:130-133 and of
      `glm::normalize`. */
  function Unit(v: Vec3, sqrt: real -> real): (u: Vec3)
    requires IsSqrt(sqrt) && v != Zero
    ensures Dot(u, u) == 1.0
    ensures Scale(u, Length(v, sqrt)) == v
  {
    Normalize(v, Length(v, sqrt))
  }

  /** Scaling a vector by k scales its squared length by k * k. */
  lemma DotScale(v: Vec3, k: real)
    ensures Dot(Scale(v, k), Scale(v, k)) == Mul(Mul(k, k), Dot(v, v))
  {
  }
}
