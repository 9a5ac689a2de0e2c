/**
  Quaternions a + b·i + c·j + d·k with exact real components, under the
  Hamilton product.

  The C++ class stores (a, b) in its `ComplexNumber` base and (c, d) in a
  second `ComplexNumber`; `First`, `Second` and `FromPairs` model that
  storage, and the setters go through it. The arithmetic itself is defined on
  the four components, as in the source.
 */
module Quaternions {
  import CN = ComplexNumbers

  datatype Quaternion = Quaternion(a: real, b: real, c: real, d: real)

  /** The default constructor: 0 + 0i + 0j + 0k. */
  function Zero(): Quaternion {
    Quaternion(0.0, 0.0, 0.0, 0.0)
  }

  /** A real number seen as a quaternion, and the three imaginary units. */
  function FromReal(k: real): Quaternion { Quaternion(k, 0.0, 0.0, 0.0) }
  function I(): Quaternion { Quaternion(0.0, 1.0, 0.0, 0.0) }
  function J(): Quaternion { Quaternion(0.0, 0.0, 1.0, 0.0) }
  function K(): Quaternion { Quaternion(0.0, 0.0, 0.0, 1.0) }

  // ---------------------------------------------------------------------
  // Storage as two complex numbers
  // ---------------------------------------------------------------------

  /** The base `ComplexNumber` part, holding a + b·i. */
  function First(q: Quaternion): CN.Complex { CN.Complex(q.a, q.b) }

  /** The `second` member, holding c + d·i (read as c·j + d·k). */
  function Second(q: Quaternion): CN.Complex { CN.Complex(q.c, q.d) }

  /** The four-argument constructor, storing (a, b) and (c, d). */
  function FromPairs(z: CN.Complex, w: CN.Complex): Quaternion {
    Quaternion(z.re, z.im, w.re, w.im)
  }

  /** The two stored pairs determine the quaternion and are recovered from it. */
  lemma PairsRoundTrip(q: Quaternion, z: CN.Complex, w: CN.Complex)
    ensures FromPairs(First(q), Second(q)) == q
    ensures First(FromPairs(z, w)) == z && Second(FromPairs(z, w)) == w
  {
  }

  /** The copy constructor rebuilds the value from its four getters. */
  function Copy(q: Quaternion): (r: Quaternion)
    ensures r == q
  {
    FromPairs(CN.Complex(q.a, q.b), CN.Complex(q.c, q.d))
  }

  /** setA and setB write the base pair; setC and setD write `second`. */
  function SetA(q: Quaternion, v: real): Quaternion {
    FromPairs(CN.SetReal(First(q), v), Second(q))
  }
  function SetB(q: Quaternion, v: real): Quaternion {
    FromPairs(CN.SetImaginary(First(q), v), Second(q))
  }
  function SetC(q: Quaternion, v: real): Quaternion {
    FromPairs(First(q), CN.SetReal(Second(q), v))
  }
  function SetD(q: Quaternion, v: real): Quaternion {
    FromPairs(First(q), CN.SetImaginary(Second(q), v))
  }

  /**
    Although each setter goes through one of the two stored pairs, it
    changes exactly the component it names and leaves the other three alone.
   */
  lemma SetterLaws(q: Quaternion, v: real)
    ensures SetA(q, v) == q.(a := v)
    ensures SetB(q, v) == q.(b := v)
    ensures SetC(q, v) == q.(c := v)
    ensures SetD(q, v) == q.(d := v)
  {
  }

  // ---------------------------------------------------------------------
  // Arithmetic
  // ---------------------------------------------------------------------

  function Add(p: Quaternion, q: Quaternion): Quaternion {
    Quaternion(p.a + q.a, p.b + q.b, p.c + q.c, p.d + q.d)
  }

  function Sub(p: Quaternion, q: Quaternion): Quaternion {
    Quaternion(p.a - q.a, p.b - q.b, p.c - q.c, p.d - q.d)
  }

  /**
    The four components of the Hamilton product
    (a1 + b1·i + c1·j + d1·k)(a2 + b2·i + c2·j + d2·k).
   */
  function ProductA(a1: real, b1: real, c1: real, d1: real, a2: real, b2: real, c2: real, d2: real): real {
    a1 * a2 - b1 * b2 - c1 * c2 - d1 * d2
  }
  function ProductB(a1: real, b1: real, c1: real, d1: real, a2: real, b2: real, c2: real, d2: real): real {
    a1 * b2 + b1 * a2 + c1 * d2 - d1 * c2
  }
  function ProductC(a1: real, b1: real, c1: real, d1: real, a2: real, b2: real, c2: real, d2: real): real {
    a1 * c2 - b1 * d2 + c1 * a2 + d1 * b2
  }
  function ProductD(a1: real, b1: real, c1: real, d1: real, a2: real, b2: real, c2: real, d2: real): real {
    a1 * d2 + b1 * c2 - c1 * b2 + d1 * a2
  }

  /** The Hamilton product. */
  function Mul(p: Quaternion, q: Quaternion): Quaternion {
    Quaternion(
      ProductA(p.a, p.b, p.c, p.d, q.a, q.b, q.c, q.d),
      ProductB(p.a, p.b, p.c, p.d, q.a, q.b, q.c, q.d),
      ProductC(p.a, p.b, p.c, p.d, q.a, q.b, q.c, q.d),
      ProductD(p.a, p.b, p.c, p.d, q.a, q.b, q.c, q.d))
  }

  /** The conjugate, built inside the division operator: (a, −b, −c, −d). */
  function Conj(q: Quaternion): Quaternion {
    Quaternion(q.a, -q.b, -q.c, -q.d)
  }

  /** Multiplication by a scalar scales every component. */
  function Scale(p: Quaternion, k: real): Quaternion {
    Quaternion(p.a * k, p.b * k, p.c * k, p.d * k)
  }

  /** The "norm" of the source: the sum of the squared components, not its root. */
  function Norm(q: Quaternion): real {
    q.a * q.a + q.b * q.b + q.c * q.c + q.d * q.d
  }

  /**
    Division multiplies by the conjugate of the divisor and scales by the
    reciprocal of the divisor's norm; the quotient, multiplied back on the
    right by the divisor, gives the dividend.
   */
  function Div(p: Quaternion, q: Quaternion): (r: Quaternion)
    requires Norm(q) != 0.0
    ensures Mul(r, q) == p
  {
    var r := Scale(Mul(p, Conj(q)), 1.0 / Norm(q));
    DivTimesDivisor(p, q);
    r
  }

  // ---------------------------------------------------------------------
  // Identities of the product components, on plain reals
  // ---------------------------------------------------------------------

  // Each polynomial identity behind the algebraic laws below is stated once
  // here, on the sixteen (or twelve) real components, and the laws on
  // quaternions only instantiate it.

  lemma ProductAssocA(pa: real, pb: real, pc: real, pd: real, qa: real, qb: real, qc: real, qd: real, ra: real, rb: real, rc: real, rd: real)
    ensures ProductA(ProductA(pa, pb, pc, pd, qa, qb, qc, qd), ProductB(pa, pb, pc, pd, qa, qb, qc, qd), ProductC(pa, pb, pc, pd, qa, qb, qc, qd), ProductD(pa, pb, pc, pd, qa, qb, qc, qd), ra, rb, rc, rd)
         == ProductA(pa, pb, pc, pd, ProductA(qa, qb, qc, qd, ra, rb, rc, rd), ProductB(qa, qb, qc, qd, ra, rb, rc, rd), ProductC(qa, qb, qc, qd, ra, rb, rc, rd), ProductD(qa, qb, qc, qd, ra, rb, rc, rd))
  {
  }

  lemma ProductAssocB(pa: real, pb: real, pc: real, pd: real, qa: real, qb: real, qc: real, qd: real, ra: real, rb: real, rc: real, rd: real)
    ensures ProductB(ProductA(pa, pb, pc, pd, qa, qb, qc, qd), ProductB(pa, pb, pc, pd, qa, qb, qc, qd), ProductC(pa, pb, pc, pd, qa, qb, qc, qd), ProductD(pa, pb, pc, pd, qa, qb, qc, qd), ra, rb, rc, rd)
         == ProductB(pa, pb, pc, pd, ProductA(qa, qb, qc, qd, ra, rb, rc, rd), ProductB(qa, qb, qc, qd, ra, rb, rc, rd), ProductC(qa, qb, qc, qd, ra, rb, rc, rd), ProductD(qa, qb, qc, qd, ra, rb, rc, rd))
  {
  }

  lemma ProductAssocC(pa: real, pb: real, pc: real, pd: real, qa: real, qb: real, qc: real, qd: real, ra: real, rb: real, rc: real, rd: real)
    ensures ProductC(ProductA(pa, pb, pc, pd, qa, qb, qc, qd), ProductB(pa, pb, pc, pd, qa, qb, qc, qd), ProductC(pa, pb, pc, pd, qa, qb, qc, qd), ProductD(pa, pb, pc, pd, qa, qb, qc, qd), ra, rb, rc, rd)
         == ProductC(pa, pb, pc, pd, ProductA(qa, qb, qc, qd, ra, rb, rc, rd), ProductB(qa, qb, qc, qd, ra, rb, rc, rd), ProductC(qa, qb, qc, qd, ra, rb, rc, rd), ProductD(qa, qb, qc, qd, ra, rb, rc, rd))
  {
  }

  lemma ProductAssocD(pa: real, pb: real, pc: real, pd: real, qa: real, qb: real, qc: real, qd: real, ra: real, rb: real, rc: real, rd: real)
    ensures ProductD(ProductA(pa, pb, pc, pd, qa, qb, qc, qd), ProductB(pa, pb, pc, pd, qa, qb, qc, qd), ProductC(pa, pb, pc, pd, qa, qb, qc, qd), ProductD(pa, pb, pc, pd, qa, qb, qc, qd), ra, rb, rc, rd)
         == ProductD(pa, pb, pc, pd, ProductA(qa, qb, qc, qd, ra, rb, rc, rd), ProductB(qa, qb, qc, qd, ra, rb, rc, rd), ProductC(qa, qb, qc, qd, ra, rb, rc, rd), ProductD(qa, qb, qc, qd, ra, rb, rc, rd))
  {
  }

  /** Conjugating both factors and swapping them conjugates the product. */
  lemma ProductConj(a1: real, b1: real, c1: real, d1: real, a2: real, b2: real, c2: real, d2: real)
    ensures ProductA(a2, -b2, -c2, -d2, a1, -b1, -c1, -d1) == ProductA(a1, b1, c1, d1, a2, b2, c2, d2)
    ensures ProductB(a2, -b2, -c2, -d2, a1, -b1, -c1, -d1) == -ProductB(a1, b1, c1, d1, a2, b2, c2, d2)
    ensures ProductC(a2, -b2, -c2, -d2, a1, -b1, -c1, -d1) == -ProductC(a1, b1, c1, d1, a2, b2, c2, d2)
    ensures ProductD(a2, -b2, -c2, -d2, a1, -b1, -c1, -d1) == -ProductD(a1, b1, c1, d1, a2, b2, c2, d2)
  {
  }

  /** A factor with no imaginary part multiplies every component, on either side. */
  lemma ProductReal(a: real, b: real, c: real, d: real, k: real)
    ensures ProductA(a, b, c, d, k, 0.0, 0.0, 0.0) == a * k && ProductA(k, 0.0, 0.0, 0.0, a, b, c, d) == a * k
    ensures ProductB(a, b, c, d, k, 0.0, 0.0, 0.0) == b * k && ProductB(k, 0.0, 0.0, 0.0, a, b, c, d) == b * k
    ensures ProductC(a, b, c, d, k, 0.0, 0.0, 0.0) == c * k && ProductC(k, 0.0, 0.0, 0.0, a, b, c, d) == c * k
    ensures ProductD(a, b, c, d, k, 0.0, 0.0, 0.0) == d * k && ProductD(k, 0.0, 0.0, 0.0, a, b, c, d) == d * k
  {
  }

  /** A quaternion times its conjugate, in either order, has only the real part a² + b² + c² + d². */
  lemma ProductWithConj(a: real, b: real, c: real, d: real)
    ensures ProductA(a, b, c, d, a, -b, -c, -d) == a * a + b * b + c * c + d * d
    ensures ProductB(a, b, c, d, a, -b, -c, -d) == 0.0 && ProductC(a, b, c, d, a, -b, -c, -d) == 0.0
    ensures ProductD(a, b, c, d, a, -b, -c, -d) == 0.0
    ensures ProductA(a, -b, -c, -d, a, b, c, d) == a * a + b * b + c * c + d * d
    ensures ProductB(a, -b, -c, -d, a, b, c, d) == 0.0 && ProductC(a, -b, -c, -d, a, b, c, d) == 0.0
    ensures ProductD(a, -b, -c, -d, a, b, c, d) == 0.0
  {
  }

  /** Swapping the factors keeps the real part and flips the cross product of the vector parts. */
  lemma ProductSwap(a1: real, b1: real, c1: real, d1: real, a2: real, b2: real, c2: real, d2: real)
    ensures ProductA(a1, b1, c1, d1, a2, b2, c2, d2) == ProductA(a2, b2, c2, d2, a1, b1, c1, d1)
    ensures ProductB(a1, b1, c1, d1, a2, b2, c2, d2) - ProductB(a2, b2, c2, d2, a1, b1, c1, d1) == 2.0 * (c1 * d2 - d1 * c2)
    ensures ProductC(a1, b1, c1, d1, a2, b2, c2, d2) - ProductC(a2, b2, c2, d2, a1, b1, c1, d1) == 2.0 * (d1 * b2 - b1 * d2)
    ensures ProductD(a1, b1, c1, d1, a2, b2, c2, d2) - ProductD(a2, b2, c2, d2, a1, b1, c1, d1) == 2.0 * (b1 * c2 - c1 * b2)
  {
  }

  /**
    The components regrouped as the Cayley–Dickson formula over the pairs
    (a1 + b1·i, c1 + d1·i) and (a2 + b2·i, c2 + d2·i) computes them.
   */
  lemma ProductPairs(a1: real, b1: real, c1: real, d1: real, a2: real, b2: real, c2: real, d2: real)
    ensures ProductA(a1, b1, c1, d1, a2, b2, c2, d2) == (a1 * a2 - b1 * b2) - (c1 * c2 - d1 * -d2)
    ensures ProductB(a1, b1, c1, d1, a2, b2, c2, d2) == (a1 * b2 + b1 * a2) - (c1 * -d2 + d1 * c2)
    ensures ProductC(a1, b1, c1, d1, a2, b2, c2, d2) == (a1 * c2 - b1 * d2) + (c1 * a2 - d1 * -b2)
    ensures ProductD(a1, b1, c1, d1, a2, b2, c2, d2) == (a1 * d2 + b1 * c2) + (c1 * -b2 + d1 * a2)
  {
  }

  /** Scaling by k and then by 1/k gives back the original component. */
  lemma ScaleBack(x: real, k: real)
    requires k != 0.0
    ensures (x * k) * (1.0 / k) == x
  {
    assert k * (1.0 / k) == 1.0;
    assert (x * k) * (1.0 / k) == x * (k * (1.0 / k));
  }

  // ---------------------------------------------------------------------
  // Algebraic laws used by the division proofs
  // ---------------------------------------------------------------------

  /** The Hamilton product is associative. */
  lemma MulAssoc(p: Quaternion, q: Quaternion, r: Quaternion)
    ensures Mul(Mul(p, q), r) == Mul(p, Mul(q, r))
  {
    ProductAssocA(p.a, p.b, p.c, p.d, q.a, q.b, q.c, q.d, r.a, r.b, r.c, r.d);
    ProductAssocB(p.a, p.b, p.c, p.d, q.a, q.b, q.c, q.d, r.a, r.b, r.c, r.d);
    ProductAssocC(p.a, p.b, p.c, p.d, q.a, q.b, q.c, q.d, r.a, r.b, r.c, r.d);
    ProductAssocD(p.a, p.b, p.c, p.d, q.a, q.b, q.c, q.d, r.a, r.b, r.c, r.d);
  }

  /** A product with the zero quaternion on the right is zero. */
  lemma MulZeroRight(p: Quaternion)
    ensures Mul(p, Zero()) == Zero()
  {
  }

  /**
    Scaling by k is the Hamilton product with the real quaternion k, on
    either side: real scalars commute with every quaternion.
   */
  lemma ScaleIsMul(p: Quaternion, k: real)
    ensures Scale(p, k) == Mul(p, FromReal(k))
    ensures Scale(p, k) == Mul(FromReal(k), p)
  {
    ProductReal(p.a, p.b, p.c, p.d, k);
  }

  /** A scalar factor can be pulled out of the left operand of a product. */
  lemma MulScaleLeft(p: Quaternion, q: Quaternion, k: real)
    ensures Mul(Scale(p, k), q) == Scale(Mul(p, q), k)
  {
    calc {
      Mul(Scale(p, k), q);
      { ScaleIsMul(p, k); }
      Mul(Mul(FromReal(k), p), q);
      { MulAssoc(FromReal(k), p, q); }
      Mul(FromReal(k), Mul(p, q));
      { ScaleIsMul(Mul(p, q), k); }
      Scale(Mul(p, q), k);
    }
  }

  /** Scaling by k and then by 1/k is the identity when k is nonzero. */
  lemma ScaleInverse(p: Quaternion, k: real)
    requires k != 0.0
    ensures Scale(Scale(p, k), 1.0 / k) == p
  {
    ScaleBack(p.a, k);
    ScaleBack(p.b, k);
    ScaleBack(p.c, k);
    ScaleBack(p.d, k);
  }

  /** A quaternion times its conjugate, in either order, is its norm as a real. */
  lemma MulConjIsNorm(q: Quaternion)
    ensures Mul(q, Conj(q)) == FromReal(Norm(q))
    ensures Mul(Conj(q), q) == FromReal(Norm(q))
  {
    ProductWithConj(q.a, q.b, q.c, q.d);
  }

  lemma DivTimesDivisor(p: Quaternion, q: Quaternion)
    requires Norm(q) != 0.0
    ensures Mul(Scale(Mul(p, Conj(q)), 1.0 / Norm(q)), q) == p
  {
    var n := Norm(q);
    calc {
      Mul(Scale(Mul(p, Conj(q)), 1.0 / n), q);
      { MulScaleLeft(Mul(p, Conj(q)), q, 1.0 / n); }
      Scale(Mul(Mul(p, Conj(q)), q), 1.0 / n);
      { MulAssoc(p, Conj(q), q); }
      Scale(Mul(p, Mul(Conj(q), q)), 1.0 / n);
      { MulConjIsNorm(q); }
      Scale(Mul(p, FromReal(n)), 1.0 / n);
      { ScaleIsMul(p, n); }
      Scale(Scale(p, n), 1.0 / n);
      { ScaleInverse(p, n); }
      p;
    }
  }

  // ---------------------------------------------------------------------
  // Properties
  // ---------------------------------------------------------------------

  /**
    Subtracting q undoes adding q, and adding q undoes subtracting q;
    addition is commutative, the default-constructed value is its identity,
    and p scaled by −1 is the additive inverse of p.
   */
  lemma AddSubInverse(p: Quaternion, q: Quaternion)
    ensures Sub(Add(p, q), q) == p
    ensures Add(Sub(p, q), q) == p
    ensures Add(p, q) == Add(q, p)
    ensures Add(p, Zero()) == p && Sub(p, Zero()) == p
    ensures Add(p, Scale(p, -1.0)) == Zero()
  {
  }

  /**
    The Hamilton product agrees with the Cayley–Dickson construction over the
    two stored complex pairs: writing p = z₁ + z₂·j and q = w₁ + w₂·j,
    p·q = (z₁w₁ − z₂·conj(w₂)) + (z₁w₂ + z₂·conj(w₁))·j.
    It is therefore not two independent complex products.
   */
  lemma MulIsCayleyDickson(p: Quaternion, q: Quaternion)
    ensures Mul(p, q) == FromPairs(
      CN.Sub(CN.Mul(First(p), First(q)), CN.Mul(Second(p), CN.Conj(Second(q)))),
      CN.Add(CN.Mul(First(p), Second(q)), CN.Mul(Second(p), CN.Conj(First(q)))))
  {
    ProductPairs(p.a, p.b, p.c, p.d, q.a, q.b, q.c, q.d);
  }

  /** On quaternions with c = d = 0 the Hamilton product is complex multiplication. */
  lemma MulExtendsComplex(z: CN.Complex, w: CN.Complex)
    ensures Mul(FromPairs(z, CN.Zero()), FromPairs(w, CN.Zero())) == FromPairs(CN.Mul(z, w), CN.Zero())
  {
    ProductPairs(z.re, z.im, 0.0, 0.0, w.re, w.im, 0.0, 0.0);
  }

  /** Hamilton's rules: i² = j² = k² = ijk = −1, ij = k = −ji, jk = i = −kj, ki = j = −ik. */
  lemma HamiltonRules()
    ensures Mul(I(), I()) == Mul(J(), J()) == Mul(K(), K()) == FromReal(-1.0)
    ensures Mul(Mul(I(), J()), K()) == FromReal(-1.0)
    ensures Mul(I(), J()) == K() && Mul(J(), I()) == Quaternion(0.0, 0.0, 0.0, -1.0)
    ensures Mul(J(), K()) == I() && Mul(K(), J()) == Quaternion(0.0, -1.0, 0.0, 0.0)
    ensures Mul(K(), I()) == J() && Mul(I(), K()) == Quaternion(0.0, 0.0, -1.0, 0.0)
  {
    SquareI();
    SquareJ();
    SquareK();
    ProductIJ();
    ProductJI();
    ProductJK();
    ProductKJ();
    ProductKI();
    ProductIK();
  }

  // One literal product per lemma: the solver evaluates each one cheaply on
  // its own but not several at once.

  lemma SquareI() ensures Mul(I(), I()) == FromReal(-1.0) {}
  lemma SquareJ() ensures Mul(J(), J()) == FromReal(-1.0) {}
  lemma SquareK() ensures Mul(K(), K()) == FromReal(-1.0) {}
  lemma ProductIJ() ensures Mul(I(), J()) == K() {}
  lemma ProductJI() ensures Mul(J(), I()) == Quaternion(0.0, 0.0, 0.0, -1.0) {}
  lemma ProductJK() ensures Mul(J(), K()) == I() {}
  lemma ProductKJ() ensures Mul(K(), J()) == Quaternion(0.0, -1.0, 0.0, 0.0) {}
  lemma ProductKI() ensures Mul(K(), I()) == J() {}
  lemma ProductIK() ensures Mul(I(), K()) == Quaternion(0.0, 0.0, -1.0, 0.0) {}

  /**
    Two quaternions commute exactly when the cross product of their vector
    parts (b, c, d) vanishes; in general p·q ≠ q·p.
   */
  lemma CommuteIff(p: Quaternion, q: Quaternion)
    ensures Mul(p, q) == Mul(q, p) <==>
      p.c * q.d - p.d * q.c == 0.0 && p.d * q.b - p.b * q.d == 0.0 && p.b * q.c - p.c * q.b == 0.0
  {
    Commutator(p, q);
  }

  /** p·q − q·p is twice the cross product of the vector parts, with no real part. */
  lemma Commutator(p: Quaternion, q: Quaternion)
    ensures Mul(p, q).a == Mul(q, p).a
    ensures Mul(p, q).b - Mul(q, p).b == 2.0 * (p.c * q.d - p.d * q.c)
    ensures Mul(p, q).c - Mul(q, p).c == 2.0 * (p.d * q.b - p.b * q.d)
    ensures Mul(p, q).d - Mul(q, p).d == 2.0 * (p.b * q.c - p.c * q.b)
  {
    ProductSwap(p.a, p.b, p.c, p.d, q.a, q.b, q.c, q.d);
  }

  /** The norm is never negative, and only the zero quaternion has norm zero. */
  lemma NormZero(q: Quaternion)
    ensures Norm(q) >= 0.0
    ensures Norm(q) == 0.0 <==> q == Zero()
  {
    calc {
      Norm(q);
      (q.a * q.a + q.b * q.b) + (q.c * q.c + q.d * q.d);
    >= { CN.SumOfSquaresNonNegative(q.a, q.b); CN.SumOfSquaresNonNegative(q.c, q.d); }
      0.0;
    }
    if q.a != 0.0 || q.b != 0.0 {
      calc {
        Norm(q);
        (q.a * q.a + q.b * q.b) + (q.c * q.c + q.d * q.d);
      > { CN.SumOfSquaresPositive(q.a, q.b); CN.SumOfSquaresNonNegative(q.c, q.d); }
        0.0;
      }
    } else if q.c != 0.0 || q.d != 0.0 {
      calc {
        Norm(q);
        (q.a * q.a + q.b * q.b) + (q.c * q.c + q.d * q.d);
      > { CN.SumOfSquaresNonNegative(q.a, q.b); CN.SumOfSquaresPositive(q.c, q.d); }
        0.0;
      }
    }
  }

  /** Conjugation reverses products: conj(p·q) = conj(q)·conj(p). */
  lemma ConjMul(p: Quaternion, q: Quaternion)
    ensures Conj(Mul(p, q)) == Mul(Conj(q), Conj(p))
  {
    ProductConj(p.a, p.b, p.c, p.d, q.a, q.b, q.c, q.d);
  }

  /** The norm is multiplicative: norm(p·q) = norm(p)·norm(q). */
  lemma NormMul(p: Quaternion, q: Quaternion)
    ensures Norm(Mul(p, q)) == Norm(p) * Norm(q)
  {
    var pq := Mul(p, q);
    calc {
      FromReal(Norm(pq));
      { MulConjIsNorm(pq); }
      Mul(pq, Conj(pq));
      { ConjMul(p, q); }
      Mul(pq, Mul(Conj(q), Conj(p)));
      { MulAssoc(pq, Conj(q), Conj(p)); }
      Mul(Mul(pq, Conj(q)), Conj(p));
      { MulAssoc(p, q, Conj(q)); }
      Mul(Mul(p, Mul(q, Conj(q))), Conj(p));
      { MulConjIsNorm(q); }
      Mul(Mul(p, FromReal(Norm(q))), Conj(p));
      { ScaleIsMul(p, Norm(q)); }
      Mul(Scale(p, Norm(q)), Conj(p));
      { MulScaleLeft(p, Conj(p), Norm(q)); }
      Scale(Mul(p, Conj(p)), Norm(q));
      { MulConjIsNorm(p); }
      Scale(FromReal(Norm(p)), Norm(q));
    }
  }

  /** Dividing a product by its right factor recovers the left factor. */
  lemma DivOfProduct(p: Quaternion, q: Quaternion)
    requires Norm(q) != 0.0
    ensures Div(Mul(p, q), q) == p
  {
    var n := Norm(q);
    calc {
      Div(Mul(p, q), q);
      Scale(Mul(Mul(p, q), Conj(q)), 1.0 / n);
      { MulAssoc(p, q, Conj(q)); }
      Scale(Mul(p, Mul(q, Conj(q))), 1.0 / n);
      { MulConjIsNorm(q); }
      Scale(Mul(p, FromReal(n)), 1.0 / n);
      { ScaleIsMul(p, n); }
      Scale(Scale(p, n), 1.0 / n);
      { ScaleInverse(p, n); }
      p;
    }
  }

  /**
    The quotient p / q is the one and only z with z·q = p: division by a
    quaternion of nonzero norm is exactly the inverse of right multiplication.
   */
  lemma DivUnique(p: Quaternion, q: Quaternion, z: Quaternion)
    requires Norm(q) != 0.0
    ensures Mul(z, q) == p <==> z == Div(p, q)
  {
    if Mul(z, q) == p {
      DivOfProduct(z, q);
    }
  }

  // ---------------------------------------------------------------------
  // The self-test
  // ---------------------------------------------------------------------

  /** The two operands of the Quaternion self-test. */
  const P1: Quaternion := Quaternion(1.0, 2.0, 3.0, 4.0)
  const P2: Quaternion := Quaternion(5.0, 6.0, 7.0, 8.0)

  /**
    The exact checks of the Quaternion self-test on construction, copying,
    the setters, sum and difference. The product, the norm, scaling and the
    quotient have one lemma each below.
   */
  lemma SelfTest()
    ensures Zero() == Quaternion(0.0, 0.0, 0.0, 0.0)
    ensures Copy(P1) == P1
    ensures SetD(SetC(SetB(SetA(Zero(), 10.0), 20.0), 30.0), 40.0) == Quaternion(10.0, 20.0, 30.0, 40.0)
    ensures Add(P1, P2) == Quaternion(6.0, 8.0, 10.0, 12.0)
    ensures Sub(P1, P2) == Quaternion(-4.0, -4.0, -4.0, -4.0)
  {
  }

  lemma SelfTestProduct() ensures Mul(P1, P2) == Quaternion(-60.0, 12.0, 30.0, 24.0) {}
  lemma SelfTestSwappedProduct() ensures Mul(P2, P1) == Quaternion(-60.0, 20.0, 14.0, 32.0) {}
  lemma SelfTestNorm() ensures Norm(P1) == 30.0 {}
  lemma SelfTestScale() ensures Scale(P1, 2.0) == Quaternion(2.0, 4.0, 6.0, 8.0) {}
  lemma DivisorNorm() ensures Norm(P2) == 174.0 {}
  lemma DividendTimesConj() ensures Mul(P1, Conj(P2)) == Quaternion(70.0, 8.0, 0.0, 16.0) {}
  lemma QuotientScaled()
    ensures Scale(Quaternion(70.0, 8.0, 0.0, 16.0), 1.0 / 174.0) == Quaternion(70.0 / 174.0, 8.0 / 174.0, 0.0, 16.0 / 174.0)
  {}

  /** P1 / P2 = (P1 · conj P2) · (1 / norm P2) = (70, 8, 0, 16) / 174. */
  lemma SelfTestQuotient()
    ensures Div(P1, P2) == Quaternion(70.0 / 174.0, 8.0 / 174.0, 0.0, 16.0 / 174.0)
  {
    DivisorNorm();
    DividendTimesConj();
    QuotientScaled();
  }

  lemma DividendConjSwapped() ensures Mul(P2, Conj(P1)) == Quaternion(70.0, -8.0, 0.0, -16.0) {}
  lemma SwappedQuotientScaled()
    ensures Scale(Quaternion(70.0, -8.0, 0.0, -16.0), 1.0 / 30.0) == Quaternion(70.0 / 30.0, -8.0 / 30.0, 0.0, -16.0 / 30.0)
  {}

  /** With the operands swapped, P2 / P1 = (P2 · conj P1) · (1 / norm P1) = (70, −8, 0, −16) / 30. */
  lemma SwappedQuotient()
    ensures Norm(P1) != 0.0 && Div(P2, P1) == Quaternion(70.0 / 30.0, -8.0 / 30.0, 0.0, -16.0 / 30.0)
  {
    SelfTestNorm();
    DividendConjSwapped();
    SwappedQuotientScaled();
  }

  /** Division is not commutative either: P1 / P2 and P2 / P1 differ in their i component. */
  lemma QuotientOrderMatters()
    ensures Norm(P1) != 0.0 && Norm(P2) != 0.0
    ensures Div(P1, P2) != Div(P2, P1)
  {
    QuotientSign();
    SwappedQuotientSign();
  }

  lemma QuotientSign() ensures Norm(P2) != 0.0 && Div(P1, P2).b > 0.0 { SelfTestQuotient(); DivisorNorm(); }
  lemma SwappedQuotientSign() ensures Norm(P1) != 0.0 && Div(P2, P1).b < 0.0 { SwappedQuotient(); }

  /** The self-test operands do not commute: swapping them changes the product. */
  lemma SelfTestNotCommutative()
    ensures Mul(P1, P2) != Mul(P2, P1)
  {
    SelfTestProduct();
    SelfTestSwappedProduct();
  }

  /** The self-test quotient, computed once. */
  const Quotient: Quaternion := Div(P1, P2)

  /** The quotient of the self-test lies within the test's tolerance 1e-6 of its expected values. */
  lemma QuotientWithinTolerance()
    ensures -0.000001 < Quotient.a - 0.402299 < 0.000001
    ensures -0.000001 < Quotient.b - 0.045977 < 0.000001
    ensures -0.000001 < Quotient.c < 0.000001
    ensures -0.000001 < Quotient.d - 0.091954 < 0.000001
  {
    SelfTestQuotient();
  }
}
