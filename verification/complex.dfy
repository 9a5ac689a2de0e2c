/**
  Complex numbers re + im·i with exact real components.

  The class `ComplexNumber` appears twice in the repository (laba1.cpp and
  laba3.cpp) with identical arithmetic; laba3's copy also stores a type tag
  that nothing reads. Both are modelled by this one module.
 */
module ComplexNumbers {

  datatype Complex = Complex(re: real, im: real)

  /** The default constructor: 0 + 0i. */
  function Zero(): Complex {
    Complex(0.0, 0.0)
  }

  /** The real number 1 and the imaginary unit. */
  function One(): Complex { Complex(1.0, 0.0) }
  function I(): Complex { Complex(0.0, 1.0) }

  /** A real number seen as a complex number. */
  function FromReal(k: real): Complex { Complex(k, 0.0) }

  /** The copy constructor: a copy agrees with the original on both components. */
  function Copy(x: Complex): (y: Complex)
    ensures y == x
  {
    Complex(x.re, x.im)
  }

  /** setReal and setImaginary, as functions returning the updated value. */
  function SetReal(x: Complex, r: real): Complex { x.(re := r) }
  function SetImaginary(x: Complex, i: real): Complex { x.(im := i) }

  function Add(x: Complex, y: Complex): Complex {
    Complex(x.re + y.re, x.im + y.im)
  }

  function Sub(x: Complex, y: Complex): Complex {
    Complex(x.re - y.re, x.im - y.im)
  }

  function Neg(x: Complex): Complex {
    Complex(-x.re, -x.im)
  }

  /** The two parts of (a + bi)(c + di) = (ac − bd) + (ad + bc)i. */
  function ProductRe(a: real, b: real, c: real, d: real): real { a * c - b * d }
  function ProductIm(a: real, b: real, c: real, d: real): real { a * d + b * c }

  function Mul(x: Complex, y: Complex): Complex {
    Complex(ProductRe(x.re, x.im, y.re, y.im), ProductIm(x.re, x.im, y.re, y.im))
  }

  function Conj(x: Complex): Complex {
    Complex(x.re, -x.im)
  }

  /** The denominator of a division by x: re² + im². */
  function NormSq(x: Complex): real {
    x.re * x.re + x.im * x.im
  }

  /**
    Division multiplies by the conjugate of the divisor and divides both
    parts by re² + im² of the divisor; the result, multiplied back by the
    divisor, gives the dividend.
   */
  function Div(x: Complex, y: Complex): (q: Complex)
    requires NormSq(y) != 0.0
    ensures Mul(q, y) == x
  {
    var den := y.re * y.re + y.im * y.im;
    QuotientTimesDivisor(x.re, x.im, y.re, y.im);
    Complex((x.re * y.re + x.im * y.im) / den, (x.im * y.re - x.re * y.im) / den)
  }

  // ---------------------------------------------------------------------
  // Identities of the product parts, on plain reals
  // ---------------------------------------------------------------------

  // Each polynomial identity behind the laws on complex numbers is stated
  // once here, on the real and imaginary parts; the laws only instantiate it.

  /** A square is never negative. */
  lemma SquareNonNegative(a: real)
    ensures a * a >= 0.0
  {
    if a < 0.0 {
      assert a * a == (-a) * (-a);
    }
  }

  /** A sum of two squares is never negative. */
  lemma SumOfSquaresNonNegative(a: real, b: real)
    ensures a * a + b * b >= 0.0
  {
    SquareNonNegative(a);
    SquareNonNegative(b);
  }

  /** A sum of two squares is positive unless both terms vanish. */
  lemma SumOfSquaresPositive(a: real, b: real)
    requires a != 0.0 || b != 0.0
    ensures a * a + b * b > 0.0
  {
    SquareNonNegative(a);
    SquareNonNegative(b);
    if a < 0.0 {
      assert a * a == (-a) * (-a);
    }
    if b < 0.0 {
      assert b * b == (-b) * (-b);
    }
  }

  /** The quotient formula, multiplied back by c + di, gives a + bi. */
  lemma QuotientTimesDivisor(a: real, b: real, c: real, d: real)
    requires c * c + d * d != 0.0
    ensures ProductRe((a * c + b * d) / (c * c + d * d), (b * c - a * d) / (c * c + d * d), c, d) == a
    ensures ProductIm((a * c + b * d) / (c * c + d * d), (b * c - a * d) / (c * c + d * d), c, d) == b
  {
    var den := c * c + d * d;
    var u, v := (a * c + b * d) / den, (b * c - a * d) / den;
    assert u * den == a * c + b * d;
    assert v * den == b * c - a * d;
    assert (u * c - v * d) * den == a * den;
    assert (u * d + v * c) * den == b * den;
  }

  /** The quotient formula applied to (a + bi)(c + di) and c + di gives a + bi. */
  lemma ProductQuotient(a: real, b: real, c: real, d: real)
    requires c * c + d * d != 0.0
    ensures (ProductRe(a, b, c, d) * c + ProductIm(a, b, c, d) * d) / (c * c + d * d) == a
    ensures (ProductIm(a, b, c, d) * c - ProductRe(a, b, c, d) * d) / (c * c + d * d) == b
  {
    assert (a * c - b * d) * c + (a * d + b * c) * d == a * (c * c + d * d);
    assert (a * d + b * c) * c - (a * c - b * d) * d == b * (c * c + d * d);
  }

  /** The product parts are those of a commutative, associative, distributive product. */
  lemma ProductCommutes(a: real, b: real, c: real, d: real)
    ensures ProductRe(a, b, c, d) == ProductRe(c, d, a, b)
    ensures ProductIm(a, b, c, d) == ProductIm(c, d, a, b)
  {
  }

  lemma ProductAssoc(a: real, b: real, c: real, d: real, e: real, f: real)
    ensures ProductRe(ProductRe(a, b, c, d), ProductIm(a, b, c, d), e, f)
         == ProductRe(a, b, ProductRe(c, d, e, f), ProductIm(c, d, e, f))
    ensures ProductIm(ProductRe(a, b, c, d), ProductIm(a, b, c, d), e, f)
         == ProductIm(a, b, ProductRe(c, d, e, f), ProductIm(c, d, e, f))
  {
  }

  lemma ProductDistributes(a: real, b: real, c: real, d: real, e: real, f: real)
    ensures ProductRe(a, b, c + e, d + f) == ProductRe(a, b, c, d) + ProductRe(a, b, e, f)
    ensures ProductIm(a, b, c + e, d + f) == ProductIm(a, b, c, d) + ProductIm(a, b, e, f)
  {
  }

  /** A number times its conjugate: (a + bi)(a − bi) = a² + b². */
  lemma ProductWithConj(a: real, b: real)
    ensures ProductRe(a, b, a, -b) == a * a + b * b
    ensures ProductIm(a, b, a, -b) == 0.0
  {
  }

  /** |(a + bi)(c + di)|² = (a² + b²)(c² + d²). */
  lemma ProductNormSq(a: real, b: real, c: real, d: real)
    ensures ProductRe(a, b, c, d) * ProductRe(a, b, c, d) + ProductIm(a, b, c, d) * ProductIm(a, b, c, d)
         == (a * a + b * b) * (c * c + d * d)
  {
    calc {
      ProductRe(a, b, c, d) * ProductRe(a, b, c, d) + ProductIm(a, b, c, d) * ProductIm(a, b, c, d);
      (a * c - b * d) * (a * c - b * d) + (a * d + b * c) * (a * d + b * c);
      (a * a + b * b) * (c * c + d * d);
    }
  }

  // ---------------------------------------------------------------------
  // Properties
  // ---------------------------------------------------------------------

  /** Subtracting y undoes adding y, and adding y undoes subtracting y. */
  lemma AddSubInverse(x: Complex, y: Complex)
    ensures Sub(Add(x, y), y) == x
    ensures Add(Sub(x, y), y) == x
  {
  }

  /**
    The default-constructed value is the additive identity; addition is
    commutative and associative; subtraction adds the negation.
   */
  lemma AddLaws(x: Complex, y: Complex, z: Complex)
    ensures Add(x, Zero()) == x && Sub(x, Zero()) == x
    ensures Add(x, y) == Add(y, x)
    ensures Add(Add(x, y), z) == Add(x, Add(y, z))
    ensures Sub(x, y) == Add(x, Neg(y))
    ensures Sub(x, x) == Zero()
  {
  }

  /** The imaginary unit squares to −1. */
  lemma SquareI()
    ensures Mul(I(), I()) == Neg(One())
  {
  }

  /** 1 is the multiplicative unit. */
  lemma MulOne(x: Complex)
    ensures Mul(x, One()) == x
  {
  }

  lemma MulCommutes(x: Complex, y: Complex)
    ensures Mul(x, y) == Mul(y, x)
  {
    ProductCommutes(x.re, x.im, y.re, y.im);
  }

  lemma MulAssoc(x: Complex, y: Complex, z: Complex)
    ensures Mul(Mul(x, y), z) == Mul(x, Mul(y, z))
  {
    ProductAssoc(x.re, x.im, y.re, y.im, z.re, z.im);
  }

  lemma MulDistributes(x: Complex, y: Complex, z: Complex)
    ensures Mul(x, Add(y, z)) == Add(Mul(x, y), Mul(x, z))
  {
    ProductDistributes(x.re, x.im, y.re, y.im, z.re, z.im);
  }

  /** A number times its conjugate is the real number re² + im². */
  lemma MulConjIsNormSq(x: Complex)
    ensures Mul(x, Conj(x)) == FromReal(NormSq(x))
  {
    ProductWithConj(x.re, x.im);
  }

  /** The norm is multiplicative: |xy|² = |x|²·|y|². */
  lemma NormSqMul(x: Complex, y: Complex)
    ensures NormSq(Mul(x, y)) == NormSq(x) * NormSq(y)
  {
    ProductNormSq(x.re, x.im, y.re, y.im);
  }

  /** re² + im² is never negative, and only the zero number makes it zero. */
  lemma NormSqZero(x: Complex)
    ensures NormSq(x) >= 0.0
    ensures NormSq(x) == 0.0 <==> x == Zero()
  {
    calc {
      NormSq(x);
      x.re * x.re + x.im * x.im;
    >= { SumOfSquaresNonNegative(x.re, x.im); }
      0.0;
    }
    if x != Zero() {
      assert x.re != 0.0 || x.im != 0.0;
      calc {
        NormSq(x);
        x.re * x.re + x.im * x.im;
      > { SumOfSquaresPositive(x.re, x.im); }
        0.0;
      }
    }
  }

  /** Dividing a product by one factor recovers the other factor. */
  lemma DivOfProduct(x: Complex, y: Complex)
    requires NormSq(y) != 0.0
    ensures Div(Mul(x, y), y) == x
  {
    ProductQuotient(x.re, x.im, y.re, y.im);
  }

  /**
    The quotient x / y is the one and only z with z·y = x: division by a
    nonzero number is exactly the inverse of multiplication.
   */
  lemma DivUnique(x: Complex, y: Complex, z: Complex)
    requires NormSq(y) != 0.0
    ensures Mul(z, y) == x <==> z == Div(x, y)
  {
    if Mul(z, y) == x {
      DivOfProduct(z, y);
    }
  }

  /**
    The setters change only the component they name: the getter reads back
    what was set, setting a component to its own value changes nothing, and
    a second set of the same component overrides the first.
   */
  lemma SetterLaws(x: Complex, r: real, i: real, r': real)
    ensures SetReal(x, r).re == r && SetReal(x, r).im == x.im
    ensures SetImaginary(x, i).im == i && SetImaginary(x, i).re == x.re
    ensures SetReal(x, x.re) == x && SetImaginary(x, x.im) == x
    ensures SetReal(SetReal(x, r), r') == SetReal(x, r')
    ensures SetReal(SetImaginary(x, i), r) == SetImaginary(SetReal(x, r), i) == Complex(r, i)
  {
  }

  // ---------------------------------------------------------------------
  // The self-test
  // ---------------------------------------------------------------------

  /** The two operands of the ComplexNumber self-test. */
  const C1: Complex := Complex(3.0, 4.0)
  const C2: Complex := Complex(1.0, 2.0)

  /**
    The exact checks of the ComplexNumber self-test (both copies) on
    construction, copying, sum, difference and the setters. The product
    and the quotient have lemmas of their own below; the test accepts the
    quotient within 10⁻⁶ of 2.2 − 0.4i, and over the reals it is exactly
    11/5 − 2/5 i, which is that value.
   */
  lemma SelfTest()
    ensures Zero().re == 0.0 && Zero().im == 0.0
    ensures C1.re == 3.0 && C1.im == 4.0
    ensures Copy(C1).re == C1.re && Copy(C1).im == C1.im
    ensures Add(C1, C2) == Complex(4.0, 6.0)
    ensures Sub(C1, C2) == Complex(2.0, 2.0)
    ensures SetImaginary(SetReal(Zero(), 5.5), -2.5) == Complex(5.5, -2.5)
    ensures SetImaginary(SetReal(Complex(5.5, -2.5), 10.0), 5.0) == Complex(10.0, 5.0)
  {
  }

  /** (3 + 4i)(1 + 2i) = (3 − 8) + (6 + 4)i. */
  lemma SelfTestProduct()
    ensures Mul(C1, C2) == Complex(-5.0, 10.0)
  {
  }

  lemma DivisorNormSq()
    ensures NormSq(C2) == 5.0
  {
  }

  /** (3 + 4i) / (1 + 2i) = (3·1 + 4·2)/5 + (4·1 − 3·2)/5 i = 11/5 − 2/5 i. */
  lemma SelfTestQuotient()
    ensures NormSq(C2) != 0.0 && Div(C1, C2) == Complex(11.0 / 5.0, -2.0 / 5.0)
  {
    DivisorNormSq();
  }

  /** With the operands swapped, (1 + 2i) / (3 + 4i) = (1·3 + 2·4)/25 + (2·3 − 1·4)/25 i = 11/25 + 2/25 i. */
  lemma SwappedQuotient()
    ensures NormSq(C1) != 0.0 && Div(C2, C1) == Complex(11.0 / 25.0, 2.0 / 25.0)
  {
    DividendNormSq();
  }

  lemma DividendNormSq()
    ensures NormSq(C1) == 25.0
  {
  }
}
