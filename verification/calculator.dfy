/**
  The stack calculator. `performOperation` pops the top two values of a
  stack, combines them with one of the operators + - * / and pushes the
  result; it exists once for complex numbers and once for quaternions.
 */
module Calculator {
  import CN = ComplexNumbers
  import Q = Quaternions

  // ---------------------------------------------------------------------
  // A stack as a sequence whose last element is the top
  // ---------------------------------------------------------------------

  function Push<T>(s: seq<T>, x: T): seq<T> {
    s + [x]
  }

  function Top<T>(s: seq<T>): T
    requires |s| > 0
  {
    s[|s| - 1]
  }

  function Pop<T>(s: seq<T>): seq<T>
    requires |s| > 0
  {
    s[..|s| - 1]
  }

  /** Pop undoes Push and Top reads what was pushed; Push of the top undoes Pop. */
  lemma PushPop<T>(s: seq<T>, x: T, t: seq<T>)
    requires |t| > 0
    ensures |Push(s, x)| == |s| + 1
    ensures Pop(Push(s, x)) == s && Top(Push(s, x)) == x
    ensures Push(Pop(t), Top(t)) == t
  {
  }

  /** The operator characters the calculator recognises. */
  predicate IsOperator(op: char) {
    op == '+' || op == '-' || op == '*' || op == '/'
  }

  // ---------------------------------------------------------------------
  // One operation on two complex numbers
  // ---------------------------------------------------------------------

  /**
    The result of `num1 op num2`, where num1 lay below num2 on the stack. An
    unrecognised operator leaves the result at its initial value 0 + 0i.
    Every case is stated by the inverse operation: the result minus num2,
    plus num2, divided by num2 or times num2 gives num1 back.
   */
  function ApplyComplex(x: CN.Complex, y: CN.Complex, op: char): (r: CN.Complex)
    requires op == '/' ==> CN.NormSq(y) != 0.0
    ensures op == '+' ==> CN.Sub(r, y) == x
    ensures op == '-' ==> CN.Add(r, y) == x
    ensures op == '*' && CN.NormSq(y) != 0.0 ==> CN.Div(r, y) == x
    ensures op == '*' && CN.NormSq(y) == 0.0 ==> r == CN.Zero()
    ensures op == '/' ==> CN.Mul(r, y) == x
    ensures !IsOperator(op) ==> r == CN.Zero()
  {
    if op == '+' then
      CN.AddSubInverse(x, y);
      CN.Add(x, y)
    else if op == '-' then
      CN.AddSubInverse(x, y);
      CN.Sub(x, y)
    else if op == '*' then
      ComplexProductCases(x, y);
      CN.Mul(x, y)
    else if op == '/' then
      CN.Div(x, y)
    else
      CN.Zero()
  }

  /** A product divided by its nonzero right factor is the left factor; a product with zero is zero. */
  lemma ComplexProductCases(x: CN.Complex, y: CN.Complex)
    ensures CN.NormSq(y) != 0.0 ==> CN.Div(CN.Mul(x, y), y) == x
    ensures CN.NormSq(y) == 0.0 ==> CN.Mul(x, y) == CN.Zero()
  {
    CN.NormSqZero(y);
    if CN.NormSq(y) != 0.0 {
      CN.DivOfProduct(x, y);
    }
  }

  /**
    performOperation on a stack of complex numbers: num2 is popped from the
    top, then num1, and num1 op num2 is pushed. The stack shrinks by one,
    everything below the two operands stays as it was, and the new top is
    the result.
   */
  function PerformComplex(stack: seq<CN.Complex>, op: char): (r: seq<CN.Complex>)
    requires |stack| >= 2
    requires op == '/' ==> CN.NormSq(Top(stack)) != 0.0
    ensures |r| == |stack| - 1
    ensures r[..|r| - 1] == stack[..|stack| - 2]
    ensures r[|r| - 1] == ApplyComplex(stack[|stack| - 2], stack[|stack| - 1], op)
  {
    var num2 := Top(stack);
    var rest := Pop(stack);
    var num1 := Top(rest);
    Push(Pop(rest), ApplyComplex(num1, num2, op))
  }

  // ---------------------------------------------------------------------
  // One operation on two quaternions
  // ---------------------------------------------------------------------

  /**
    The result of `q1 op q2`, where q1 lay below q2 on the stack. An
    unrecognised operator leaves the result at its initial value 0.
   */
  function ApplyQuaternion(p: Q.Quaternion, q: Q.Quaternion, op: char): (r: Q.Quaternion)
    requires op == '/' ==> Q.Norm(q) != 0.0
    ensures op == '+' ==> Q.Sub(r, q) == p
    ensures op == '-' ==> Q.Add(r, q) == p
    ensures op == '*' && Q.Norm(q) != 0.0 ==> Q.Div(r, q) == p
    ensures op == '*' && Q.Norm(q) == 0.0 ==> r == Q.Zero()
    ensures op == '/' ==> Q.Mul(r, q) == p
    ensures !IsOperator(op) ==> r == Q.Zero()
  {
    if op == '+' then
      Q.AddSubInverse(p, q);
      Q.Add(p, q)
    else if op == '-' then
      Q.AddSubInverse(p, q);
      Q.Sub(p, q)
    else if op == '*' then
      QuaternionProductCases(p, q);
      Q.Mul(p, q)
    else if op == '/' then
      Q.Div(p, q)
    else
      Q.Zero()
  }

  /** A product divided by its nonzero right factor is the left factor; a product with zero is zero. */
  lemma QuaternionProductCases(p: Q.Quaternion, q: Q.Quaternion)
    ensures Q.Norm(q) != 0.0 ==> Q.Div(Q.Mul(p, q), q) == p
    ensures Q.Norm(q) == 0.0 ==> Q.Mul(p, q) == Q.Zero()
  {
    Q.NormZero(q);
    if Q.Norm(q) != 0.0 {
      Q.DivOfProduct(p, q);
    } else {
      Q.MulZeroRight(p);
    }
  }

  /** performOperation on a stack of quaternions, with the same stack discipline. */
  function PerformQuaternion(stack: seq<Q.Quaternion>, op: char): (r: seq<Q.Quaternion>)
    requires |stack| >= 2
    requires op == '/' ==> Q.Norm(Top(stack)) != 0.0
    ensures |r| == |stack| - 1
    ensures r[..|r| - 1] == stack[..|stack| - 2]
    ensures r[|r| - 1] == ApplyQuaternion(stack[|stack| - 2], stack[|stack| - 1], op)
  {
    var q2 := Top(stack);
    var rest := Pop(stack);
    var q1 := Top(rest);
    Push(Pop(rest), ApplyQuaternion(q1, q2, op))
  }

  // ---------------------------------------------------------------------
  // Properties of performOperation
  // ---------------------------------------------------------------------

  /** Pushing two operands and performing an operation replaces them by the result. */
  lemma PerformComplexOnPushed(s: seq<CN.Complex>, x: CN.Complex, y: CN.Complex, op: char)
    requires op == '/' ==> CN.NormSq(y) != 0.0
    ensures PerformComplex(s + [x, y], op) == s + [ApplyComplex(x, y, op)]
  {
    var r := PerformComplex(s + [x, y], op);
    assert (s + [x, y])[..|s|] == s;
    assert r == r[..|r| - 1] + [r[|r| - 1]];
  }

  lemma PerformQuaternionOnPushed(s: seq<Q.Quaternion>, p: Q.Quaternion, q: Q.Quaternion, op: char)
    requires op == '/' ==> Q.Norm(q) != 0.0
    ensures PerformQuaternion(s + [p, q], op) == s + [ApplyQuaternion(p, q, op)]
  {
    var r := PerformQuaternion(s + [p, q], op);
    assert (s + [p, q])[..|s|] == s;
    assert r == r[..|r| - 1] + [r[|r| - 1]];
  }

  /**
    The operand below the top is the left operand: subtraction of two
    different complex numbers gives opposite results for the two stack
    orders, so the order matters.
   */
  lemma ComplexOperandOrder(s: seq<CN.Complex>, x: CN.Complex, y: CN.Complex)
    ensures Top(PerformComplex(s + [x, y], '-')) == CN.Sub(x, y)
    ensures Top(PerformComplex(s + [x, y], '-')) == CN.Neg(Top(PerformComplex(s + [y, x], '-')))
    ensures x != y ==> PerformComplex(s + [x, y], '-') != PerformComplex(s + [y, x], '-')
  {
    PerformComplexOnPushed(s, x, y, '-');
    PerformComplexOnPushed(s, y, x, '-');
    CN.AddSubInverse(x, y);
    if x != y {
      assert Top(PerformComplex(s + [x, y], '-')) != Top(PerformComplex(s + [y, x], '-'));
    }
  }

  /**
    Division depends on the order too: with 3 + 4i below 1 + 2i the quotient
    pushed is 11/5 − 2/5 i, with the two swapped it is 11/25 + 2/25 i.
   */
  lemma ComplexDivisionOrder()
    ensures PerformComplex([CN.C1, CN.C2], '/') == [CN.Complex(11.0 / 5.0, -2.0 / 5.0)]
    ensures PerformComplex([CN.C2, CN.C1], '/') == [CN.Complex(11.0 / 25.0, 2.0 / 25.0)]
  {
    CN.SelfTestQuotient();
    CN.SwappedQuotient();
    ApplyComplexDivides(CN.C1, CN.C2);
    ApplyComplexDivides(CN.C2, CN.C1);
    PerformComplexOnPushed([], CN.C1, CN.C2, '/');
    PerformComplexOnPushed([], CN.C2, CN.C1, '/');
  }

  /** For quaternions, too, the lower element is the left operand of a difference. */
  lemma QuaternionSubtractionOrder(s: seq<Q.Quaternion>, p: Q.Quaternion, q: Q.Quaternion)
    ensures PerformQuaternion(s + [p, q], '-') == s + [Q.Sub(p, q)]
    ensures p != q ==> PerformQuaternion(s + [p, q], '-') != PerformQuaternion(s + [q, p], '-')
  {
    PerformQuaternionOnPushed(s, p, q, '-');
    PerformQuaternionOnPushed(s, q, p, '-');
    Q.AddSubInverse(p, q);
    if p != q {
      assert Top(PerformQuaternion(s + [p, q], '-')) != Top(PerformQuaternion(s + [q, p], '-'));
    }
  }

  /**
    For quaternions the order matters for the product too: with i below j
    the result is k, with j below i it is −k.
   */
  lemma QuaternionOperandOrder(s: seq<Q.Quaternion>)
    ensures PerformQuaternion(s + [Q.I(), Q.J()], '*') == s + [Q.K()]
    ensures PerformQuaternion(s + [Q.J(), Q.I()], '*') == s + [Q.Quaternion(0.0, 0.0, 0.0, -1.0)]
  {
    PerformQuaternionOnPushed(s, Q.I(), Q.J(), '*');
    PerformQuaternionOnPushed(s, Q.J(), Q.I(), '*');
    Q.ProductIJ();
    Q.ProductJI();
  }

  /**
    Dividing in the two stack orders pushes p / q and q / p respectively, and
    the two results differ exactly when the two quotients do.
   */
  lemma QuaternionDivisionOrderFor(s: seq<Q.Quaternion>, p: Q.Quaternion, q: Q.Quaternion)
    requires Q.Norm(p) != 0.0 && Q.Norm(q) != 0.0
    ensures PerformQuaternion(s + [p, q], '/') == s + [Q.Div(p, q)]
    ensures PerformQuaternion(s + [q, p], '/') == s + [Q.Div(q, p)]
    ensures PerformQuaternion(s + [p, q], '/') != PerformQuaternion(s + [q, p], '/') <==> Q.Div(p, q) != Q.Div(q, p)
  {
    ApplyQuaternionDivides(p, q);
    ApplyQuaternionDivides(q, p);
    PerformQuaternionOnPushed(s, p, q, '/');
    PerformQuaternionOnPushed(s, q, p, '/');
    if Q.Div(p, q) != Q.Div(q, p) {
      assert Top(s + [Q.Div(p, q)]) != Top(s + [Q.Div(q, p)]);
    }
  }

  /**
    The order matters for the quotient of quaternions as well: with
    1 + 2i + 3j + 4k below 5 + 6i + 7j + 8k the result is their quotient
    (70, 8, 0, 16)/174, with the two swapped it is the reverse quotient
    (70, −8, 0, −16)/30 (QuaternionDivisionOrderFor, Quaternions.SelfTestQuotient,
    Quaternions.SwappedQuotient), and the two stacks differ.
   */
  lemma QuaternionDivisionOrder(s: seq<Q.Quaternion>)
    ensures PerformQuaternion(s + [Q.P1, Q.P2], '/') != PerformQuaternion(s + [Q.P2, Q.P1], '/')
  {
    Q.QuotientOrderMatters();
    QuaternionDivisionOrderFor(s, Q.P1, Q.P2);
  }

  /** An unrecognised operator consumes both operands and pushes zero. */
  lemma InvalidOperationPushesZero(cs: seq<CN.Complex>, qs: seq<Q.Quaternion>, op: char)
    requires |cs| >= 2 && |qs| >= 2
    requires !IsOperator(op)
    ensures PerformComplex(cs, op) == Push(Pop(Pop(cs)), CN.Zero())
    ensures PerformQuaternion(qs, op) == Push(Pop(Pop(qs)), Q.Zero())
  {
    var r := PerformComplex(cs, op);
    assert r == r[..|r| - 1] + [r[|r| - 1]];
    var t := PerformQuaternion(qs, op);
    assert t == t[..|t| - 1] + [t[|t| - 1]];
  }

  // ---------------------------------------------------------------------
  // The calculator's test run
  // ---------------------------------------------------------------------

  // The test run pushes the same two operands four times, performing + - * /
  // in turn, and never pops the results in between: each round leaves its
  // result on the stack below the next round's operands.

  lemma ApplyComplexDivides(x: CN.Complex, y: CN.Complex)
    requires CN.NormSq(y) != 0.0
    ensures ApplyComplex(x, y, '/') == CN.Div(x, y)
  {
  }

  lemma ApplyQuaternionDivides(p: Q.Quaternion, q: Q.Quaternion)
    requires Q.Norm(q) != 0.0
    ensures ApplyQuaternion(p, q, '/') == Q.Div(p, q)
  {
  }

  /** The complex half of the test run, for any two operands and any stack below them. */
  lemma ComplexRunTestsFor(s0: seq<CN.Complex>, x: CN.Complex, y: CN.Complex)
    requires CN.NormSq(y) != 0.0
    ensures var s1 := PerformComplex(s0 + [x, y], '+');
            var s2 := PerformComplex(s1 + [x, y], '-');
            var s3 := PerformComplex(s2 + [x, y], '*');
            PerformComplex(s3 + [x, y], '/') == s0 + [CN.Add(x, y), CN.Sub(x, y), CN.Mul(x, y), CN.Div(x, y)]
  {
    var s1 := PerformComplex(s0 + [x, y], '+');
    PerformComplexOnPushed(s0, x, y, '+');
    var s2 := PerformComplex(s1 + [x, y], '-');
    PerformComplexOnPushed(s1, x, y, '-');
    var s3 := PerformComplex(s2 + [x, y], '*');
    PerformComplexOnPushed(s2, x, y, '*');
    PerformComplexOnPushed(s3, x, y, '/');
    ApplyComplexDivides(x, y);
    assert s3 + [CN.Div(x, y)] == s0 + [CN.Add(x, y), CN.Sub(x, y), CN.Mul(x, y), CN.Div(x, y)];
  }

  /**
    The complex half of the test run with 3 + 4i and 1 + 2i: the stack ends
    with their sum, difference, product and quotient, bottom to top, whose
    values ComplexNumbers.SelfTest gives.
   */
  lemma ComplexRunTests()
    ensures var s1 := PerformComplex([CN.C1, CN.C2], '+');
            var s2 := PerformComplex(s1 + [CN.C1, CN.C2], '-');
            var s3 := PerformComplex(s2 + [CN.C1, CN.C2], '*');
            PerformComplex(s3 + [CN.C1, CN.C2], '/')
              == [CN.Add(CN.C1, CN.C2), CN.Sub(CN.C1, CN.C2), CN.Mul(CN.C1, CN.C2), CN.Div(CN.C1, CN.C2)]
  {
    CN.DivisorNormSq();
    ComplexRunTestsFor([], CN.C1, CN.C2);
  }

  /** The quaternion half of the test run, for any two operands and any stack below them. */
  lemma QuaternionRunTestsFor(s0: seq<Q.Quaternion>, p: Q.Quaternion, q: Q.Quaternion)
    requires Q.Norm(q) != 0.0
    ensures var s1 := PerformQuaternion(s0 + [p, q], '+');
            var s2 := PerformQuaternion(s1 + [p, q], '-');
            var s3 := PerformQuaternion(s2 + [p, q], '*');
            PerformQuaternion(s3 + [p, q], '/') == s0 + [Q.Add(p, q), Q.Sub(p, q), Q.Mul(p, q), Q.Div(p, q)]
  {
    var s1 := PerformQuaternion(s0 + [p, q], '+');
    PerformQuaternionOnPushed(s0, p, q, '+');
    var s2 := PerformQuaternion(s1 + [p, q], '-');
    PerformQuaternionOnPushed(s1, p, q, '-');
    var s3 := PerformQuaternion(s2 + [p, q], '*');
    PerformQuaternionOnPushed(s2, p, q, '*');
    PerformQuaternionOnPushed(s3, p, q, '/');
    ApplyQuaternionDivides(p, q);
    assert s3 + [Q.Div(p, q)] == s0 + [Q.Add(p, q), Q.Sub(p, q), Q.Mul(p, q), Q.Div(p, q)];
  }

  /**
    The quaternion half of the test run with 1 + 2i + 3j + 4k and
    5 + 6i + 7j + 8k: the stack ends with their sum, difference, product and
    quotient, whose values Quaternions.SelfTest gives.
   */
  lemma QuaternionRunTests()
    ensures var s1 := PerformQuaternion([Q.P1, Q.P2], '+');
            var s2 := PerformQuaternion(s1 + [Q.P1, Q.P2], '-');
            var s3 := PerformQuaternion(s2 + [Q.P1, Q.P2], '*');
            PerformQuaternion(s3 + [Q.P1, Q.P2], '/')
              == [Q.Add(Q.P1, Q.P2), Q.Sub(Q.P1, Q.P2), Q.Mul(Q.P1, Q.P2), Q.Div(Q.P1, Q.P2)]
  {
    Q.DivisorNorm();
    QuaternionRunTestsFor([], Q.P1, Q.P2);
  }
}
