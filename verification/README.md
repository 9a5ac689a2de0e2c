# Complex numbers, quaternions and a stack calculator

A model of a small C++ calculator. It has three parts:

- `ComplexNumber` holds a real and an imaginary part. It has default, initialising and copy constructors, getters and setters, and the operators `+ - * /`.
- `Quaternion` holds a + b·i + c·j + d·k. It stores (a, b) in its `ComplexNumber` base and (c, d) in a second `ComplexNumber`. It has `+ - *` (the Hamilton product), multiplication by a scalar, `norm` (the sum of the squared components) and `/`. Division multiplies by the conjugate of the divisor and scales by the reciprocal of its norm.
- `Calculator::performOperation` exists in two overloads, one per number type. It pops the top of a stack (the right operand), then the next element (the left operand), and pushes `left op right`. For an unknown operator character it pushes zero.

`ComplexNumber` appears twice in the repository, in laba1.cpp and laba3.cpp. The two copies have the same arithmetic; laba3's copy also stores a type tag that nothing reads. One module models both.

The files:

- `complex.dfy` (module `ComplexNumbers`): the datatype, its operations and the laws they obey.
- `quaternion.dfy` (module `Quaternions`): the quaternion datatype. It includes the two-pair storage view (`First`, `Second`, `FromPairs`), through which the setters work.
- `calculator.dfy` (module `Calculator`): the stack as a sequence whose last element is the top, both overloads of `performOperation`, and a replay of `runTests`.

The source's `double` and `long double` values are modelled as exact reals.

Multiplication and division are each stated through a partner:

- Sum and difference undo each other.
- Division is the unique right inverse of multiplication. The quotient times the divisor gives the dividend, and a product divided by its right factor gives the other factor back.
- The quaternion product is shown to be associative, to satisfy Hamilton's rules, and to agree with the Cayley–Dickson product over the two stored complex pairs.
- The norm is zero only at zero, and it is multiplicative.

The self-tests' expected values are proved: exactly where the test compares exactly, and within the test's tolerance where it allows one.

In `runTests` the comment at laba3.cpp:415 expects 0.04 + 0.08i + 0.12j + 0.16k as the quaternion quotient. The code computes (1 + 2i + 3j + 4k) / (5 + 6i + 7j + 8k) = (70 + 8i + 0j + 16k) / 174. The quaternion self-test at laba3.cpp:266-270 expects that value too. The model follows the code and that self-test (`Quaternions.SelfTestQuotient`, `Calculator.QuaternionRunTests`).

## Model

| member | source | states |
|---|---|---|
| ComplexNumbers.Copy | laba1.cpp:18 | the copy constructor yields a value equal to the original |
| ComplexNumbers.SetterLaws | laba1.cpp:21-25 | a setter changes only its own component: the getter reads back the value set, the other component is kept, setting a component to its own value changes nothing, and a later set of the same component overrides an earlier one |
| ComplexNumbers.SelfTest | laba1.cpp:62-108 | the exact checks of the self-test other than product and quotient hold: default value 0 + 0i, copy of 3 + 4i, sum 4 + 6i, difference 2 + 2i, and both setter sequences |
| ComplexNumbers.SelfTestQuotient | laba3.cpp:92-97 | (3 + 4i) / (1 + 2i) = 11/5 − 2/5·i, exactly the 2.2 − 0.4i the test expects, with a nonzero divisor |
| ComplexNumbers.SelfTestProduct | laba3.cpp:89-90 | (3 + 4i)(1 + 2i) = −5 + 10i |
| ComplexNumbers.AddSubInverse | laba3.cpp:33-40 | subtracting y undoes adding y, and adding y undoes subtracting y |
| ComplexNumbers.AddLaws | laba3.cpp:33-40 | the default value is the identity of + and −; + is commutative and associative; x − y = x + (−y); x − x = 0 |
| ComplexNumbers.MulOne | laba3.cpp:44-47 | 1 is the multiplicative unit: x·1 = x |
| ComplexNumbers.SquareI | laba3.cpp:44-47 | i·i = −1 |
| ComplexNumbers.MulCommutes | laba3.cpp:44-47 | x·y = y·x |
| ComplexNumbers.MulAssoc | laba3.cpp:44-47 | (x·y)·z = x·(y·z) |
| ComplexNumbers.MulDistributes | laba3.cpp:44-47 | x·(y + z) = x·y + x·z |
| ComplexNumbers.MulConjIsNormSq | laba3.cpp:49-53 | multiplying by the conjugate leaves the real number re² + im², the denominator of division |
| ComplexNumbers.NormSqMul | laba3.cpp:44-47 | re² + im² of a product is the product of the factors' re² + im² |
| ComplexNumbers.NormSqZero | laba3.cpp:53 | the division denominator is never negative, and it is zero exactly for the divisor 0 + 0i |
| ComplexNumbers.Div | laba3.cpp:52-56 | for a divisor with nonzero re² + im², the quotient times the divisor is the dividend |
| ComplexNumbers.QuotientTimesDivisor | laba3.cpp:52-56 | on the components: the two quotient formulas, multiplied back by c + di, give a and b |
| ComplexNumbers.DivOfProduct | laba3.cpp:44-56 | dividing x·y by y gives x back |
| ComplexNumbers.DivUnique | laba3.cpp:52-56 | z·y = x holds exactly when z = x / y |
| Quaternions.PairsRoundTrip | laba3.cpp:124-127 | the two stored complex pairs determine the quaternion and are recovered from it |
| Quaternions.Copy | laba3.cpp:130-131 | rebuilding from the four getters yields a value equal to the original |
| Quaternions.SetterLaws | laba3.cpp:134-142 | although setA/setB write the base pair and setC/setD write `second`, each setter changes exactly the component it names |
| Quaternions.AddSubInverse | laba3.cpp:145-157 | − undoes + and + undoes −; + is commutative; the default value is its identity; p plus p scaled by −1 is zero |
| Quaternions.MulAssoc | laba3.cpp:159-171 | the Hamilton product is associative |
| Quaternions.MulZeroRight | laba3.cpp:159-171 | a product with the zero quaternion on the right is zero |
| Quaternions.HamiltonRules | laba3.cpp:159-171 | i² = j² = k² = ijk = −1, ij = k = −ji, jk = i = −kj, ki = j = −ik |
| Quaternions.MulIsCayleyDickson | laba3.cpp:159-171 | the product equals the Cayley–Dickson product of the stored pairs, (z₁w₁ − z₂·conj w₂, z₁w₂ + z₂·conj w₁) |
| Quaternions.MulExtendsComplex | laba3.cpp:159-171 | on quaternions with c = d = 0 the product is complex multiplication |
| Quaternions.CommuteIff | laba3.cpp:159-171 | p·q = q·p exactly when the cross product of the vector parts is zero |
| Quaternions.Commutator | laba3.cpp:159-171 | p·q and q·p share the real part and differ by twice the cross product of the vector parts |
| Quaternions.ConjMul | laba3.cpp:174 | the conjugate built by division reverses products: conj(p·q) = conj q · conj p |
| Quaternions.ScaleIsMul | laba3.cpp:180-182 | scalar multiplication by k is the Hamilton product with the real quaternion k, on either side |
| Quaternions.MulScaleLeft | laba3.cpp:177-182 | a scalar factor moves out of the left operand of a product |
| Quaternions.ScaleInverse | laba3.cpp:177 | scaling by k and then by 1/k is the identity for nonzero k |
| Quaternions.MulConjIsNorm | laba3.cpp:174-186 | q·conj q = conj q·q = norm(q) as a real quaternion |
| Quaternions.NormZero | laba3.cpp:184-186 | the norm is never negative and is zero exactly for the zero quaternion |
| Quaternions.NormMul | laba3.cpp:184-186 | norm(p·q) = norm(p)·norm(q) |
| Quaternions.Div | laba3.cpp:173-178 | for a divisor of nonzero norm, the quotient multiplied on the right by the divisor is the dividend |
| Quaternions.DivTimesDivisor | laba3.cpp:173-178 | (p·conj q)·(1/norm q), multiplied on the right by q, is p |
| Quaternions.DivOfProduct | laba3.cpp:173-178 | dividing p·q by q gives p back |
| Quaternions.DivUnique | laba3.cpp:173-178 | z·q = p holds exactly when z = p / q |
| Quaternions.SelfTest | laba3.cpp:208-258 | the construction checks of the self-test hold: default 0, copy, the four setters, sum (6, 8, 10, 12) and difference (−4, −4, −4, −4) |
| Quaternions.SelfTestProduct | laba3.cpp:260-264 | (1 + 2i + 3j + 4k)(5 + 6i + 7j + 8k) = −60 + 12i + 30j + 24k |
| Quaternions.SelfTestNorm | laba3.cpp:273-274 | the norm of 1 + 2i + 3j + 4k is 1 + 4 + 9 + 16 = 30 |
| Quaternions.SelfTestScale | laba3.cpp:277-281 | (1 + 2i + 3j + 4k)·2 = 2 + 4i + 6j + 8k |
| Quaternions.SelfTestQuotient | laba3.cpp:266 | (1 + 2i + 3j + 4k) / (5 + 6i + 7j + 8k) = (70 + 8i + 0j + 16k) / 174 |
| Quaternions.QuotientWithinTolerance | laba3.cpp:266-270 | each component of that quotient lies within 10⁻⁶ of the value the test expects |
| Quaternions.SwappedQuotient | laba3.cpp:173-178 | with the test operands swapped, (5 + 6i + 7j + 8k) / (1 + 2i + 3j + 4k) = (70 − 8i + 0j − 16k) / 30, with a nonzero divisor |
| Quaternions.QuotientOrderMatters | laba3.cpp:173-178 | the two test operands have nonzero norms and their quotients in the two orders differ |
| Quaternions.SelfTestNotCommutative | laba3.cpp:260-264 | the test operands do not commute: p1·p2 ≠ p2·p1 |
| Calculator.PushPop | laba3.cpp:297-300 | pop undoes push, top reads what was pushed, and pushing the top back undoes a pop |
| Calculator.ApplyComplex | laba3.cpp:302-319 | the result minus the right operand (for +), plus it (for −), divided by it (for *), or multiplied by it (for /) gives the left operand; * by zero gives zero; an unknown operator gives 0 + 0i |
| Calculator.PerformComplex | laba3.cpp:296-322 | the stack shrinks by one, everything below the two operands is unchanged, and the new top is second-from-top op top |
| Calculator.ApplyQuaternion | laba3.cpp:331-348 | as ApplyComplex, for quaternions with the right division |
| Calculator.PerformQuaternion | laba3.cpp:325-351 | as PerformComplex, for quaternions |
| Calculator.PerformComplexOnPushed | laba3.cpp:296-322 | pushing x then y and performing op replaces them by x op y |
| Calculator.PerformQuaternionOnPushed | laba3.cpp:325-351 | pushing p then q and performing op replaces them by p op q |
| Calculator.ComplexOperandOrder | laba3.cpp:297-309 | the lower element is the left operand: the two stack orders give opposite differences, which differ unless the operands are equal |
| Calculator.ComplexDivisionOrder | laba3.cpp:297-314 | with 3 + 4i below 1 + 2i the quotient pushed is 11/5 − 2/5·i; with the two swapped it is 11/25 + 2/25·i |
| Calculator.QuaternionSubtractionOrder | laba3.cpp:326-337 | the lower quaternion is the left operand of −, and the two stack orders give different results unless the operands are equal |
| Calculator.QuaternionDivisionOrderFor | laba3.cpp:326-343 | for operands of nonzero norm, the two stack orders of / push p / q and q / p, and the stacks differ exactly when those quotients do |
| Calculator.QuaternionDivisionOrder | laba3.cpp:326-343 | with the test operands, dividing in the two stack orders leaves different stacks |
| Calculator.QuaternionOperandOrder | laba3.cpp:326-341 | with i below j the product pushed is k; with j below i it is −k |
| Calculator.InvalidOperationPushesZero | laba3.cpp:302-321 | an unrecognised operator consumes both operands and pushes zero, for both overloads |
| Calculator.ComplexRunTestsFor | laba3.cpp:355-384 | four rounds of "push two operands, perform + − * /" leave the sum, difference, product and quotient on the stack, bottom to top |
| Calculator.ComplexRunTests | laba3.cpp:355-384 | the complex half of the test run with 3 + 4i and 1 + 2i ends with their sum, difference, product and quotient |
| Calculator.QuaternionRunTestsFor | laba3.cpp:386-415 | the same for quaternions: the stack ends with the sum, difference, product and quotient |
| Calculator.QuaternionRunTests | laba3.cpp:386-415 | the quaternion half of the test run ends with the sum, difference, product and quotient of 1 + 2i + 3j + 4k and 5 + 6i + 7j + 8k |

## Left out

- `print`, the console output of `performOperation` ("Invalid operation") and of the tests, and `main`: output only.
- Floating point: `double` and `long double` become exact reals. Rounding is not modelled, and the self-test tolerances are met by exact values.
- Division by zero: the source's IEEE division yields infinities or NaN, which the exact reals have no counterpart for. The following members therefore require a nonzero divisor.
- ComplexNumbers.Div: requires re² + im² of the divisor to be nonzero.
- Quaternions.Div: requires the norm of the divisor to be nonzero.
- Calculator.ApplyComplex: requires a nonzero divisor for the operator `/` only.
- Calculator.ApplyQuaternion: requires a nonzero divisor for the operator `/` only.
- Calculator.PerformComplex: requires at least two elements on the stack, because `std::stack::top` on an empty stack is undefined behaviour. It also requires a nonzero top for `/`.
- Calculator.PerformQuaternion: requires at least two elements on the stack and a nonzero top for `/`, for the same reasons.
- The `NumberType` tag of laba3's classes and `getType`: they are written but never read by any operation.
- The inheritance of `Quaternion` from `ComplexNumber`: it is modelled as the two-pair storage view, not as subtyping. The laba1.cpp `Quaternion` class is empty.
- The quaternion `print` test at laba3.cpp:284-286: output only.
