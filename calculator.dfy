/** The arithmetic library: four functions over two operands.
    Operands are exact reals; floating-point rounding, infinities and NaN are
    not part of this model. */
module Calculator {

  /** What a library call does: it returns a number, or it raises a
      `ValueError` carrying a message. */
  datatype Outcome = Returned(value: real) | Raised(message: string)

  /** The message of the `ValueError` raised by a division by zero. */
  const DivideByZeroMessage: string := "Cannot divide by zero"

  /** Sum of the two operands; never raises. Taking either operand away
      from the sum leaves the other. */
  function Add(a: real, b: real): (r: real)
    ensures r - b == a && r - a == b
  {
    a + b
  }

  /** `a` minus `b`; never raises. The difference is what must be added to
      `b` to reach `a`. */
  function Subtract(a: real, b: real): (r: real)
    ensures r + b == a
  {
    a - b
  }

  /** Product of the two operands; never raises. The product is zero
      exactly when an operand is, and dividing it by a non-zero operand gives
      the other back. */
  function Multiply(a: real, b: real): (r: real)
    ensures r == 0.0 <==> a == 0.0 || b == 0.0
    ensures b != 0.0 ==> r / b == a
    ensures a != 0.0 ==> r / a == b
  {
    a * b
  }

  /** True division of `a` by `b`. The divisor zero is the one input that
      raises; any other divisor gives the number that, multiplied by `b`,
      gives back `a`. */
  function Divide(a: real, b: real): (r: Outcome)
    ensures r.Raised? <==> b == 0.0
    ensures r.Raised? ==> r.message == DivideByZeroMessage
    ensures r.Returned? ==> Multiply(r.value, b) == a
  {
    if b == 0.0 then Raised(DivideByZeroMessage) else Returned(a / b)
  }

  /** Adding is symmetric in its operands. */
  lemma AddCommutes(a: real, b: real)
    ensures Add(a, b) == Add(b, a)
  {
  }

  /** Swapping the operands of a subtraction negates its result. */
  lemma SubtractAntisymmetric(a: real, b: real)
    ensures Subtract(a, b) == -Subtract(b, a)
  {
  }

  /** Subtracting `b` undoes adding `b`, and the other way round. */
  lemma SubtractUndoesAdd(a: real, b: real)
    ensures Subtract(Add(a, b), b) == a
    ensures Add(Subtract(a, b), b) == a
  {
  }

  /** A quotient is exactly the number whose product with the divisor is the
      dividend, and there is one only for a non-zero divisor. */
  lemma QuotientCharacterised(a: real, b: real, q: real)
    ensures Divide(a, b) == Returned(q) <==> b != 0.0 && Multiply(q, b) == a
  {
  }

  /** Dividing by a non-zero `b` undoes multiplying by `b`. */
  lemma DivideUndoesMultiply(a: real, b: real)
    requires b != 0.0
    ensures Divide(Multiply(a, b), b) == Returned(a)
  {
  }

  /** The concrete cases the library's unit tests assert (all but `power`). */
  lemma UnitTestCases()
    ensures Add(2.0, 3.0) == 5.0 && Add(-1.0, 1.0) == 0.0
    ensures Subtract(5.0, 3.0) == 2.0 && Subtract(0.0, 5.0) == -5.0
    ensures Multiply(3.0, 4.0) == 12.0 && Multiply(-2.0, 3.0) == -6.0
    ensures Divide(10.0, 2.0) == Returned(5.0)
    ensures Divide(5.0, 0.0).Raised?
  {
  }
}
