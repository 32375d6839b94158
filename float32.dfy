/** A float32 value as both harnesses compute with it. Finite values are
    exact reals: rounding is not modelled. The non-finite values are kept,
    because a division by zero in the harnesses produces them and IEEE 754
    comparisons then behave in a way that decides the verdicts. Signed zero
    is not modelled: every zero the harnesses divide by is +0. */
module Float32 {

  datatype Float = Num(val: real) | PosInf | NegInf | NaN

  /** The sign of a value that is not NaN: -1, 0 or 1. */
  function Sign(x: Float): int
    requires !x.NaN?
  {
    match x
    case Num(a) => if a > 0.0 then 1 else if a < 0.0 then -1 else 0
    case PosInf => 1
    case NegInf => -1
  }

  /** The infinity with the given sign (a positive sign gives PosInf). */
  function Infinity(sign: int): Float
  {
    if sign > 0 then PosInf else NegInf
  }

  /** x > y as IEEE 754 compares: false whenever either side is NaN. */
  predicate Gt(x: Float, y: Float)
  {
    match x
    case NaN => false
    case NegInf => false
    case PosInf => y.Num? || y.NegInf?
    case Num(a) => y.NegInf? || (y.Num? && a > y.val)
  }

  /** x <= y as IEEE 754 compares: false whenever either side is NaN. */
  predicate Le(x: Float, y: Float)
  {
    !x.NaN? && !y.NaN? && !Gt(x, y)
  }

  function Add(x: Float, y: Float): Float
  {
    if x.NaN? || y.NaN? then NaN
    else if x.Num? && y.Num? then Num(x.val + y.val)
    else if x.Num? then y
    else if y.Num? then x
    else if x == y then x
    else NaN // infinities of opposite sign
  }

  function Mul(x: Float, y: Float): Float
  {
    if x.NaN? || y.NaN? then NaN
    else if x.Num? && y.Num? then Num(x.val * y.val)
    else if Sign(x) == 0 || Sign(y) == 0 then NaN // zero times infinity
    else Infinity(Sign(x) * Sign(y))
  }

  function Div(x: Float, y: Float): Float
  {
    if x.NaN? || y.NaN? then NaN
    else if y.Num? && y.val != 0.0 then
      if x.Num? then Num(x.val / y.val) else Infinity(Sign(x) * Sign(y))
    else if y.Num? then
      if Sign(x) == 0 then NaN else Infinity(Sign(x)) // division by +0
    else if x.Num? then Num(0.0)
    else NaN // infinity divided by infinity
  }

  lemma MulNums(a: real, b: real)
    ensures Mul(Num(a), Num(b)) == Num(a * b)
  {
  }

  /** k times the float reciprocal of a positive s is k / s. */
  lemma MulByReciprocal(k: real, s: real)
    requires s > 0.0
    ensures Mul(Num(k), Div(Num(1.0), Num(s))) == Num(k / s)
  {
    assert Div(Num(1.0), Num(s)) == Num(1.0 / s);
    MulNums(k, 1.0 / s);
    assert k * (1.0 / s) == k / s;
  }

  /** Two values added to a running total in either order give the same
      total. */
  lemma AddSwap(x: Float, a: Float, b: Float)
    ensures Add(Add(x, a), b) == Add(Add(x, b), a)
  {
    if x.Num? && a.Num? && b.Num? {
      assert x.val + a.val + b.val == x.val + b.val + a.val;
    }
  }

  /** Nothing exceeds itself. */
  lemma GtIrreflexive(x: Float)
    ensures !Gt(x, x)
  {
  }

  /** If d does not exceed a, and b is a or exceeds a, then d does not
      exceed b: raising a running maximum keeps every earlier bound. */
  lemma NotGtRaised(d: Float, a: Float, b: Float)
    requires !Gt(d, a)
    requires b == a || Gt(b, a)
    ensures !Gt(d, b)
  {
  }

  /** A value at or above 0 stays so when a running maximum is raised. */
  lemma NonNegativeRaised(a: Float, b: Float)
    requires Le(Num(0.0), a)
    requires b == a || Gt(b, a)
    ensures Le(Num(0.0), b)
  {
  }

  /** If d exceeds c and does not exceed the number-or-infinity m, then m
      exceeds c. */
  lemma GtThroughBound(d: Float, m: Float, c: Float)
    requires Gt(d, c) && !Gt(d, m) && !m.NaN?
    ensures Gt(m, c)
  {
  }
}
