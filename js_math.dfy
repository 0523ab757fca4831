/** The few pieces of JavaScript number semantics the dashboard's arithmetic
    relies on, over exact rationals: Math.round, Math.pow with a whole
    exponent, Math.min against 100 and the non-finite values a division
    by zero produces. */
module JsMath {

  /** Math.round: the nearest integer, halves rounded up (towards +infinity). */
  function Round(x: real): (r: int)
    ensures r as real - 0.5 <= x < r as real + 0.5
  {
    (x + 0.5).Floor
  }

  lemma RoundMonotone(x: real, y: real)
    requires x <= y
    ensures Round(x) <= Round(y)
  {
  }

  lemma RoundOfInt(k: int)
    ensures Round(k as real) == k
  {
  }

  /** Math.pow(b, e) for a whole exponent e. */
  function Pow(b: real, e: nat): (r: real)
    ensures b > 0.0 ==> r > 0.0
    ensures b >= 1.0 ==> r >= 1.0
  {
    if e == 0 then 1.0 else b * Pow(b, e - 1)
  }

  /** A JavaScript number as far as these computations go: a finite value or
      one of the three non-finite values. */
  datatype Number = Finite(value: real) | NaN | PosInfinity | NegInfinity

  /** a / b on finite operands: a division by zero gives NaN or a signed infinity. */
  function Divide(a: real, b: real): (r: Number)
    ensures b != 0.0 <==> r.Finite?
    ensures r.Finite? ==> r.value * b == a
    ensures r == NaN <==> a == 0.0 && b == 0.0
    ensures r == PosInfinity <==> b == 0.0 && a > 0.0
    ensures r == NegInfinity <==> b == 0.0 && a < 0.0
  {
    if b != 0.0 then Finite(a / b)
    else if a > 0.0 then PosInfinity
    else if a < 0.0 then NegInfinity
    else NaN
  }

  /** x * c for a positive constant c. */
  function Scale(x: Number, c: real): (r: Number)
    requires c > 0.0
    ensures r.Finite? <==> x.Finite?
    ensures r.Finite? ==> r.value == x.value * c
    ensures !x.Finite? ==> r == x
  {
    match x
    case Finite(v) => Finite(v * c)
    case _ => x
  }

  /** Math.round lifted to numbers: non-finite values pass through. */
  function RoundNumber(x: Number): (r: Number)
    ensures r.Finite? <==> x.Finite?
    ensures r.Finite? ==> r.value == Round(x.value) as real
    ensures !x.Finite? ==> r == x
  {
    match x
    case Finite(v) => Finite(Round(v) as real)
    case _ => x
  }

  /** Math.min(100, x): NaN if x is NaN, otherwise the smaller of the two. */
  function Min100(x: Number): (r: Number)
    ensures r != PosInfinity
    ensures r.Finite? ==> r.value <= 100.0
    ensures r == NaN <==> x == NaN
    ensures x.Finite? && x.value <= 100.0 ==> r == x
    ensures (x.Finite? && x.value >= 100.0) || x == PosInfinity ==> r == Finite(100.0)
  {
    match x
    case Finite(v) => if v <= 100.0 then x else Finite(100.0)
    case PosInfinity => Finite(100.0)
    case _ => x
  }

  /** x || 0 on a number: the falsy numbers (0 and NaN) become 0. */
  function OrZero(x: Number): (r: Number)
    ensures r != NaN
    ensures x != NaN ==> r == x
    ensures x == NaN ==> r == Finite(0.0)
  {
    if x == NaN then Finite(0.0) else x
  }

  /** One period of compound growth with a deposit: a non-negative balance
      grown by a factor of at least 1, plus a non-negative deposit, is at
      least the balance plus the deposit. */
  lemma GrowthStep(v: real, growth: real, deposit: real)
    requires v >= 0.0 && growth >= 1.0 && deposit >= 0.0
    ensures v * growth + deposit >= v + deposit
  {
    assert v * growth - v == v * (growth - 1.0);
  }

  /** What a computation gives back when it does not throw; TypeError stands
      for reading a property of `undefined` (an index past the end). */
  datatype Result<T> = Ok(value: T) | TypeError
}
