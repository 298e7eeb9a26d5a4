/** The value of an IEEE-754 double, read off its 64-bit pattern, and the arithmetic and comparisons on such values
    without their rounding. */
module Doubles {
  import opened Types

  const FRACTION_UNIT: nat := 0x10_0000_0000_0000        // 2^52
  const SIGN_UNIT: nat := 0x8000_0000_0000_0000          // 2^63
  const EXPONENT_ALL_ONES: nat := 0x7FF

  function Exponent(d: Double): nat {
    (d / FRACTION_UNIT) % 0x800
  }

  // std::isfinite: infinities and NaNs have all exponent bits set.
  predicate IsFinite(d: Double) {
    Exponent(d) != EXPONENT_ALL_ONES
  }

  // Compares equal to 0.0: both zeros do.
  predicate IsZero(d: Double) {
    d % SIGN_UNIT == 0
  }

  predicate SignBit(d: Double) {
    (d / SIGN_UNIT) % 2 == 1
  }

  function PowerOfTwo(k: nat): (r: real)
    ensures r >= 1.0
  {
    if k == 0 then 1.0 else 2.0 * PowerOfTwo(k - 1)
  }

  // 2^(e - 1075), the weight of the last fraction bit at biased exponent e.
  function UlpWeight(e: nat): real {
    if e >= 1075 then PowerOfTwo(e - 1075) else 1.0 / PowerOfTwo(1075 - e)
  }

  // The real number a finite double denotes (subnormals share exponent 1).
  function Value(d: Double): real {
    var fraction := d % FRACTION_UNIT;
    var e := Exponent(d);
    var magnitude := if e == 0 then (fraction as real) * UlpWeight(1)
                     else ((FRACTION_UNIT + fraction) as real) * UlpWeight(e);
    if SignBit(d) then -magnitude else magnitude
  }

  // --- infinities and NaN ---------------------------------------------------------------------

  datatype Extended = Finite(value: real) | PosInf | NegInf | NaN

  function Decode(d: Double): Extended {
    if IsFinite(d) then Finite(Value(d))
    else if d % FRACTION_UNIT != 0 then NaN
    else if SignBit(d) then NegInf else PosInf
  }

  // One quiet NaN.
  const NAN_BITS: Double := 0x7FF8_0000_0000_0000

  lemma NaNBits()
    ensures Decode(NAN_BITS).NaN?
  {}

  // A sign, eleven exponent bits and 52 fraction bits.
  function Bits(negative: bool, exponent: nat, fraction: nat): Double {
    (if negative then SIGN_UNIT else 0) + exponent * FRACTION_UNIT + fraction
  }

  lemma BitsRead(negative: bool, exponent: nat, fraction: nat)
    requires exponent < 2048 && fraction < FRACTION_UNIT
    ensures var d := Bits(negative, exponent, fraction);
      Exponent(d) == exponent && d % FRACTION_UNIT == fraction && SignBit(d) == negative
  {}

  /** The value of every bit pattern: with all exponent bits set an infinity or NaN, otherwise the fraction in units of
      2^-1074, or of 2^(e-1075) with a leading one; a bias of 1023 makes 1.0 of an empty fraction. */
  lemma DecodesAs(negative: bool, exponent: nat, fraction: nat)
    requires exponent < 2048 && fraction < FRACTION_UNIT
    ensures var x, sign := Decode(Bits(negative, exponent, fraction)), if negative then -1.0 else 1.0;
      && (exponent == 2047 && fraction == 0 ==> x == if negative then NegInf else PosInf)
      && (exponent == 2047 && fraction > 0 ==> x == NaN)
      && (exponent == 0 ==> x == Finite(sign * (fraction as real * (1.0 / PowerOfTwo(1074)))))
      && (0 < exponent < 1075 ==>
            x == Finite(sign * ((0x10_0000_0000_0000 + fraction) as real * (1.0 / PowerOfTwo(1075 - exponent)))))
      && (1075 <= exponent < 2047 ==>
            x == Finite(sign * ((0x10_0000_0000_0000 + fraction) as real * PowerOfTwo(exponent - 1075))))
  {
    BitsRead(negative, exponent, fraction);
  }

  function Plus(x: Extended, y: Extended): Extended {
    if x.NaN? || y.NaN? then NaN
    else if x.Finite? && y.Finite? then Finite(x.value + y.value)
    else if x.Finite? then y
    else if y.Finite? || x == y then x
    else NaN                                             // infinities of opposite sign
  }

  function Negate(x: Extended): Extended {
    match x case Finite(v) => Finite(-v) case PosInf => NegInf case NegInf => PosInf case NaN => NaN
  }

  // x times a finite factor.
  function Scaled(w: real, x: Extended): Extended {
    match x
    case Finite(v) => Finite(w * v)
    case NaN => NaN
    case _ => if w == 0.0 then NaN else if w > 0.0 then x else Negate(x)
  }

  // The operators <, <= and ==: each is false when an operand is NaN.
  predicate Less(x: Extended, y: Extended) {
    || (x.Finite? && y.Finite? && x.value < y.value)
    || (x.NegInf? && (y.Finite? || y.PosInf?))
    || (x.Finite? && y.PosInf?)
  }

  predicate LessEq(x: Extended, y: Extended) {
    Less(x, y) || Same(x, y)
  }

  predicate Same(x: Extended, y: Extended) {
    !x.NaN? && x == y
  }

  lemma PlusMonotone(x: Extended, y: Extended, u: Extended, v: Extended)
    requires LessEq(x, u) && LessEq(y, v) && !Plus(x, y).NaN? && !Plus(u, v).NaN?
    ensures LessEq(Plus(x, y), Plus(u, v))
  {}
}
