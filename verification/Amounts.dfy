/** Exact conversion of a mandate's decimal amount into USD micro-cents (10^-8 USD). */
module Amounts {
  import opened Basics
  import opened Mandates

  const MAX_USD_MICROS: int := 9223372036854775807
  const MAX_DECIMAL_PLACES: int := 8
  const MAX_INTEGER_DIGITS: int := 19

  function Max(a: int, b: int): int {
    if a < b then b else a
  }

  function Pow10(n: nat): (p: nat)
    ensures p >= 1
  {
    if n == 0 then 1 else 10 * Pow10(n - 1)
  }

  /** The positional value of a digit string, most significant digit first. */
  function Coefficient(digits: seq<nat>): nat {
    if |digits| == 0 then 0
    else digits[0] * Pow10(|digits| - 1) + Coefficient(digits[1..])
  }

  /** When an amount is accepted, without any mention of digit counts. Zero is the one
      value on which the digit cap shows. */
  predicate Representable(d: Decimal) {
    && !d.negative
    && d.exponent >= -MAX_DECIMAL_PLACES
    && if Coefficient(d.digits) == 0 then d.exponent <= 18
       else Coefficient(d.digits) * Pow10(d.exponent + MAX_DECIMAL_PLACES) <= MAX_USD_MICROS
  }

  /** The amount a mandate stands for, or the exception class its conversion raises. */
  function AmountOf(p: Platform, m: Mandate): Result<nat, Fault> {
    if p.upper(m.currency) != "USD" then Err(CurrencyFault)
    else match m.amountValue
      case Finite(d) =>
        if Representable(d) then Ok(Coefficient(d.digits) * Pow10(d.exponent + MAX_DECIMAL_PLACES))
        else Err(MandateFault)
      case _ => Err(MandateFault)
  }

  // ---- powers of ten and digit strings ----

  lemma Product(a: nat, b: nat, c: nat)
    requires a >= b
    ensures a * c >= b * c
  {}

  lemma StrictProduct(a: nat, b: nat, c: nat)
    requires a < b && c > 0
    ensures a * c < b * c
  {}

  lemma {:induction false} PowAdd(a: nat, b: nat)
    ensures Pow10(a + b) == Pow10(a) * Pow10(b)
  {
    if a == 0 {
    } else {
      PowAdd(a - 1, b);
      assert Pow10(a + b) == 10 * (Pow10(a - 1) * Pow10(b));
    }
  }

  lemma {:induction false} PowMonotone(a: nat, b: nat)
    requires a <= b
    ensures Pow10(a) <= Pow10(b)
    decreases b
  {
    if a < b {
      PowMonotone(a, b - 1);
    }
  }

  lemma PowValues()
    ensures Pow10(8) == 100000000
    ensures Pow10(19) == 10000000000000000000
    ensures Pow10(27) == 1000000000000000000000000000
  {
    assert Pow10(4) == 10000 by {
      assert Pow10(2) == 100;
    }
    PowAdd(4, 4);
    PowAdd(8, 8);
    assert Pow10(3) == 1000;
    PowAdd(16, 3);
    PowAdd(19, 8);
  }

  /** A digit string of length n stands for less than 10^n. */
  lemma {:induction false} CoefficientBelow(digits: seq<nat>)
    requires forall i :: 0 <= i < |digits| ==> digits[i] <= 9
    ensures Coefficient(digits) < Pow10(|digits|)
  {
    if |digits| > 0 {
      CoefficientBelow(digits[1..]);
      Product(9, digits[0], Pow10(|digits| - 1));
    }
  }

  /** Without a leading zero it stands for at least 10^(n-1). */
  lemma CoefficientAtLeast(digits: seq<nat>)
    requires |digits| > 0 && digits[0] > 0
    ensures Coefficient(digits) >= Pow10(|digits| - 1)
  {
    Product(digits[0], 1, Pow10(|digits| - 1));
  }

  lemma ZeroCoefficient(d: Decimal)
    ensures Coefficient(d.digits) == 0 <==> d.digits == [0]
  {
    if d.digits[0] > 0 {
      CoefficientAtLeast(d.digits);
    } else {
      assert d.digits == [0];
      assert Coefficient(d.digits[1..]) == 0;
    }
  }

  // ---- the two magnitude bounds ----

  /** The coarse guard in front of the power-of-ten allocation. */
  predicate WithinDigitCap(d: Decimal) {
    |d.digits| + Max(0, d.exponent) <= MAX_INTEGER_DIGITS
  }

  /** Past the coarse guard a nonzero amount is always past the int64 ceiling too, so the guard
      by itself rejects nothing but zeros. */
  lemma DigitCapNeverDecides(d: Decimal)
    requires d.digits != [0] && d.exponent >= -MAX_DECIMAL_PLACES
    requires !WithinDigitCap(d)
    ensures Coefficient(d.digits) * Pow10(d.exponent + MAX_DECIMAL_PLACES) > MAX_USD_MICROS
  {
    var n := |d.digits|;
    var shift := d.exponent + MAX_DECIMAL_PLACES;
    CoefficientAtLeast(d.digits);
    PowAdd(n - 1, shift);
    PowMonotone(19, n - 1 + shift);
    PowValues();
    Product(Coefficient(d.digits), Pow10(n - 1), Pow10(shift));
  }

  /** However large the exponent in the text, no intermediate integer is large: this is what the
      coarse guard is for. */
  lemma BoundedWork(d: Decimal)
    requires d.exponent >= -MAX_DECIMAL_PLACES && WithinDigitCap(d)
    ensures 0 <= d.exponent + MAX_DECIMAL_PLACES <= 26
    ensures Coefficient(d.digits) < Pow10(19)
    ensures Coefficient(d.digits) * Pow10(d.exponent + MAX_DECIMAL_PLACES) < Pow10(27)
  {
    var n, shift := |d.digits|, d.exponent + MAX_DECIMAL_PLACES;
    CoefficientBelow(d.digits);
    PowMonotone(n, 19);
    ShiftedBelow(Coefficient(d.digits), n, shift, 27);
  }

  lemma ShiftedBelow(c: nat, n: nat, shift: nat, bound: nat)
    requires c < Pow10(n) && n + shift <= bound
    ensures c * Pow10(shift) < Pow10(bound)
  {
    StrictProduct(c, Pow10(n), Pow10(shift));
    PowAdd(n, shift);
    PowMonotone(n + shift, bound);
  }

  // ---- the conversion itself ----

  /** `value < 0` on a decimal: a negative zero is not below zero. */
  predicate BelowZero(d: Decimal) {
    d.negative && d.digits != [0]
  }

  /** Every guard in front of the sign branch has let the amount pass, and its sign is negative. */
  predicate ReachesSignBranch(d: Decimal) {
    !BelowZero(d) && d.exponent >= -MAX_DECIMAL_PLACES && WithinDigitCap(d) && d.negative
  }

  /** The sign branch is there for negative zeros: it is reached by those within both bounds, and by
      nothing else. */
  lemma SignBranchIsForNegativeZero(d: Decimal)
    ensures ReachesSignBranch(d) <==> d.digits == [0] && d.negative && -MAX_DECIMAL_PLACES <= d.exponent <= 18
  {}

  /** What the two bounds decide between them. */
  lemma Outcome(p: Platform, m: Mandate, d: Decimal)
    requires p.upper(m.currency) == "USD" && m.amountValue == Finite(d)
    ensures d.negative || d.exponent < -MAX_DECIMAL_PLACES || !WithinDigitCap(d) ==> AmountOf(p, m) == Err(MandateFault)
    ensures !d.negative && d.exponent >= -MAX_DECIMAL_PLACES && WithinDigitCap(d) ==>
      var micros := Coefficient(d.digits) * Pow10(d.exponent + MAX_DECIMAL_PLACES);
      AmountOf(p, m) == if micros > MAX_USD_MICROS then Err(MandateFault) else Ok(micros)
  {
    ZeroCoefficient(d);
    if d.digits == [0] {
      assert Coefficient(d.digits) == 0;
    } else if d.exponent >= -MAX_DECIMAL_PLACES && !WithinDigitCap(d) {
      DigitCapNeverDecides(d);
    }
  }

  /** The conversion as the code performs it: both bounds, the sign branch, the digit fold and
      the scaling. The specification it meets knows nothing of the coarse bound. */
  method AmountMicros(p: Platform, m: Mandate) returns (r: Result<nat, Fault>)
    ensures r == AmountOf(p, m)
  {
    if p.upper(m.currency) != "USD" {
      return Err(CurrencyFault);
    }
    if m.amountValue.Unparsable? {
      return Err(MandateFault);
    }
    if m.amountValue.NonFinite? {
      return Err(MandateFault);
    }
    var d := m.amountValue.decimal;
    Outcome(p, m, d);
    if BelowZero(d) {
      return Err(MandateFault);
    }
    if d.exponent < -MAX_DECIMAL_PLACES {
      return Err(MandateFault);
    }
    var totalIntegerDigits := |d.digits| + Max(0, d.exponent);
    if totalIntegerDigits > MAX_INTEGER_DIGITS {
      return Err(MandateFault);
    }
    if d.negative {
      assert ReachesSignBranch(d);
      return Err(MandateFault);
    }
    assert !ReachesSignBranch(d);
    var intValue: nat := 0;
    for i := 0 to |d.digits|
      invariant intValue == Folded(d.digits[..i])
    {
      assert d.digits[..i + 1][..i] == d.digits[..i];
      intValue := intValue * 10 + d.digits[i];
    }
    assert d.digits[..|d.digits|] == d.digits;
    FoldIsPositional(d.digits);
    var shift := d.exponent + MAX_DECIMAL_PLACES;
    var scale := Pow10(shift);
    var micros := intValue * scale;
    if micros > MAX_USD_MICROS {
      return Err(MandateFault);
    }
    return Ok(micros);
  }

  /** The value after folding in one digit at a time from the left. */
  function Folded(digits: seq<nat>): nat {
    if |digits| == 0 then 0
    else Folded(digits[..|digits| - 1]) * 10 + digits[|digits| - 1]
  }

  lemma {:induction false} FoldIsPositional(digits: seq<nat>)
    ensures Folded(digits) == Coefficient(digits)
  {
    if |digits| > 0 {
      var k := |digits| - 1;
      FoldIsPositional(digits[..k]);
      AppendDigit(digits[..k], digits[k]);
      assert digits[..k] + [digits[k]] == digits;
    }
  }

  lemma {:induction false} AppendDigit(digits: seq<nat>, last: nat)
    ensures Coefficient(digits + [last]) == 10 * Coefficient(digits) + last
  {
    if |digits| == 0 {
      assert Coefficient([last]) == last * Pow10(0) + Coefficient([]);
    } else {
      assert (digits + [last])[1..] == digits[1..] + [last];
      AppendDigit(digits[1..], last);
      ScaleUp(digits[0], Pow10(|digits| - 1));
    }
  }

  lemma ScaleUp(a: nat, b: nat)
    ensures a * (10 * b) == 10 * (a * b)
  {}

  // ---- exactness and order ----

  /** 10^e for any integer e. */
  function Power(e: int): (x: real)
    ensures x > 0.0
    decreases if e >= 0 then 0 else -e
  {
    if e >= 0 then Pow10(e) as real else Power(e + 1) / 10.0
  }

  /** The number a decimal tuple denotes. */
  function ValueOf(d: Decimal): real {
    var magnitude := Coefficient(d.digits) as real * Power(d.exponent);
    if d.negative then -magnitude else magnitude
  }

  lemma {:induction false} PowerShift(e: int)
    requires e >= -MAX_DECIMAL_PLACES
    ensures Pow10(e + MAX_DECIMAL_PLACES) as real == Power(e) * 100000000.0
    decreases if e >= 0 then 0 else -e
  {
    if e >= 0 {
      PowAdd(e, 8);
      PowValues();
    } else {
      PowerShift(e + 1);
    }
  }

  lemma Rescale(c: nat, scale: nat, s: real)
    requires scale as real == s * 100000000.0
    ensures (c * scale) as real == (c as real * s) * 100000000.0
  {
    assert (c * scale) as real == c as real * scale as real;
    assert c as real * (s * 100000000.0) == (c as real * s) * 100000000.0;
  }

  lemma ScaledValue(d: Decimal)
    requires d.exponent >= -MAX_DECIMAL_PLACES && !d.negative
    ensures (Coefficient(d.digits) * Pow10(d.exponent + MAX_DECIMAL_PLACES)) as real == ValueOf(d) * 100000000.0
  {
    var c, scale, s := Coefficient(d.digits), Pow10(d.exponent + MAX_DECIMAL_PLACES), Power(d.exponent);
    assert ValueOf(d) == c as real * s;
    assert (c * scale) as real == (c as real * s) * 100000000.0 by {
      PowerShift(d.exponent);
      Rescale(c, scale, s);
    }
  }

  /** An accepted amount is the decimal times 10^8, with nothing rounded away. */
  lemma Exact(p: Platform, m: Mandate)
    requires AmountOf(p, m).Ok?
    ensures m.amountValue.Finite?
    ensures AmountOf(p, m).value as real == ValueOf(m.amountValue.decimal) * 100000000.0
  {
    ScaledValue(m.amountValue.decimal);
  }

  lemma PositiveValue(d: Decimal)
    requires d.digits != [0]
    ensures 0.0 < ValueOf(d) <==> !d.negative
  {
    ZeroCoefficient(d);
    PositiveProduct(Coefficient(d.digits) as real, Power(d.exponent));
  }

  lemma PositiveProduct(a: real, b: real)
    requires a > 0.0 && b > 0.0
    ensures a * b > 0.0
  {}

  /** Acceptance by value alone: of a finite amount in US dollars, however the currency is cased, with at
      most eight decimal places. A nonzero amount is accepted exactly when it is positive and fits int64
      as micro-cents. A zero is accepted unless it is spelled with a minus sign or with an exponent above
      18, although its value always fits. */
  lemma AcceptedByValue(p: Platform, m: Mandate)
    ensures AmountOf(p, m).Ok? <==>
      && p.upper(m.currency) == "USD" && m.amountValue.Finite?
      && var d := m.amountValue.decimal;
         && d.exponent >= -8
         && if d.digits == [0] then !d.negative && d.exponent <= 18
            else 0.0 < ValueOf(d) && ValueOf(d) * 100000000.0 <= 0x7FFF_FFFF_FFFF_FFFF as real
  {
    hide ValueOf, Pow10;
    if m.amountValue.Finite? {
      var d := m.amountValue.decimal;
      ZeroCoefficient(d);
      if d.digits != [0] {
        PositiveValue(d);
        if d.exponent >= -MAX_DECIMAL_PLACES && !d.negative {
          ScaledValue(d);
        }
      }
    }
  }

  /** Which of the two exceptions a rejected amount raises: a wrong currency comes first, everything else
      is the mandate's fault. */
  lemma FaultOf(p: Platform, m: Mandate)
    ensures AmountOf(p, m) == Err(CurrencyFault) <==> p.upper(m.currency) != "USD"
    ensures AmountOf(p, m) == Err(MandateFault) <==> p.upper(m.currency) == "USD" && AmountOf(p, m).Err?
  {
    hide Representable;
  }

  /** Two spellings that are accepted give the same micro-cents exactly when they denote the same
      number, and a larger number gives more micro-cents. */
  lemma OrderPreserved(p: Platform, m: Mandate, m': Mandate)
    requires AmountOf(p, m).Ok? && AmountOf(p, m').Ok?
    ensures m.amountValue.Finite? && m'.amountValue.Finite?
    ensures AmountOf(p, m).value < AmountOf(p, m').value
       <==> ValueOf(m.amountValue.decimal) < ValueOf(m'.amountValue.decimal)
    ensures AmountOf(p, m).value == AmountOf(p, m').value
       <==> ValueOf(m.amountValue.decimal) == ValueOf(m'.amountValue.decimal)
  {
    Exact(p, m);
    Exact(p, m');
  }

  /** Every accepted amount fits a non-negative int64. */
  lemma AmountInRange(p: Platform, m: Mandate)
    requires AmountOf(p, m).Ok?
    ensures 0 <= AmountOf(p, m).value <= MAX_USD_MICROS == 0x7FFF_FFFF_FFFF_FFFF
  {
    var d := m.amountValue.decimal;
    if Coefficient(d.digits) == 0 {
      assert 0 * Pow10(d.exponent + MAX_DECIMAL_PLACES) == 0;
    }
  }

  // ---- amounts supplied by the caller ----

  /** The check on amounts that arrive from the caller: only a plain integer (a `bool` is not
      one), and only within int64. */
  function ValidateMicros(amount: PyValue): (r: Result<int, Fault>)
    ensures r.Ok? <==> amount.PyInt? && 0 <= amount.i <= MAX_USD_MICROS
    ensures r.Ok? ==> amount == PyInt(r.value)
    ensures r.Err? ==> r.error == MandateFault
  {
    match amount
    case PyInt(i) =>
      if i < 0 then Err(MandateFault)
      else if i > MAX_USD_MICROS then Err(MandateFault)
      else Ok(i)
    case _ => Err(MandateFault)
  }
}
