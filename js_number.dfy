/** Decimal text and numbers: `parseFloat`, the `Number(s)` conversion and the
    decimal digits of `Date.now()` that the ids are made of. JavaScript
    numbers are modelled as exact reals; rounding to binary64 is not. */
module JsNumber {
  import opened Optional
  import opened JsText

  predicate IsDigit(c: char) {
    '0' <= c <= '9'
  }

  function DigitValue(c: char): nat
    requires IsDigit(c)
  {
    c as int - '0' as int
  }

  function DigitChar(d: nat): (c: char)
    requires d < 10
    ensures IsDigit(c) && DigitValue(c) == d
  {
    ('0' as int + d) as char
  }

  predicate AllDigits(s: string) {
    forall i :: 0 <= i < |s| ==> IsDigit(s[i])
  }

  /** The value of a string of decimal digits, most significant first. */
  function DigitsValue(ds: string): nat
    requires AllDigits(ds)
  {
    if ds == [] then 0 else 10 * DigitsValue(ds[..|ds| - 1]) + DigitValue(ds[|ds| - 1])
  }

  /** The value of one decimal digit as a real number. */
  function DigitReal(c: char): real {
    if c == '1' then 1.0 else if c == '2' then 2.0 else if c == '3' then 3.0
    else if c == '4' then 4.0 else if c == '5' then 5.0 else if c == '6' then 6.0
    else if c == '7' then 7.0 else if c == '8' then 8.0 else if c == '9' then 9.0
    else 0.0
  }

  /** Reading the digits `ds` after a mantissa `m`, one at a time. */
  function Accumulate(m: real, ds: string): real
    decreases |ds|
  {
    if ds == [] then m else Accumulate(10.0 * m + DigitReal(ds[0]), ds[1..])
  }

  /** `m` times ten to the power `x`, one factor of ten at a time. */
  function Scale(m: real, x: int): real
    decreases if x >= 0 then x else -x
  {
    if x == 0 then m else if x > 0 then 10.0 * Scale(m, x - 1) else Scale(m, x + 1) / 10.0
  }

  /** Where the scanner is in a StrDecimalLiteral (section 7.1.4.1 of
      ECMA-262): before the sign, after it, in the integer digits, in the
      fraction, just after `e`/`E`, after the exponent's sign, in the
      exponent's digits. */
  datatype Phase = Lead | Signed | Mantissa | Fraction | ExpMark | ExpSigned | Exponent

  /** What the scanner has read so far: the sign, all mantissa digits as one
      number, whether there was at least one, how many of them follow the
      dot, and the exponent. */
  datatype Literal = Literal(phase: Phase, neg: bool, mant: real, seen: bool, fracLen: nat,
                             expNeg: bool, expVal: nat)

  const Start: Literal := Literal(Lead, false, 0.0, false, 0, false, 0)

  /** The number read so far, or None when no digit has been read. When the
      whole text must be a literal, an exponent mark without digits is not
      one; otherwise it is ignored, as `parseFloat` ignores it. */
  function LiteralValue(st: Literal, whole: bool): Option<real> {
    if !st.seen || (whole && (st.phase.ExpMark? || st.phase.ExpSigned?)) then None
    else
      var x: int := st.expVal;
      var e := if st.phase.Exponent? then (if st.expNeg then -x else x) else 0;
      var v := Scale(st.mant, e - st.fracLen);
      Some(if st.neg then -v else v)
  }

  /** A mantissa digit `c`. */
  function WithDigit(st: Literal, c: char, phase: Phase): Literal {
    st.(phase := phase, mant := 10.0 * st.mant + DigitReal(c), seen := true,
        fracLen := if phase.Fraction? then st.fracLen + 1 else st.fracLen)
  }

  /** An exponent digit `c`. */
  function WithExpDigit(st: Literal, c: char): Literal
    requires IsDigit(c)
  {
    st.(phase := Exponent, expVal := 10 * st.expVal + DigitValue(c))
  }

  /** Reads `s` one character at a time from state `st`. At the first
      character that cannot continue the literal it stops: with `whole`
      that makes the text not a number, without it the number read so far
      is the result. */
  function Scan(s: string, st: Literal, whole: bool): Option<real>
    decreases |s|
  {
    if s == [] then LiteralValue(st, whole)
    else
      var c := s[0];
      var t := s[1..];
      var stop := if whole then None else LiteralValue(st, whole);
      match st.phase
      case Lead =>
        if IsSpace(c) then Scan(t, st, whole)
        else if c == '+' || c == '-' then Scan(t, st.(phase := Signed, neg := c == '-'), whole)
        else if IsDigit(c) then Scan(t, WithDigit(st, c, Mantissa), whole)
        else if c == '.' then Scan(t, st.(phase := Fraction), whole)
        else stop
      case Signed =>
        if IsDigit(c) then Scan(t, WithDigit(st, c, Mantissa), whole)
        else if c == '.' then Scan(t, st.(phase := Fraction), whole)
        else stop
      case Mantissa =>
        if IsDigit(c) then Scan(t, WithDigit(st, c, Mantissa), whole)
        else if c == '.' then Scan(t, st.(phase := Fraction), whole)
        else if c == 'e' || c == 'E' then Scan(t, st.(phase := ExpMark), whole)
        else stop
      case Fraction =>
        if IsDigit(c) then Scan(t, WithDigit(st, c, Fraction), whole)
        else if (c == 'e' || c == 'E') && st.seen then Scan(t, st.(phase := ExpMark), whole)
        else stop
      case ExpMark =>
        if c == '+' || c == '-' then Scan(t, st.(phase := ExpSigned, expNeg := c == '-'), whole)
        else if IsDigit(c) then Scan(t, WithExpDigit(st, c), whole)
        else stop
      case ExpSigned =>
        if IsDigit(c) then Scan(t, WithExpDigit(st, c), whole)
        else stop
      case Exponent =>
        if IsDigit(c) then Scan(t, WithExpDigit(st, c), whole)
        else stop
  }

  /** `parseFloat(s)`: skips leading white space, reads an optional sign and
      the longest decimal literal, ignores what follows; None is NaN. */
  function ParseFloat(s: string): Option<real> {
    Scan(s, Start, false)
  }

  /** `Number(s)`: the whole trimmed text must be one signed decimal literal;
      blank text is 0; None is NaN. */
  function StringToNumber(s: string): Option<real> {
    var t := Trim(s);
    if t == [] then Some(0.0) else Scan(t, Start, true)
  }

  /** The empty string is not a number to `parseFloat`. */
  lemma ParseFloatEmpty()
    ensures ParseFloat("") == None
  {
  }

  /** Neither is a lone dot. */
  lemma ParseFloatDot()
    ensures ParseFloat(".") == None
  {
    assert "."[1..] == "";
  }

  /** Text made only of white space is not a number to `parseFloat`, so any
      text it reads a number from is not blank. */
  lemma BlankNotNumber(s: string)
    requires Blank(s)
    ensures ParseFloat(s) == None
  {
    BlankIffAllSpace(s);
    SpacesNotNumber(s);
  }

  lemma {:induction false} SpacesNotNumber(s: string)
    requires forall i :: 0 <= i < |s| ==> IsSpace(s[i])
    ensures Scan(s, Start, false) == None
  {
    if s != [] {
      assert IsSpace(s[0]);
      SpacesNotNumber(s[1..]);
    }
  }

  /** Blank text is 0 to `Number`. */
  lemma StringToNumberBlank(s: string)
    requires Blank(s)
    ensures StringToNumber(s) == Some(0.0)
  {
  }

  lemma DigitRealValue(c: char)
    requires IsDigit(c)
    ensures DigitReal(c) == DigitValue(c) as real
  {
    assert c == '0' || c == '1' || c == '2' || c == '3' || c == '4' || c == '5' || c == '6'
           || c == '7' || c == '8' || c == '9';
  }

  lemma {:induction false} AccumulateSnoc(m: real, ds: string, c: char)
    ensures Accumulate(m, ds + [c]) == 10.0 * Accumulate(m, ds) + DigitReal(c)
    decreases |ds|
  {
    if ds != [] {
      assert (ds + [c])[1..] == ds[1..] + [c];
      AccumulateSnoc(10.0 * m + DigitReal(ds[0]), ds[1..], c);
    }
  }

  /** Reading digits from 0 gives their value. */
  lemma {:induction false} AccumulateValue(ds: string)
    requires AllDigits(ds)
    ensures Accumulate(0.0, ds) == DigitsValue(ds) as real
  {
    if ds != [] {
      var p := ds[..|ds| - 1];
      assert ds == p + [ds[|ds| - 1]];
      AccumulateValue(p);
      AccumulateSnoc(0.0, p, ds[|ds| - 1]);
      DigitRealValue(ds[|ds| - 1]);
    }
  }

  /** In the integer digits, a run of digits is read into the mantissa. */
  lemma {:induction false} ScanDigits(ds: string, rest: string, st: Literal, whole: bool)
    requires AllDigits(ds) && st.phase.Mantissa?
    ensures Scan(ds + rest, st, whole)
         == Scan(rest, st.(mant := Accumulate(st.mant, ds), seen := st.seen || ds != []), whole)
  {
    if ds != [] {
      assert (ds + rest)[0] == ds[0] && (ds + rest)[1..] == ds[1..] + rest;
      ScanDigits(ds[1..], rest, WithDigit(st, ds[0], Mantissa), whole);
    } else {
      assert ds + rest == rest;
    }
  }

  /** A run of digits followed by text that cannot continue a number parses
      to the digits' value: `parseFloat("12abc") == 12`. */
  lemma ParseFloatDigitsPrefix(ds: string, rest: string)
    requires |ds| >= 1 && AllDigits(ds)
    requires rest == [] || (!IsDigit(rest[0]) && rest[0] != '.' && rest[0] != 'e' && rest[0] != 'E')
    ensures ParseFloat(ds + rest) == Some(DigitsValue(ds) as real)
  {
    var s := ds + rest;
    assert s[0] == ds[0] && s[1..] == ds[1..] + rest;
    var st := WithDigit(Start, ds[0], Mantissa);
    assert !IsSpace(ds[0]);
    assert ParseFloat(s) == Scan(ds[1..] + rest, st, false);
    ScanDigits(ds[1..], rest, st, false);
    var end := st.(mant := Accumulate(st.mant, ds[1..]), seen := true);
    assert Scan(rest, end, false) == LiteralValue(end, false);
    AccumulateValue(ds);
    assert Accumulate(0.0, ds) == end.mant;
  }

  /** The decimal digits of `n` without leading zeros (`n.toString()`). */
  function Decimal(n: nat): (r: string)
    ensures |r| >= 1 && AllDigits(r)
    ensures DigitsValue(r) == n
  {
    if n < 10 then
      [DigitChar(n)]
    else
      var r := Decimal(n / 10) + [DigitChar(n % 10)];
      assert r[..|r| - 1] == Decimal(n / 10);
      r
  }

  /** Different clock readings give different digit strings, so ids made
      from them differ. */
  lemma {:induction false} DecimalInjective(a: nat, b: nat)
    requires Decimal(a) == Decimal(b)
    ensures a == b
  {
    assert DigitsValue(Decimal(a)) == a && DigitsValue(Decimal(b)) == b;
  }

  /** `parseFloat(String(n)) == n` for a natural number `n`. */
  lemma {:induction false} ParseFloatDecimal(n: nat)
    ensures ParseFloat(Decimal(n)) == Some(n as real)
  {
    ParseFloatDigitsPrefix(Decimal(n), "");
    assert Decimal(n) + "" == Decimal(n);
  }
}
