/**
 * The parts of JavaScript's `parseInt` / `parseFloat` that the form relies on,
 * with JavaScript numbers modelled as exact reals and NaN as `None`.
 */
module JsNumbers {
  import opened Wrappers
  import opened TextUtil

  predicate IsDigit(c: char) { '0' <= c <= '9' }

  function DigitValue(c: char): nat
    requires IsDigit(c)
  {
    c as int - '0' as int
  }

  predicate IsSpace(c: char)
  {
    c == ' ' || c == '\t' || c == '\n' || c == '\r' || c == '\U{000B}' || c == '\U{000C}'
  }

  /** Leading white space is skipped by both parsers. */
  function TrimStart(s: string): (r: string)
    ensures |r| <= |s| && r == s[|s| - |r|..]
    ensures forall i :: 0 <= i < |s| - |r| ==> IsSpace(s[i])
    ensures r != [] ==> !IsSpace(r[0])
  {
    if s != [] && IsSpace(s[0]) then TrimStart(s[1..]) else s
  }

  /** Length of the run of digits that starts `s`. */
  function DigitRun(s: string): (n: nat)
    ensures n <= |s|
    ensures forall i :: 0 <= i < n ==> IsDigit(s[i])
    ensures n < |s| ==> !IsDigit(s[n])
  {
    if s != [] && IsDigit(s[0]) then 1 + DigitRun(s[1..]) else 0
  }

  predicate AllDigits(d: string) { forall i :: 0 <= i < |d| ==> IsDigit(d[i]) }

  /** Some character of `s` is a decimal digit. */
  predicate HasDigit(s: string) { exists i :: 0 <= i < |s| && IsDigit(s[i]) }

  /** A digit in a suffix is a digit of the whole text. */
  lemma HasDigitOfSuffix(s: string, k: nat)
    requires k <= |s| && HasDigit(s[k..])
    ensures HasDigit(s)
  {
    var i :| 0 <= i < |s[k..]| && IsDigit(s[k..][i]);
    assert s[k + i] == s[k..][i];
  }

  /** Value of a string of decimal digits, read left to right. */
  function DigitsValue(d: string): nat
    requires AllDigits(d)
  {
    if d == [] then 0 else DigitsValue(d[..|d| - 1]) * 10 + DigitValue(d[|d| - 1])
  }

  /** Value of the digits after a decimal point: `0.d1 d2 ...`. */
  function FractionValue(d: string): (v: real)
    requires AllDigits(d)
    ensures 0.0 <= v < 1.0
  {
    if d == [] then 0.0 else (DigitValue(d[0]) as real + FractionValue(d[1..])) / 10.0
  }

  predicate HasSign(t: string) { t != [] && (t[0] == '-' || t[0] == '+') }

  /** The text after an optional leading sign. */
  function Unsigned(t: string): string
  {
    if HasSign(t) then t[1..] else t
  }

  /** The digits after the sign, read as a whole number; NaN without digits. */
  function UnsignedInt(body: string): (r: Option<nat>)
    ensures r.Some? ==> HasDigit(body)
  {
    var n := DigitRun(body);
    if n == 0 then None else Some(DigitsValue(body[..n]))
  }

  /**
   * The digits after the sign, an optional point and fraction digits; NaN without digits.
   * Its whole part is the value `UnsignedInt` reads.
   */
  function UnsignedFloat(body: string): (r: Option<real>)
    ensures r.Some? && UnsignedInt(body).Some? ==>
      UnsignedInt(body).value as real <= r.value < UnsignedInt(body).value as real + 1.0
    ensures UnsignedInt(body).Some? ==> r.Some?
    ensures r.Some? ==> HasDigit(body)
  {
    var n := DigitRun(body);
    var d := FractionDigits(body[n..]);
    if n == 0 && d == [] then None
    else
      assert HasDigit(body) by {
        if n == 0 { assert IsDigit(d[0]) && d[0] == body[1]; }
      }
      Some(DigitsValue(body[..n]) as real + FractionValue(d))
  }

  /** The run of digits after a leading decimal point; empty without a point. */
  function FractionDigits(rest: string): (d: string)
    ensures AllDigits(d)
    ensures d != [] ==> 1 + |d| <= |rest| && rest[0] == '.' && d == rest[1..1 + |d|]
  {
    if rest != [] && rest[0] == '.' then
      var f := DigitRun(rest[1..]);
      assert forall i :: 0 <= i < f ==> rest[1..][..f][i] == rest[1..][i];
      assert rest[1..][..f] == rest[1..1 + f];
      rest[1..1 + f]
    else []
  }

  /** The text after the white space and the sign is a suffix of the whole text. */
  lemma UnsignedSuffix(s: string)
    ensures |Unsigned(TrimStart(s))| <= |s|
    ensures Unsigned(TrimStart(s)) == s[|s| - |Unsigned(TrimStart(s))|..]
  {
    var t := TrimStart(s);
    assert t == s[|s| - |t|..];
    if HasSign(t) {
      assert t[1..] == s[|s| - |t| + 1..];
    }
  }

  /** `parseInt(s)` in base 10: optional sign, then the leading digits; NaN without digits. */
  function ParseInt(s: string): (r: Option<int>)
    ensures r.Some? ==> HasDigit(s)
  {
    var t := TrimStart(s);
    UnsignedSuffix(s);
    assert UnsignedInt(Unsigned(t)).Some? ==> HasDigit(s) by {
      if UnsignedInt(Unsigned(t)).Some? { HasDigitOfSuffix(s, |s| - |Unsigned(t)|); }
    }
    match UnsignedInt(Unsigned(t))
    case None => None
    case Some(m) => Some(if t != [] && t[0] == '-' then -(m as int) else m as int)
  }

  /** `parseFloat(s)`: optional sign, integer digits, optional point and fraction digits. */
  function ParseFloat(s: string): (r: Option<real>)
    ensures r.Some? ==> HasDigit(s)
  {
    var t := TrimStart(s);
    UnsignedSuffix(s);
    assert UnsignedFloat(Unsigned(t)).Some? ==> HasDigit(s) by {
      if UnsignedFloat(Unsigned(t)).Some? { HasDigitOfSuffix(s, |s| - |Unsigned(t)|); }
    }
    match UnsignedFloat(Unsigned(t))
    case None => None
    case Some(m) => Some(if t != [] && t[0] == '-' then -m else m)
  }

  /** Truncation toward zero, which is what `parseInt(String(x))` does to a plain decimal. */
  function Trunc(x: real): int
  {
    if x >= 0.0 then x.Floor else -((-x).Floor)
  }

  lemma {:induction false} DigitsValueOfDecimal(n: nat)
    ensures AllDigits(DecimalText(n)) && DigitsValue(DecimalText(n)) == n
    decreases n
  {
    var d := DecimalText(n);
    if n >= 10 {
      DigitsValueOfDecimal(n / 10);
      assert d[..|d| - 1] == DecimalText(n / 10);
    }
  }

  /** Reading back the decimal text of a natural gives the natural. */
  lemma ParseIntOfDecimal(n: nat)
    ensures ParseInt(DecimalText(n)) == Some(n)
  {
    var d := DecimalText(n);
    DigitsValueOfDecimal(n);
    ParseIntOfDigits(d);
  }

  lemma ParseFloatOfDecimal(n: nat)
    ensures ParseFloat(DecimalText(n)) == Some(n as real)
  {
    DigitsValueOfDecimal(n);
    ParseFloatOfDigits(DecimalText(n));
  }

  /** A non-empty string of digits, without a point, reads back as its digit value. */
  lemma ParseFloatOfDigits(d: string)
    requires d != [] && AllDigits(d)
    ensures ParseFloat(d) == Some(DigitsValue(d) as real)
  {
    assert d[0] != '-' && !HasSign(d) && !IsSpace(d[0]);
    assert TrimStart(d) == d;
    assert Unsigned(d) == d;
    DigitRunOfDigits(d);
    assert d[..|d|] == d;
    assert d[|d|..] == [];
  }

  /** A non-empty string of digits reads back as its digit value. */
  lemma ParseIntOfDigits(d: string)
    requires d != [] && AllDigits(d)
    ensures ParseInt(d) == Some(DigitsValue(d))
  {
    assert d[0] != '-' && !HasSign(d) && !IsSpace(d[0]);
    assert TrimStart(d) == d;
    assert Unsigned(d) == d;
    DigitRunOfDigits(d);
    assert d[..|d|] == d;
  }

  lemma {:induction false} DigitRunOfDigits(d: string)
    requires AllDigits(d)
    ensures DigitRun(d) == |d|
  {
    if d != [] {
      DigitRunOfDigits(d[1..]);
    }
  }

  lemma AllDigitsAppend(a: string, b: string)
    requires AllDigits(a) && AllDigits(b)
    ensures AllDigits(a + b)
  {
    forall i | 0 <= i < |a + b| ensures IsDigit((a + b)[i]) {
      if i >= |a| { assert (a + b)[i] == b[i - |a|]; }
    }
  }

  /** One more digit shifts the prefix's contribution by a further factor of ten. */
  lemma ShiftDigit(x: int, p: int, y: int, l: int)
    ensures (x * p + y) * 10 + l == x * (10 * p) + (y * 10 + l)
  {
  }

  lemma {:induction false} DigitsValueAppend(a: string, b: string)
    requires AllDigits(a) && AllDigits(b)
    ensures AllDigits(a + b)
    ensures DigitsValue(a + b) == DigitsValue(a) * Pow10(|b|) + DigitsValue(b)
    decreases |b|
  {
    AllDigitsAppend(a, b);
    if b != [] {
      var b' := b[..|b| - 1];
      assert (a + b)[..|a + b| - 1] == a + b';
      assert (a + b)[|a + b| - 1] == b[|b| - 1];
      DigitsValueAppend(a, b');
      ShiftDigit(DigitsValue(a), Pow10(|b'|), DigitsValue(b'), DigitValue(b[|b| - 1]));
    } else {
      assert a + b == a;
    }
  }

  function Pow10(k: nat): nat
  {
    if k == 0 then 1 else 10 * Pow10(k - 1)
  }

  lemma {:induction false} ZerosValue(k: nat)
    ensures AllDigits(seq(k, _ => '0')) && DigitsValue(seq(k, _ => '0')) == 0
  {
    if k > 0 {
      ZerosValue(k - 1);
      assert seq(k, _ => '0')[..k - 1] == seq(k - 1, _ => '0');
    }
  }

  /** Leading zeros do not change the value read back: `int(f"{n:04d}") == n`. */
  lemma ParseIntOfZeroPad(n: nat, width: nat)
    ensures ParseInt(ZeroPad(n, width)) == Some(n)
  {
    var d := DecimalText(n);
    DigitsValueOfDecimal(n);
    var p := ZeroPad(n, width);
    assert AllDigits(p);
    if |d| < width {
      var z := seq(width - |d|, _ => '0');
      ZerosValue(width - |d|);
      DigitsValueAppend(z, d);
      assert p == z + d;
    }
    ParseIntOfDigits(p);
  }

  /**
   * Whenever `parseInt` yields a number, `parseFloat` of the same text yields one too,
   * and truncating it gives the `parseInt` result.
   */
  lemma ParseIntTruncatesParseFloat(s: string)
    requires ParseInt(s).Some?
    ensures ParseFloat(s).Some? && Trunc(ParseFloat(s).value) == ParseInt(s).value
  {
    var body := Unsigned(TrimStart(s));
    var whole := UnsignedInt(body).value;
    TruncDropsFraction(whole, UnsignedFloat(body).value - whole as real);
  }

  /** Truncating a whole number plus a fraction, or its negation, drops the fraction. */
  lemma TruncDropsFraction(whole: nat, frac: real)
    requires 0.0 <= frac < 1.0
    ensures Trunc(whole as real + frac) == whole
    ensures Trunc(-(whole as real + frac)) == -(whole as int)
  {
    var m := whole as real + frac;
    assert m.Floor == whole;
    assert -m <= 0.0;
    if -m < 0.0 {
      assert Trunc(-m) == -((--m).Floor);
    }
  }

  lemma EmptyIsNaN()
    ensures ParseInt("") == None && ParseFloat("") == None
  {
    assert TrimStart("") == "" && Unsigned("") == "";
    assert DigitRun("") == 0 && FractionDigits("") == [];
  }
}
