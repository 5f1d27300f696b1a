/**
 * Python's `float(text)` on decimal literals: surrounding whitespace, an
 * optional sign, digits with at most one decimal point (at least one digit in
 * all) and an optional exponent `e`/`E` with its own optional sign. The value
 * is the exact real the literal denotes.
 */
module PyFloat {
  import opened Wrappers
  import opened Text

  predicate IsDigit(c: char) {
    '0' <= c <= '9'
  }

  predicate IsDigits(s: string) {
    forall i :: 0 <= i < |s| ==> IsDigit(s[i])
  }

  /** The number a string of decimal digits denotes, most significant first. */
  function DigitsValue(s: string): nat
    requires IsDigits(s)
  {
    if s == [] then 0 else DigitsValue(s[..|s| - 1]) * 10 + (s[|s| - 1] as int - '0' as int)
  }

  function Pow10(n: nat): (r: nat)
    ensures r >= 1
  {
    if n == 0 then 1 else 10 * Pow10(n - 1)
  }

  /** `x * 10**e`. */
  function Scale(x: real, e: int): real {
    if e >= 0 then x * Pow10(e) as real else x / Pow10(-e) as real
  }

  /** The value of `a.b` for digit strings `a` and `b`. */
  function MantissaValue(a: string, b: string): (v: real)
    requires IsDigits(a) && IsDigits(b)
    ensures v >= 0.0
  {
    DigitsValue(a) as real + DigitsValue(b) as real / Pow10(|b|) as real
  }

  /** The digits-and-point part: `12`, `12.`, `.5`, `12.5`; a lone point is refused. */
  function ParseMantissa(m: string): (r: Option<real>)
    ensures r.Some? ==> r.value >= 0.0
  {
    if '.' in m then
      var t := SplitOnce(m, '.');
      if IsDigits(t.0) && IsDigits(t.1) && |t.0| + |t.1| > 0
      then Some(MantissaValue(t.0, t.1))
      else None
    else if IsDigits(m) && m != [] then Some(DigitsValue(m) as real)
    else None
  }

  /** The exponent after `e`: an optional sign and at least one digit. */
  function ParseExponent(e: string): Option<int> {
    if e != [] && (e[0] == '+' || e[0] == '-') then
      if |e| > 1 && IsDigits(e[1..])
      then Some(if e[0] == '-' then -(DigitsValue(e[1..]) as int) else DigitsValue(e[1..]))
      else None
    else if e != [] && IsDigits(e) then Some(DigitsValue(e))
    else None
  }

  /** The position of the first `e` or `E`, or the length when there is none. */
  function ExponentMark(s: string): (k: nat)
    ensures k <= |s|
    ensures k < |s| ==> s[k] == 'e' || s[k] == 'E'
    ensures forall i :: 0 <= i < k ==> s[i] != 'e' && s[i] != 'E'
  {
    if s == [] || s[0] == 'e' || s[0] == 'E' then 0 else 1 + ExponentMark(s[1..])
  }

  /** An unsigned literal: a mantissa and an optional exponent. */
  function ParseUnsigned(b: string): (r: Option<real>)
    ensures r.Some? ==> r.value >= 0.0
  {
    var k := ExponentMark(b);
    var m := ParseMantissa(b[..k]);
    if m.None? then None
    else if k == |b| then m
    else
      match ParseExponent(b[k + 1..])
      case None => None
      case Some(e) => Some(Scale(m.value, e))
  }

  /** `float(s)` for decimal literals; `None` where Python raises `ValueError`. */
  function ParseFloat(s: string): Option<real> {
    var t := Strip(s);
    if t != [] && t[0] == '-' then
      match ParseUnsigned(t[1..])
      case None => None
      case Some(v) => Some(-v)
    else if t != [] && t[0] == '+' then ParseUnsigned(t[1..])
    else ParseUnsigned(t)
  }

  /** The decimal digits of `n`, without leading zeros. */
  function NatToDigits(n: nat): (s: string)
    ensures s != [] && IsDigits(s)
  {
    if n < 10 then [('0' as int + n) as char]
    else NatToDigits(n / 10) + [('0' as int + n % 10) as char]
  }

  lemma {:induction false} DigitsRoundTrip(n: nat)
    ensures DigitsValue(NatToDigits(n)) == n
  {
    if n >= 10 {
      var s := NatToDigits(n);
      assert s[..|s| - 1] == NatToDigits(n / 10);
      DigitsRoundTrip(n / 10);
    }
  }

  lemma ExponentMarkOfDigits(s: string)
    requires IsDigits(s)
    ensures ExponentMark(s) == |s|
  {
    if s != [] {
      assert IsDigits(s[1..]);
      ExponentMarkOfDigits(s[1..]);
    }
  }

  /** An unsigned whole-number literal reads as its value. */
  lemma ParseUnsignedOfDigits(s: string)
    requires s != [] && IsDigits(s)
    ensures ParseUnsigned(s) == Some(DigitsValue(s) as real)
  {
    ExponentMarkOfDigits(s);
    assert s[..|s|] == s;
    assert forall i :: 0 <= i < |s| ==> s[i] != '.';
  }

  lemma DigitNotSpace(c: char)
    requires IsDigit(c)
    ensures !IsSpace(c)
  {
  }

  /** Writing a whole number out in decimal and reading it back with `float` gives the number. */
  lemma ParseFloatOfNat(n: nat)
    ensures ParseFloat(NatToDigits(n)) == Some(n as real)
  {
    var s := NatToDigits(n);
    DigitsRoundTrip(n);
    DigitNotSpace(s[0]);
    DigitNotSpace(s[|s| - 1]);
    StripUnpadded(s);
    ParseUnsignedOfDigits(s);
  }

  /** The same with a minus sign in front. */
  lemma ParseFloatOfNegatedNat(n: nat)
    ensures ParseFloat("-" + NatToDigits(n)) == Some(-(n as real))
  {
    var s := NatToDigits(n);
    var m := "-" + s;
    DigitsRoundTrip(n);
    DigitNotSpace(s[|s| - 1]);
    assert m[|m| - 1] == s[|s| - 1];
    StripUnpadded(m);
    assert m[1..] == s;
    ParseUnsignedOfDigits(s);
  }

  /** `float` accepts whitespace around a literal. */
  lemma ParseFloatPadded(pre: string, n: nat, post: string)
    requires forall i :: 0 <= i < |pre| ==> IsSpace(pre[i])
    requires forall i :: 0 <= i < |post| ==> IsSpace(post[i])
    ensures ParseFloat(pre + NatToDigits(n) + post) == Some(n as real)
  {
    var s := NatToDigits(n);
    DigitNotSpace(s[0]);
    DigitNotSpace(s[|s| - 1]);
    StripPadded(pre, s, post);
    StripUnpadded(s);
    ParseFloatOfNat(n);
  }

  /** Text with visible ends and no sign is read as an unsigned literal. */
  lemma ParseFloatOfUnsignedText(s: string)
    requires s != [] && !IsSpace(s[0]) && !IsSpace(s[|s| - 1]) && s[0] != '-' && s[0] != '+'
    ensures ParseFloat(s) == ParseUnsigned(s)
  {
    StripUnpadded(s);
  }

  /** Without an `e` or `E`, all of the text is the mantissa. */
  lemma ParseUnsignedNoExponent(b: string)
    requires ExponentMark(b) == |b|
    ensures ParseUnsigned(b) == ParseMantissa(b)
  {
    assert b[..|b|] == b;
  }

  /** Text without an exponent mark, followed by more text: the mark is searched for in the rest. */
  lemma {:induction false} ExponentMarkAppend(x: string, y: string)
    requires ExponentMark(x) == |x|
    ensures ExponentMark(x + y) == |x| + ExponentMark(y)
  {
    if x == [] {
      assert x + y == y;
    } else {
      assert (x + y)[0] == x[0] && (x + y)[1..] == x[1..] + y;
      ExponentMarkAppend(x[1..], y);
    }
  }

  /** A mantissa with its first point at `k` and digits on both sides of it (one side may be empty). */
  lemma ParseMantissaAt(m: string, k: nat)
    requires k < |m| && m[k] == '.' && '.' !in m[..k]
    requires IsDigits(m[..k]) && IsDigits(m[k + 1..]) && |m| > 1
    ensures ParseMantissa(m) == Some(MantissaValue(m[..k], m[k + 1..]))
  {
    SplitOnceIn(m, '.', k);
  }

  /** A mantissa whose text after its first point is not all digits is refused. */
  lemma ParseMantissaRefusesAt(m: string, k: nat)
    requires k < |m| && m[k] == '.' && '.' !in m[..k]
    requires !IsDigits(m[k + 1..])
    ensures ParseMantissa(m) == None
  {
    SplitOnceIn(m, '.', k);
  }

  /** A point needs digits on one side only: `.ds` reads as the fraction the digits make. */
  lemma ParseFloatFraction(ds: string)
    requires ds != [] && IsDigits(ds)
    ensures ParseFloat("." + ds) == Some(DigitsValue(ds) as real / Pow10(|ds|) as real)
  {
    var s := "." + ds;
    DigitNotSpace(ds[|ds| - 1]);
    assert s[0] == '.' && s[|s| - 1] == ds[|ds| - 1];
    assert ExponentMark(".") == 1;
    ExponentMarkOfDigits(ds);
    ExponentMarkAppend(".", ds);
    assert s[..0] == [] && s[1..] == ds;
    calc {
      ParseFloat(s);
      { ParseFloatOfUnsignedText(s); }
      ParseUnsigned(s);
      { ParseUnsignedNoExponent(s); }
      ParseMantissa(s);
      { ParseMantissaAt(s, 0); }
      Some(MantissaValue([], ds));
      { FractionValue(ds); }
      Some(DigitsValue(ds) as real / Pow10(|ds|) as real);
    }
  }

  /** With no digits before the point, the mantissa is the fraction the digits after it make. */
  lemma FractionValue(ds: string)
    requires IsDigits(ds)
    ensures MantissaValue([], ds) == DigitsValue(ds) as real / Pow10(|ds|) as real
  {
    assert DigitsValue([]) == 0;
  }

  /** Digits and points hold no exponent mark. */
  lemma ExponentMarkOfPoints(a: string, b: string, c: string)
    requires IsDigits(a) && IsDigits(b) && IsDigits(c)
    ensures ExponentMark(a + "." + (b + "." + c)) == |a + "." + (b + "." + c)|
  {
    var rest := b + "." + c;
    assert ExponentMark(".") == 1;
    ExponentMarkOfDigits(a);
    ExponentMarkOfDigits(b);
    ExponentMarkOfDigits(c);
    ExponentMarkAppend(b, ".");
    ExponentMarkAppend(b + ".", c);
    ExponentMarkAppend(".", rest);
    ExponentMarkAppend(a, "." + rest);
    assert a + "." + rest == a + ("." + rest);
  }

  /** A mantissa with a second decimal point is refused, whatever the digits around the points. */
  lemma ParseFloatRefusesTwoPoints(a: string, b: string, c: string)
    requires IsDigits(a) && IsDigits(b) && IsDigits(c)
    ensures ParseFloat(a + "." + b + "." + c) == None
  {
    var rest := b + "." + c;
    var s := a + "." + rest;
    assert a + "." + b + "." + c == s;
    MantissaTextNotPadded(a, b, c);
    ExponentMarkOfPoints(a, b, c);
    assert s[..|a|] == a && s[|a| + 1..] == rest && rest[|b|] == '.';
    calc {
      ParseFloat(s);
      { ParseFloatOfUnsignedText(s); }
      ParseUnsigned(s);
      { ParseUnsignedNoExponent(s); }
      ParseMantissa(s);
      { ParseMantissaRefusesAt(s, |a|); }
      None;
    }
  }

  /** Text of digits and points starts and ends with neither whitespace nor a sign. */
  lemma MantissaTextNotPadded(a: string, b: string, c: string)
    requires IsDigits(a) && IsDigits(c)
    ensures var s := a + "." + (b + "." + c);
      !IsSpace(s[0]) && !IsSpace(s[|s| - 1]) && s[0] != '-' && s[0] != '+'
  {
    var s := a + "." + (b + "." + c);
    assert s[0] == if a == [] then '.' else a[0];
    assert s[|s| - 1] == if c == [] then '.' else c[|c| - 1];
  }

  /** The empty text, and text of white space only, is refused. */
  lemma ParseFloatRefusesBlank(s: string)
    requires forall i :: 0 <= i < |s| ==> IsSpace(s[i])
    ensures ParseFloat(s) == None
  {
    if s != [] {
      assert IsSpace(s[0]);
    }
    assert Strip(s) == [];
  }
}
