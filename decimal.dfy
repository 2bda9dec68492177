/**
 * The successful-parse branch of Python's `float(s)` on an already stripped
 * string, simplified to plain decimal numerals: an optional sign, digits,
 * and optionally a point followed by more digits, with at least one digit in all.
 */
module Decimal {
  import opened Wrappers

  predicate IsDigit(c: char) { '0' <= c <= '9' }

  predicate AllDigits(s: string) {
    forall i :: 0 <= i < |s| ==> IsDigit(s[i])
  }

  /** The characters a decimal numeral may contain. */
  predicate IsNumeralChar(c: char) {
    IsDigit(c) || c == '.' || c == '+' || c == '-'
  }

  function DigitValue(c: char): (d: nat)
    requires IsDigit(c)
    ensures d < 10
  {
    c as int - '0' as int
  }

  function Pow10(n: nat): (p: nat)
    ensures p >= 1
  {
    if n == 0 then 1 else 10 * Pow10(n - 1)
  }

  /** The value of a run of digits, most significant first. */
  function DigitsValue(s: string): nat
    requires AllDigits(s)
  {
    if s == [] then 0 else DigitsValue(s[..|s| - 1]) * 10 + DigitValue(s[|s| - 1])
  }

  /** The length of the run of digits `s` starts with. */
  function DigitRun(s: string): (k: nat)
    ensures k <= |s| && AllDigits(s[..k])
    ensures k < |s| ==> !IsDigit(s[k])
  {
    if s == [] || !IsDigit(s[0]) then 0
    else
      var k := 1 + DigitRun(s[1..]);
      assert s[..k] == [s[0]] + s[1..][..k - 1];
      k
  }

  /** An unsigned numeral `ddd`, `ddd.`, `.ddd` or `ddd.ddd`. */
  function ParseUnsigned(s: string): (r: Option<real>)
    ensures r.Some? ==> |s| > 0 && forall i :: 0 <= i < |s| ==> IsDigit(s[i]) || s[i] == '.'
  {
    var k := DigitRun(s);
    if k == |s| then
      if k == 0 then None else Some(DigitsValue(s) as real)
    else if s[k] == '.' && AllDigits(s[k + 1..]) && (k > 0 || k + 1 < |s|) then
      assert forall i :: k < i < |s| ==> s[i] == s[k + 1..][i - k - 1];
      Some(DigitsValue(s[..k]) as real + DigitsValue(s[k + 1..]) as real / Pow10(|s| - k - 1) as real)
    else
      None
  }

  /** A signed numeral; `None` for anything else (the case where `float()` raises). */
  function Parse(s: string): (r: Option<real>)
    ensures r.Some? ==> |s| > 0 && forall i :: 0 <= i < |s| ==> IsNumeralChar(s[i])
    ensures |s| > 0 && !IsNumeralChar(s[0]) ==> r == None
  {
    if |s| > 0 && s[0] == '-' then
      match ParseUnsigned(s[1..])
      case Some(v) => Some(-v)
      case None => None
    else if |s| > 0 && s[0] == '+' then
      ParseUnsigned(s[1..])
    else
      ParseUnsigned(s)
  }

  datatype Sign = Unsigned | Plus | Minus

  /**
   * A decimal numeral as written: its sign, its whole digits and, when it has
   * a point, its fraction digits.
   */
  datatype Numeral = Numeral(sign: Sign, whole: string, fraction: Option<string>)

  predicate WellFormed(n: Numeral) {
    && AllDigits(n.whole)
    && (n.fraction.Some? ==> AllDigits(n.fraction.value))
    && (|n.whole| > 0 || (n.fraction.Some? && |n.fraction.value| > 0))
  }

  function SignText(sign: Sign): string {
    match sign
    case Unsigned => ""
    case Plus => "+"
    case Minus => "-"
  }

  function Render(n: Numeral): string {
    SignText(n.sign) + n.whole + (if n.fraction.Some? then "." + n.fraction.value else "")
  }

  function Magnitude(n: Numeral): real
    requires WellFormed(n)
  {
    DigitsValue(n.whole) as real
      + (if n.fraction.Some? then DigitsValue(n.fraction.value) as real / Pow10(|n.fraction.value|) as real else 0.0)
  }

  function Value(n: Numeral): real
    requires WellFormed(n)
  {
    if n.sign == Minus then -Magnitude(n) else Magnitude(n)
  }

  /** A run of digits followed by something else is scanned to its end. */
  lemma {:induction false} DigitRunAppend(d: string, t: string)
    requires AllDigits(d)
    ensures DigitRun(d + t) == |d| + DigitRun(t)
  {
    if d != [] {
      assert (d + t)[1..] == d[1..] + t;
      DigitRunAppend(d[1..], t);
    } else {
      assert d + t == t;
    }
  }

  lemma ParseUnsignedRender(n: Numeral)
    requires WellFormed(n)
    ensures ParseUnsigned(Render(n.(sign := Unsigned))) == Some(Magnitude(n))
  {
    var s := Render(n.(sign := Unsigned));
    if n.fraction.Some? {
      var f := n.fraction.value;
      assert s == n.whole + ("." + f);
      DigitRunAppend(n.whole, "." + f);
      assert DigitRun(s) == |n.whole|;
      assert s[..|n.whole|] == n.whole;
      assert s[|n.whole| + 1..] == f;
    } else {
      assert s == n.whole;
      DigitRunAppend(n.whole, "");
      assert n.whole + "" == n.whole;
    }
  }

  /** Every well-formed numeral parses back to its value. */
  lemma ParseRender(n: Numeral)
    requires WellFormed(n)
    ensures Parse(Render(n)) == Some(Value(n))
  {
    var u := Render(n.(sign := Unsigned));
    ParseUnsignedRender(n);
    assert Render(n) == SignText(n.sign) + u;
    if n.sign != Unsigned {
      assert Render(n)[1..] == u;
    } else {
      assert u == Render(n);
      assert |u| > 0 && u[0] != '-' && u[0] != '+' by {
        if |n.whole| > 0 { assert u[0] == n.whole[0]; } else { assert u[0] == '.'; }
      }
    }
  }

  /** The numeral an unsigned string that parses is the rendering of. */
  lemma ParsedUnsignedIsRendered(u: string, sign: Sign, v: real)
    requires ParseUnsigned(u) == Some(v)
    ensures exists n :: WellFormed(n) && n.sign == sign && Render(n) == SignText(sign) + u && Magnitude(n) == v
  {
    var k := DigitRun(u);
    if k == |u| {
      var n := Numeral(sign, u, None);
      assert u[..k] == u;
      assert Render(n) == SignText(sign) + u + "";
      assert WellFormed(n) && Magnitude(n) == v;
    } else {
      var n := Numeral(sign, u[..k], Some(u[k + 1..]));
      assert u == u[..k] + "." + u[k + 1..];
      assert Render(n) == SignText(sign) + u;
      assert WellFormed(n) && Magnitude(n) == v;
    }
  }

  /** Conversely, every string that parses is the rendering of a well-formed numeral with that value. */
  lemma ParseIsRendered(s: string, v: real)
    requires Parse(s) == Some(v)
    ensures exists n :: WellFormed(n) && Render(n) == s && Value(n) == v
  {
    if s[0] == '-' {
      var m := ParseUnsigned(s[1..]).value;
      ParsedUnsignedIsRendered(s[1..], Minus, m);
      assert s == "-" + s[1..];
    } else if s[0] == '+' {
      ParsedUnsignedIsRendered(s[1..], Plus, v);
      assert s == "+" + s[1..];
    } else {
      ParsedUnsignedIsRendered(s, Unsigned, v);
      assert s == "" + s;
    }
  }

  /** Worked instances: an integer, a negative integer, and numerals with a point. */
  lemma ParseExamples()
    ensures Parse("7") == Some(7.0)
    ensures Parse("-3") == Some(-3.0)
    ensures Parse("12.5") == Some(12.5)
  {
    assert Parse("7") == Some(7.0) by {
      assert DigitRun("7") == 1;
    }
    assert Parse("-3") == Some(-3.0) by {
      assert "-3"[1..] == "3";
      assert DigitRun("3") == 1;
    }
    assert Parse("12.5") == Some(12.5) by {
      assert DigitRun("12.5") == 2;
      assert "12.5"[..2] == "12";
      assert "12.5"[3..] == "5";
    }
  }
}
