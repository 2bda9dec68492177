/**
 * `to_float`: lenient coercion of a loosely typed alert field into an
 * optional number. It never fails: every input that does not read as a
 * number gives `None`.
 */
module Coercion {
  import opened Wrappers
  import opened PyStr
  import Decimal

  /** A field value as it comes out of the alert's decoded JSON body. */
  datatype Value =
    | Null
    | Bool(b: bool)
    | Number(n: real)
    | Text(s: string)
    | Container  // a JSON list or object

  /** The lower-cased, stripped spellings that are read as "no value". */
  predicate IsAbsentLiteral(t: string) {
    t == "" || t == "na" || t == "n/a" || t == "null"
  }

  /** `to_float` on the text of a value: strip, reject the absent spellings, parse. */
  function CoerceText(s: string): (r: Option<real>)
    ensures IsAbsentLiteral(Lower(Strip(s))) ==> r == None
    ensures r.Some? ==> Decimal.Parse(Strip(s)) == r
  {
    var t := Strip(s);
    if IsAbsentLiteral(Lower(t)) then None else Decimal.Parse(t)
  }

  /** Python's `str()` of a boolean. */
  function BoolText(b: bool): string {
    if b then "True" else "False"
  }

  /**
   * `to_float(x)`: `None` for a missing value, a boolean or a container;
   * a JSON number is itself; text goes through `CoerceText`.
   */
  function ToFloat(v: Value): (r: Option<real>)
    ensures v.Null? || v.Bool? || v.Container? ==> r == None
    ensures v.Number? ==> r == Some(v.n)
    ensures v.Text? ==> r == CoerceText(v.s)
    ensures r.Some? ==> v.Number? || v.Text?
  {
    match v
    case Null => None
    case Bool(b) =>
      BoolTextDoesNotCoerce(b);
      CoerceText(BoolText(b))
    case Number(n) => Some(n)
    case Text(s) => CoerceText(s)
    case Container => None
  }

  /** `str(True)` and `str(False)` are not numerals. */
  lemma BoolTextDoesNotCoerce(b: bool)
    ensures CoerceText(BoolText(b)) == None
  {
    var t := BoolText(b);
    StripUnpadded(t);
    assert !Decimal.IsNumeralChar(t[0]);
  }

  /**
   * The absent check matches exactly the ASCII case variants of `""`, `na`,
   * `n/a` and `null`.
   */
  lemma AbsentSpellings(t: string)
    ensures IsAbsentLiteral(Lower(t)) <==>
      t == [] || CaseVariants(t, "na") || CaseVariants(t, "n/a") || CaseVariants(t, "null")
  {
    LowerIsWord(t, "na");
    LowerIsWord(t, "n/a");
    LowerIsWord(t, "null");
  }

  /** None of the absent spellings, in any letter case, is a numeral. */
  lemma AbsentLiteralsDoNotParse(t: string)
    requires IsAbsentLiteral(Lower(t))
    ensures Decimal.Parse(t) == None
  {
    if t != [] {
      assert LowerChar(t[0]) == Lower(t)[0] == 'n';
      assert !Decimal.IsNumeralChar(t[0]);
    }
  }

  /**
   * The absent-spelling check never changes the outcome: coercing text is the
   * same as parsing its stripped form.
   */
  lemma CoerceTextIsParse(s: string)
    ensures CoerceText(s) == Decimal.Parse(Strip(s))
  {
    if IsAbsentLiteral(Lower(Strip(s))) {
      AbsentLiteralsDoNotParse(Strip(s));
    }
  }

  /** Text is coerced to a number exactly when its stripped form is a well-formed numeral, and to that numeral's value. */
  lemma CoerceTextSome(s: string, v: real)
    ensures CoerceText(s) == Some(v) <==>
      exists n :: Decimal.WellFormed(n) && Decimal.Render(n) == Strip(s) && Decimal.Value(n) == v
  {
    CoerceTextIsParse(s);
    if CoerceText(s) == Some(v) {
      Decimal.ParseIsRendered(Strip(s), v);
    }
    if exists n :: Decimal.WellFormed(n) && Decimal.Render(n) == Strip(s) && Decimal.Value(n) == v {
      var n :| Decimal.WellFormed(n) && Decimal.Render(n) == Strip(s) && Decimal.Value(n) == v;
      Decimal.ParseRender(n);
    }
  }

  /** Surrounding whitespace does not change the coerced value. */
  lemma CoercePadded(pre: string, s: string, post: string)
    requires AllSpace(pre) && AllSpace(post)
    ensures CoerceText(pre + s + post) == CoerceText(s)
  {
    StripPadded(pre, s, post);
  }

  /** Worked instances of the absent spellings in other letter cases and with padding. */
  lemma CoerceAbsentExamples()
    ensures CoerceText("N/A") == None
    ensures CoerceText(" NULL ") == None
  {
    assert Strip("N/A") == "N/A";
    assert Lower("N/A") == "n/a";
    assert Strip(" NULL ") == "NULL";
    assert Lower("NULL") == "null";
  }

  /** Worked instance of padding: `"  7 "` reads as `"7"` does. */
  lemma CoercePaddedExample()
    ensures CoerceText("  7 ") == CoerceText("7") == Some(7.0)
  {
    Decimal.ParseExamples();
    assert Strip("  7 ") == "7";
    CoerceTextIsParse("  7 ");
    assert Strip("7") == "7";
    CoerceTextIsParse("7");
  }
}
