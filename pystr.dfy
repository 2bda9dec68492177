/**
 * The three Python string operations that the alert ledger applies to
 * loosely typed field values: `str.strip()`, `str.lower()` and `str.upper()`.
 */
module PyStr {

  /** The characters Python's `str.isspace()` accepts, which `str.strip()` removes. */
  predicate IsSpace(c: char) {
    c == ' ' || ('\t' <= c <= '\r') || ('\U{1c}' <= c <= '\U{1f}')
    || c == '\U{85}' || c == '\U{a0}' || c == '\U{1680}'
    || ('\U{2000}' <= c <= '\U{200a}') || c == '\U{2028}' || c == '\U{2029}'
    || c == '\U{202f}' || c == '\U{205f}' || c == '\U{3000}'
  }

  predicate AllSpace(s: string) {
    forall i {:trigger IsSpace(s[i])} :: 0 <= i < |s| ==> IsSpace(s[i])
  }

  /** Drops the leading whitespace. */
  function TrimStart(s: string): string {
    if s != [] && IsSpace(s[0]) then TrimStart(s[1..]) else s
  }

  /** Drops the trailing whitespace. */
  function TrimEnd(s: string): string {
    if s != [] && IsSpace(s[|s| - 1]) then TrimEnd(s[..|s| - 1]) else s
  }

  /** `s.strip()`: whitespace dropped from both ends. */
  function Strip(s: string): string {
    TrimEnd(TrimStart(s))
  }

  /** What `TrimStart` keeps is a suffix that does not start with whitespace, and all it drops is whitespace. */
  lemma {:induction false} TrimStartShape(s: string)
    ensures var r := TrimStart(s);
      && |r| <= |s| && r == s[|s| - |r|..]
      && AllSpace(s[..|s| - |r|])
      && (r == [] || !IsSpace(r[0]))
  {
    if s != [] && IsSpace(s[0]) {
      TrimStartShape(s[1..]);
      var r := TrimStart(s[1..]);
      assert s[..|s| - |r|] == [s[0]] + s[1..][..|s[1..]| - |r|];
    }
  }

  /** What `TrimEnd` keeps is a prefix that does not end with whitespace, and all it drops is whitespace. */
  lemma {:induction false} TrimEndShape(s: string)
    ensures var r := TrimEnd(s);
      && |r| <= |s| && r == s[..|r|]
      && AllSpace(s[|r|..])
      && (r == [] || !IsSpace(r[|r| - 1]))
  {
    if s != [] && IsSpace(s[|s| - 1]) {
      TrimEndShape(s[..|s| - 1]);
      var r := TrimEnd(s[..|s| - 1]);
      assert s[|r|..] == s[..|s| - 1][|r|..] + [s[|s| - 1]];
    }
  }

  /**
   * What `strip()` keeps is the piece of `s` that starts at offset `k`, the
   * length of the leading whitespace, and it neither starts nor ends with
   * whitespace.
   */
  lemma StripIsSlice(s: string)
    ensures var r := Strip(s); var k := |s| - |TrimStart(s)|;
      && 0 <= k && k + |r| <= |s| && r == s[k..k + |r|]
      && (r == [] || (!IsSpace(r[0]) && !IsSpace(r[|r| - 1])))
  {
    var t := TrimStart(s);
    var r := TrimEnd(t);
    var k := |s| - |t|;
    TrimStartShape(s);
    TrimEndShape(t);
    assert s[k..][..|r|] == s[k..k + |r|];
    if r != [] {
      assert r[0] == t[0];
    }
  }

  /** Everything `strip()` cuts from either end of `s` is whitespace. */
  lemma StripCutsOnlySpace(s: string)
    ensures var r := Strip(s); var k := |s| - |TrimStart(s)|;
      && 0 <= k && k + |r| <= |s|
      && AllSpace(s[..k]) && AllSpace(s[k + |r|..])
  {
    var t := TrimStart(s);
    var r := TrimEnd(t);
    var k := |s| - |t|;
    TrimStartShape(s);
    TrimEndShape(t);
    assert s[k..][|r|..] == s[k + |r|..];
  }

  /** Leading whitespace in front of a string that is not all whitespace is skipped over. */
  lemma {:induction false} TrimStartAppend(s: string, t: string)
    requires TrimStart(s) != []
    ensures TrimStart(s + t) == TrimStart(s) + t
  {
    if IsSpace(s[0]) {
      assert (s + t)[1..] == s[1..] + t;
      TrimStartAppend(s[1..], t);
    }
  }

  /** A string that is all whitespace is skipped over entirely. */
  lemma {:induction false} TrimStartSpaces(s: string, t: string)
    requires AllSpace(s)
    ensures TrimStart(s + t) == TrimStart(t)
  {
    if s != [] {
      assert (s + t)[1..] == s[1..] + t;
      TrimStartSpaces(s[1..], t);
    } else {
      assert s + t == t;
    }
  }

  /** Trailing whitespace is dropped whatever it follows. */
  lemma {:induction false} TrimEndSpaces(s: string, t: string)
    requires AllSpace(t)
    ensures TrimEnd(s + t) == TrimEnd(s)
  {
    if t != [] {
      assert (s + t)[..|s + t| - 1] == s + t[..|t| - 1];
      TrimEndSpaces(s, t[..|t| - 1]);
    } else {
      assert s + t == s;
    }
  }

  /** Whitespace padding on either side does not change what `strip()` returns. */
  lemma StripPadded(pre: string, s: string, post: string)
    requires AllSpace(pre) && AllSpace(post)
    ensures Strip(pre + s + post) == Strip(s)
  {
    var t := TrimStart(s);
    assert pre + s + post == pre + (s + post);
    TrimStartSpaces(pre, s + post);
    assert Strip(pre + s + post) == TrimEnd(TrimStart(s + post));
    if t != [] {
      TrimStartAppend(s, post);
      TrimEndSpaces(t, post);
    } else {
      TrimStartShape(s);
      assert s == s[..|s| - |t|];
      TrimStartSpaces(s, post);
      TrimStartSpaces(post, []);
      assert post + [] == post;
    }
  }

  /** A string that neither starts nor ends with whitespace is left as it is. */
  lemma StripUnpadded(s: string)
    requires s != [] && !IsSpace(s[0]) && !IsSpace(s[|s| - 1])
    ensures Strip(s) == s
  {
    assert TrimStart(s) == s;
    assert TrimEnd(s) == s;
  }

  /** `str.lower()` on one character, restricted to the ASCII letters. */
  function LowerChar(c: char): (d: char)
    ensures 'A' <= c <= 'Z' ==> d as int == c as int - 'A' as int + 'a' as int
    ensures !('A' <= c <= 'Z') ==> d == c
  {
    if 'A' <= c <= 'Z' then (c as int - 'A' as int + 'a' as int) as char else c
  }

  /** `str.upper()` on one character, restricted to the ASCII letters. */
  function UpperChar(c: char): (d: char)
    ensures 'a' <= c <= 'z' ==> d as int == c as int - 'a' as int + 'A' as int
    ensures !('a' <= c <= 'z') ==> d == c
  {
    if 'a' <= c <= 'z' then (c as int - 'a' as int + 'A' as int) as char else c
  }

  /** `s.lower()` with ASCII case mapping; `Lower` and `Upper` are related to `CaseVariants` below. */
  function Lower(s: string): (r: string)
    ensures |r| == |s|
    ensures forall i :: 0 <= i < |s| ==> r[i] == LowerChar(s[i])
  {
    seq(|s|, i requires 0 <= i < |s| => LowerChar(s[i]))
  }

  /** `s.upper()` with ASCII case mapping. */
  function Upper(s: string): (r: string)
    ensures |r| == |s|
    ensures forall i :: 0 <= i < |s| ==> r[i] == UpperChar(s[i])
  {
    seq(|s|, i requires 0 <= i < |s| => UpperChar(s[i]))
  }

  /** Two characters are equal, or are the same ASCII letter in the two cases. */
  predicate SameUpToCase(c: char, d: char) {
    c == d
    || ('A' <= c <= 'Z' && d as int == c as int + 32)
    || ('a' <= c <= 'z' && d as int == c as int - 32)
  }

  /** Two strings differ at most in the case of their ASCII letters. */
  predicate CaseVariants(s: string, t: string) {
    |s| == |t| && forall i :: 0 <= i < |s| ==> SameUpToCase(s[i], t[i])
  }

  /** A string with no lower-case ASCII letter. */
  predicate NoLowerAscii(w: string) {
    forall i :: 0 <= i < |w| ==> !('a' <= w[i] <= 'z')
  }

  /** A string with no upper-case ASCII letter. */
  predicate NoUpperAscii(w: string) {
    forall i :: 0 <= i < |w| ==> !('A' <= w[i] <= 'Z')
  }

  lemma UpperCharMatches(c: char, d: char)
    ensures UpperChar(c) == UpperChar(d) <==> SameUpToCase(c, d)
  {
  }

  lemma LowerCharMatches(c: char, d: char)
    ensures LowerChar(c) == LowerChar(d) <==> SameUpToCase(c, d)
  {
  }

  /** Two strings upper-case alike exactly when they differ only in ASCII letter case. */
  lemma UpperMatches(s: string, t: string)
    ensures Upper(s) == Upper(t) <==> CaseVariants(s, t)
  {
    if Upper(s) == Upper(t) {
      forall i | 0 <= i < |s|
        ensures SameUpToCase(s[i], t[i])
      {
        assert Upper(s)[i] == Upper(t)[i];
        UpperCharMatches(s[i], t[i]);
      }
    }
    if CaseVariants(s, t) {
      forall i | 0 <= i < |s|
        ensures Upper(s)[i] == Upper(t)[i]
      {
        UpperCharMatches(s[i], t[i]);
      }
    }
  }

  /** Two strings lower-case alike exactly when they differ only in ASCII letter case. */
  lemma LowerMatches(s: string, t: string)
    ensures Lower(s) == Lower(t) <==> CaseVariants(s, t)
  {
    if Lower(s) == Lower(t) {
      forall i | 0 <= i < |s|
        ensures SameUpToCase(s[i], t[i])
      {
        assert Lower(s)[i] == Lower(t)[i];
        LowerCharMatches(s[i], t[i]);
      }
    }
    if CaseVariants(s, t) {
      forall i | 0 <= i < |s|
        ensures Lower(s)[i] == Lower(t)[i]
      {
        LowerCharMatches(s[i], t[i]);
      }
    }
  }

  /**
   * A word without lower-case ASCII letters, such as `ENTRY` or `SELL`, is what
   * `upper()` gives exactly for the case variants of that word.
   */
  lemma UpperIsWord(s: string, w: string)
    requires NoLowerAscii(w)
    ensures Upper(s) == w <==> CaseVariants(s, w)
  {
    assert Upper(w) == w;
    UpperMatches(s, w);
  }

  /** The mirror of `UpperIsWord` for `lower()` and words such as `null` or `n/a`. */
  lemma LowerIsWord(s: string, w: string)
    requires NoUpperAscii(w)
    ensures Lower(s) == w <==> CaseVariants(s, w)
  {
    assert Lower(w) == w;
    LowerMatches(s, w);
  }
}
