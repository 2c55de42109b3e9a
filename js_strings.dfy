/**
 * The JavaScript string built-ins the core relies on, written out:
 * `String(n)` for integers, `padStart`, `String.prototype.replace` with a
 * string pattern (first occurrence only) and the regular expression `/\s+$/`.
 */
module JsStrings {
  import opened Wrappers

  // ---------------------------------------------------------------------------
  // Decimal rendering of integers, as `String(n)` produces for safe integers
  // ---------------------------------------------------------------------------

  predicate IsDigit(c: char) { '0' <= c <= '9' }

  /** Every character of `s` is a decimal digit (stated from the last character back, as DecimalValue reads it). */
  predicate AllDigits(s: string)
  {
    s == [] || (IsDigit(s[|s| - 1]) && AllDigits(s[..|s| - 1]))
  }

  function DigitChar(d: nat): (c: char)
    requires d < 10
    ensures IsDigit(c) && (c as int) - ('0' as int) == d
  {
    ['0', '1', '2', '3', '4', '5', '6', '7', '8', '9'][d]
  }

  /** The decimal digits of `n`, most significant first, without leading zeros. */
  function NatToString(n: nat): (s: string)
    ensures |s| >= 1 && AllDigits(s)
    ensures s[0] == '0' ==> n == 0
    ensures n < 10 <==> |s| == 1
    ensures n < 100 ==> |s| <= 2
  {
    if n < 10 then [DigitChar(n)]
    else
      var t := NatToString(n / 10);
      assert (t + [DigitChar(n % 10)])[..|t|] == t;
      t + [DigitChar(n % 10)]
  }

  /** The number a string of decimal digits denotes; the inverse of NatToString. */
  function DecimalValue(s: string): nat
    requires AllDigits(s)
  {
    if s == [] then 0 else 10 * DecimalValue(s[..|s| - 1]) + ((s[|s| - 1] as int) - ('0' as int))
  }

  lemma {:induction false} NatToStringRoundTrip(n: nat)
    ensures DecimalValue(NatToString(n)) == n
  {
    if n >= 10 {
      NatToStringRoundTrip(n / 10);
      var s := NatToString(n);
      assert s[..|s| - 1] == NatToString(n / 10);
    }
  }

  /** `String(i)` for an integer: a leading '-' for negatives, then the digits. */
  function IntToString(i: int): string
  {
    if i < 0 then "-" + NatToString(-i) else NatToString(i)
  }

  /** A non-negative integer prints as its digits; a negative one as '-' followed by the digits of its magnitude. */
  lemma IntToStringRoundTrip(i: int)
    ensures i >= 0 ==> AllDigits(IntToString(i)) && DecimalValue(IntToString(i)) == i
    ensures i < 0 ==> IntToString(i)[0] == '-' && AllDigits(IntToString(i)[1..]) && DecimalValue(IntToString(i)[1..]) == -i
  {
    if i < 0 {
      NatToStringRoundTrip(-i);
      assert IntToString(i)[1..] == NatToString(-i);
    } else {
      NatToStringRoundTrip(i);
    }
  }

  // ---------------------------------------------------------------------------
  // padStart
  // ---------------------------------------------------------------------------

  /** `s.padStart(width, fill)` for a one-character fill string. */
  function PadStart(s: string, width: nat, fill: char): (r: string)
    ensures |r| == if |s| >= width then |s| else width
    ensures r[|r| - |s|..] == s
    ensures forall i :: 0 <= i < |r| - |s| ==> r[i] == fill
    decreases width - |s|
  {
    if |s| >= width then s else PadStart([fill] + s, width, fill)
  }

  // ---------------------------------------------------------------------------
  // First occurrence and `replace` with a string pattern
  // ---------------------------------------------------------------------------

  predicate OccursAt(s: string, pat: string, j: nat)
  {
    j + |pat| <= |s| && s[j..j + |pat|] == pat
  }

  predicate Contains(s: string, pat: string)
  {
    exists j: nat :: j <= |s| && OccursAt(s, pat, j)
  }

  /** The index of the first occurrence of `pat` in `s`, as `indexOf` finds it. */
  function IndexOf(s: string, pat: string): (r: Option<nat>)
    ensures r.Some? ==> OccursAt(s, pat, r.value) && forall j: nat :: j < r.value ==> !OccursAt(s, pat, j)
    ensures r.None? ==> forall j: nat :: !OccursAt(s, pat, j)
  {
    if |pat| <= |s| && s[..|pat|] == pat then Some(0)
    else if s == [] then None
    else
      var rest := IndexOf(s[1..], pat);
      OccursAtShift(s, pat);
      assert !OccursAt(s, pat, 0);
      match rest
      case None => None
      case Some(i) => Some(i + 1)
  }

  /** An occurrence at j >= 1 in `s` is an occurrence at j - 1 in its tail. */
  lemma OccursAtShift(s: string, pat: string)
    requires s != []
    ensures forall j: nat :: 1 <= j ==> (OccursAt(s, pat, j) <==> OccursAt(s[1..], pat, j - 1))
  {
    forall j: nat | 1 <= j
      ensures OccursAt(s, pat, j) <==> OccursAt(s[1..], pat, j - 1)
    {
      if j + |pat| <= |s| {
        assert s[j..j + |pat|] == s[1..][j - 1..j - 1 + |pat|];
      }
    }
  }

  /**
   * `s.replace(pat, rep)` with a string pattern: the first occurrence, as
   * `indexOf` finds it, is replaced, and `s` is returned unchanged when `pat`
   * does not occur. The replacement is taken literally (the callers'
   * replacements contain no '$').
   */
  function ReplaceFirst(s: string, pat: string, rep: string): string
  {
    match IndexOf(s, pat)
    case None => s
    case Some(i) => s[..i] + rep + s[i + |pat|..]
  }

  lemma ReplaceFirstAbsent(s: string, pat: string, rep: string)
    requires !Contains(s, pat)
    ensures ReplaceFirst(s, pat, rep) == s
  {
  }

  // ---------------------------------------------------------------------------
  // The regular expression /\s+$/
  // ---------------------------------------------------------------------------

  /**
   * The characters JavaScript's `\s` class matches: WhiteSpace and
   * LineTerminator of ECMAScript, i.e. TAB, LF, VT, FF, CR, SPACE, NBSP,
   * the Unicode space separators, LS, PS and the byte order mark.
   */
  predicate IsJsWhitespace(c: char)
  {
    c == '\t' || c == '\n' || c == '\U{000B}' || c == '\U{000C}' || c == '\r' || c == ' '
    || c == '\U{00A0}' || c == '\U{1680}' || ('\U{2000}' <= c <= '\U{200A}')
    || c == '\U{2028}' || c == '\U{2029}' || c == '\U{202F}' || c == '\U{205F}'
    || c == '\U{3000}' || c == '\U{FEFF}'
  }

  /** `/\s+$/.test(s)`: a run of one or more `\s` characters ends the string. */
  predicate EndsWithWhitespace(s: string)
  {
    |s| > 0 && IsJsWhitespace(s[|s| - 1])
  }

  predicate AllWhitespace(s: string) { forall i :: 0 <= i < |s| ==> IsJsWhitespace(s[i]) }

  /** The last-character test is exactly the regular expression's meaning. */
  lemma EndsWithWhitespaceIsRegex(s: string)
    ensures EndsWithWhitespace(s) <==> exists k :: 0 <= k < |s| && AllWhitespace(s[k..])
  {
    if EndsWithWhitespace(s) {
      assert AllWhitespace(s[|s| - 1..]);
    }
    if k :| 0 <= k < |s| && AllWhitespace(s[k..]) {
      assert s[k..][|s| - 1 - k] == s[|s| - 1];
    }
  }
}
