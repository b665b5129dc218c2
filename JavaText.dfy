/**
 * The parts of java.lang.String (and of Long parsing and printing) that the
 * service relies on. A Java reference that may be null is an Option; a
 * possibly-null string is a JString.
 *
 * Case conversion is exact on the characters whose case maps to a single
 * ASCII letter, except the capital dotted I (U+0130): upper-casing maps the
 * dotless i (U+0131) and the long s (U+017F), lower-casing maps the Kelvin
 * sign (U+212A) to 'k', and every other character is left as it is. The
 * expansions of String.toUpperCase into several letters ('ß' to "SS", the
 * ligature U+FB01 to "FI") are not modelled, so a string keeps its length.
 * None of the words the service compares against can be reached through
 * U+0130 or such an expansion.
 * `isBlank` uses the whitespace set
 * of Character.isWhitespace, while `trim` strips every character up to
 * U+0020; the two differ, and the model keeps them apart.
 */
module JavaText {

  datatype Option<+T> = None | Some(value: T)

  /** A value or the exception that was raised instead. */
  datatype Result<+T, +E> = Ok(value: T) | Err(error: E)

  type JString = Option<string>

  /** What string concatenation prints for a possibly null string. */
  function Show(s: JString): string
  {
    if s.Some? then s.value else "null"
  }

  // ---------------------------------------------------------------------
  // Characters
  // ---------------------------------------------------------------------

  predicate IsAsciiDigit(c: char)
  {
    '0' <= c <= '9'
  }

  predicate AllDigits(s: string)
  {
    forall i :: 0 <= i < |s| ==> IsAsciiDigit(s[i])
  }

  /** Character.isWhitespace for characters of the Basic Multilingual Plane. */
  predicate IsWhitespace(c: char)
  {
    var n := c as int;
    (9 <= n <= 13) || (28 <= n <= 32) || n == 0x1680
    || (0x2000 <= n <= 0x200A && n != 0x2007)
    || n == 0x2028 || n == 0x2029 || n == 0x205F || n == 0x3000
  }

  /** String.isBlank: empty, or whitespace only. */
  predicate IsBlank(s: string)
  {
    forall i :: 0 <= i < |s| ==> IsWhitespace(s[i])
  }

  /** The recurring `s != null && !s.isBlank()` test. */
  predicate HasText(s: JString)
  {
    s.Some? && !IsBlank(s.value)
  }

  /**
   * Text on which `isBlank` and `trim` agree: every character up to U+0020
   * is whitespace, and no whitespace character lies above U+0020.
   */
  predicate PlainText(s: string)
  {
    forall i :: 0 <= i < |s| ==> (IsWhitespace(s[i]) <==> s[i] <= ' ')
  }

  // ---------------------------------------------------------------------
  // trim
  // ---------------------------------------------------------------------

  predicate IsTrimmed(s: string)
  {
    |s| == 0 || (s[0] > ' ' && s[|s| - 1] > ' ')
  }

  function TrimEnd(s: string): (r: string)
    ensures |r| <= |s| && r == s[..|r|]
    ensures forall i :: |r| <= i < |s| ==> s[i] <= ' '
    ensures |r| > 0 ==> r[|r| - 1] > ' '
  {
    if |s| > 0 && s[|s| - 1] <= ' ' then TrimEnd(s[..|s| - 1]) else s
  }

  function TrimStart(s: string): (r: string)
    ensures |r| <= |s| && r == s[|s| - |r|..]
    ensures forall i :: 0 <= i < |s| - |r| ==> s[i] <= ' '
    ensures |r| > 0 ==> r[0] > ' '
  {
    if |s| > 0 && s[0] <= ' ' then TrimStart(s[1..]) else s
  }

  /** Every character is at most U+0020, so `trim` removes all of them. */
  predicate AllControlOrSpace(s: string)
  {
    forall i :: 0 <= i < |s| ==> s[i] <= ' '
  }

  /** String.trim. */
  function Trim(s: string): (r: string)
    ensures IsTrimmed(r) && |r| <= |s|
    ensures r == "" <==> AllControlOrSpace(s)
    ensures IsTrimmed(s) ==> r == s
  {
    TrimEnds(s);
    TrimEmpty(s);
    TrimOfTrimmed(s);
    TrimStart(TrimEnd(s))
  }

  lemma TrimEnds(s: string)
    ensures IsTrimmed(TrimStart(TrimEnd(s)))
  {
    var e := TrimEnd(s);
    var r := TrimStart(e);
    if |r| > 0 {
      assert r[|r| - 1] == e[|e| - 1];
    }
  }

  lemma TrimEmpty(s: string)
    ensures TrimStart(TrimEnd(s)) == "" <==> AllControlOrSpace(s)
  {
    var e := TrimEnd(s);
    if |e| > 0 {
      assert e[|e| - 1] == s[|e| - 1];
      assert TrimStart(e)[|TrimStart(e)| - 1] == e[|e| - 1];
    }
  }

  lemma TrimOfTrimmed(s: string)
    ensures IsTrimmed(s) ==> TrimStart(TrimEnd(s)) == s
  {
  }

  lemma TrimIdempotent(s: string)
    ensures Trim(Trim(s)) == Trim(s)
  {
  }

  /** On plain text, a blank string is exactly one that trims to nothing. */
  lemma {:induction false} PlainBlankIffTrimEmpty(s: string)
    requires PlainText(s)
    ensures IsBlank(s) <==> Trim(s) == ""
  {
    if IsBlank(s) {
      forall i | 0 <= i < |s| ensures s[i] <= ' ' { assert IsWhitespace(s[i]); }
    } else {
      var i :| 0 <= i < |s| && !IsWhitespace(s[i]);
      assert !(s[i] <= ' ');
    }
  }

  /** A trimmed non-empty plain string is never blank. */
  lemma TrimmedPlainNotBlank(s: string)
    requires PlainText(s) && IsTrimmed(s) && s != ""
    ensures !IsBlank(s)
  {
    assert !IsWhitespace(s[0]);
  }

  // ---------------------------------------------------------------------
  // Case folding onto ASCII letters
  // ---------------------------------------------------------------------

  /**
   * Character.toLowerCase for every character whose lower case is an ASCII
   * letter except U+0130: the ASCII upper-case letters and the Kelvin sign.
   * Other characters are left as they are.
   */
  function LowerChar(c: char): char
  {
    if 'A' <= c <= 'Z' then (c as int + 32) as char
    else if c == '\U{212A}' then 'k'
    else c
  }

  /**
   * Character.toUpperCase for every character whose upper case is an ASCII
   * letter: the ASCII lower-case letters, the dotless i and the long s.
   * Other characters are left as they are.
   */
  function UpperChar(c: char): char
  {
    if 'a' <= c <= 'z' then (c as int - 32) as char
    else if c == '\U{131}' then 'I'
    else if c == '\U{17F}' then 'S'
    else c
  }

  /** String.toLowerCase, as far as LowerChar goes. */
  function ToLower(s: string): (r: string)
    ensures |r| == |s|
    ensures forall i :: 0 <= i < |s| ==> r[i] == LowerChar(s[i])
  {
    seq(|s|, i requires 0 <= i < |s| => LowerChar(s[i]))
  }

  /** String.toUpperCase, as far as UpperChar goes. */
  function ToUpper(s: string): (r: string)
    ensures |r| == |s|
    ensures forall i :: 0 <= i < |s| ==> r[i] == UpperChar(s[i])
  {
    seq(|s|, i requires 0 <= i < |s| => UpperChar(s[i]))
  }

  /**
   * String.equalsIgnoreCase on a non-null receiver and argument: two
   * characters match when their upper cases match, or the lower cases of
   * their upper cases do.
   */
  predicate EqualsIgnoreCase(a: string, b: string)
  {
    |a| == |b| && forall i :: 0 <= i < |a| ==> CharsMatchIgnoreCase(a[i], b[i])
  }

  predicate CharsMatchIgnoreCase(c: char, d: char)
  {
    UpperChar(c) == UpperChar(d) || LowerChar(UpperChar(c)) == LowerChar(UpperChar(d))
  }

  // ---------------------------------------------------------------------
  // Searching
  // ---------------------------------------------------------------------

  predicate OccursAt(s: string, pat: string, i: int)
  {
    0 <= i && i + |pat| <= |s| && s[i..i + |pat|] == pat
  }

  /** String.indexOf(pat, from): the first occurrence at or after `from`, or -1. */
  function IndexOfFrom(s: string, pat: string, from: nat): (r: int)
    decreases |s| - from
    ensures r == -1 || (from <= r && OccursAt(s, pat, r))
    ensures r == -1 ==> forall i :: from <= i ==> !OccursAt(s, pat, i)
    ensures r != -1 ==> forall i :: from <= i < r ==> !OccursAt(s, pat, i)
  {
    if from + |pat| > |s| then -1
    else if s[from..from + |pat|] == pat then from
    else IndexOfFrom(s, pat, from + 1)
  }

  /** String.contains. */
  predicate Contains(s: string, pat: string)
  {
    IndexOfFrom(s, pat, 0) != -1
  }

  lemma ContainsAt(s: string, pat: string, i: int)
    requires OccursAt(s, pat, i)
    ensures Contains(s, pat)
  {
  }

  /** `s` never holds `c`. */
  predicate NoChar(s: string, c: char)
  {
    forall i :: 0 <= i < |s| ==> s[i] != c
  }

  /** `s` never holds `a` directly followed by `b`. */
  predicate NoPair(s: string, a: char, b: char)
  {
    forall i :: 0 <= i < |s| - 1 ==> !(s[i] == a && s[i + 1] == b)
  }

  /** A text without the first character of a pattern does not contain it. */
  lemma NotContainsWithoutHead(s: string, pat: string)
    requires |pat| > 0 && NoChar(s, pat[0])
    ensures !Contains(s, pat)
  {
  }

  /** A text without the first two characters of a pattern in a row does not contain it. */
  lemma NotContainsWithoutPair(s: string, pat: string)
    requires |pat| >= 2 && NoPair(s, pat[0], pat[1])
    ensures !Contains(s, pat)
  {
  }

  lemma NoCharConcat(x: string, y: string, c: char)
    requires NoChar(x, c) && NoChar(y, c)
    ensures NoChar(x + y, c)
  {
  }

  /** Two texts free of a pair stay free of it when the first does not end with the pair's head. */
  lemma NoPairConcat(x: string, y: string, a: char, b: char)
    requires NoPair(x, a, b) && NoPair(y, a, b)
    requires |x| == 0 || x[|x| - 1] != a
    ensures NoPair(x + y, a, b)
  {
    var s := x + y;
    forall i | 0 <= i < |s| - 1
      ensures !(s[i] == a && s[i + 1] == b)
    {
      if i + 1 < |x| {
        assert s[i] == x[i] && s[i + 1] == x[i + 1];
      } else if i + 1 == |x| {
        assert s[i] == x[|x| - 1];
      } else {
        assert s[i] == y[i - |x|] && s[i + 1] == y[i + 1 - |x|];
      }
    }
  }

  /** Digits hold no letter. */
  lemma DigitsNoLetter(d: string, a: char, b: char)
    requires AllDigits(d) && !IsAsciiDigit(a)
    ensures NoChar(d, a) && NoPair(d, a, b)
  {
  }

  /** String.lastIndexOf(char). */
  function LastIndexOf(s: string, c: char): (r: int)
    ensures -1 <= r < |s|
    ensures r >= 0 ==> s[r] == c
    ensures forall i :: r < i < |s| ==> s[i] != c
  {
    if |s| == 0 then -1
    else if s[|s| - 1] == c then |s| - 1
    else LastIndexOf(s[..|s| - 1], c)
  }

  // ---------------------------------------------------------------------
  // Long.toString and Long.parseLong
  // ---------------------------------------------------------------------

  const LONG_MIN: int := -0x8000_0000_0000_0000
  const LONG_MAX: int := 0x7FFF_FFFF_FFFF_FFFF

  function DigitChar(d: nat): (c: char)
    requires d < 10
    ensures IsAsciiDigit(c) && c as int - '0' as int == d
  {
    ('0' as int + d) as char
  }

  /** The decimal digits of a natural number, most significant first. */
  function Decimal(n: nat): (r: string)
    ensures |r| > 0 && AllDigits(r)
  {
    if n < 10 then [DigitChar(n)] else Decimal(n / 10) + [DigitChar(n % 10)]
  }

  /** The value of a string of ASCII digits read in base 10. */
  function DigitsValue(s: string): nat
    requires AllDigits(s)
  {
    if |s| == 0 then 0
    else DigitsValue(s[..|s| - 1]) * 10 + (s[|s| - 1] as int - '0' as int)
  }

  lemma {:induction false} DecimalRoundTrip(n: nat)
    ensures DigitsValue(Decimal(n)) == n
  {
    if n >= 10 {
      DecimalRoundTrip(n / 10);
      var d := Decimal(n / 10) + [DigitChar(n % 10)];
      assert d[..|d| - 1] == Decimal(n / 10);
    }
  }

  /** Long.toString. */
  function ShowLong(n: int): string
  {
    if n < 0 then "-" + Decimal(-n) else Decimal(n)
  }

  /**
   * Long.parseLong over ASCII digits: an optional sign, at least one digit,
   * nothing else, and a value that fits in a signed 64-bit long.
   */
  function ParseLong(s: string): (r: Option<int>)
    ensures r.Some? ==> LONG_MIN <= r.value <= LONG_MAX
    ensures r.Some? ==> |s| > 0
  {
    var signed := |s| > 0 && (s[0] == '-' || s[0] == '+');
    var body := if signed then s[1..] else s;
    if |body| == 0 || !AllDigits(body) then None
    else
      var v: int := if signed && s[0] == '-' then 0 - DigitsValue(body) as int else DigitsValue(body) as int;
      if LONG_MIN <= v <= LONG_MAX then Some(v) else None
  }

  /** Parsing the printed form of any long gives the long back. */
  lemma ParseShowLong(n: int)
    requires LONG_MIN <= n <= LONG_MAX
    ensures ParseLong(ShowLong(n)) == Some(n)
  {
    var s := ShowLong(n);
    if n < 0 {
      DecimalRoundTrip(-n);
      assert s[0] == '-' && s[1..] == Decimal(-n);
    } else {
      DecimalRoundTrip(n);
      assert s == Decimal(n) && IsAsciiDigit(s[0]);
    }
  }
}
