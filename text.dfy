/**
 * The Python `str` operations that the generator and the QR formatter use,
 * over Dafny strings (sequences of Unicode scalar values).
 */
module Text {
  import opened Wrappers

  /** `str.isspace()`; the same code points are what `\s` matches in a `str` pattern. */
  predicate IsSpace(c: char) {
    c == ' ' || '\t' <= c <= '\r' || '\U{1C}' <= c <= '\U{1F}' || c == '\U{85}' || c == '\U{A0}'
    || c == '\U{1680}' || '\U{2000}' <= c <= '\U{200A}' || c == '\U{2028}' || c == '\U{2029}'
    || c == '\U{202F}' || c == '\U{205F}' || c == '\U{3000}'
  }

  /**
   * The code point of the zero that starts the block of ten decimal digits
   * holding `c`, or -1 when `c` is not a decimal digit (Unicode 14.0, the
   * tables of Python 3.11).  These are the characters `\d` matches and the
   * digits `int()` accepts.  The table is searched in six slices.
   */
  function DigitZero(c: char): (z: int)
    ensures z == -1 || 0 <= z <= c as int <= z + 9
  {
    var n := c as int;
    if n < 0xCE6 then DigitZeroIn0(n)
    else if n < 0x19D0 then DigitZeroIn1(n)
    else if n < 0xA9F0 then DigitZeroIn2(n)
    else if n < 0x11450 then DigitZeroIn3(n)
    else if n < 0x16AC0 then DigitZeroIn4(n)
    else DigitZeroIn5(n)
  }

  function DigitZeroIn0(n: int): (z: int)
    ensures z == -1 || 0 <= z <= n <= z + 9
  {
    if 0x30 <= n <= 0x39 then 0x30
    else if 0x660 <= n <= 0x669 then 0x660
    else if 0x6F0 <= n <= 0x6F9 then 0x6F0
    else if 0x7C0 <= n <= 0x7C9 then 0x7C0
    else if 0x966 <= n <= 0x96F then 0x966
    else if 0x9E6 <= n <= 0x9EF then 0x9E6
    else if 0xA66 <= n <= 0xA6F then 0xA66
    else if 0xAE6 <= n <= 0xAEF then 0xAE6
    else if 0xB66 <= n <= 0xB6F then 0xB66
    else if 0xBE6 <= n <= 0xBEF then 0xBE6
    else if 0xC66 <= n <= 0xC6F then 0xC66
    else -1
  }

  function DigitZeroIn1(n: int): (z: int)
    ensures z == -1 || 0 <= z <= n <= z + 9
  {
    if 0xCE6 <= n <= 0xCEF then 0xCE6
    else if 0xD66 <= n <= 0xD6F then 0xD66
    else if 0xDE6 <= n <= 0xDEF then 0xDE6
    else if 0xE50 <= n <= 0xE59 then 0xE50
    else if 0xED0 <= n <= 0xED9 then 0xED0
    else if 0xF20 <= n <= 0xF29 then 0xF20
    else if 0x1040 <= n <= 0x1049 then 0x1040
    else if 0x1090 <= n <= 0x1099 then 0x1090
    else if 0x17E0 <= n <= 0x17E9 then 0x17E0
    else if 0x1810 <= n <= 0x1819 then 0x1810
    else if 0x1946 <= n <= 0x194F then 0x1946
    else -1
  }

  function DigitZeroIn2(n: int): (z: int)
    ensures z == -1 || 0 <= z <= n <= z + 9
  {
    if 0x19D0 <= n <= 0x19D9 then 0x19D0
    else if 0x1A80 <= n <= 0x1A89 then 0x1A80
    else if 0x1A90 <= n <= 0x1A99 then 0x1A90
    else if 0x1B50 <= n <= 0x1B59 then 0x1B50
    else if 0x1BB0 <= n <= 0x1BB9 then 0x1BB0
    else if 0x1C40 <= n <= 0x1C49 then 0x1C40
    else if 0x1C50 <= n <= 0x1C59 then 0x1C50
    else if 0xA620 <= n <= 0xA629 then 0xA620
    else if 0xA8D0 <= n <= 0xA8D9 then 0xA8D0
    else if 0xA900 <= n <= 0xA909 then 0xA900
    else if 0xA9D0 <= n <= 0xA9D9 then 0xA9D0
    else -1
  }

  function DigitZeroIn3(n: int): (z: int)
    ensures z == -1 || 0 <= z <= n <= z + 9
  {
    if 0xA9F0 <= n <= 0xA9F9 then 0xA9F0
    else if 0xAA50 <= n <= 0xAA59 then 0xAA50
    else if 0xABF0 <= n <= 0xABF9 then 0xABF0
    else if 0xFF10 <= n <= 0xFF19 then 0xFF10
    else if 0x104A0 <= n <= 0x104A9 then 0x104A0
    else if 0x10D30 <= n <= 0x10D39 then 0x10D30
    else if 0x11066 <= n <= 0x1106F then 0x11066
    else if 0x110F0 <= n <= 0x110F9 then 0x110F0
    else if 0x11136 <= n <= 0x1113F then 0x11136
    else if 0x111D0 <= n <= 0x111D9 then 0x111D0
    else if 0x112F0 <= n <= 0x112F9 then 0x112F0
    else -1
  }

  function DigitZeroIn4(n: int): (z: int)
    ensures z == -1 || 0 <= z <= n <= z + 9
  {
    if 0x11450 <= n <= 0x11459 then 0x11450
    else if 0x114D0 <= n <= 0x114D9 then 0x114D0
    else if 0x11650 <= n <= 0x11659 then 0x11650
    else if 0x116C0 <= n <= 0x116C9 then 0x116C0
    else if 0x11730 <= n <= 0x11739 then 0x11730
    else if 0x118E0 <= n <= 0x118E9 then 0x118E0
    else if 0x11950 <= n <= 0x11959 then 0x11950
    else if 0x11C50 <= n <= 0x11C59 then 0x11C50
    else if 0x11D50 <= n <= 0x11D59 then 0x11D50
    else if 0x11DA0 <= n <= 0x11DA9 then 0x11DA0
    else if 0x16A60 <= n <= 0x16A69 then 0x16A60
    else -1
  }

  function DigitZeroIn5(n: int): (z: int)
    ensures z == -1 || 0 <= z <= n <= z + 9
  {
    if 0x16AC0 <= n <= 0x16AC9 then 0x16AC0
    else if 0x16B50 <= n <= 0x16B59 then 0x16B50
    else if 0x1D7CE <= n <= 0x1D7D7 then 0x1D7CE
    else if 0x1D7D8 <= n <= 0x1D7E1 then 0x1D7D8
    else if 0x1D7E2 <= n <= 0x1D7EB then 0x1D7E2
    else if 0x1D7EC <= n <= 0x1D7F5 then 0x1D7EC
    else if 0x1D7F6 <= n <= 0x1D7FF then 0x1D7F6
    else if 0x1E140 <= n <= 0x1E149 then 0x1E140
    else if 0x1E2F0 <= n <= 0x1E2F9 then 0x1E2F0
    else if 0x1E950 <= n <= 0x1E959 then 0x1E950
    else if 0x1FBF0 <= n <= 0x1FBF9 then 0x1FBF0
    else -1
  }

  predicate IsDecimal(c: char) {
    DigitZero(c) >= 0
  }

  function DigitValue(c: char): (d: nat)
    requires IsDecimal(c)
    ensures d < 10
  {
    c as int - DigitZero(c)
  }

  predicate IsAsciiDigit(c: char) {
    '0' <= c <= '9'
  }

  predicate IsAsciiLetter(c: char) {
    'a' <= c <= 'z' || 'A' <= c <= 'Z'
  }

  predicate StartsWith(s: string, prefix: string) {
    prefix <= s
  }

  predicate EndsWith(s: string, suffix: string) {
    |suffix| <= |s| && s[|s| - |suffix|..] == suffix
  }

  /** `sub in s`: `sub` occurs in `s` at some position. */
  predicate Contains(s: string, sub: string)
    decreases |s|
  {
    sub <= s || (|s| > 0 && Contains(s[1..], sub))
  }

  lemma {:induction false} ContainsInfix(a: string, sub: string, b: string)
    ensures Contains(a + sub + b, sub)
    decreases |a|
  {
    if a == [] {
      assert a + sub + b == sub + b;
    } else {
      assert (a + sub + b)[1..] == a[1..] + sub + b;
      ContainsInfix(a[1..], sub, b);
    }
  }

  lemma {:induction false} ContainsWitness(s: string, sub: string)
    requires Contains(s, sub)
    ensures exists a, b :: s == a + sub + b
    decreases |s|
  {
    if sub <= s {
      assert s == [] + sub + s[|sub|..];
    } else {
      ContainsWitness(s[1..], sub);
      var a, b :| s[1..] == a + sub + b;
      assert s == [s[0]] + a + sub + b;
    }
  }

  // ----- strip -----

  function TrimStart(s: string): (r: string)
    ensures |r| <= |s|
    ensures r == [] || !IsSpace(r[0])
  {
    if |s| > 0 && IsSpace(s[0]) then TrimStart(s[1..]) else s
  }

  function TrimEnd(s: string): (r: string)
    ensures |r| <= |s|
    ensures r == [] || !IsSpace(r[|r| - 1])
  {
    if |s| > 0 && IsSpace(s[|s| - 1]) then TrimEnd(s[..|s| - 1]) else s
  }

  /** Removing leading white space leaves a suffix. */
  lemma {:induction false} TrimStartIsSuffix(s: string)
    ensures TrimStart(s) == s[|s| - |TrimStart(s)|..]
    decreases |s|
  {
    if |s| > 0 && IsSpace(s[0]) {
      TrimStartIsSuffix(s[1..]);
    }
  }

  /** Removing trailing white space leaves a prefix. */
  lemma {:induction false} TrimEndIsPrefix(s: string)
    ensures TrimEnd(s) == s[..|TrimEnd(s)|]
    decreases |s|
  {
    if |s| > 0 && IsSpace(s[|s| - 1]) {
      TrimEndIsPrefix(s[..|s| - 1]);
    }
  }

  /** `str.strip()`: leading and trailing white space removed. */
  function Trim(s: string): (r: string)
    ensures |r| <= |s|
    ensures r == [] || (!IsSpace(r[0]) && !IsSpace(r[|r| - 1]))
  {
    var t := TrimStart(s);
    TrimEndIsPrefix(t);
    TrimEnd(t)
  }

  lemma {:induction false} TrimStartRemovesSpaces(s: string)
    ensures forall i :: 0 <= i < |s| - |TrimStart(s)| ==> IsSpace(s[i])
    decreases |s|
  {
    if |s| > 0 && IsSpace(s[0]) {
      TrimStartRemovesSpaces(s[1..]);
    }
  }

  lemma {:induction false} TrimEndRemovesSpaces(s: string)
    ensures forall i :: |TrimEnd(s)| <= i < |s| ==> IsSpace(s[i])
    decreases |s|
  {
    if |s| > 0 && IsSpace(s[|s| - 1]) {
      TrimEndRemovesSpaces(s[..|s| - 1]);
    }
  }

  /**
   * The strip of `s` is the infix of `s` starting at `a` that is left once the
   * white space before `a` and after it is removed.
   */
  lemma TrimIsInfix(s: string) returns (a: nat)
    ensures a + |Trim(s)| <= |s| && Trim(s) == s[a..a + |Trim(s)|]
    ensures forall i :: 0 <= i < a ==> IsSpace(s[i])
    ensures forall i :: a + |Trim(s)| <= i < |s| ==> IsSpace(s[i])
  {
    var t := TrimStart(s);
    TrimStartIsSuffix(s);
    TrimEndIsPrefix(t);
    TrimStartRemovesSpaces(s);
    TrimEndRemovesSpaces(t);
    a := |s| - |t|;
  }

  /** Stripping adds no character. */
  lemma TrimNoNewChar(s: string, c: char)
    requires c !in s
    ensures c !in Trim(s)
  {
    var a := TrimIsInfix(s);
    var t := Trim(s);
    forall k | 0 <= k < |t|
      ensures t[k] != c
    {
      assert t[k] == s[a + k];
    }
  }

  /** A string that already neither starts nor ends with white space is its own strip. */
  lemma TrimOfTrimmed(s: string)
    requires s == [] || (!IsSpace(s[0]) && !IsSpace(s[|s| - 1]))
    ensures Trim(s) == s
  {
  }

  lemma TrimIdempotent(s: string)
    ensures Trim(Trim(s)) == Trim(s)
  {
    TrimOfTrimmed(Trim(s));
  }

  // ----- find, split, join -----

  /** `s.find(c)` when it is not -1. */
  function IndexOf(s: string, c: char): (r: Option<nat>)
    ensures r.None? <==> c !in s
    ensures r.Some? ==> r.value < |s| && s[r.value] == c && c !in s[..r.value]
  {
    if |s| == 0 then None
    else if s[0] == c then Some(0)
    else match IndexOf(s[1..], c)
      case None => None
      case Some(i) => Some(i + 1)
  }

  /** The first `c` of `a + [c] + b` is the one after `a` when `a` holds none. */
  lemma {:induction false} IndexOfFirst(a: string, c: char, b: string)
    requires c !in a
    ensures IndexOf(a + [c] + b, c) == Some(|a|)
    decreases |a|
  {
    if a != [] {
      assert a[0] in a;
      assert (a + [c] + b)[1..] == a[1..] + [c] + b;
      IndexOfFirst(a[1..], c, b);
    }
  }

  /** `s.rfind(c)` when it is not -1. */
  function LastIndexOf(s: string, c: char): (r: Option<nat>)
    ensures r.None? <==> c !in s
    ensures r.Some? ==> r.value < |s| && s[r.value] == c && c !in s[r.value + 1..]
  {
    if |s| == 0 then None
    else if s[|s| - 1] == c then Some(|s| - 1)
    else LastIndexOf(s[..|s| - 1], c)
  }

  /** The last `c` of `a + [c] + b` is the one after `a` when `b` holds none. */
  lemma {:induction false} LastIndexOfLast(a: string, c: char, b: string)
    requires c !in b
    ensures LastIndexOf(a + [c] + b, c) == Some(|a|)
    decreases |b|
  {
    if b != [] {
      var s := a + [c] + b;
      assert b[|b| - 1] in b;
      assert s[..|s| - 1] == a + [c] + b[..|b| - 1];
      LastIndexOfLast(a, c, b[..|b| - 1]);
    }
  }

  /** `s.split(sep)` for a one-character separator. */
  function Split(s: string, sep: char): (parts: seq<string>)
    ensures |parts| >= 1
    ensures forall k :: 0 <= k < |parts| ==> sep !in parts[k]
  {
    if |s| == 0 then [""]
    else
      var rest := Split(s[1..], sep);
      if s[0] == sep then [""] + rest else [[s[0]] + rest[0]] + rest[1..]
  }

  /** `sep.join(parts)` for a one-character separator. */
  function Join(parts: seq<string>, sep: char): string {
    if |parts| == 0 then ""
    else if |parts| == 1 then parts[0]
    else parts[0] + [sep] + Join(parts[1..], sep)
  }

  lemma SplitNoSeparator(s: string, sep: char)
    requires sep !in s
    ensures Split(s, sep) == [s]
  {
    if |s| > 0 {
      SplitNoSeparator(s[1..], sep);
      assert [s[0]] + s[1..] == s;
    }
  }

  /** Splitting distributes over a separator: the pieces of `a` come first, then those of `b`. */
  lemma {:induction false} SplitAround(a: string, b: string, sep: char)
    ensures Split(a + [sep] + b, sep) == Split(a, sep) + Split(b, sep)
    decreases |a|
  {
    if |a| == 0 {
      assert a + [sep] + b == [sep] + b;
      assert ([sep] + b)[1..] == b;
    } else {
      assert (a + [sep] + b)[1..] == a[1..] + [sep] + b;
      SplitAround(a[1..], b, sep);
    }
  }

  /** Splitting what a join produced gives the pieces back, when no piece holds the separator. */
  lemma {:induction false} SplitJoin(parts: seq<string>, sep: char)
    requires |parts| >= 1
    requires forall k :: 0 <= k < |parts| ==> sep !in parts[k]
    ensures Split(Join(parts, sep), sep) == parts
    decreases |parts|
  {
    if |parts| == 1 {
      SplitNoSeparator(parts[0], sep);
    } else {
      SplitJoin(parts[1..], sep);
      SplitAround(parts[0], Join(parts[1..], sep), sep);
      SplitNoSeparator(parts[0], sep);
      assert [parts[0]] + parts[1..] == parts;
    }
  }

  // ----- case mapping -----

  /**
   * `str.lower()` of one character.  Besides ASCII, the only characters whose
   * lower-case form contains an ASCII letter are U+0130 and U+212A; every other
   * character is left as it is, which changes no test for an ASCII needle.
   */
  function LowerChar(c: char): string {
    if 'A' <= c <= 'Z' then [(c as int + 32) as char]
    else if c == '\U{130}' then "i\U{307}"
    else if c == '\U{212A}' then "k"
    else [c]
  }

  function Lower(s: string): string {
    if s == [] then [] else LowerChar(s[0]) + Lower(s[1..])
  }

  /**
   * `str.upper()` of one character.  Besides ASCII, the characters whose
   * upper-case form is made of ASCII letters alone are U+00DF, U+0131, U+017F
   * and the ligatures U+FB00 to U+FB06.  A character whose upper case mixes
   * ASCII letters with other characters (U+0149, say) is left as it is: both
   * forms hold a non-ASCII character, so neither equals an ASCII word.
   */
  function UpperChar(c: char): string {
    if 'a' <= c <= 'z' then [(c as int - 32) as char]
    else if c == '\U{DF}' then "SS"
    else if c == '\U{131}' then "I"
    else if c == '\U{17F}' then "S"
    else if c == '\U{FB00}' then "FF"
    else if c == '\U{FB01}' then "FI"
    else if c == '\U{FB02}' then "FL"
    else if c == '\U{FB03}' then "FFI"
    else if c == '\U{FB04}' then "FFL"
    else if c == '\U{FB05}' || c == '\U{FB06}' then "ST"
    else [c]
  }

  function Upper(s: string): string {
    if s == [] then [] else UpperChar(s[0]) + Upper(s[1..])
  }

  lemma {:induction false} LowerConcat(a: string, b: string)
    ensures Lower(a + b) == Lower(a) + Lower(b)
    decreases |a|
  {
    if a != [] {
      assert (a + b)[1..] == a[1..] + b;
      LowerConcat(a[1..], b);
    } else {
      assert a + b == b;
    }
  }

  // ----- replace -----

  /** `s.replace(pattern, replacement)`: non-overlapping occurrences, scanned left to right. */
  function Replace(s: string, pattern: string, replacement: string): string
    requires |pattern| > 0
  {
    if pattern <= s then replacement + Replace(s[|pattern|..], pattern, replacement)
    else if |s| == 0 then s
    else [s[0]] + Replace(s[1..], pattern, replacement)
  }

  // ----- int() and str() -----

  /** The body of a decimal literal as `int()` accepts it: digits, single `_` only between digits. */
  predicate WellFormedDigits(d: string) {
    && |d| > 0
    && IsDecimal(d[0]) && IsDecimal(d[|d| - 1])
    && (forall i :: 0 <= i < |d| ==> IsDecimal(d[i]) || d[i] == '_')
    && (forall i :: 0 <= i < |d| - 1 ==> !(d[i] == '_' && d[i + 1] == '_'))
  }

  /** Value of the digits of `d`, underscores skipped. */
  function DigitsValue(d: string): nat
    requires forall i :: 0 <= i < |d| ==> IsDecimal(d[i]) || d[i] == '_'
  {
    if |d| == 0 then 0
    else if d[|d| - 1] == '_' then DigitsValue(d[..|d| - 1])
    else DigitsValue(d[..|d| - 1]) * 10 + DigitValue(d[|d| - 1])
  }

  /**
   * CPython's default `sys.get_int_max_str_digits()`: `int()` of a string
   * with more digits than this, and `str()` of an integer with more, raise
   * `ValueError`.
   */
  const MaxStrDigits: nat := 4300

  /** The number of digits in `d`; underscores do not count. */
  function DigitCount(d: string): (n: nat)
    ensures n <= |d|
  {
    if d == [] then 0
    else DigitCount(d[..|d| - 1]) + (if d[|d| - 1] == '_' then 0 else 1)
  }

  /** `int(s)` for a `str` argument: `None` where Python raises `ValueError`. */
  function ParseInt(s: string): Option<int> {
    var t := Trim(s);
    if |t| > 0 && (t[0] == '+' || t[0] == '-') then
      var body := t[1..];
      if WellFormedDigits(body) && DigitCount(body) <= MaxStrDigits then
        Some(if t[0] == '-' then 0 - DigitsValue(body) else DigitsValue(body))
      else None
    else if WellFormedDigits(t) && DigitCount(t) <= MaxStrDigits then Some(DigitsValue(t))
    else None
  }

  function AsciiDigit(d: nat): (c: char)
    requires d < 10
    ensures IsAsciiDigit(c) && IsDecimal(c) && DigitValue(c) == d
  {
    (48 + d) as char
  }

  /** `str(n)` for a non-negative integer. */
  function NatToString(n: nat): (s: string)
    ensures |s| > 0
    ensures forall i :: 0 <= i < |s| ==> IsAsciiDigit(s[i]) && IsDecimal(s[i])
  {
    if n < 10 then [AsciiDigit(n)] else NatToString(n / 10) + [AsciiDigit(n % 10)]
  }

  /** `str(i)` does not raise: the magnitude has at most `MaxStrDigits` digits. */
  predicate Printable(i: int) {
    |NatToString(if i < 0 then -i else i)| <= MaxStrDigits
  }

  /** `str(i)`, for an integer that is `Printable`. */
  function IntToString(i: int): string {
    if i < 0 then "-" + NatToString(-i) else NatToString(i)
  }

  /** A larger number never has fewer digits. */
  lemma {:induction false} NatToStringMonotone(a: nat, b: nat)
    requires a <= b
    ensures |NatToString(a)| <= |NatToString(b)|
    decreases b
  {
    if a >= 10 {
      NatToStringMonotone(a / 10, b / 10);
    }
  }

  lemma {:induction false} DigitsValueOfNat(n: nat)
    ensures DigitsValue(NatToString(n)) == n
    decreases n
  {
    if n >= 10 {
      DigitsValueOfNat(n / 10);
      var s := NatToString(n);
      assert s[..|s| - 1] == NatToString(n / 10);
    }
  }

  /** A string without underscores has as many digits as characters. */
  lemma {:induction false} DigitCountPlain(d: string)
    requires '_' !in d
    ensures DigitCount(d) == |d|
    decreases |d|
  {
    if d != [] {
      assert d[|d| - 1] in d;
      var front := d[..|d| - 1];
      assert '_' !in front by {
        forall k | 0 <= k < |front|
          ensures front[k] == d[k]
        {
        }
      }
      DigitCountPlain(front);
    }
  }

  /** The value of a digit string prints in no more digits than the string has. */
  lemma {:induction false} DigitsValueFits(d: string)
    requires forall i :: 0 <= i < |d| ==> IsDecimal(d[i]) || d[i] == '_'
    ensures DigitCount(d) == 0 ==> DigitsValue(d) == 0
    ensures DigitCount(d) > 0 ==> |NatToString(DigitsValue(d))| <= DigitCount(d)
    decreases |d|
  {
    if d != [] {
      var front := d[..|d| - 1];
      DigitsValueFits(front);
      if d[|d| - 1] != '_' {
        var v := DigitsValue(front);
        var n := DigitsValue(d);
        if v > 0 {
          assert n / 10 == v;
        }
      }
    }
  }

  /** An integer between two printable ones is printable. */
  lemma PrintableBetween(a: int, b: int, c: int)
    requires Printable(a) && Printable(c) && a <= b <= c
    ensures Printable(b)
  {
    if b >= 0 {
      NatToStringMonotone(b, c);
    } else {
      NatToStringMonotone(-b, -a);
    }
  }

  /** Whatever `int()` accepts prints back: its value is `Printable`. */
  lemma ParsedIsPrintable(s: string)
    requires ParseInt(s).Some?
    ensures Printable(ParseInt(s).value)
  {
    var t := Trim(s);
    var body := if |t| > 0 && (t[0] == '+' || t[0] == '-') then t[1..] else t;
    assert WellFormedDigits(body) && DigitCount(body) <= MaxStrDigits;
    assert DigitCount(body) > 0 by {
      assert body[|body| - 1] != '_';
    }
    DigitsValueFits(body);
  }

  /** Every decimal digit is a non-space character other than a sign or `_`. */
  lemma DecimalIsPlain(c: char)
    requires IsDecimal(c)
    ensures !IsSpace(c) && c != '+' && c != '-' && c != '_'
  {
  }

  /** A run of decimal digits is a well-formed digit string, one digit per character. */
  lemma DecimalsWellFormed(t: string)
    requires |t| > 0 && forall i :: 0 <= i < |t| ==> IsDecimal(t[i])
    ensures WellFormedDigits(t) && DigitCount(t) == |t|
    ensures !IsSpace(t[0]) && !IsSpace(t[|t| - 1]) && t[0] != '+' && t[0] != '-'
  {
    DecimalIsPlain(t[0]);
    DecimalIsPlain(t[|t| - 1]);
    assert '_' !in t by {
      forall k | 0 <= k < |t|
        ensures t[k] != '_'
      {
        DecimalIsPlain(t[k]);
      }
    }
    DigitCountPlain(t);
  }

  /** `int()` of a run of decimal digits: their value, or `None` past `MaxStrDigits` of them. */
  lemma ParseIntOfDecimals(t: string)
    requires |t| > 0 && forall i :: 0 <= i < |t| ==> IsDecimal(t[i])
    ensures ParseInt(t) == if |t| <= MaxStrDigits then Some(DigitsValue(t) as int) else None
  {
    DecimalsWellFormed(t);
    TrimOfTrimmed(t);
  }

  /** `int(str(n)) == n` while `str(n)` does not raise; past that `int()` raises too. */
  lemma ParseIntOfNat(n: nat)
    ensures ParseInt(NatToString(n)) == if |NatToString(n)| <= MaxStrDigits then Some(n) else None
  {
    ParseIntOfDecimals(NatToString(n));
    DigitsValueOfNat(n);
  }

  /** `int()` of a minus sign and a run of decimal digits. */
  lemma ParseIntOfMinusDecimals(d: string)
    requires |d| > 0 && forall i :: 0 <= i < |d| ==> IsDecimal(d[i])
    ensures ParseInt("-" + d) == if |d| <= MaxStrDigits then Some(-(DigitsValue(d) as int)) else None
  {
    var s := "-" + d;
    assert s[1..] == d;
    DecimalsWellFormed(d);
    assert s[|s| - 1] == d[|d| - 1];
    TrimOfTrimmed(s);
  }

  lemma ParseIntOfNegative(m: nat)
    ensures ParseInt("-" + NatToString(m)) == if |NatToString(m)| <= MaxStrDigits then Some(-(m as int)) else None
  {
    ParseIntOfMinusDecimals(NatToString(m));
    DigitsValueOfNat(m);
  }

  /** `int(str(i)) == i` for every `Printable` integer, and `int()` raises on the text of any other. */
  lemma ParseIntOfInt(i: int)
    ensures ParseInt(IntToString(i)) == if Printable(i) then Some(i) else None
  {
    if i < 0 {
      ParseIntOfNegative(-i);
    } else {
      ParseIntOfNat(i);
    }
  }
}
