/** Character classes and string operations with Python's meaning, as the
    source uses them: `str.lower`, `str.upper`, `str.strip`, the `in`
    substring test, `str.join`, and the digit runs read by `int()`. */
module Text {

  /** `\d` of the source's patterns and the digits `int()` reads (ASCII only). */
  predicate IsDigit(c: char) {
    '0' <= c <= '9'
  }

  predicate AllDigits(s: string) {
    forall i | 0 <= i < |s| :: IsDigit(s[i])
  }

  function DigitValue(c: char): (v: nat)
    requires IsDigit(c)
    ensures v < 10
  {
    c as int - '0' as int
  }

  function DigitChar(v: nat): (c: char)
    requires v < 10
    ensures IsDigit(c) && DigitValue(c) == v
  {
    ('0' as int + v) as char
  }

  /** The value `int()` gives a run of decimal digits. */
  function DigitsValue(s: string): nat
    requires AllDigits(s)
  {
    if s == [] then 0 else DigitsValue(s[..|s| - 1]) * 10 + DigitValue(s[|s| - 1])
  }

  /** Two-digit zero-padded rendering (`%m`, `%d`). */
  function Pad2(n: nat): (s: string)
    requires n < 100
    ensures |s| == 2 && AllDigits(s) && DigitsValue(s) == n
  {
    var s := [DigitChar(n / 10), DigitChar(n % 10)];
    assert s[..1] == [DigitChar(n / 10)];
    assert s[..1][..0] == [];
    assert DigitsValue(s[..1]) == n / 10;
    assert DigitsValue(s) == (n / 10) * 10 + n % 10;
    s
  }

  /** Four-digit zero-padded rendering (the year of `date.isoformat`). */
  function Pad4(n: nat): (s: string)
    requires n < 10000
    ensures |s| == 4 && AllDigits(s) && DigitsValue(s) == n
  {
    var s := Pad2(n / 100) + Pad2(n % 100);
    assert s[..3][..2] == Pad2(n / 100);
    assert s[..3] == Pad2(n / 100) + [s[2]];
    assert s[..2] == Pad2(n / 100);
    s
  }

  /** Whitespace as Python's `str.isspace`, `str.strip()` and `\s` see it. */
  predicate IsSpace(c: char) {
    var n := c as int;
    n == 32 || 9 <= n <= 13 || 28 <= n <= 31 || n == 0x85 || n == 0xA0 || n == 0x1680
    || 0x2000 <= n <= 0x200A || n == 0x2028 || n == 0x2029 || n == 0x202F || n == 0x205F
    || n == 0x3000
  }

  predicate IsUpperLetter(c: char) {
    'A' <= c <= 'Z' || (0xC0 <= c as int <= 0xDE && c as int != 0xD7)
  }

  predicate IsLowerLetter(c: char) {
    'a' <= c <= 'z' || (0xE0 <= c as int <= 0xFE && c as int != 0xF7)
  }

  function LowerChar(c: char): (r: char)
    ensures !IsUpperLetter(r)
  {
    if IsUpperLetter(c) then (c as int + 32) as char else c
  }

  /** `str.upper()` of one character: the Latin-1 small letters move to
      their capitals, 'µ' to Greek capital mu and 'ÿ' to 'Ÿ'; 'ß' (whose
      capital is the two letters "SS") is kept as it is. */
  function UpperChar(c: char): (r: char)
    ensures !IsLowerLetter(r) && r != 'µ' && r != 'ÿ'
  {
    if IsLowerLetter(c) then (c as int - 32) as char
    else if c == 'µ' then 'Μ'
    else if c == 'ÿ' then 'Ÿ'
    else c
  }

  /** `str.lower()`; the same length as its input, character by character. */
  function Lower(s: string): (r: string)
    ensures |r| == |s|
    ensures forall i | 0 <= i < |s| :: r[i] == LowerChar(s[i])
  {
    seq(|s|, i requires 0 <= i < |s| => LowerChar(s[i]))
  }

  /** `str.upper()`. */
  function Upper(s: string): (r: string)
    ensures |r| == |s|
    ensures forall i | 0 <= i < |s| :: r[i] == UpperChar(s[i])
  {
    seq(|s|, i requires 0 <= i < |s| => UpperChar(s[i]))
  }

  /** The end of the whitespace run of `s` that starts at `i`. */
  function SkipSpaces(s: string, i: nat): (j: nat)
    requires i <= |s|
    ensures i <= j <= |s|
    ensures forall k | i <= k < j :: IsSpace(s[k])
    ensures j == |s| || !IsSpace(s[j])
    decreases |s| - i
  {
    if i < |s| && IsSpace(s[i]) then SkipSpaces(s, i + 1) else i
  }

  /** The start of the whitespace run of `s` that ends at `j`. */
  function SkipSpacesBack(s: string, j: nat): (i: nat)
    requires j <= |s|
    ensures i <= j
    ensures forall k | i <= k < j :: IsSpace(s[k])
    ensures i == 0 || !IsSpace(s[i - 1])
  {
    if j > 0 && IsSpace(s[j - 1]) then SkipSpacesBack(s, j - 1) else j
  }

  /** `str.strip()`: drop leading and trailing whitespace. */
  function Strip(s: string): string {
    var i := SkipSpaces(s, 0);
    var j := SkipSpacesBack(s, |s|);
    if j <= i then [] else s[i..j]
  }

  /** The stripped string is a piece of the original with whitespace at
      neither end, and what was cut off is all whitespace. */
  lemma StripSpec(s: string)
    ensures var r := Strip(s);
      && (r == [] || (!IsSpace(r[0]) && !IsSpace(r[|r| - 1])))
      && exists i, j | 0 <= i <= j <= |s| :: r == s[i..j]
           && (forall k | 0 <= k < i :: IsSpace(s[k]))
           && (forall k | j <= k < |s| :: IsSpace(s[k]))
  {
    var i := SkipSpaces(s, 0);
    var j := SkipSpacesBack(s, |s|);
    if j <= i {
      assert Strip(s) == s[i..i];
    }
  }

  /** A string that neither starts nor ends with whitespace is its own strip. */
  lemma StripUnspaced(s: string)
    requires s == [] || (!IsSpace(s[0]) && !IsSpace(s[|s| - 1]))
    ensures Strip(s) == s
  {
  }

  predicate StartsWith(s: string, prefix: string) {
    |prefix| <= |s| && s[..|prefix|] == prefix
  }

  /** Python's `needle in s` for strings. */
  predicate Contains(s: string, needle: string)
    decreases |s|
  {
    StartsWith(s, needle) || (|s| > 0 && Contains(s[1..], needle))
  }

  /** Whatever contains a string contains each of its prefixes. */
  lemma {:induction false} ContainsPrefix(s: string, needle: string, prefix: string)
    requires Contains(s, needle) && StartsWith(needle, prefix)
    ensures Contains(s, prefix)
    decreases |s|
  {
    if StartsWith(s, needle) {
      assert s[..|prefix|] == needle[..|prefix|];
    } else {
      ContainsPrefix(s[1..], needle, prefix);
    }
  }

  /** A string can contain a needle only if it holds each of the needle's
      characters somewhere. */
  lemma {:induction false} ContainsHasChar(s: string, needle: string, j: nat)
    requires Contains(s, needle) && j < |needle|
    ensures exists i | 0 <= i < |s| :: s[i] == needle[j]
    decreases |s|
  {
    if StartsWith(s, needle) {
      assert s[..|needle|][j] == needle[j];
    } else {
      ContainsHasChar(s[1..], needle, j);
      var i :| 0 <= i < |s[1..]| && s[1..][i] == needle[j];
      assert s[i + 1] == needle[j];
    }
  }

  /** A string holds whatever it was assembled around. */
  lemma {:induction false} ContainsInside(pre: string, needle: string, post: string)
    ensures Contains(pre + needle + post, needle)
    decreases |pre|
  {
    var s := pre + needle + post;
    if pre == [] {
      assert s[..|needle|] == needle;
    } else {
      assert s[1..] == pre[1..] + needle + post;
      ContainsInside(pre[1..], needle, post);
    }
  }

  /** `sep.join(parts)`. */
  function Join(sep: string, parts: seq<string>): string
    decreases |parts|
  {
    if parts == [] then ""
    else if |parts| == 1 then parts[0]
    else Join(sep, parts[..|parts| - 1]) + sep + parts[|parts| - 1]
  }
}
