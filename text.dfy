/**
 * The few pieces of Python string behaviour the bot relies on: `str.strip()`,
 * `str.lstrip(ch)`, `str.startswith`, `str(n)` for integers and `int(s)`
 * for strings. Strings are sequences of Unicode scalar values, as in Python 3.
 */
module Text {
  import opened Optional

  /** The characters for which Python's `str.isspace()` holds. */
  predicate IsSpace(c: char) {
    || c == ' '
    || '\t' <= c <= '\r'
    || '\U{1C}' <= c <= '\U{1F}'
    || c == '\U{85}' || c == '\U{A0}' || c == '\U{1680}'
    || '\U{2000}' <= c <= '\U{200A}'
    || c == '\U{2028}' || c == '\U{2029}' || c == '\U{202F}' || c == '\U{205F}' || c == '\U{3000}'
  }

  predicate IsAsciiDigit(c: char) {
    '0' <= c <= '9'
  }

  /** `s` without its leading run of characters satisfying `p`. */
  function TrimStart(s: string, p: char -> bool): string {
    if s != [] && p(s[0]) then TrimStart(s[1..], p) else s
  }

  /** `s` without its trailing run of characters satisfying `p`. */
  function TrimEnd(s: string, p: char -> bool): string {
    if s != [] && p(s[|s| - 1]) then TrimEnd(s[..|s| - 1], p) else s
  }

  /** TrimStart removes a prefix made of `p` characters and stops at the first other one. */
  lemma {:induction false} TrimStartShape(s: string, p: char -> bool)
    ensures var r := TrimStart(s, p);
      && |r| <= |s| && r == s[|s| - |r|..]
      && (forall i :: 0 <= i < |s| - |r| ==> p(s[i]))
      && (r == [] || !p(r[0]))
  {
    if s != [] && p(s[0]) {
      TrimStartShape(s[1..], p);
      var r := TrimStart(s, p);
      forall i | 0 <= i < |s| - |r| ensures p(s[i]) {
        if i > 0 { assert s[1..][i - 1] == s[i]; }
      }
    }
  }

  /** TrimEnd removes a suffix made of `p` characters and stops at the last other one. */
  lemma {:induction false} TrimEndShape(s: string, p: char -> bool)
    ensures var r := TrimEnd(s, p);
      && |r| <= |s| && r == s[..|r|]
      && (forall i :: |r| <= i < |s| ==> p(s[i]))
      && (r == [] || !p(r[|r| - 1]))
  {
    if s != [] && p(s[|s| - 1]) {
      var front := s[..|s| - 1];
      TrimEndShape(front, p);
      var r := TrimEnd(s, p);
      forall i | |r| <= i < |s| ensures p(s[i]) {
        if i < |s| - 1 { assert front[i] == s[i]; }
      }
    }
  }

  /** Python's `s.strip()`: whitespace removed at both ends. */
  function Strip(s: string): string {
    TrimEnd(TrimStart(s, IsSpace), IsSpace)
  }

  /** Python's `s.lstrip(ch)` for a single character `ch`. */
  function LStripChar(s: string, ch: char): string {
    TrimStart(s, c => c == ch)
  }

  /** Python's `s.startswith(prefix)`. */
  predicate StartsWith(s: string, prefix: string) {
    |prefix| <= |s| && s[..|prefix|] == prefix
  }

  /** A stripped string neither starts nor ends with whitespace, and a string
      without whitespace is its own strip. */
  lemma StripShape(s: string)
    ensures var r := Strip(s); r == [] || (!IsSpace(r[0]) && !IsSpace(r[|r| - 1]))
    ensures (forall i :: 0 <= i < |s| ==> !IsSpace(s[i])) ==> Strip(s) == s
  {
    var t := TrimStart(s, IsSpace);
    var r := TrimEnd(t, IsSpace);
    TrimStartShape(s, IsSpace);
    TrimEndShape(t, IsSpace);
    if r != [] {
      assert r[0] == t[0];
    }
  }

  function DigitChar(d: nat): (c: char)
    requires d < 10
    ensures IsAsciiDigit(c)
  {
    ('0' as int + d) as char
  }

  function DigitValue(c: char): (d: nat)
    requires IsAsciiDigit(c)
    ensures d < 10
  {
    c as int - '0' as int
  }

  predicate AllDigits(s: string) {
    forall i :: 0 <= i < |s| ==> IsAsciiDigit(s[i])
  }

  /** The decimal digits of `n`, most significant first, no leading zero: `str(n)` for `n >= 0`. */
  function NatToDigits(n: nat): (r: string)
    ensures |r| >= 1 && AllDigits(r)
  {
    if n < 10 then [DigitChar(n)] else NatToDigits(n / 10) + [DigitChar(n % 10)]
  }

  /** Python's `str(n)` for an integer. */
  function IntToString(n: int): string {
    if n < 0 then "-" + NatToDigits(-n) else NatToDigits(n)
  }

  /** The number a string of decimal digits denotes (leading zeros allowed). */
  function DigitsValue(s: string): nat
    requires AllDigits(s)
  {
    if s == [] then 0 else DigitsValue(s[..|s| - 1]) * 10 + DigitValue(s[|s| - 1])
  }

  lemma {:induction false} DigitsRoundTrip(n: nat)
    ensures DigitsValue(NatToDigits(n)) == n
  {
    if n >= 10 {
      var s := NatToDigits(n);
      assert s[..|s| - 1] == NatToDigits(n / 10);
      DigitsRoundTrip(n / 10);
    }
  }

  /** Decimal digits, where single underscores may separate two digits (PEP 515). */
  predicate IsDigitGroup(s: string) {
    && |s| >= 1 && IsAsciiDigit(s[0]) && IsAsciiDigit(s[|s| - 1])
    && (forall i :: 0 <= i < |s| ==> IsAsciiDigit(s[i]) || s[i] == '_')
    && (forall i :: 0 <= i < |s| - 1 ==> !(s[i] == '_' && s[i + 1] == '_'))
  }

  /** `s` without its underscores. */
  function DropUnderscores(s: string): (r: string)
    ensures (forall i :: 0 <= i < |s| ==> IsAsciiDigit(s[i]) || s[i] == '_') ==> AllDigits(r)
    ensures AllDigits(s) ==> r == s
  {
    if s == [] then []
    else DropUnderscores(s[..|s| - 1]) + (if s[|s| - 1] == '_' then [] else [s[|s| - 1]])
  }

  /**
   * Python's `int(s)` on a string in base 10: surrounding whitespace is
   * ignored, then one optional sign and a digit group. None stands for the
   * ValueError Python raises on anything else.
   */
  function ParseInt(s: string): Option<int> {
    ParseSigned(Strip(s))
  }

  /** An optional sign followed by a digit group. */
  function ParseSigned(t: string): Option<int> {
    if t == [] then None
    else if t[0] == '-' then
      (match ParseDigitGroup(t[1..]) case Some(v) => Some(-v) case None => None)
    else if t[0] == '+' then ParseDigitGroup(t[1..])
    else ParseDigitGroup(t)
  }

  function ParseDigitGroup(body: string): Option<int> {
    if IsDigitGroup(body) then Some(DigitsValue(DropUnderscores(body))) else None
  }

  /** `str(n)` has no whitespace, so stripping leaves it unchanged. */
  lemma IntToStringStripped(n: int)
    ensures Strip(IntToString(n)) == IntToString(n)
  {
    var s := IntToString(n);
    var digits := NatToDigits(if n < 0 then -n else n);
    forall i | 0 <= i < |s| ensures !IsSpace(s[i]) {
      if n < 0 {
        if i > 0 {
          assert s[i] == digits[i - 1];
        }
      } else {
        assert s[i] == digits[i];
      }
    }
    StripShape(s);
  }

  /** Reading back what `str(n)` writes gives `n`. */
  lemma ParseIntRoundTrip(n: int)
    ensures ParseInt(IntToString(n)) == Some(n)
  {
    var m: nat := if n < 0 then -n else n;
    var digits := NatToDigits(m);
    DigitsRoundTrip(m);
    assert IsDigitGroup(digits);
    assert ParseDigitGroup(digits) == Some(m);
    var s := IntToString(n);
    IntToStringStripped(n);
    if n < 0 {
      assert s[0] == '-' && s[1..] == digits;
    } else {
      assert s == digits;
    }
  }
}
