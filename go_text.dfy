/**
 * The pieces of Go's standard library that the receipt handlers rely on,
 * written out: the ASCII classes `\d`, `\w` and `\s` of Go's RE2 regular
 * expressions, `unicode.IsSpace` with `strings.TrimSpace`,
 * `strings.HasSuffix`, the byte count `len` gives for a UTF-8 string, and
 * decimal digit strings.
 */
module GoText {

  /** RE2 `\d`: the ASCII digits only. */
  predicate IsDigit(c: char) {
    '0' <= c <= '9'
  }

  predicate IsAsciiLetter(c: char) {
    'a' <= c <= 'z' || 'A' <= c <= 'Z'
  }

  /** The per-rune test of `countAlphanumeric`. */
  predicate IsAsciiAlnum(c: char) {
    IsAsciiLetter(c) || IsDigit(c)
  }

  /** RE2 `\w`: [0-9A-Za-z_]. */
  predicate IsWordChar(c: char) {
    IsAsciiAlnum(c) || c == '_'
  }

  /** RE2 `\s`: [\t\n\f\r ], without the vertical tab and without anything outside ASCII. */
  predicate IsPerlSpace(c: char) {
    c == '\t' || c == '\n' || c == '\U{0C}' || c == '\r' || c == ' '
  }

  /** `unicode.IsSpace`: the Latin-1 spaces, then the White_Space property beyond Latin-1. */
  predicate IsUnicodeSpace(c: char)
    ensures IsPerlSpace(c) ==> IsUnicodeSpace(c)
    ensures IsUnicodeSpace(c) ==> !IsWordChar(c) && c != '-' && c != '&'
  {
    c == '\t' || c == '\n' || c == '\U{0B}' || c == '\U{0C}' || c == '\r' || c == ' '
    || c == '\U{85}' || c == '\U{A0}' || c == '\U{1680}' || '\U{2000}' <= c <= '\U{200A}'
    || c == '\U{2028}' || c == '\U{2029}' || c == '\U{202F}' || c == '\U{205F}' || c == '\U{3000}'
  }

  /** `strings.HasSuffix`. */
  predicate HasSuffix(s: string, suffix: string) {
    |suffix| <= |s| && s[|s| - |suffix|..] == suffix
  }

  /** Whether `s` starts with `prefix`; a helper for stating the shape of the error texts. */
  predicate HasPrefix(s: string, prefix: string) {
    |prefix| <= |s| && s[..|prefix|] == prefix
  }

  /** Whatever comes before it, a string ends with what was appended last. */
  lemma SuffixOfConcat(p: string, suffix: string)
    ensures HasSuffix(p + suffix, suffix)
  {
    assert (p + suffix)[|p|..] == suffix;
  }

  /** Every rune is below 0x80, so each takes one byte in UTF-8. */
  predicate AllAscii(s: string) {
    forall i :: 0 <= i < |s| ==> s[i] as int < 0x80
  }

  /** Number of bytes of the UTF-8 encoding of one rune. */
  function RuneLength(c: char): (n: nat)
    ensures 1 <= n <= 4
    ensures n == 1 <==> c as int < 0x80
  {
    if c as int < 0x80 then 1
    else if c as int < 0x800 then 2
    else if c as int < 0x10000 then 3
    else 4
  }

  /** `len(s)` for a Go string: its length in bytes, which is its length in runes exactly when it is ASCII. */
  function Utf8Length(s: string): (n: nat)
    ensures |s| <= n <= 4 * |s|
    ensures n == |s| <==> AllAscii(s)
  {
    if s == [] then 0 else Utf8Length(s[..|s| - 1]) + RuneLength(s[|s| - 1])
  }

  /** Drops the leading `unicode.IsSpace` runes. */
  function TrimLeft(s: string): (r: string)
    ensures |r| <= |s| && r == s[|s| - |r|..]
    ensures r == [] || !IsUnicodeSpace(r[0])
    ensures forall i :: 0 <= i < |s| - |r| ==> IsUnicodeSpace(s[i])
  {
    if s != [] && IsUnicodeSpace(s[0]) then TrimLeft(s[1..]) else s
  }

  /** Drops the trailing `unicode.IsSpace` runes. */
  function TrimRight(s: string): (r: string)
    ensures |r| <= |s| && r == s[..|r|]
    ensures r == [] || !IsUnicodeSpace(r[|r| - 1])
    ensures forall i :: |r| <= i < |s| ==> IsUnicodeSpace(s[i])
  {
    if s != [] && IsUnicodeSpace(s[|s| - 1]) then TrimRight(s[..|s| - 1]) else s
  }

  /** `strings.TrimSpace`: the result neither starts nor ends with a space, and a string that already did not is returned unchanged. */
  function TrimSpace(s: string): (r: string)
    ensures |r| <= |s|
    ensures r == [] || (!IsUnicodeSpace(r[0]) && !IsUnicodeSpace(r[|r| - 1]))
    ensures s == [] || (!IsUnicodeSpace(s[0]) && !IsUnicodeSpace(s[|s| - 1])) ==> r == s
  {
    var left := TrimLeft(s);
    TrimRight(left)
  }

  /** Trimming only removes runes, so an ASCII string stays ASCII. */
  lemma TrimSpaceKeepsAscii(s: string)
    requires AllAscii(s)
    ensures AllAscii(TrimSpace(s))
  {
    var left := TrimLeft(s);
    forall i | 0 <= i < |left| ensures left[i] as int < 0x80 {
      assert left[i] == s[|s| - |left| + i];
    }
    var trimmed := TrimRight(left);
    assert TrimSpace(s) == trimmed;
    forall i | 0 <= i < |trimmed| ensures trimmed[i] as int < 0x80 {
      assert trimmed[i] == left[i];
    }
  }

  predicate AllDigits(s: string) {
    forall i :: 0 <= i < |s| ==> IsDigit(s[i])
  }

  function DigitValue(c: char): (d: nat)
    requires IsDigit(c)
    ensures d < 10
  {
    c as int - '0' as int
  }

  function Digit(d: nat): (c: char)
    requires d < 10
    ensures IsDigit(c) && DigitValue(c) == d
  {
    ('0' as int + d) as char
  }

  /** The value of a string of decimal digits, most significant digit first. */
  function DigitsValue(s: string): nat
    requires AllDigits(s)
  {
    if s == [] then 0 else DigitsValue(s[..|s| - 1]) * 10 + DigitValue(s[|s| - 1])
  }

  /** The shortest decimal rendering of `n`; reading it back gives `n`. */
  function DecimalString(n: nat): (s: string)
    ensures |s| > 0 && AllDigits(s) && DigitsValue(s) == n
  {
    if n < 10 then [Digit(n)]
    else
      var s := DecimalString(n / 10) + [Digit(n % 10)];
      assert s[..|s| - 1] == DecimalString(n / 10);
      s
  }
}
