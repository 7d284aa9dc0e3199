/** String operations the core relies on: JavaScript's `trim`, `toLowerCase`,
    code-point (character) string order, and the decimal form of an integer. */
module Text {

  /** ECMAScript WhiteSpace and LineTerminator code points: the characters `trim` removes. */
  predicate IsWhitespace(c: char) {
    || c == ' ' || c == '\t' || c == '\n' || c == '\r'
    || c == '\U{000B}' || c == '\U{000C}' || c == '\U{00A0}' || c == '\U{1680}'
    || ('\U{2000}' <= c <= '\U{200A}')
    || c == '\U{2028}' || c == '\U{2029}' || c == '\U{202F}' || c == '\U{205F}'
    || c == '\U{3000}' || c == '\U{FEFF}'
  }

  predicate AllWhitespace(s: string) {
    forall i :: 0 <= i < |s| ==> IsWhitespace(s[i])
  }

  /** The number of whitespace characters `s` starts with. */
  function LeadingWhitespace(s: string): (k: nat)
    ensures k <= |s|
  {
    if s == [] || !IsWhitespace(s[0]) then 0 else 1 + LeadingWhitespace(s[1..])
  }

  /** The number of whitespace characters `s` ends with. */
  function TrailingWhitespace(s: string): (k: nat)
    ensures k <= |s|
  {
    if s == [] || !IsWhitespace(s[|s| - 1]) then 0 else 1 + TrailingWhitespace(s[..|s| - 1])
  }

  /** `String.prototype.trimStart`. */
  function TrimStart(s: string): string {
    s[LeadingWhitespace(s)..]
  }

  /** `String.prototype.trimEnd`. */
  function TrimEnd(s: string): string {
    s[..|s| - TrailingWhitespace(s)]
  }

  /** `String.prototype.trim`. Its shape is stated by `TrimSpec`, apart from the function, so
      that a string built by concatenation and then trimmed stays cheap to reason about. */
  function Trim(s: string): string {
    TrimEnd(TrimStart(s))
  }

  /** The counted prefix is whitespace and the character after it is not. */
  lemma {:induction false} LeadingWhitespaceSpec(s: string)
    ensures AllWhitespace(s[..LeadingWhitespace(s)])
    ensures LeadingWhitespace(s) < |s| ==> !IsWhitespace(s[LeadingWhitespace(s)])
  {
    if s != [] && IsWhitespace(s[0]) {
      var k := LeadingWhitespace(s[1..]);
      LeadingWhitespaceSpec(s[1..]);
      assert s[..k + 1] == [s[0]] + s[1..][..k];
      if k + 1 < |s| {
        assert s[k + 1] == s[1..][k];
      }
    }
  }

  /** The counted suffix is whitespace and the character before it is not. */
  lemma {:induction false} TrailingWhitespaceSpec(s: string)
    ensures AllWhitespace(s[|s| - TrailingWhitespace(s)..])
    ensures TrailingWhitespace(s) < |s| ==> !IsWhitespace(s[|s| - 1 - TrailingWhitespace(s)])
  {
    if s != [] && IsWhitespace(s[|s| - 1]) {
      var p := s[..|s| - 1];
      var k := TrailingWhitespace(p);
      TrailingWhitespaceSpec(p);
      assert s[|s| - 1 - k..] == p[|p| - k..] + [s[|s| - 1]];
      if k + 1 < |s| {
        assert s[|s| - 2 - k] == p[|p| - 1 - k];
      }
    }
  }

  /** Where the text `trim` keeps starts in `s`. */
  function TrimFrom(s: string): (i: nat)
    ensures i <= |s|
  {
    LeadingWhitespace(s)
  }

  /** Where the text `trim` keeps ends in `s`. */
  function TrimTo(s: string): (j: nat)
    ensures TrimFrom(s) <= j <= |s|
  {
    |s| - TrailingWhitespace(s[LeadingWhitespace(s)..])
  }

  /** `trim` keeps one slice of `s`, ... */
  lemma TrimIsSlice(s: string)
    ensures Trim(s) == s[TrimFrom(s)..TrimTo(s)]
  {
    var t := s[LeadingWhitespace(s)..];
    assert t[..|t| - TrailingWhitespace(t)] == s[TrimFrom(s)..TrimTo(s)];
  }

  /** ... drops only whitespace before and after it, ... */
  lemma TrimDropsWhitespace(s: string)
    ensures AllWhitespace(s[..TrimFrom(s)]) && AllWhitespace(s[TrimTo(s)..])
  {
    var t := s[LeadingWhitespace(s)..];
    LeadingWhitespaceSpec(s);
    TrailingWhitespaceSpec(t);
    assert t[|t| - TrailingWhitespace(t)..] == s[TrimTo(s)..];
  }

  /** ... and a non-empty slice neither starts nor ends with whitespace. */
  lemma TrimEndsNotWhitespace(s: string)
    ensures TrimFrom(s) < TrimTo(s) ==> !IsWhitespace(s[TrimFrom(s)]) && !IsWhitespace(s[TrimTo(s) - 1])
  {
    var t := s[LeadingWhitespace(s)..];
    LeadingWhitespaceSpec(s);
    TrailingWhitespaceSpec(t);
    if TrimFrom(s) < TrimTo(s) {
      assert s[TrimTo(s) - 1] == t[|t| - 1 - TrailingWhitespace(t)];
    }
  }

  /** Text after a string that is not all whitespace does not change what `trimStart`
      removes. */
  lemma {:induction false} TrimStartAppend(a: string, b: string)
    requires !AllWhitespace(a)
    ensures TrimStart(a + b) == TrimStart(a) + b
  {
    if IsWhitespace(a[0]) {
      assert (a + b)[1..] == a[1..] + b;
      TrimStartAppend(a[1..], b);
    }
  }

  /** Trimming `a + b`, where `a` is not all whitespace and `b` ends in a character that is
      not, removes only the leading whitespace of `a`. */
  lemma TrimAppendTail(a: string, b: string)
    requires !AllWhitespace(a)
    requires b != [] && !IsWhitespace(b[|b| - 1])
    ensures Trim(a + b) == TrimStart(a) + b
  {
    TrimStartAppend(a, b);
    var c := TrimStart(a) + b;
    assert c[|c| - 1] == b[|b| - 1];
    assert TrailingWhitespace(c) == 0;
  }

  /** `!value.trim()` in the source: the string is empty once trimmed. */
  predicate IsBlank(s: string) {
    Trim(s) == []
  }

  lemma BlankIffAllWhitespace(s: string)
    ensures IsBlank(s) <==> AllWhitespace(s)
  {
    TrimIsSlice(s);
    TrimDropsWhitespace(s);
    TrimEndsNotWhitespace(s);
    if TrimFrom(s) == TrimTo(s) {
      assert s == s[..TrimFrom(s)] + s[TrimTo(s)..];
    }
  }

  lemma TrimIdempotent(s: string)
    ensures Trim(Trim(s)) == Trim(s)
  {
    TrimIsSlice(s);
    TrimEndsNotWhitespace(s);
    var r := Trim(s);
    if r != [] {
      assert r[0] == s[TrimFrom(s)] && r[|r| - 1] == s[TrimTo(s) - 1];
      assert LeadingWhitespace(r) == 0;
      assert TrimStart(r) == r;
      assert TrailingWhitespace(r) == 0;
    }
  }

  /** One character of `String.prototype.toLowerCase`. ASCII capitals are mapped, and so are
      the only two non-ASCII characters whose lower-case form contains ASCII letters
      (U+0130 becomes "i" and a combining dot, the Kelvin sign becomes "k"). Every other
      character is kept as it is: its true lower-case form is non-ASCII like itself, so
      neither slug building nor the comparison with an ASCII tag can tell the difference. */
  function LowerChar(c: char): string {
    if 'A' <= c <= 'Z' then [(c as int + 32) as char]
    else if c == '\U{0130}' then ['i', '\U{0307}']
    else if c == '\U{212A}' then ['k']
    else [c]
  }

  function LowerCase(s: string): string {
    if s == [] then [] else LowerChar(s[0]) + LowerCase(s[1..])
  }

  /** Lexicographic order on characters, that is code points; it is JavaScript's `<=` on
      strings for text with no character above U+FFFF. */
  predicate StrLe(a: string, b: string) {
    |a| == 0 || (|b| > 0 && (a[0] < b[0] || (a[0] == b[0] && StrLe(a[1..], b[1..]))))
  }

  lemma {:induction false} StrLeTotal(a: string, b: string)
    ensures StrLe(a, b) || StrLe(b, a)
  {
    if |a| > 0 && |b| > 0 && a[0] == b[0] {
      StrLeTotal(a[1..], b[1..]);
    }
  }

  lemma {:induction false} StrLeTransitive(a: string, b: string, c: string)
    requires StrLe(a, b) && StrLe(b, c)
    ensures StrLe(a, c)
  {
    if |a| > 0 && a[0] == b[0] && b[0] == c[0] {
      StrLeTransitive(a[1..], b[1..], c[1..]);
    }
  }

  lemma {:induction false} StrLeAntisymmetric(a: string, b: string)
    requires StrLe(a, b) && StrLe(b, a)
    ensures a == b
  {
    if |a| > 0 {
      StrLeAntisymmetric(a[1..], b[1..]);
      assert a == [a[0]] + a[1..] && b == [b[0]] + b[1..];
    }
  }

  function DigitChar(d: nat): char
    requires d < 10
  {
    "0123456789"[d]
  }

  predicate IsDigit(c: char) {
    '0' <= c <= '9'
  }

  /** Decimal digits of `n`, as `String(n)` prints a non-negative integer. */
  function NatToString(n: nat): (r: string)
    ensures |r| > 0 && forall i :: 0 <= i < |r| ==> IsDigit(r[i])
    ensures r[0] == '0' ==> n == 0
  {
    if n < 10 then [DigitChar(n)] else NatToString(n / 10) + [DigitChar(n % 10)]
  }

  /** `String(n)` for an integer: a minus sign before the digits of a negative value. */
  function IntToString(n: int): (r: string)
    ensures |r| > 0
    ensures n < 0 <==> r[0] == '-'
  {
    if n < 0 then "-" + NatToString(-n) else NatToString(n)
  }

  function DigitValue(c: char): nat
    requires IsDigit(c)
  {
    c as int - '0' as int
  }

  function ParseNat(s: string): nat
    requires forall i :: 0 <= i < |s| ==> IsDigit(s[i])
  {
    if s == [] then 0 else ParseNat(s[..|s| - 1]) * 10 + DigitValue(s[|s| - 1])
  }

  /** The printed form reads back as the number: `String` loses nothing. */
  lemma {:induction false} NatToStringRoundTrip(n: nat)
    ensures ParseNat(NatToString(n)) == n
  {
    if n >= 10 {
      NatToStringRoundTrip(n / 10);
      var r := NatToString(n);
      assert r[..|r| - 1] == NatToString(n / 10);
    }
  }
}
