/**
 * The JavaScript string primitives the client code relies on: `trim`,
 * `toLowerCase`, `includes`, `startsWith`, `Array.prototype.join`,
 * integer-to-string conversion and `Number.parseInt(s, 16)`.
 */
module JsString {
  import opened Common

  // ---------------------------------------------------------------------------
  // trim

  /** The characters `String.prototype.trim` strips: ECMAScript WhiteSpace and LineTerminator. */
  predicate IsWhitespace(c: char) {
    c == '\t' || c == '\n' || c == '\U{B}' || c == '\U{C}' || c == '\r' || c == ' '
    || c == '\U{A0}' || c == '\U{1680}' || ('\U{2000}' <= c <= '\U{200A}')
    || c == '\U{2028}' || c == '\U{2029}' || c == '\U{202F}' || c == '\U{205F}'
    || c == '\U{3000}' || c == '\U{FEFF}'
  }

  ghost predicate AllWhitespace(s: string) {
    forall i :: 0 <= i < |s| ==> IsWhitespace(s[i])
  }

  /** Drops leading whitespace; the result is a suffix of `s` that does not start with whitespace. */
  function TrimStart(s: string): (r: string)
    ensures |r| <= |s| && r == s[|s| - |r|..]
    ensures r != [] ==> !IsWhitespace(r[0])
    ensures AllWhitespace(s[..|s| - |r|])
  {
    if s != [] && IsWhitespace(s[0]) then
      var r := TrimStart(s[1..]);
      assert s[1..][|s| - 1 - |r|..] == s[|s| - |r|..];
      WhitespaceStep(s, |s| - |r|);
      r
    else s
  }

  lemma WhitespaceStep(s: string, k: nat)
    requires 0 < k <= |s| && IsWhitespace(s[0]) && AllWhitespace(s[1..][..k - 1])
    ensures AllWhitespace(s[..k])
  {
    forall i | 0 < i < k ensures IsWhitespace(s[..k][i]) {
      assert s[..k][i] == s[1..][..k - 1][i - 1];
    }
  }

  /** Drops trailing whitespace; the result is a prefix of `s` that does not end with whitespace. */
  function TrimEnd(s: string): (r: string)
    ensures |r| <= |s| && r == s[..|r|]
    ensures r == [] <==> AllWhitespace(s)
    ensures r != [] ==> !IsWhitespace(r[|r| - 1])
    ensures AllWhitespace(s[|r|..])
  {
    if s != [] && IsWhitespace(s[|s| - 1]) then
      var r := TrimEnd(s[..|s| - 1]);
      assert s[..|s| - 1][|r|..] == s[|r|..|s| - 1];
      r
    else s
  }

  function Trim(s: string): string {
    TrimEnd(TrimStart(s))
  }

  /** `!s.trim()` holds exactly when `s` consists of whitespace only (the empty string included). */
  lemma TrimEmptyIff(s: string)
    ensures Trim(s) == [] <==> AllWhitespace(s)
  {
    var t := TrimStart(s);
    if t != [] {
      assert t[0] == s[|s| - |t|] && !IsWhitespace(t[0]);
      assert !AllWhitespace(t);
    } else {
      assert s[..|s|] == s;
    }
  }

  // ---------------------------------------------------------------------------
  // toLowerCase, includes, startsWith

  /** Lower-casing of one character, on the ASCII letters (the only letters hexadecimal addresses hold). */
  function LowerChar(c: char): char {
    if 'A' <= c <= 'Z' then (c as int + 32) as char else c
  }

  function ToLower(s: string): (r: string)
    ensures |r| == |s|
    ensures forall i :: 0 <= i < |s| ==> r[i] == LowerChar(s[i])
  {
    if s == [] then [] else [LowerChar(s[0])] + ToLower(s[1..])
  }

  lemma {:induction false} ToLowerIdempotent(s: string)
    ensures ToLower(ToLower(s)) == ToLower(s)
  {
    if s != [] {
      ToLowerIdempotent(s[1..]);
      assert ToLower(s)[1..] == ToLower(s[1..]);
    }
  }

  /** `a.toLowerCase() === b.toLowerCase()`: the comparison the client uses for addresses. */
  predicate SameIgnoringCase(a: string, b: string) {
    ToLower(a) == ToLower(b)
  }

  /** `s.includes(sub)`. */
  predicate Contains(s: string, sub: string) {
    exists i: nat :: i <= |s| && OccursAt(s, sub, i)
  }

  predicate OccursAt(s: string, sub: string, i: nat) {
    i + |sub| <= |s| && s[i..i + |sub|] == sub
  }

  /** `s.startsWith(p)`. */
  predicate StartsWith(s: string, p: string) {
    |p| <= |s| && s[..|p|] == p
  }

  /** `parts.join(sep)`. */
  function Join(parts: seq<string>, sep: string): (r: string)
    ensures |parts| == 1 ==> r == parts[0]
    ensures |parts| > 1 ==> r == parts[0] + sep + Join(parts[1..], sep)
  {
    if |parts| == 0 then ""
    else if |parts| == 1 then parts[0]
    else parts[0] + sep + Join(parts[1..], sep)
  }

  function TotalLength(parts: seq<string>): nat {
    if parts == [] then 0 else |parts[0]| + TotalLength(parts[1..])
  }

  /** The joined string holds every part and one separator between each two, in order. */
  lemma {:induction false} JoinLength(parts: seq<string>, sep: string)
    requires parts != []
    ensures |Join(parts, sep)| == TotalLength(parts) + (|parts| - 1) * |sep|
    ensures StartsWith(Join(parts, sep), parts[0])
  {
    if |parts| > 1 {
      var rest := parts[1..];
      JoinLength(rest, sep);
      var r := Join(parts, sep);
      assert r == parts[0] + (sep + Join(rest, sep));
      assert r[..|parts[0]|] == parts[0];
      var m := |rest| - 1;
      assert (m + 1) * |sep| == m * |sep| + |sep|;
      assert TotalLength(parts) == |parts[0]| + TotalLength(rest);
    }
  }

  // ---------------------------------------------------------------------------
  // Digits, `n.toString()` and `Number.parseInt(s, 16)`

  predicate IsHexDigit(c: char) {
    ('0' <= c <= '9') || ('a' <= c <= 'f') || ('A' <= c <= 'F')
  }

  function DigitOf(c: char): (d: nat)
    requires IsHexDigit(c)
    ensures d < 16
  {
    if '0' <= c <= '9' then c as int - '0' as int
    else if 'a' <= c <= 'f' then c as int - 'a' as int + 10
    else c as int - 'A' as int + 10
  }

  /** The lower-case digit of value `d`, as `Number.prototype.toString(radix)` writes it. */
  function DigitChar(d: nat): (c: char)
    requires d < 16
    ensures IsHexDigit(c) && DigitOf(c) == d
    ensures !('A' <= c <= 'Z')
  {
    if d < 10 then ('0' as int + d) as char else ('a' as int + d - 10) as char
  }

  predicate AllDigits(s: string, base: nat) {
    forall i :: 0 <= i < |s| ==> IsHexDigit(s[i]) && DigitOf(s[i]) < base
  }

  /** The value of a string of digits in `base`, most significant first. */
  function DigitsValue(s: string, base: nat): nat
    requires AllDigits(s, base)
  {
    if s == [] then 0 else DigitsValue(s[..|s| - 1], base) * base + DigitOf(s[|s| - 1])
  }

  /** `n.toString(base)` for a non-negative integer. */
  function NatToString(n: nat, base: nat): (r: string)
    requires 2 <= base <= 16
    ensures r != [] && AllDigits(r, base)
  {
    if n < base then [DigitChar(n)]
    else
      DivMod(n, base);
      var p := NatToString(n / base, base);
      var r := p + [DigitChar(n % base)];
      assert forall i :: 0 <= i < |p| ==> r[i] == p[i];
      r
  }

  /** Reading back what `NatToString` writes gives the number again. */
  lemma {:induction false} NatToStringValue(n: nat, base: nat)
    requires 2 <= base <= 16
    ensures DigitsValue(NatToString(n, base), base) == n
  {
    if n >= base {
      var q, d := n / base, n % base;
      DivMod(n, base);
      NatToStringValue(q, base);
      AppendDigit(NatToString(q, base), d, base);
    }
  }

  lemma DivMod(n: nat, base: nat)
    requires 2 <= base <= n
    ensures n == (n / base) * base + n % base && n % base < base && n / base < n
  {
    var q := n / base;
    if q >= n {
      assert q * base >= n * 2 by { MulMono(q, n, base); }
    }
  }

  lemma MulMono(q: nat, n: nat, base: nat)
    requires q >= n && base >= 2
    ensures q * base >= n * 2
  {
  }

  lemma AppendDigit(p: string, d: nat, base: nat)
    requires 2 <= base <= 16 && d < base && AllDigits(p, base)
    ensures AllDigits(p + [DigitChar(d)], base)
    ensures DigitsValue(p + [DigitChar(d)], base) == DigitsValue(p, base) * base + d
  {
    var s := p + [DigitChar(d)];
    assert s[..|s| - 1] == p;
  }

  function NatToDecimal(n: nat): string {
    NatToString(n, 10)
  }

  /** `` `${i}` `` for an integer `i`. */
  function IntToDecimal(i: int): string {
    if i < 0 then "-" + NatToDecimal(-i) else NatToDecimal(i)
  }

  /** Distinct integers are written as distinct decimal strings. */
  lemma IntToDecimalInjective(a: int, b: int)
    ensures IntToDecimal(a) == IntToDecimal(b) ==> a == b
  {
    if IntToDecimal(a) == IntToDecimal(b) {
      SignOfDecimal(a);
      SignOfDecimal(b);
      if a < 0 {
        NegativeDecimal(a);
        NegativeDecimal(b);
        NatToDecimalInjective(-a, -b);
      } else {
        NatToDecimalInjective(a, b);
      }
    }
  }

  lemma NegativeDecimal(i: int)
    requires i < 0
    ensures IntToDecimal(i)[1..] == NatToDecimal(-i)
  {
  }

  lemma NatToDecimalInjective(a: nat, b: nat)
    requires NatToDecimal(a) == NatToDecimal(b)
    ensures a == b
  {
    NatToStringValue(a, 10);
    NatToStringValue(b, 10);
  }

  lemma SignOfDecimal(i: int)
    ensures IntToDecimal(i) != [] && (IntToDecimal(i)[0] == '-' <==> i < 0)
  {
    if i >= 0 {
      assert IsHexDigit(NatToDecimal(i)[0]);
    }
  }

  /** The number of leading hexadecimal digits of `s`. */
  function HexPrefixLength(s: string): (n: nat)
    ensures n <= |s| && AllDigits(s[..n], 16)
    ensures n < |s| ==> !IsHexDigit(s[n])
  {
    if s == [] || !IsHexDigit(s[0]) then 0
    else
      var n := 1 + HexPrefixLength(s[1..]);
      assert s[..n] == [s[0]] + s[1..][..n - 1];
      n
  }

  /**
   * `Number.parseInt(s, 16)`: skips leading whitespace, reads an optional sign and an
   * optional `0x`/`0X` prefix, then the longest run of hexadecimal digits; `None` is NaN
   * (no digit at all).
   */
  function ParseIntHex(s: string): (r: Option<int>)
    ensures TrimStart(s) == [] ==> r.None?
    ensures r.Some? && r.value < 0 ==> TrimStart(s)[0] == '-'
  {
    var t := TrimStart(s);
    var negative := |t| > 0 && t[0] == '-';
    var u := if |t| > 0 && (t[0] == '-' || t[0] == '+') then t[1..] else t;
    var v := if |u| >= 2 && u[0] == '0' && (u[1] == 'x' || u[1] == 'X') then u[2..] else u;
    var n := HexPrefixLength(v);
    if n == 0 then None
    else if negative then Some(-(DigitsValue(v[..n], 16) as int))
    else Some(DigitsValue(v[..n], 16))
  }

  /** After a `0x` prefix, `parseInt(_, 16)` reads the longest run of hexadecimal digits. */
  lemma ParseIntHexPrefixed(v: string)
    ensures var n := HexPrefixLength(v);
            ParseIntHex("0x" + v) == if n == 0 then None else Some(DigitsValue(v[..n], 16))
  {
    var s := "0x" + v;
    assert TrimStart(s) == s by {
      assert !IsWhitespace(s[0]);
    }
    assert s[2..] == v;
  }

  /** An `eth_chainId` reply in the usual `0x`-prefixed lower-case form parses back to the chain id. */
  lemma ParseIntHexOfQuantity(n: nat)
    ensures ParseIntHex("0x" + NatToString(n, 16)) == Some(n)
  {
    var v := NatToString(n, 16);
    ParseIntHexPrefixed(v);
    AllHexPrefix(v);
    assert v[..|v|] == v;
    NatToStringValue(n, 16);
  }

  /** Reading stops at the first character that is not a hexadecimal digit. */
  lemma ParseIntHexStopsAtNonDigit(n: nat, tail: string)
    requires tail == [] || !IsHexDigit(tail[0])
    ensures ParseIntHex("0x" + NatToString(n, 16) + tail) == Some(n)
  {
    var d := NatToString(n, 16);
    var v := d + tail;
    assert "0x" + d + tail == "0x" + v;
    ParseIntHexPrefixed(v);
    HexPrefixOfDigits(d, tail);
    assert v[..|d|] == d;
    NatToStringValue(n, 16);
  }

  lemma {:induction false} HexPrefixOfDigits(d: string, tail: string)
    requires AllDigits(d, 16)
    requires tail == [] || !IsHexDigit(tail[0])
    ensures HexPrefixLength(d + tail) == |d|
  {
    if d != [] {
      assert (d + tail)[1..] == d[1..] + tail;
      HexPrefixOfDigits(d[1..], tail);
    } else {
      assert d + tail == tail;
    }
  }

  lemma AllHexPrefix(s: string)
    requires AllDigits(s, 16)
    ensures HexPrefixLength(s) == |s|
  {
  }
}
