/**
 * `urllib.parse.quote_plus(s)` with its defaults: unreserved characters
 * stay, a space becomes `+`, every other character becomes the `%XX`
 * escapes of its UTF-8 bytes, in upper-case hexadecimal. `UnquotePlus`,
 * the matching decoder, shows that the encoding loses nothing.
 */
module Quoting {

  /** The characters `quote` never escapes: ASCII letters, digits and `_.-~`. */
  predicate Unreserved(c: char) {
    ('a' <= c <= 'z') || ('A' <= c <= 'Z') || ('0' <= c <= '9') || c == '_' || c == '.' || c == '-' || c == '~'
  }

  /** The UTF-8 encoding of one code point. */
  function Utf8(c: char): (bs: seq<int>)
    ensures 1 <= |bs| <= 4
    ensures forall k :: 0 <= k < |bs| ==> 0 <= bs[k] < 256
  {
    var n := c as int;
    if n < 0x80 then [n]
    else if n < 0x800 then [0xC0 + n / 64, 0x80 + n % 64]
    else if n < 0x10000 then [0xE0 + n / 4096, 0x80 + (n / 64) % 64, 0x80 + n % 64]
    else [0xF0 + n / 262144, 0x80 + (n / 4096) % 64, 0x80 + (n / 64) % 64, 0x80 + n % 64]
  }

  /** An upper-case hexadecimal digit. */
  function HexDigit(d: int): (c: char)
    requires 0 <= d < 16
    ensures ('0' <= c <= '9') || ('A' <= c <= 'F')
  {
    if d < 10 then ('0' as int + d) as char else ('A' as int + d - 10) as char
  }

  /** `%XX` for each byte. */
  function Percent(bs: seq<int>): (r: string)
    requires forall k :: 0 <= k < |bs| ==> 0 <= bs[k] < 256
    ensures |r| == 3 * |bs|
  {
    if bs == [] then ""
    else ['%', HexDigit(bs[0] / 16), HexDigit(bs[0] % 16)] + Percent(bs[1..])
  }

  /** How one character is quoted. */
  function QuoteChar(c: char): (r: string)
    ensures |r| >= 1
  {
    if Unreserved(c) then [c] else if c == ' ' then "+" else Percent(Utf8(c))
  }

  /** `quote_plus(s)`. */
  function QuotePlus(s: string): (r: string)
    ensures |r| >= |s|
  {
    if s == [] then "" else QuoteChar(s[0]) + QuotePlus(s[1..])
  }

  /** The characters a quoted string is made of. */
  predicate QuotedChar(c: char) {
    Unreserved(c) || c == '+' || c == '%'
  }

  // ----- The decoder -----

  /** The value of a hexadecimal digit of either case, or -1. */
  function HexValue(c: char): int {
    if '0' <= c <= '9' then c as int - '0' as int
    else if 'A' <= c <= 'F' then c as int - 'A' as int + 10
    else if 'a' <= c <= 'f' then c as int - 'a' as int + 10
    else -1
  }

  /** The `k` bytes of `%XX` escapes at the front of `t`, if it starts with that many. */
  function Escapes(t: string, k: nat): (r: seq<int>)
    ensures |r| <= k
    decreases k
  {
    if k == 0 || |t| < 3 || t[0] != '%' || HexValue(t[1]) < 0 || HexValue(t[2]) < 0 then []
    else [16 * HexValue(t[1]) + HexValue(t[2])] + Escapes(t[3..], k - 1)
  }

  /** The length of the UTF-8 sequence a lead byte starts, or 0. */
  function Width(lead: int): int {
    if 0 <= lead < 0x80 then 1
    else if 0xC0 <= lead < 0xE0 then 2
    else if 0xE0 <= lead < 0xF0 then 3
    else if 0xF0 <= lead < 0xF8 then 4
    else 0
  }

  predicate Continuation(b: int) {
    0x80 <= b < 0xC0
  }

  /** The code point a UTF-8 sequence of one to four bytes stands for. */
  function CodePoint(bs: seq<int>): int
    requires 1 <= |bs| <= 4
  {
    if |bs| == 1 then bs[0]
    else if |bs| == 2 then (bs[0] - 0xC0) * 64 + (bs[1] - 0x80)
    else if |bs| == 3 then (bs[0] - 0xE0) * 4096 + (bs[1] - 0x80) * 64 + (bs[2] - 0x80)
    else (bs[0] - 0xF0) * 262144 + (bs[1] - 0x80) * 4096 + (bs[2] - 0x80) * 64 + (bs[3] - 0x80)
  }

  predicate IsScalar(n: int) {
    (0 <= n < 0xD800) || (0xE000 <= n < 0x110000)
  }

  /** A well-formed sequence: its lead byte gives its length and the rest are continuations. */
  predicate WellFormed(bs: seq<int>) {
    1 <= |bs| <= 4 && Width(bs[0]) == |bs|
    && (forall k :: 1 <= k < |bs| ==> Continuation(bs[k]))
    && IsScalar(CodePoint(bs))
  }

  /** `unquote_plus(t)` on the strings `quote_plus` produces. */
  function UnquotePlus(t: string): string
    decreases |t|
  {
    if t == [] then ""
    else if t[0] == '+' then " " + UnquotePlus(t[1..])
    else
      var first := Escapes(t, 1);
      var bs := if first == [] then [] else Escapes(t, Width(first[0]));
      if bs != [] && WellFormed(bs) then [CodePoint(bs) as char] + UnquotePlus(t[3 * |bs|..])
      else [t[0]] + UnquotePlus(t[1..])
  }

  // ----- Properties -----

  /** Each escape reads back as its byte. */
  lemma HexRoundTrip(b: int)
    requires 0 <= b < 256
    ensures HexValue(HexDigit(b / 16)) == b / 16 && HexValue(HexDigit(b % 16)) == b % 16
    ensures 16 * (b / 16) + b % 16 == b
  {
  }

  /** The escapes of `bs` read back as `bs`, whatever follows them. */
  lemma {:induction false} EscapesRoundTrip(bs: seq<int>, rest: string)
    requires forall k :: 0 <= k < |bs| ==> 0 <= bs[k] < 256
    ensures Escapes(Percent(bs) + rest, |bs|) == bs
    decreases |bs|
  {
    if bs != [] {
      var t := Percent(bs) + rest;
      HexRoundTrip(bs[0]);
      assert t[3..] == Percent(bs[1..]) + rest;
      EscapesRoundTrip(bs[1..], rest);
    }
  }

  /** Reading one escape of a longer run gives its first byte. */
  lemma {:induction false} EscapesFirst(bs: seq<int>, rest: string)
    requires 1 <= |bs| && forall k :: 0 <= k < |bs| ==> 0 <= bs[k] < 256
    ensures Escapes(Percent(bs) + rest, 1) == [bs[0]]
  {
    HexRoundTrip(bs[0]);
  }

  /** The UTF-8 bytes of a character are well formed and stand for it. */
  lemma Utf8RoundTrip(c: char)
    ensures WellFormed(Utf8(c)) && CodePoint(Utf8(c)) == c as int
  {
    var n := c as int;
    if n < 0x80 {
    } else if n < 0x800 {
      TwoBytes(n);
    } else if n < 0x10000 {
      ThreeBytes(n);
    } else {
      FourBytes(n);
    }
  }

  lemma TwoBytes(n: int)
    requires 0x80 <= n < 0x800
    ensures Width(0xC0 + n / 64) == 2 && Continuation(0x80 + n % 64)
    ensures (0xC0 + n / 64 - 0xC0) * 64 + (0x80 + n % 64 - 0x80) == n
  {
  }

  lemma ThreeBytes(n: int)
    requires 0x800 <= n < 0x10000
    ensures Width(0xE0 + n / 4096) == 3 && Continuation(0x80 + (n / 64) % 64) && Continuation(0x80 + n % 64)
    ensures (n / 4096) * 4096 + ((n / 64) % 64) * 64 + n % 64 == n
  {
    var q := n / 64;
    assert n == q * 64 + n % 64;
    assert q == (q / 64) * 64 + q % 64;
    assert q / 64 == n / 4096;
  }

  lemma FourBytes(n: int)
    requires 0x10000 <= n < 0x110000
    ensures Width(0xF0 + n / 262144) == 4
    ensures Continuation(0x80 + (n / 4096) % 64) && Continuation(0x80 + (n / 64) % 64) && Continuation(0x80 + n % 64)
    ensures (n / 262144) * 262144 + ((n / 4096) % 64) * 4096 + ((n / 64) % 64) * 64 + n % 64 == n
  {
    var q := n / 64;
    var p := q / 64;
    assert n == q * 64 + n % 64;
    assert q == p * 64 + q % 64;
    assert p == (p / 64) * 64 + p % 64;
    assert p == n / 4096;
    assert p / 64 == n / 262144;
  }

  /** One quoted character decodes back to itself, whatever follows it. */
  lemma QuoteCharRoundTrip(c: char, rest: string)
    ensures UnquotePlus(QuoteChar(c) + rest) == [c] + UnquotePlus(rest)
  {
    if Unreserved(c) {
      assert ([c] + rest)[1..] == rest;
      assert Escapes([c] + rest, 1) == [];
    } else if c == ' ' {
      assert ("+" + rest)[1..] == rest;
    } else {
      var bs := Utf8(c);
      var t := Percent(bs) + rest;
      EscapesFirst(bs, rest);
      Utf8RoundTrip(c);
      EscapesRoundTrip(bs, rest);
      assert t[3 * |bs|..] == rest;
    }
  }

  /** `quote_plus` loses nothing: its output decodes to the input. */
  lemma {:induction false} QuotePlusRoundTrip(s: string)
    ensures UnquotePlus(QuotePlus(s)) == s
    decreases |s|
  {
    if s != [] {
      QuoteCharRoundTrip(s[0], QuotePlus(s[1..]));
      QuotePlusRoundTrip(s[1..]);
    }
  }

  /** Quoting is done character by character. */
  lemma {:induction false} QuotePlusAppend(a: string, b: string)
    ensures QuotePlus(a + b) == QuotePlus(a) + QuotePlus(b)
    decreases |a|
  {
    if a != [] {
      assert (a + b)[0] == a[0] && (a + b)[1..] == a[1..] + b;
      QuotePlusAppend(a[1..], b);
      var q := QuoteChar(a[0]);
      assert QuotePlus(a + b) == q + (QuotePlus(a[1..]) + QuotePlus(b));
      assert QuotePlus(a) == q + QuotePlus(a[1..]);
      assert q + (QuotePlus(a[1..]) + QuotePlus(b)) == (q + QuotePlus(a[1..])) + QuotePlus(b);
    } else {
      assert a + b == b;
    }
  }

  /** A string of unreserved characters is quoted as itself. */
  lemma {:induction false} QuotePlusKeepsUnreserved(s: string)
    requires forall k :: 0 <= k < |s| ==> Unreserved(s[k])
    ensures QuotePlus(s) == s
    decreases |s|
  {
    if s != [] {
      QuotePlusKeepsUnreserved(s[1..]);
    }
  }

  lemma {:induction false} PercentChars(bs: seq<int>)
    requires forall k :: 0 <= k < |bs| ==> 0 <= bs[k] < 256
    ensures forall k :: 0 <= k < |Percent(bs)| ==> QuotedChar(Percent(bs)[k])
    decreases |bs|
  {
    if bs != [] {
      PercentChars(bs[1..]);
      var head := ['%', HexDigit(bs[0] / 16), HexDigit(bs[0] % 16)];
      assert forall k :: 3 <= k < |Percent(bs)| ==> Percent(bs)[k] == Percent(bs[1..])[k - 3];
      assert forall k :: 0 <= k < 3 ==> Percent(bs)[k] == head[k];
    }
  }

  /**
   * The quoted string has only unreserved characters, `+` and `%`: no
   * space, `/`, `?`, `#` or `&` that would end a URL path segment.
   */
  lemma {:induction false} QuotePlusChars(s: string)
    ensures forall k :: 0 <= k < |QuotePlus(s)| ==> QuotedChar(QuotePlus(s)[k])
    decreases |s|
  {
    if s != [] {
      var q := QuoteChar(s[0]);
      if !Unreserved(s[0]) && s[0] != ' ' {
        PercentChars(Utf8(s[0]));
      }
      QuotePlusChars(s[1..]);
      assert forall k :: |q| <= k < |QuotePlus(s)| ==> QuotePlus(s)[k] == QuotePlus(s[1..])[k - |q|];
      assert forall k :: 0 <= k < |q| ==> QuotePlus(s)[k] == q[k];
    }
  }
}
