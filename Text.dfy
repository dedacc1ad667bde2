/**
 * The string operations the request builders rely on: `Array.prototype.join`,
 * `String.prototype.split` on one character (its inverse on separator-free
 * parts), `String.prototype.startsWith`, the decimal rendering of an integer
 * in a template literal, and `encodeURIComponent`.
 */
module Text {

  /** `parts.join(sep)`. */
  function Join(parts: seq<string>, sep: string): string {
    if |parts| == 0 then ""
    else if |parts| == 1 then parts[0]
    else parts[0] + sep + Join(parts[1..], sep)
  }

  /** The index of the first `c` in `s`, or `|s|` when there is none. */
  function IndexOf(s: string, c: char): (r: nat)
    ensures r <= |s|
    ensures r < |s| ==> s[r] == c
    ensures c !in s[..r]
  {
    if |s| == 0 then 0
    else if s[0] == c then 0
    else
      var k := IndexOf(s[1..], c);
      assert s[..k + 1] == [s[0]] + s[1..][..k];
      k + 1
  }

  /** `s.split(sep)` for a one-character separator: the pieces between separators, at least one. */
  function Split(s: string, sep: char): (parts: seq<string>)
    ensures |parts| >= 1
    decreases |s|
  {
    var i := IndexOf(s, sep);
    if i == |s| then [s] else [s[..i]] + Split(s[i + 1..], sep)
  }

  /** The first separator of `p + [sep] + rest` is the one after `p` when `p` has none. */
  lemma {:induction false} IndexOfAfter(p: string, sep: char, rest: string)
    requires sep !in p
    ensures IndexOf(p + [sep] + rest, sep) == |p|
  {
    if |p| > 0 {
      assert (p + [sep] + rest)[1..] == p[1..] + [sep] + rest;
      IndexOfAfter(p[1..], sep, rest);
    }
  }

  /** Splitting a join on a separator that no part contains gives the parts back. */
  lemma {:induction false} SplitJoin(parts: seq<string>, sep: char)
    requires |parts| >= 1
    requires forall i :: 0 <= i < |parts| ==> sep !in parts[i]
    ensures Split(Join(parts, [sep]), sep) == parts
  {
    if |parts| == 1 {
      assert IndexOf(parts[0], sep) == |parts[0]|;
    } else {
      var s := Join(parts, [sep]);
      var tail := Join(parts[1..], [sep]);
      assert s == parts[0] + [sep] + tail;
      IndexOfAfter(parts[0], sep, tail);
      assert s[..|parts[0]|] == parts[0];
      assert s[|parts[0]| + 1..] == tail;
      SplitJoin(parts[1..], sep);
    }
  }

  /** `s.startsWith(prefix)`. */
  predicate StartsWith(s: string, prefix: string) {
    prefix <= s
  }

  predicate IsDigit(c: char) {
    '0' <= c <= '9'
  }

  function Digit(d: nat): (c: char)
    requires d < 10
    ensures IsDigit(c)
  {
    "0123456789"[d]
  }

  /** The decimal digits of a natural number, without leading zeros. */
  function NatToString(n: nat): (s: string)
    ensures |s| >= 1
    ensures forall i :: 0 <= i < |s| ==> IsDigit(s[i])
    ensures s[0] == '0' ==> n == 0
  {
    if n < 10 then [Digit(n)] else NatToString(n / 10) + [Digit(n % 10)]
  }

  /** How an integer renders inside a template literal: `${n}`. */
  function IntToString(n: int): string {
    if n < 0 then "-" + NatToString(-n) else NatToString(n)
  }

  function DigitValue(c: char): (d: nat)
    requires IsDigit(c)
    ensures d < 10
  {
    c as int - '0' as int
  }

  /** The number a string of decimal digits denotes. */
  function DecimalValue(s: string): nat
    requires forall i :: 0 <= i < |s| ==> IsDigit(s[i])
  {
    if |s| == 0 then 0
    else DecimalValue(s[..|s| - 1]) * 10 + DigitValue(s[|s| - 1])
  }

  /** Reading the rendered digits back gives the number: the rendering loses nothing. */
  lemma {:induction false} DecimalRoundTrip(n: nat)
    ensures DecimalValue(NatToString(n)) == n
  {
    if n >= 10 {
      var s := NatToString(n);
      assert s[..|s| - 1] == NatToString(n / 10);
      DecimalRoundTrip(n / 10);
    }
  }

  /** The characters `encodeURIComponent` leaves as they are. */
  predicate Unreserved(c: char) {
    ('A' <= c <= 'Z') || ('a' <= c <= 'z') || IsDigit(c) || c in "-_.!~*'()"
  }

  /** The UTF-8 encoding of one Unicode scalar value. */
  function Utf8(c: char): (bytes: seq<nat>)
    ensures 1 <= |bytes| <= 4
    ensures forall i :: 0 <= i < |bytes| ==> bytes[i] < 256
  {
    var cp := c as int;
    if cp < 0x80 then [cp]
    else if cp < 0x800 then [0xC0 + cp / 0x40, 0x80 + cp % 0x40]
    else if cp < 0x10000 then [0xE0 + cp / 0x1000, 0x80 + (cp / 0x40) % 0x40, 0x80 + cp % 0x40]
    else [0xF0 + cp / 0x40000, 0x80 + (cp / 0x1000) % 0x40, 0x80 + (cp / 0x40) % 0x40, 0x80 + cp % 0x40]
  }

  function HexDigit(d: nat): (c: char)
    requires d < 16
    ensures Unreserved(c)
  {
    "0123456789ABCDEF"[d]
  }

  /** Each byte as `%XX` with upper-case hexadecimal digits. */
  function PercentBytes(bytes: seq<nat>): (r: string)
    requires forall i :: 0 <= i < |bytes| ==> bytes[i] < 256
    ensures |r| == 3 * |bytes|
    ensures forall i :: 0 <= i < |r| ==> r[i] == '%' || Unreserved(r[i])
  {
    if |bytes| == 0 then ""
    else ['%', HexDigit(bytes[0] / 16), HexDigit(bytes[0] % 16)] + PercentBytes(bytes[1..])
  }

  /** The escape of one character. */
  function EncodeChar(c: char): string {
    if Unreserved(c) then [c] else PercentBytes(Utf8(c))
  }

  /** `encodeURIComponent(s)`: unreserved characters kept, every other one percent-escaped as UTF-8. */
  function EncodeUriComponent(s: string): (r: string)
    ensures forall i :: 0 <= i < |r| ==> r[i] == '%' || Unreserved(r[i])
    ensures (forall i :: 0 <= i < |s| ==> Unreserved(s[i])) ==> r == s
    ensures |r| >= |s|
  {
    if |s| == 0 then ""
    else EncodeChar(s[0]) + EncodeUriComponent(s[1..])
  }

  /** In particular an escaped component holds no `&`, so it cannot split a query string. */
  lemma EncodedHasNoAmpersand(s: string)
    ensures '&' !in EncodeUriComponent(s)
  {
  }
}
