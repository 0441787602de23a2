/** Text conversions that the audit payload and the session cookie rely on:
    decimal numbers as PostgreSQL and strconv print them, and UTF-8. */

module Options {
  datatype Option<+T> = None | Some(value: T)

  /** SQL `NULLIF(s, '')` */
  function NullIfEmpty(s: string): Option<string> { if s == "" then None else Some(s) }
}

module Sequences {
  lemma Regroup<T>(a: seq<T>, b: seq<T>, c: seq<T>)
    ensures a + b + c == a + (b + c)
  {
  }

  /** Position of the first `c`, the length if there is none. */
  function IndexOf(s: string, c: char): (i: nat)
    ensures i <= |s| && c !in s[..i] && (i < |s| ==> s[i] == c)
  {
    if s == "" || s[0] == c then 0
    else
      var i := 1 + IndexOf(s[1..], c);
      assert s[..i] == [s[0]] + s[1..][..i - 1];
      i
  }
}

module Decimal {
  import opened Options

  const MIN_INT64: int := -0x8000_0000_0000_0000
  const MAX_INT64: int := 0x7FFF_FFFF_FFFF_FFFF

  predicate IsDigit(c: char) { '0' <= c <= '9' }

  function DigitChar(d: nat): (c: char)
    requires d < 10
    ensures IsDigit(c) && DigitValue(c) == d
  {
    '0' + d as char
  }

  function DigitValue(c: char): (d: nat)
    requires IsDigit(c)
    ensures d < 10
  {
    c as int - '0' as int
  }

  /** Decimal digits of a non-negative number, without leading zeros. */
  function NatText(n: nat): string {
    if n < 10 then [DigitChar(n)] else NatText(n / 10) + [DigitChar(n % 10)]
  }

  /** `bigint::text` and `strconv.FormatInt(n, 10)`. */
  function IntText(n: int): string {
    if n < 0 then "-" + NatText(-n) else NatText(n)
  }

  /** A non-empty string of digits, leading zeros allowed. */
  function ParseNat(s: string): Option<nat> {
    if s == "" || !IsDigit(s[|s| - 1]) then None
    else if |s| == 1 then Some(DigitValue(s[0]))
    else match ParseNat(s[..|s| - 1])
      case None => None
      case Some(n) => Some(10 * n + DigitValue(s[|s| - 1]))
  }

  /** An optional sign and digits. */
  function ParseInt(s: string): Option<int> {
    if s != "" && (s[0] == '-' || s[0] == '+') then
      match ParseNat(s[1..])
      case None => None
      case Some(n) => var m: int := n; Some(if s[0] == '-' then -m else m)
    else
      match ParseNat(s)
      case None => None
      case Some(n) => Some(n)
  }

  /** `strconv.ParseInt(s, 10, 64)`: anything outside int64 is an error. */
  function ParseInt64(s: string): Option<int> {
    match ParseInt(s)
    case None => None
    case Some(n) => if MIN_INT64 <= n <= MAX_INT64 then Some(n) else None
  }

  /** `extract(epoch FROM at)::text`, the time given in microseconds: seconds
      with exactly six decimals. */
  function EpochText(us: int): string {
    if us < 0 then "-" + EpochNatText(-us) else EpochNatText(us)
  }

  function EpochNatText(us: nat): string {
    NatText(us / 1_000_000) + "." + Pad(us % 1_000_000, 6)
  }

  /** `n` followed by `w` zeros. */
  function Shift(n: nat, w: nat): nat {
    if w == 0 then n else 10 * Shift(n, w - 1)
  }

  /** The last `w` decimal digits of `n`. */
  function Pad(n: nat, w: nat): (s: string)
    ensures |s| == w
  {
    if w == 0 then "" else Pad(n / 10, w - 1) + [DigitChar(n % 10)]
  }

  function ParseEpochNat(s: string): Option<nat> {
    if |s| < 8 || s[|s| - 7] != '.' then None else ParseNat(s[..|s| - 7] + s[|s| - 6..])
  }

  function ParseEpoch(s: string): Option<int> {
    if s != "" && s[0] == '-' then
      match ParseEpochNat(s[1..])
      case None => None
      case Some(n) => var m: int := n; Some(-m)
    else
      match ParseEpochNat(s)
      case None => None
      case Some(n) => Some(n)
  }

  predicate Digits(s: string) { forall i :: 0 <= i < |s| ==> IsDigit(s[i]) }

  lemma {:induction false} NatTextDigits(n: nat)
    ensures NatText(n) != "" && Digits(NatText(n))
  {
    if n >= 10 { NatTextDigits(n / 10); }
  }

  lemma {:induction false} ParseNatInverts(n: nat)
    ensures ParseNat(NatText(n)) == Some(n)
  {
    if n >= 10 {
      ParseNatInverts(n / 10);
      NatTextDigits(n / 10);
      assert NatText(n)[..|NatText(n)| - 1] == NatText(n / 10);
    }
  }

  lemma ParseIntInverts(n: int)
    ensures ParseInt(IntText(n)) == Some(n)
  {
    var m := if n < 0 then -n else n;
    ParseNatInverts(m);
    NatTextDigits(m);
    if n < 0 { assert IntText(n)[1..] == NatText(m); }
  }

  /** A plus sign or a leading zero changes nothing. */
  lemma SignAndZero(n: nat)
    ensures ParseInt("+" + IntText(n)) == Some(n) && ParseInt("0" + IntText(n)) == Some(n)
  {
    var t := IntText(n);
    ParseNatInverts(n);
    NatTextDigits(n);
    assert ("+" + t)[1..] == t;
    LeadingZero(t);
  }

  lemma {:induction false} LeadingZero(s: string)
    requires s != "" && Digits(s)
    ensures ParseNat("0" + s) == ParseNat(s)
  {
    var z := "0" + s;
    assert z[..|z| - 1] == "0" + s[..|s| - 1];
    if |s| > 1 { LeadingZero(s[..|s| - 1]); } else { assert "0" + s[..0] == "0"; }
  }

  lemma ParseNatSnoc(s: string, d: nat)
    requires ParseNat(s).Some? && d < 10
    ensures ParseNat(s + [DigitChar(d)]) == Some(10 * ParseNat(s).value + d)
  {
    var t := s + [DigitChar(d)];
    assert t[..|t| - 1] == s;
  }

  lemma {:induction false} ParseNatPad(s: string, n: nat, w: nat)
    requires ParseNat(s).Some? && n < Shift(1, w)
    ensures ParseNat(s + Pad(n, w)) == Some(Shift(ParseNat(s).value, w) + n)
  {
    if w == 0 {
      assert s + Pad(n, w) == s;
    } else {
      ParseNatPad(s, n / 10, w - 1);
      ParseNatSnoc(s + Pad(n / 10, w - 1), n % 10);
      assert s + Pad(n, w) == s + Pad(n / 10, w - 1) + [DigitChar(n % 10)];
    }
  }

  lemma ShiftSix(n: nat)
    ensures Shift(n, 6) == 1_000_000 * n
  {
    assert Shift(n, 1) == 10 * n;
    assert Shift(n, 2) == 100 * n;
    assert Shift(n, 3) == 1_000 * n;
    assert Shift(n, 4) == 10_000 * n;
    assert Shift(n, 5) == 100_000 * n;
  }

  lemma EpochNatInverts(us: nat)
    ensures ParseEpochNat(EpochNatText(us)) == Some(us) && EpochNatText(us)[0] != '-'
  {
    var q, r := us / 1_000_000, us % 1_000_000;
    var t := EpochNatText(us);
    NatTextDigits(q);
    ParseNatInverts(q);
    ShiftSix(1);
    ShiftSix(q);
    ParseNatPad(NatText(q), r, 6);
    assert t[..|t| - 7] == NatText(q) && t[|t| - 6..] == Pad(r, 6);
  }

  lemma ParseSigned(t: string)
    requires ParseEpochNat(t).Some? && t[0] != '-'
    ensures ParseEpoch(t) == Some(ParseEpochNat(t).value)
    ensures ParseEpoch("-" + t) == Some(-(ParseEpochNat(t).value as int))
  {
    assert ("-" + t)[1..] == t;
  }

  lemma ParseEpochInverts(us: int)
    ensures ParseEpoch(EpochText(us)) == Some(us)
  {
    var m := if us < 0 then -us else us;
    EpochNatInverts(m);
    ParseSigned(EpochNatText(m));
  }
}

module Utf8 {
  import opened Options

  type Byte = b: nat | b < 256
  type Bytes = seq<Byte>

  function EncodeChar(c: char): Bytes {
    var v := c as int;
    if v < 0x80 then [v]
    else if v < 0x800 then [0xC0 + v / 64, 0x80 + v % 64]
    else if v < 0x1_0000 then [0xE0 + v / 64 / 64, 0x80 + v / 64 % 64, 0x80 + v % 64]
    else [0xF0 + v / 64 / 64 / 64, 0x80 + v / 64 / 64 % 64, 0x80 + v / 64 % 64, 0x80 + v % 64]
  }

  /** `convert_to(s, 'UTF8')` */
  function Encode(s: string): Bytes {
    if s == "" then [] else EncodeChar(s[0]) + Encode(s[1..])
  }

  function CharLen(lead: Byte): nat {
    if lead < 0xC0 then 1 else if lead < 0xE0 then 2 else if lead < 0xF0 then 3 else 4
  }

  /** The scalar value of one encoded character, -1 where there is none. */
  function ScalarValue(b: seq<int>): int {
    if |b| == 1 then b[0]
    else if |b| == 2 then (b[0] - 0xC0) * 64 + b[1] - 0x80
    else if |b| == 3 then ((b[0] - 0xE0) * 64 + b[1] - 0x80) * 64 + b[2] - 0x80
    else if |b| == 4 then (((b[0] - 0xF0) * 64 + b[1] - 0x80) * 64 + b[2] - 0x80) * 64 + b[3] - 0x80
    else -1
  }

  function Decode(b: Bytes): Option<string> {
    if b == [] then Some("")
    else
      var n := CharLen(b[0]);
      if n > |b| then None
      else
        var v := ScalarValue(b[..n]);
        if !(0 <= v < 0xD800 || 0xE000 <= v < 0x11_0000) then None
        else match Decode(b[n..])
          case None => None
          case Some(rest) => Some([v as char] + rest)
  }

  lemma CharRoundTrip(c: char)
    ensures |EncodeChar(c)| > 0
    ensures |EncodeChar(c)| == CharLen(EncodeChar(c)[0])
    ensures ScalarValue(EncodeChar(c)) == c as int
  {
  }

  lemma {:induction false} DecodeInverts(s: string)
    ensures Decode(Encode(s)) == Some(s)
  {
    if s != "" {
      CharRoundTrip(s[0]);
      DecodeInverts(s[1..]);
      var e := EncodeChar(s[0]);
      assert Encode(s)[..|e|] == e && Encode(s)[|e|..] == Encode(s[1..]);
      assert [s[0]] + s[1..] == s;
    }
  }

  predicate IsAscii(s: string) { forall i :: 0 <= i < |s| ==> s[i] as int < 0x80 }

  function AsciiBytes(s: string): Bytes
    requires IsAscii(s)
  {
    seq(|s|, i requires 0 <= i < |s| => s[i] as int)
  }

  lemma {:induction false} EncodeAscii(s: string)
    requires IsAscii(s)
    ensures Encode(s) == AsciiBytes(s)
  {
    if s != "" { EncodeAscii(s[1..]); }
  }
}
