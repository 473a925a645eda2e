/**
  The text renderings the frame decoder and the routing keys rely on:
  Node's `Buffer.toString('hex')` (lowercase, two digits per byte),
  `Number.prototype.toString()` on non-negative integers, and the dotted
  firmware-version strings built from them. Each rendering comes with its
  parser, and the lemmas prove that parsing gives the rendered values back.
*/
module Text {
  import opened Wrappers

  /** An octet of a Node `Buffer`. */
  type Byte = b: int | 0 <= b < 256

  // ---------------------------------------------------------------------
  // Lowercase hexadecimal
  // ---------------------------------------------------------------------

  predicate IsHexChar(c: char) {
    ('0' <= c <= '9') || ('a' <= c <= 'f')
  }

  /** Every character is a lowercase hexadecimal digit. */
  predicate IsLowerHex(s: string) {
    forall i :: 0 <= i < |s| ==> IsHexChar(s[i])
  }

  function HexValue(c: char): (r: Option<int>)
    ensures r.Some? <==> IsHexChar(c)
    ensures r.Some? ==> 0 <= r.value < 16
  {
    if '0' <= c <= '9' then Some(c as int - '0' as int)
    else if 'a' <= c <= 'f' then Some(c as int - 'a' as int + 10)
    else None
  }

  /** The lowercase digit of a nibble; `HexValue` reads it back. */
  function HexDigit(d: int): (c: char)
    requires 0 <= d < 16
    ensures IsHexChar(c)
    ensures HexValue(c) == Some(d)
  {
    if d < 10 then ('0' as int + d) as char else ('a' as int + d - 10) as char
  }

  /** `Buffer.toString('hex')`: two lowercase digits per byte, high nibble first. */
  function Hex(bs: seq<Byte>): (r: string)
    ensures |r| == 2 * |bs|
    ensures IsLowerHex(r)
  {
    if bs == [] then ""
    else [HexDigit(bs[0] / 16), HexDigit(bs[0] % 16)] + Hex(bs[1..])
  }

  /** Reads a string of hexadecimal digit pairs back into bytes. */
  function ParseHex(s: string): Option<seq<Byte>>
    decreases |s|
  {
    if |s| == 0 then Some([])
    else if |s| == 1 then None
    else
      match (HexValue(s[0]), HexValue(s[1]), ParseHex(s[2..]))
      case (Some(hi), Some(lo), Some(rest)) => Some([hi * 16 + lo] + rest)
      case _ => None
  }

  /** The hex rendering loses nothing: parsing it gives the bytes back. */
  lemma {:induction false} HexRoundTrip(bs: seq<Byte>)
    ensures ParseHex(Hex(bs)) == Some(bs)
  {
    if bs != [] {
      var h := Hex(bs);
      assert h[2..] == Hex(bs[1..]);
      HexRoundTrip(bs[1..]);
      assert bs == [bs[0] / 16 * 16 + bs[0] % 16] + bs[1..];
    }
  }

  /** Distinct byte strings have distinct renderings, so a serial string names one byte string. */
  lemma HexInjective(a: seq<Byte>, b: seq<Byte>)
    ensures Hex(a) == Hex(b) ==> a == b
  {
    HexRoundTrip(a);
    HexRoundTrip(b);
  }

  // ---------------------------------------------------------------------
  // Decimal
  // ---------------------------------------------------------------------

  predicate IsDigit(c: char) {
    '0' <= c <= '9'
  }

  predicate IsDigits(s: string) {
    forall i :: 0 <= i < |s| ==> IsDigit(s[i])
  }

  /** `n.toString()` for a non-negative integer: no sign, no leading zeros. */
  function Decimal(n: nat): (r: string)
    ensures |r| > 0 && IsDigits(r)
    ensures r[0] == '0' ==> r == "0" && n == 0
  {
    if n < 10 then [('0' as int + n) as char]
    else Decimal(n / 10) + [('0' as int + n % 10) as char]
  }

  /** Reads a non-empty string of decimal digits; anything else is `None`. */
  function ParseDecimal(s: string): Option<nat>
  {
    if |s| == 0 || !IsDigit(s[|s| - 1]) then None
    else
      var d := s[|s| - 1] as int - '0' as int;
      if |s| == 1 then Some(d)
      else match ParseDecimal(s[..|s| - 1])
        case None => None
        case Some(v) => Some(v * 10 + d)
  }

  lemma {:induction false} DecimalRoundTrip(n: nat)
    ensures ParseDecimal(Decimal(n)) == Some(n)
  {
    if n >= 10 {
      var s := Decimal(n);
      assert s[..|s| - 1] == Decimal(n / 10);
      DecimalRoundTrip(n / 10);
    }
  }

  // ---------------------------------------------------------------------
  // Dotted version strings
  // ---------------------------------------------------------------------

  /** The decimal renderings of `ns` joined by single dots, as the firmware versions are built. */
  function Dotted(ns: seq<nat>): (r: string)
    requires |ns| > 0
  {
    if |ns| == 1 then Decimal(ns[0]) else Decimal(ns[0]) + "." + Dotted(ns[1..])
  }

  /** Splits at every dot; the result always has one more part than `s` has dots. */
  function SplitDots(s: string): (r: seq<string>)
    ensures |r| > 0
  {
    if s == [] then [""]
    else if s[0] == '.' then [""] + SplitDots(s[1..])
    else
      var t := SplitDots(s[1..]);
      [[s[0]] + t[0]] + t[1..]
  }

  /** Parses every part as a decimal number; `None` when one of them is not one. */
  function ParseParts(parts: seq<string>): Option<seq<nat>>
  {
    if parts == [] then Some([])
    else match (ParseDecimal(parts[0]), ParseParts(parts[1..]))
      case (Some(v), Some(vs)) => Some([v] + vs)
      case _ => None
  }

  /** Reads a dotted version string back into its numbers. */
  function ParseVersion(s: string): Option<seq<nat>>
  {
    ParseParts(SplitDots(s))
  }

  /** A part without dots splits off whole in front of the next dot. */
  lemma {:induction false} SplitDigitsPrefix(p: string, rest: string)
    requires IsDigits(p)
    ensures SplitDots(p) == [p]
    ensures SplitDots(p + "." + rest) == [p] + SplitDots(rest)
  {
    if p != [] {
      assert IsDigit(p[0]) && p == [p[0]] + p[1..];
      SplitDigitsPrefix(p[1..], rest);
      assert (p + "." + rest)[1..] == p[1..] + "." + rest;
    }
  }

  /** Splitting a dotted rendering at its dots gives the decimal renderings back. */
  lemma {:induction false} SplitDotted(ns: seq<nat>)
    requires |ns| > 0
    ensures SplitDots(Dotted(ns)) == seq(|ns|, i requires 0 <= i < |ns| => Decimal(ns[i]))
  {
    SplitDigitsPrefix(Decimal(ns[0]), if |ns| == 1 then "" else Dotted(ns[1..]));
    if |ns| > 1 {
      SplitDotted(ns[1..]);
    }
  }

  lemma {:induction false} ParseDecimals(ns: seq<nat>)
    ensures ParseParts(seq(|ns|, i requires 0 <= i < |ns| => Decimal(ns[i]))) == Some(ns)
  {
    if ns != [] {
      var parts := seq(|ns|, i requires 0 <= i < |ns| => Decimal(ns[i]));
      DecimalRoundTrip(ns[0]);
      assert parts[1..] == seq(|ns[1..]|, i requires 0 <= i < |ns[1..]| => Decimal(ns[1..][i]));
      ParseDecimals(ns[1..]);
      assert ns == [ns[0]] + ns[1..];
    }
  }

  /** A dotted version string round-trips: parsing it gives back the numbers it was built from. */
  lemma VersionRoundTrip(ns: seq<nat>)
    requires |ns| > 0
    ensures ParseVersion(Dotted(ns)) == Some(ns)
  {
    SplitDotted(ns);
    ParseDecimals(ns);
  }
}
