/**
 * A stand-in for `encodeURIComponent` / `decodeURIComponent`. The cookie layer
 * only relies on three facts about the pair: decoding an encoding gives the
 * original string back, an encoding never holds ';' or ' ' (so it cannot break
 * a cookie-string apart), and decoding can fail on malformed input (a URIError).
 * Characters that `encodeURIComponent` leaves alone stay as they are; every
 * other character becomes '%' followed by six hex digits of its code point.
 */
module UriCodec {
  import opened Common

  /** The characters `encodeURIComponent` never escapes. */
  predicate Unreserved(c: char) {
    ('A' <= c <= 'Z') || ('a' <= c <= 'z') || ('0' <= c <= '9')
    || c == '-' || c == '_' || c == '.' || c == '!' || c == '~' || c == '*'
    || c == '\'' || c == '(' || c == ')'
  }

  predicate IsHex(c: char) {
    ('0' <= c <= '9') || ('A' <= c <= 'F')
  }

  function HexDigit(d: int): (c: char)
    requires 0 <= d < 16
    ensures IsHex(c)
  {
    "0123456789ABCDEF"[d]
  }

  function HexVal(c: char): (d: int)
    requires IsHex(c)
    ensures 0 <= d < 16
  {
    if c <= '9' then c as int - '0' as int else c as int - 'A' as int + 10
  }

  function Pow16(k: nat): (p: nat)
    ensures p >= 1
  {
    if k == 0 then 1 else 16 * Pow16(k - 1)
  }

  /** `n` written with exactly `width` hex digits (the low ones). */
  function Hex(n: nat, width: nat): (r: string)
    ensures |r| == width
    ensures forall i :: 0 <= i < |r| ==> IsHex(r[i])
  {
    if width == 0 then "" else Hex(n / 16, width - 1) + [HexDigit(n % 16)]
  }

  function HexValue(s: string): nat
    requires forall i :: 0 <= i < |s| ==> IsHex(s[i])
  {
    if s == [] then 0 else HexValue(s[..|s| - 1]) * 16 + HexVal(s[|s| - 1])
  }

  lemma {:induction false} HexRoundTrip(n: nat, width: nat)
    requires n < Pow16(width)
    ensures HexValue(Hex(n, width)) == n
  {
    if width > 0 {
      var h := Hex(n, width);
      assert h[..|h| - 1] == Hex(n / 16, width - 1);
      assert HexVal(HexDigit(n % 16)) == n % 16;
      HexRoundTrip(n / 16, width - 1);
    }
  }

  /** Code points that are valid `char` values (Unicode scalar values). */
  predicate IsScalar(n: int) {
    (0 <= n < 0xD800) || (0xE000 <= n < 0x11_0000)
  }

  function Escape(c: char): (r: string)
    ensures |r| >= 1 && ';' !in r && ' ' !in r
  {
    if Unreserved(c) then [c] else "%" + Hex(c as int, 6)
  }

  /** `encodeURIComponent(s)`. */
  function Encode(s: string): (r: string)
    ensures ';' !in r && ' ' !in r
    ensures r == "" <==> s == ""
  {
    if s == [] then "" else Escape(s[0]) + Encode(s[1..])
  }

  /** `decodeURIComponent(s)`; `None` where the real function throws a URIError. */
  function Decode(s: string): Option<string> {
    if s == [] then Some("")
    else if s[0] != '%' then
      match Decode(s[1..])
      case Some(rest) => Some([s[0]] + rest)
      case None => None
    else if |s| >= 7 && (forall i :: 1 <= i < 7 ==> IsHex(s[i])) && IsScalar(HexValue(s[1..7])) then
      match Decode(s[7..])
      case Some(rest) => Some([HexValue(s[1..7]) as char] + rest)
      case None => None
    else None
  }

  /** Decoding reads one escaped character back and then goes on with the rest. */
  lemma DecodeEscape(c: char, t: string)
    ensures Decode(Escape(c) + t) == match Decode(t) case Some(r) => Some([c] + r) case None => None
  {
    var e := Escape(c) + t;
    if Unreserved(c) {
      assert e[0] == c && e[1..] == t;
    } else {
      var h := Hex(c as int, 6);
      assert Pow16(6) == 0x100_0000;
      HexRoundTrip(c as int, 6);
      assert e[0] == '%' && e[1..7] == h && e[7..] == t;
      assert (HexValue(h) as char) == c;
    }
  }

  /** Decoding undoes encoding, for every string. */
  lemma {:induction false} DecodeEncode(s: string)
    ensures Decode(Encode(s)) == Some(s)
  {
    if s != [] {
      DecodeEncode(s[1..]);
      DecodeEscape(s[0], Encode(s[1..]));
      assert [s[0]] + s[1..] == s;
    }
  }

  /** Encoding is injective: it is a bijection onto its image. */
  lemma EncodeInjective(s: string, t: string)
    requires Encode(s) == Encode(t)
    ensures s == t
  {
    DecodeEncode(s);
    DecodeEncode(t);
  }
}
