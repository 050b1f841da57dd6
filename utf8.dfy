/**
 * UTF-8 (RFC 3629) over Unicode scalar values: the encoder that turns the
 * `clientId:clientSecret` text into octets before base64, and a strict decoder
 * (no overlong forms, no surrogates, nothing above U+10FFFF).
 */
module Utf8 {
  import opened Wrappers
  import Base64

  type Byte = Base64.Byte

  predicate IsContinuation(b: Byte)
  {
    0x80 <= b < 0xC0
  }

  /** The one to four octets of one scalar value (section 3 of RFC 3629). */
  function EncodeScalar(c: char): (bytes: seq<Byte>)
    ensures 1 <= |bytes| <= 4
  {
    var n := c as int;
    if n < 0x80 then [n]
    else if n < 0x800 then [0xC0 + n / 64, 0x80 + n % 64]
    else if n < 0x10000 then [0xE0 + n / 4096, 0x80 + (n / 64) % 64, 0x80 + n % 64]
    else [0xF0 + n / 262144, 0x80 + (n / 4096) % 64, 0x80 + (n / 64) % 64, 0x80 + n % 64]
  }

  /** The octets of a whole text: the scalar encodings one after another. */
  function Encode(s: string): seq<Byte>
  {
    if s == [] then [] else EncodeScalar(s[0]) + Encode(s[1..])
  }

  predicate IsScalar(n: int)
  {
    0 <= n < 0xD800 || 0xE000 <= n < 0x11_0000
  }

  /** The scalar value at the front of `b` and the number of octets it takes. */
  function DecodeScalar(b: seq<Byte>): (r: Option<(char, nat)>)
    ensures r.Some? ==> 1 <= r.value.1 <= |b|
  {
    if |b| == 0 then None
    else if b[0] < 0x80 then Some((b[0] as char, 1))
    else if 0xC0 <= b[0] < 0xE0 then
      if |b| < 2 || !IsContinuation(b[1]) then None
      else
        var n := (b[0] as int - 0xC0) * 64 + (b[1] as int - 0x80);
        if 0x80 <= n then Some((n as char, 2)) else None
    else if 0xE0 <= b[0] < 0xF0 then
      if |b| < 3 || !IsContinuation(b[1]) || !IsContinuation(b[2]) then None
      else
        var n := (b[0] as int - 0xE0) * 4096 + (b[1] as int - 0x80) * 64 + (b[2] as int - 0x80);
        if 0x800 <= n && IsScalar(n) then Some((n as char, 3)) else None
    else if 0xF0 <= b[0] < 0xF8 then
      if |b| < 4 || !IsContinuation(b[1]) || !IsContinuation(b[2]) || !IsContinuation(b[3]) then None
      else
        var n := (b[0] as int - 0xF0) * 262144 + (b[1] as int - 0x80) * 4096 + (b[2] as int - 0x80) * 64 + (b[3] as int - 0x80);
        if 0x1_0000 <= n < 0x11_0000 then Some((n as char, 4)) else None
    else None
  }

  /** Decoding a whole octet sequence; None when it is not well-formed UTF-8. */
  function Decode(b: seq<Byte>): Option<string>
    decreases |b|
  {
    if |b| == 0 then Some([])
    else
      match DecodeScalar(b)
      case None => None
      case Some((c, k)) =>
        match Decode(b[k..])
        case None => None
        case Some(rest) => Some([c] + rest)
  }

  lemma TwoOctetRoundTrip(n: int, rest: seq<Byte>)
    requires 0x80 <= n < 0x800
    ensures var b: seq<Byte> := [0xC0 + n / 64, 0x80 + n % 64] + rest;
            DecodeScalar(b) == Some((n as char, 2))
  {
    assert (n / 64) * 64 + n % 64 == n;
  }

  lemma ThreeOctetRoundTrip(n: int, rest: seq<Byte>)
    requires 0x800 <= n < 0x1_0000 && IsScalar(n)
    ensures var b: seq<Byte> := [0xE0 + n / 4096, 0x80 + (n / 64) % 64, 0x80 + n % 64] + rest;
            DecodeScalar(b) == Some((n as char, 3))
  {
    assert (n / 64) / 64 == n / 4096;
    assert (n / 64) == (n / 4096) * 64 + (n / 64) % 64;
    assert n == (n / 64) * 64 + n % 64;
    assert (n / 4096) * 4096 + ((n / 64) % 64) * 64 + n % 64 == n;
  }

  lemma FourOctetRoundTrip(n: int, rest: seq<Byte>)
    requires 0x1_0000 <= n < 0x11_0000
    ensures var b: seq<Byte> := [0xF0 + n / 262144, 0x80 + (n / 4096) % 64, 0x80 + (n / 64) % 64, 0x80 + n % 64] + rest;
            DecodeScalar(b) == Some((n as char, 4))
  {
    assert (n / 4096) / 64 == n / 262144;
    assert (n / 64) / 64 == n / 4096;
    assert (n / 4096) == (n / 262144) * 64 + (n / 4096) % 64;
    assert (n / 64) == (n / 4096) * 64 + (n / 64) % 64;
    assert n == (n / 64) * 64 + n % 64;
    assert (n / 262144) * 262144 + ((n / 4096) % 64) * 4096 + ((n / 64) % 64) * 64 + n % 64 == n;
  }

  /** The encoding of one scalar value is read back whole, whatever follows it. */
  lemma ScalarRoundTrip(c: char, rest: seq<Byte>)
    ensures DecodeScalar(EncodeScalar(c) + rest) == Some((c, |EncodeScalar(c)|))
  {
    var n := c as int;
    if n < 0x80 {
    } else if n < 0x800 {
      TwoOctetRoundTrip(n, rest);
    } else if n < 0x1_0000 {
      ThreeOctetRoundTrip(n, rest);
    } else {
      FourOctetRoundTrip(n, rest);
    }
  }

  /** Decoding undoes encoding, for every text. */
  lemma {:induction false} DecodeEncode(s: string)
    ensures Decode(Encode(s)) == Some(s)
  {
    if s != [] {
      var head := EncodeScalar(s[0]);
      var tail := Encode(s[1..]);
      ScalarRoundTrip(s[0], tail);
      assert (head + tail)[|head|..] == tail;
      DecodeEncode(s[1..]);
      assert s == [s[0]] + s[1..];
    }
  }
}
