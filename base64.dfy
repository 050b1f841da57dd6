/**
 * The base64 encoding of section 4 of RFC 4648 (standard alphabet, with `=` padding),
 * used for the HTTP Basic client-authentication header, and its decoder.
 */
module Base64 {
  import opened Wrappers

  type Byte = b: int | 0 <= b < 256
  type Sextet = i: int | 0 <= i < 64

  /** The character of the base64 alphabet (Table 1 of RFC 4648) for a 6-bit value. */
  function Char(i: Sextet): char
  {
    if i < 26 then (65 + i) as char          // 'A'..'Z'
    else if i < 52 then (97 + i - 26) as char // 'a'..'z'
    else if i < 62 then (48 + i - 52) as char // '0'..'9'
    else if i == 62 then '+'
    else '/'
  }

  /** The 6-bit value of an alphabet character; None for anything else, `=` included. */
  function Index(c: char): (r: Option<Sextet>)
    ensures r.Some? ==> Char(r.value) == c
  {
    if 'A' <= c <= 'Z' then Some(c as int - 65)
    else if 'a' <= c <= 'z' then Some(c as int - 97 + 26)
    else if '0' <= c <= '9' then Some(c as int - 48 + 52)
    else if c == '+' then Some(62)
    else if c == '/' then Some(63)
    else None
  }

  lemma IndexOfChar(i: Sextet)
    ensures Index(Char(i)) == Some(i)
  {
  }

  /** Three octets become four alphabet characters. */
  function EncodeQuantum(a: Byte, b: Byte, c: Byte): string
  {
    [Char(a / 4), Char((a % 4) * 16 + b / 16), Char((b % 16) * 4 + c / 64), Char(c % 64)]
  }

  /** RFC 4648 section 4: full quanta, then a final one or two octets padded with `=`. */
  function Encode(bytes: seq<Byte>): (s: string)
    ensures |s| == 4 * ((|bytes| + 2) / 3)
    decreases |bytes|
  {
    if |bytes| == 0 then []
    else if |bytes| == 1 then
      [Char(bytes[0] / 4), Char((bytes[0] % 4) * 16), '=', '=']
    else if |bytes| == 2 then
      [Char(bytes[0] / 4), Char((bytes[0] % 4) * 16 + bytes[1] / 16), Char((bytes[1] % 16) * 4), '=']
    else
      EncodeQuantum(bytes[0], bytes[1], bytes[2]) + Encode(bytes[3..])
  }

  /** Four alphabet characters (no padding) become three octets. */
  function DecodeQuantum(s: string): Option<seq<Byte>>
    requires |s| == 4
  {
    match (Index(s[0]), Index(s[1]), Index(s[2]), Index(s[3]))
    case (Some(i0), Some(i1), Some(i2), Some(i3)) =>
      var x0: int, x1: int, x2: int := (i0 as int) * 4 + (i1 as int) / 16, ((i1 as int) % 16) * 16 + (i2 as int) / 4, ((i2 as int) % 4) * 64 + (i3 as int);
      Some([x0, x1, x2])
    case _ => None
  }

  /** The last quantum, which may end in one or two `=`. */
  function DecodeFinal(s: string): Option<seq<Byte>>
    requires |s| == 4
  {
    if s[2] == '=' && s[3] == '=' then
      match (Index(s[0]), Index(s[1]))
      case (Some(i0), Some(i1)) =>
        var x0: int := (i0 as int) * 4 + (i1 as int) / 16;
        Some([x0])
      case _ => None
    else if s[3] == '=' then
      match (Index(s[0]), Index(s[1]), Index(s[2]))
      case (Some(i0), Some(i1), Some(i2)) =>
        var x0: int, x1: int := (i0 as int) * 4 + (i1 as int) / 16, ((i1 as int) % 16) * 16 + (i2 as int) / 4;
        Some([x0, x1])
      case _ => None
    else
      DecodeQuantum(s)
  }

  /** Decoding; None when the text is not a padded base64 string. */
  function Decode(s: string): Option<seq<Byte>>
    decreases |s|
  {
    if |s| == 0 then Some([])
    else if |s| < 4 then None
    else if |s| == 4 then DecodeFinal(s)
    else
      match DecodeQuantum(s[..4])
      case None => None
      case Some(head) =>
        match Decode(s[4..])
        case None => None
        case Some(tail) => Some(head + tail)
  }

  lemma QuantumRoundTrip(a: Byte, b: Byte, c: Byte)
    ensures DecodeQuantum(EncodeQuantum(a, b, c)) == Some([a, b, c])
  {
    var s := EncodeQuantum(a, b, c);
    IndexOfChar(a / 4);
    IndexOfChar((a % 4) * 16 + b / 16);
    IndexOfChar((b % 16) * 4 + c / 64);
    IndexOfChar(c % 64);
    assert ((a % 4) * 16 + b / 16) / 16 == a % 4;
    assert ((a % 4) * 16 + b / 16) % 16 == b / 16;
    assert ((b % 16) * 4 + c / 64) / 4 == b % 16;
    assert ((b % 16) * 4 + c / 64) % 4 == c / 64;
  }

  lemma FinalOneRoundTrip(a: Byte)
    ensures Decode(Encode([a])) == Some([a])
  {
    var s := Encode([a]);
    IndexOfChar(a / 4);
    IndexOfChar((a % 4) * 16);
    assert s[2] == '=' && s[3] == '=';
    assert (a / 4) * 4 + ((a % 4) * 16) / 16 == a;
  }

  lemma FinalTwoRoundTrip(a: Byte, b: Byte)
    ensures Decode(Encode([a, b])) == Some([a, b])
  {
    var s := Encode([a, b]);
    IndexOfChar(a / 4);
    IndexOfChar((a % 4) * 16 + b / 16);
    IndexOfChar((b % 16) * 4);
    assert s[2] == Char((b % 16) * 4) && s[2] != '=' && s[3] == '=';
    assert ((a % 4) * 16 + b / 16) / 16 == a % 4;
    assert ((a % 4) * 16 + b / 16) % 16 == b / 16;
  }

  /** A full quantum in front of an encoded tail decodes to its three octets in front of the tail. */
  lemma QuantumPrefixRoundTrip(a: Byte, b: Byte, c: Byte, tail: seq<Byte>)
    requires Decode(Encode(tail)) == Some(tail)
    ensures Decode(EncodeQuantum(a, b, c) + Encode(tail)) == Some([a, b, c] + tail)
  {
    var q := EncodeQuantum(a, b, c);
    var rest := Encode(tail);
    var s := q + rest;
    QuantumRoundTrip(a, b, c);
    if |tail| == 0 {
      assert s == q;
      assert s[3] != '=' by { assert s[3] == Char(c % 64); }
      assert [a, b, c] + tail == [a, b, c];
    } else {
      assert s[..4] == q;
      assert s[4..] == rest;
    }
  }

  /** Decoding undoes encoding, for every octet sequence. */
  lemma {:induction false} DecodeEncode(bytes: seq<Byte>)
    ensures Decode(Encode(bytes)) == Some(bytes)
    decreases |bytes|
  {
    if |bytes| == 0 {
    } else if |bytes| == 1 {
      assert bytes == [bytes[0]];
      FinalOneRoundTrip(bytes[0]);
    } else if |bytes| == 2 {
      assert bytes == [bytes[0], bytes[1]];
      FinalTwoRoundTrip(bytes[0], bytes[1]);
    } else {
      DecodeEncode(bytes[3..]);
      QuantumPrefixRoundTrip(bytes[0], bytes[1], bytes[2], bytes[3..]);
      assert bytes == [bytes[0], bytes[1], bytes[2]] + bytes[3..];
    }
  }
}
