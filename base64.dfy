/** The standard base 64 encoding: section 4 of RFC 4648, with '=' padding
    (Go's base64.StdEncoding). Decode is the inverse the encoding is proved
    against; the fetch pipeline itself only encodes. */
module Base64 {
  import opened Wrappers
  import opened Bytes

  type sextet = x: int | 0 <= x < 64

  /** Table 1 of RFC 4648: the character for one 6-bit value. */
  function Char(i: sextet): (c: char)
  {
    if i < 26 then (i + 'A' as int) as char
    else if i < 52 then (i - 26 + 'a' as int) as char
    else if i < 62 then (i - 52 + '0' as int) as char
    else if i == 62 then '+'
    else '/'
  }

  /** The 6-bit value a character stands for, if it is in the alphabet. */
  function Index(c: char): (r: Option<sextet>)
  {
    if 'A' <= c <= 'Z' then Some(c as int - 'A' as int)
    else if 'a' <= c <= 'z' then Some(c as int - 'a' as int + 26)
    else if '0' <= c <= '9' then Some(c as int - '0' as int + 52)
    else if c == '+' then Some(62)
    else if c == '/' then Some(63)
    else None
  }

  lemma IndexChar(i: sextet)
    ensures Index(Char(i)) == Some(i)
    ensures Char(i) != '='
  {
  }

  /** Three bytes become four characters (section 4 of RFC 4648, 24-bit groups). */
  function EncodeGroup(x: byte, y: byte, z: byte): string
  {
    [Char(x / 4), Char((x % 4) * 16 + y / 16), Char((y % 16) * 4 + z / 64), Char(z % 64)]
  }

  /** Encodes the bytes; a final group of one or two bytes is padded with '='. */
  function Encode(b: seq<byte>): (s: string)
    ensures |s| == 4 * ((|b| + 2) / 3)
    decreases |b|
  {
    if |b| == 0 then ""
    else if |b| == 1 then [Char(b[0] / 4), Char((b[0] % 4) * 16), '=', '=']
    else if |b| == 2 then [Char(b[0] / 4), Char((b[0] % 4) * 16 + b[1] / 16), Char((b[1] % 16) * 4), '=']
    else EncodeGroup(b[0], b[1], b[2]) + Encode(b[3..])
  }

  /** Four alphabet characters back to three bytes. */
  function DecodeGroup(q: string): Option<seq<byte>>
    requires |q| == 4
  {
    match (Index(q[0]), Index(q[1]), Index(q[2]), Index(q[3]))
    case (Some(a), Some(b), Some(c), Some(d)) =>
      Some(Bytes24(a, b, c, d))
    case _ => None
  }

  /** The three bytes of the 24-bit group held by four 6-bit values. */
  function Bytes24(a: int, b: int, c: int, d: int): seq<byte>
    requires 0 <= a < 64 && 0 <= b < 64 && 0 <= c < 64 && 0 <= d < 64
  {
    [a * 4 + b / 16, (b % 16) * 16 + c / 4, (c % 4) * 64 + d]
  }

  /** The last group, which may carry one or two padding characters whose
      discarded bits must be zero (section 3.5 of RFC 4648). */
  function DecodeLast(q: string): Option<seq<byte>>
    requires |q| == 4
  {
    if q[2] == '=' && q[3] == '=' then
      match (Index(q[0]), Index(q[1]))
      case (Some(a), Some(b)) => if b % 16 == 0 then Some(Bytes24(a, b, 0, 0)[..1]) else None
      case _ => None
    else if q[3] == '=' then
      match (Index(q[0]), Index(q[1]), Index(q[2]))
      case (Some(a), Some(b), Some(c)) =>
        if c % 4 == 0 then Some(Bytes24(a, b, c, 0)[..2]) else None
      case _ => None
    else DecodeGroup(q)
  }

  function Decode(s: string): Option<seq<byte>>
    decreases |s|
  {
    if |s| == 0 then Some([])
    else if |s| < 4 then None
    else if |s| == 4 then DecodeLast(s)
    else match DecodeGroup(s[..4])
      case None => None
      case Some(head) =>
        match Decode(s[4..])
        case None => None
        case Some(tail) => Some(head + tail)
  }

  /** The four 6-bit values of a group give back its three bytes. */
  lemma GroupBits(x: byte, y: byte, z: byte)
    ensures Bytes24(x / 4, (x % 4) * 16 + y / 16, (y % 16) * 4 + z / 64, z % 64) == [x, y, z]
  {
    var b, c := (x % 4) * 16 + y / 16, (y % 16) * 4 + z / 64;
    assert b / 16 == x % 4 && b % 16 == y / 16;
    assert c / 4 == y % 16 && c % 4 == z / 64;
  }

  lemma GroupRoundTrip(x: byte, y: byte, z: byte)
    ensures DecodeGroup(EncodeGroup(x, y, z)) == Some([x, y, z])
  {
    var a, b, c, d := x / 4, (x % 4) * 16 + y / 16, (y % 16) * 4 + z / 64, z % 64;
    IndexChar(a);
    IndexChar(b);
    IndexChar(c);
    IndexChar(d);
    GroupBits(x, y, z);
    assert EncodeGroup(x, y, z) == [Char(a), Char(b), Char(c), Char(d)];
  }

  lemma OneByteRoundTrip(x: byte)
    ensures Decode(Encode([x])) == Some([x])
  {
    IndexChar(x / 4);
    IndexChar((x % 4) * 16);
    assert (x / 4) * 4 + ((x % 4) * 16) / 16 == x;
    assert Bytes24(x / 4, (x % 4) * 16, 0, 0)[..1] == [x];
  }

  lemma TwoByteRoundTrip(x: byte, y: byte)
    ensures Decode(Encode([x, y])) == Some([x, y])
  {
    var a, b, c := x / 4, (x % 4) * 16 + y / 16, (y % 16) * 4;
    IndexChar(a);
    IndexChar(b);
    IndexChar(c);
    assert a * 4 + b / 16 == x;
    assert (b % 16) * 16 + c / 4 == y;
    var s := Encode([x, y]);
    assert s == [Char(a), Char(b), Char(c), '='];
    assert Bytes24(a, b, c, 0)[..2] == [x, y];
  }

  lemma DecodeCons(g: string, rest: string, head: seq<byte>, tail: seq<byte>)
    requires |g| == 4 && |rest| > 0
    requires DecodeGroup(g) == Some(head) && Decode(rest) == Some(tail)
    ensures Decode(g + rest) == Some(head + tail)
  {
    assert (g + rest)[..4] == g;
    assert (g + rest)[4..] == rest;
  }

  lemma ThreeByteRoundTrip(x: byte, y: byte, z: byte)
    ensures Decode(Encode([x, y, z])) == Some([x, y, z])
  {
    var g := EncodeGroup(x, y, z);
    GroupRoundTrip(x, y, z);
    assert g[3] != '=' by { IndexChar(z % 64); }
    assert [x, y, z][3..] == [];
    assert Encode([x, y, z]) == g;
  }

  lemma EncodeCons(b: seq<byte>)
    requires |b| > 3
    ensures Decode(Encode(b)) == Decode(EncodeGroup(b[0], b[1], b[2]) + Encode(b[3..]))
  {
    assert Encode(b) == EncodeGroup(b[0], b[1], b[2]) + Encode(b[3..]);
  }

  lemma DecodeGroupThenRest(b: seq<byte>)
    requires |b| > 3
    requires Decode(Encode(b[3..])) == Some(b[3..])
    ensures Decode(EncodeGroup(b[0], b[1], b[2]) + Encode(b[3..])) == Some([b[0], b[1], b[2]] + b[3..])
  {
    GroupRoundTrip(b[0], b[1], b[2]);
    DecodeCons(EncodeGroup(b[0], b[1], b[2]), Encode(b[3..]), [b[0], b[1], b[2]], b[3..]);
  }

  lemma SplitFirstGroup(b: seq<byte>)
    requires |b| > 3
    ensures [b[0], b[1], b[2]] + b[3..] == b
  {
  }

  /** One full group in front of an encoding that already round-trips. */
  lemma GroupThenRest(b: seq<byte>)
    requires |b| > 3
    requires Decode(Encode(b[3..])) == Some(b[3..])
    ensures Decode(Encode(b)) == Some(b)
  {
    EncodeCons(b);
    DecodeGroupThenRest(b);
    SplitFirstGroup(b);
  }

  /** Decoding an encoding gives back the bytes: the body's base 64 form
      carries exactly the body's bytes. */
  lemma {:induction false} DecodeEncode(b: seq<byte>)
    ensures Decode(Encode(b)) == Some(b)
    decreases |b|
  {
    if |b| == 1 {
      assert b == [b[0]];
      OneByteRoundTrip(b[0]);
    } else if |b| == 2 {
      assert b == [b[0], b[1]];
      TwoByteRoundTrip(b[0], b[1]);
    } else if |b| == 3 {
      assert b == [b[0], b[1], b[2]];
      ThreeByteRoundTrip(b[0], b[1], b[2]);
    } else if |b| > 3 {
      DecodeEncode(b[3..]);
      GroupThenRest(b);
    }
  }
}
