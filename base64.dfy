/** Standard base64 (RFC 4648, section 4: alphabet `A-Z a-z 0-9 + /`, `=`
    padding), as `Buffer.from(text).toString("base64")` produces it for text
    whose characters are all ASCII. */
module Base64 {
  import opened Opt

  type Byte = x: int | 0 <= x < 256

  /** The character for a 6-bit value. */
  function EncodeSextet(v: nat): (c: char)
    requires v < 64
  {
    if v < 26 then ('A' as int + v) as char
    else if v < 52 then ('a' as int + (v - 26)) as char
    else if v < 62 then ('0' as int + (v - 52)) as char
    else if v == 62 then '+'
    else '/'
  }

  predicate IsAlphabet(c: char) {
    ('A' <= c <= 'Z') || ('a' <= c <= 'z') || ('0' <= c <= '9') || c == '+' || c == '/'
  }

  /** The 6-bit value of an alphabet character. */
  function DecodeSextet(c: char): (v: nat)
    requires IsAlphabet(c)
    ensures v < 64
  {
    if 'A' <= c <= 'Z' then c as int - 'A' as int
    else if 'a' <= c <= 'z' then c as int - 'a' as int + 26
    else if '0' <= c <= '9' then c as int - '0' as int + 52
    else if c == '+' then 62
    else 63
  }

  /** Every 6-bit value has its own alphabet character, never the pad `=`. */
  lemma SextetRoundTrip(v: nat)
    requires v < 64
    ensures IsAlphabet(EncodeSextet(v)) && EncodeSextet(v) != '='
    ensures DecodeSextet(EncodeSextet(v)) == v
  {
  }

  /** Three bytes as four characters. */
  function EncodeGroup(b0: Byte, b1: Byte, b2: Byte): string {
    [EncodeSextet(b0 / 4), EncodeSextet(b0 % 4 * 16 + b1 / 16),
     EncodeSextet(b1 % 16 * 4 + b2 / 64), EncodeSextet(b2 % 64)]
  }

  /** The encoding: each group of three bytes becomes four characters; a final
      one or two bytes become two or three characters padded with `=` to four. */
  function Encode(b: seq<Byte>): (s: string)
    ensures |s| == 4 * ((|b| + 2) / 3)
    decreases |b|
  {
    if |b| == 0 then ""
    else if |b| == 1 then [EncodeSextet(b[0] / 4), EncodeSextet(b[0] % 4 * 16)] + "=="
    else if |b| == 2 then
      [EncodeSextet(b[0] / 4), EncodeSextet(b[0] % 4 * 16 + b[1] / 16), EncodeSextet(b[1] % 16 * 4)] + "="
    else EncodeGroup(b[0], b[1], b[2]) + Encode(b[3..])
  }

  /** The inverse: None for text that is not a padded base64 encoding. */
  function Decode(s: string): Option<seq<Byte>>
    decreases |s|
  {
    if |s| == 0 then Some([])
    else if |s| < 4 then None
    else if |s| == 4 && IsAlphabet(s[0]) && IsAlphabet(s[1]) && s[2] == '=' && s[3] == '=' then
      Some([DecodeSextet(s[0]) * 4 + DecodeSextet(s[1]) / 16])
    else if |s| == 4 && IsAlphabet(s[0]) && IsAlphabet(s[1]) && IsAlphabet(s[2]) && s[3] == '=' then
      Some([DecodeSextet(s[0]) * 4 + DecodeSextet(s[1]) / 16,
            DecodeSextet(s[1]) % 16 * 16 + DecodeSextet(s[2]) / 4])
    else if IsAlphabet(s[0]) && IsAlphabet(s[1]) && IsAlphabet(s[2]) && IsAlphabet(s[3]) then
      var v0, v1, v2, v3 := DecodeSextet(s[0]), DecodeSextet(s[1]), DecodeSextet(s[2]), DecodeSextet(s[3]);
      match Decode(s[4..])
      case None => None
      case Some(rest) => Some([v0 * 4 + v1 / 16, v1 % 16 * 16 + v2 / 4, v2 % 4 * 64 + v3] + rest)
    else None
  }

  // ---------------------------------------------------------------------------
  // Decoding one block of four characters
  // ---------------------------------------------------------------------------

  /** Two alphabet characters and `==` decode to the byte their sextets recombine into. */
  lemma DecodePadTwo(c0: char, c1: char, b: seq<Byte>)
    requires IsAlphabet(c0) && IsAlphabet(c1)
    requires |b| == 1 && b[0] == DecodeSextet(c0) * 4 + DecodeSextet(c1) / 16
    ensures Decode([c0, c1, '=', '=']) == Some(b)
  {
    assert b == [b[0]];
  }

  /** Three alphabet characters and `=` decode to the two bytes their sextets recombine into. */
  lemma DecodePadOne(c0: char, c1: char, c2: char, b: seq<Byte>)
    requires IsAlphabet(c0) && IsAlphabet(c1) && IsAlphabet(c2)
    requires |b| == 2
    requires b[0] == DecodeSextet(c0) * 4 + DecodeSextet(c1) / 16
    requires b[1] == DecodeSextet(c1) % 16 * 16 + DecodeSextet(c2) / 4
    ensures Decode([c0, c1, c2, '=']) == Some(b)
  {
    assert b == [b[0], b[1]];
  }

  /** Four alphabet characters decode to three bytes ahead of whatever the rest decodes to. */
  lemma DecodeQuad(c0: char, c1: char, c2: char, c3: char, rest: string)
    requires IsAlphabet(c0) && IsAlphabet(c1) && IsAlphabet(c2) && IsAlphabet(c3)
    ensures Decode([c0, c1, c2, c3] + rest) ==
      match Decode(rest)
      case None => None
      case Some(r) =>
        Some([DecodeSextet(c0) * 4 + DecodeSextet(c1) / 16,
              DecodeSextet(c1) % 16 * 16 + DecodeSextet(c2) / 4,
              DecodeSextet(c2) % 4 * 64 + DecodeSextet(c3)] + r)
  {
    var s := [c0, c1, c2, c3] + rest;
    assert s[4..] == rest;
  }

  // ---------------------------------------------------------------------------
  // The sextet arithmetic
  // ---------------------------------------------------------------------------

  /** The two sextets of a final byte recombine into it. */
  lemma OneArithmetic(b0: Byte)
    ensures var v0, v1 := b0 / 4, b0 % 4 * 16;
      && v0 < 64 && v1 < 64
      && v0 * 4 + v1 / 16 == b0
  {
  }

  /** The three sextets of a final pair of bytes recombine into them. */
  lemma PairArithmetic(b0: Byte, b1: Byte)
    ensures var v0, v1, v2 := b0 / 4, b0 % 4 * 16 + b1 / 16, b1 % 16 * 4;
      && v0 < 64 && v1 < 64 && v2 < 64
      && v0 * 4 + v1 / 16 == b0
      && v1 % 16 * 16 + v2 / 4 == b1
  {
  }

  /** The four sextets of a group are 6-bit values that recombine into its bytes. */
  lemma GroupArithmetic(b0: Byte, b1: Byte, b2: Byte)
    ensures var v0, v1, v2, v3 := b0 / 4, b0 % 4 * 16 + b1 / 16, b1 % 16 * 4 + b2 / 64, b2 % 64;
      && v0 < 64 && v1 < 64 && v2 < 64 && v3 < 64
      && v0 * 4 + v1 / 16 == b0
      && v1 % 16 * 16 + v2 / 4 == b1
      && v2 % 4 * 64 + v3 == b2
  {
  }

  // ---------------------------------------------------------------------------
  // The round trip
  // ---------------------------------------------------------------------------

  /** A final single byte is two characters and `==`. */
  lemma EncodeOne(b: seq<Byte>)
    requires |b| == 1
    ensures Encode(b) == [EncodeSextet(b[0] / 4), EncodeSextet(b[0] % 4 * 16), '=', '=']
  {
  }

  /** A final pair of bytes is three characters and `=`. */
  lemma EncodeTwo(b: seq<Byte>)
    requires |b| == 2
    ensures Encode(b) ==
      [EncodeSextet(b[0] / 4), EncodeSextet(b[0] % 4 * 16 + b[1] / 16), EncodeSextet(b[1] % 16 * 4), '=']
  {
  }

  /** A final single byte decodes back. */
  lemma DecodeOne(b: seq<Byte>)
    requires |b| == 1
    ensures Decode(Encode(b)) == Some(b)
  {
    var b0 := b[0];
    var v0, v1 := b0 / 4, b0 % 4 * 16;
    OneArithmetic(b0);
    SextetRoundTrip(v0);
    SextetRoundTrip(v1);
    EncodeOne(b);
    DecodePadTwo(EncodeSextet(v0), EncodeSextet(v1), b);
  }

  /** A final pair of bytes decodes back. */
  lemma DecodeTwo(b: seq<Byte>)
    requires |b| == 2
    ensures Decode(Encode(b)) == Some(b)
  {
    var b0, b1 := b[0], b[1];
    var v0, v1, v2 := b0 / 4, b0 % 4 * 16 + b1 / 16, b1 % 16 * 4;
    PairArithmetic(b0, b1);
    SextetRoundTrip(v0);
    SextetRoundTrip(v1);
    SextetRoundTrip(v2);
    EncodeTwo(b);
    DecodePadOne(EncodeSextet(v0), EncodeSextet(v1), EncodeSextet(v2), b);
  }

  /** A full group decodes to its three bytes, followed by whatever the rest decodes to. */
  lemma DecodeGroup(b0: Byte, b1: Byte, b2: Byte, rest: string)
    ensures Decode(EncodeGroup(b0, b1, b2) + rest) ==
      match Decode(rest)
      case None => None
      case Some(r) => Some([b0, b1, b2] + r)
  {
    var v0, v1, v2, v3 := b0 / 4, b0 % 4 * 16 + b1 / 16, b1 % 16 * 4 + b2 / 64, b2 % 64;
    GroupArithmetic(b0, b1, b2);
    SextetRoundTrip(v0);
    SextetRoundTrip(v1);
    SextetRoundTrip(v2);
    SextetRoundTrip(v3);
    DecodeQuad(EncodeSextet(v0), EncodeSextet(v1), EncodeSextet(v2), EncodeSextet(v3), rest);
  }

  /** Three or more bytes: the first group, then the rest, once the rest round-trips. */
  lemma DecodeMore(b: seq<Byte>)
    requires |b| >= 3
    requires Decode(Encode(b[3..])) == Some(b[3..])
    ensures Decode(Encode(b)) == Some(b)
  {
    SplitGroup(b);
    EncodeFirstGroup(b);
    DecodeGroup(b[0], b[1], b[2], Encode(b[3..]));
  }

  lemma SplitGroup(b: seq<Byte>)
    requires |b| >= 3
    ensures b == [b[0], b[1], b[2]] + b[3..]
  {
  }

  /** Three or more bytes encode as their first group followed by the encoding of the rest. */
  lemma EncodeFirstGroup(b: seq<Byte>)
    requires |b| >= 3
    ensures Encode(b) == EncodeGroup(b[0], b[1], b[2]) + Encode(b[3..])
  {
  }

  /** Decoding gives back exactly the bytes that were encoded. */
  lemma {:induction false} DecodeEncode(b: seq<Byte>)
    ensures Decode(Encode(b)) == Some(b)
    decreases |b|
  {
    if |b| == 1 {
      DecodeOne(b);
    } else if |b| == 2 {
      DecodeTwo(b);
    } else if |b| >= 3 {
      DecodeEncode(b[3..]);
      DecodeMore(b);
    }
  }

  /** Different byte strings encode differently. */
  lemma EncodeInjective(a: seq<Byte>, b: seq<Byte>)
    requires Encode(a) == Encode(b)
    ensures a == b
  {
    DecodeEncode(a);
    DecodeEncode(b);
  }
}
