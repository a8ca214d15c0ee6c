/**
 * Base 64 as defined in RFC 4648: the standard alphabet of section 4
 * (`base64.b64encode`, used for the body digest and the signature) and the
 * URL- and filename-safe alphabet of section 5 (`base64.urlsafe_b64encode`,
 * used for the JWK `x` member).  The encoder is what the client uses; the
 * strict decoder is its inverse, against which the encoder is proved.
 */
module Base64 {

  import opened Wrappers
  import opened Strings

  type byte = x: int | 0 <= x < 256

  datatype Alphabet = Standard | UrlSafe

  const Pad: char := '='

  /** The 64 characters of an alphabet (the pad character is not among them). */
  predicate IsAlphabetChar(c: char, alphabet: Alphabet) {
    || ('A' <= c <= 'Z')
    || ('a' <= c <= 'z')
    || ('0' <= c <= '9')
    || (alphabet == Standard && (c == '+' || c == '/'))
    || (alphabet == UrlSafe && (c == '-' || c == '_'))
  }

  /** The character for a 6-bit value (Table 1 and Table 2 of RFC 4648). */
  function SextetChar(v: int, alphabet: Alphabet): (c: char)
    requires 0 <= v < 64
    ensures IsAlphabetChar(c, alphabet)
  {
    if v < 26 then ('A' as int + v) as char
    else if v < 52 then ('a' as int + (v - 26)) as char
    else if v < 62 then ('0' as int + (v - 52)) as char
    else if v == 62 then (if alphabet == Standard then '+' else '-')
    else (if alphabet == Standard then '/' else '_')
  }

  /** The 6-bit value of a character, or `None` outside the alphabet. */
  function SextetValue(c: char, alphabet: Alphabet): (v: Option<int>)
    ensures v.Some? <==> IsAlphabetChar(c, alphabet)
    ensures v.Some? ==> 0 <= v.value < 64
  {
    if 'A' <= c <= 'Z' then Some(c as int - 'A' as int)
    else if 'a' <= c <= 'z' then Some(c as int - 'a' as int + 26)
    else if '0' <= c <= '9' then Some(c as int - '0' as int + 52)
    else if alphabet == Standard && c == '+' then Some(62)
    else if alphabet == Standard && c == '/' then Some(63)
    else if alphabet == UrlSafe && c == '-' then Some(62)
    else if alphabet == UrlSafe && c == '_' then Some(63)
    else None
  }

  lemma SextetRoundTrip(v: int, alphabet: Alphabet)
    requires 0 <= v < 64
    ensures SextetValue(SextetChar(v, alphabet), alphabet) == Some(v)
  {
  }

  /**
   * The encoding without its trailing padding: four characters per full
   * group of three bytes, then two characters for one leftover byte or three
   * for two.
   */
  function EncodeUnpadded(data: seq<byte>, alphabet: Alphabet): (text: string)
    ensures |text| == (4 * |data| + 2) / 3
    ensures forall i :: 0 <= i < |text| ==> IsAlphabetChar(text[i], alphabet)
    decreases |data|
  {
    if |data| == 0 then ""
    else if |data| == 1 then
      [SextetChar(data[0] / 4, alphabet), SextetChar(data[0] % 4 * 16, alphabet)]
    else if |data| == 2 then
      [SextetChar(data[0] / 4, alphabet),
       SextetChar(data[0] % 4 * 16 + data[1] / 16, alphabet),
       SextetChar(data[1] % 16 * 4, alphabet)]
    else
      Quad(data[0], data[1], data[2], alphabet) + EncodeUnpadded(data[3..], alphabet)
  }

  /** The four characters of one full group of three bytes. */
  function Quad(b0: byte, b1: byte, b2: byte, alphabet: Alphabet): (q: string)
    ensures |q| == 4
  {
    [SextetChar(b0 / 4, alphabet),
     SextetChar(b0 % 4 * 16 + b1 / 16, alphabet),
     SextetChar(b1 % 16 * 4 + b2 / 64, alphabet),
     SextetChar(b2 % 64, alphabet)]
  }

  /** The `=` characters that complete the final quantum (section 4 of RFC 4648). */
  function Padding(n: nat): (p: string)
    ensures forall i :: 0 <= i < |p| ==> p[i] == Pad
  {
    if n % 3 == 1 then "==" else if n % 3 == 2 then "=" else ""
  }

  /** `b64encode` / `urlsafe_b64encode`: padded to a multiple of four characters. */
  function Encode(data: seq<byte>, alphabet: Alphabet): (text: string)
    ensures |text| == (|data| + 2) / 3 * 4
    ensures forall i :: 0 <= i < |text| ==> IsAlphabetChar(text[i], alphabet) || text[i] == Pad
  {
    PaddedLength(|data|);
    EncodeUnpadded(data, alphabet) + Padding(|data|)
  }

  lemma PaddedLength(n: nat)
    ensures (4 * n + 2) / 3 + |Padding(n)| == (n + 2) / 3 * 4
    ensures (4 * n + 2) / 3 % 4 == (if n % 3 == 0 then 0 else n % 3 + 1)
  {
    var k := n / 3;
    assert n == 3 * k + n % 3;
    assert (4 * n + 2) / 3 == 4 * k + (4 * (n % 3) + 2) / 3;
    assert (n + 2) / 3 == k + (n % 3 + 2) / 3;
  }

  /** The three bytes of a quantum of four alphabet characters. */
  function DecodeQuad(q: string, alphabet: Alphabet): (r: Option<seq<byte>>)
    requires |q| == 4
    ensures r.Some? ==> |r.value| == 3
  {
    var c0, c1, c2, c3 := SextetValue(q[0], alphabet), SextetValue(q[1], alphabet),
                          SextetValue(q[2], alphabet), SextetValue(q[3], alphabet);
    if c0.None? || c1.None? || c2.None? || c3.None? then None
    else Some([c0.value * 4 + c1.value / 16,
               c1.value % 16 * 16 + c2.value / 4,
               c2.value % 4 * 64 + c3.value])
  }

  /** The last quantum, which may end in one or two pad characters. */
  function DecodeFinalQuad(q: string, alphabet: Alphabet): (r: Option<seq<byte>>)
    requires |q| == 4
    ensures r.Some? ==> 1 <= |r.value| <= 3
  {
    var c0, c1, c2 := SextetValue(q[0], alphabet), SextetValue(q[1], alphabet), SextetValue(q[2], alphabet);
    if q[2] == Pad && q[3] == Pad then
      if c0.None? || c1.None? then None
      else Some([c0.value * 4 + c1.value / 16])
    else if q[3] == Pad then
      if c0.None? || c1.None? || c2.None? then None
      else Some([c0.value * 4 + c1.value / 16, c1.value % 16 * 16 + c2.value / 4])
    else DecodeQuad(q, alphabet)
  }

  /**
   * Strict decoding: the text is a sequence of four-character quanta, pad
   * characters may only end the last one, and every other character must
   * belong to the alphabet.
   */
  function Decode(text: string, alphabet: Alphabet): (r: Option<seq<byte>>)
    ensures r.Some? ==> |r.value| <= |text| / 4 * 3
    decreases |text|
  {
    if |text| == 0 then Some([])
    else if |text| < 4 then None
    else if |text| == 4 then DecodeFinalQuad(text, alphabet)
    else match DecodeQuad(text[..4], alphabet)
      case None => None
      case Some(head) =>
        match Decode(text[4..], alphabet)
        case None => None
        case Some(tail) => Some(head + tail)
  }

  /** The arithmetic of regrouping three bytes into four sextets and back. */
  lemma RegroupBytes(b0: byte, b1: byte, b2: byte)
    ensures var s1, s2 := b0 % 4 * 16 + b1 / 16, b1 % 16 * 4 + b2 / 64;
      && b0 / 4 * 4 + s1 / 16 == b0
      && s1 % 16 * 16 + s2 / 4 == b1
      && s2 % 4 * 64 + b2 % 64 == b2
  {
    var s1, s2 := b0 % 4 * 16 + b1 / 16, b1 % 16 * 4 + b2 / 64;
    assert s1 / 16 == b0 % 4 && s1 % 16 == b1 / 16;
    assert s2 / 4 == b1 % 16 && s2 % 4 == b2 / 64;
  }

  lemma QuadRoundTrip(b0: byte, b1: byte, b2: byte, alphabet: Alphabet)
    ensures DecodeQuad(Quad(b0, b1, b2, alphabet), alphabet) == Some([b0, b1, b2])
  {
    var q := Quad(b0, b1, b2, alphabet);
    SextetRoundTrip(b0 / 4, alphabet);
    SextetRoundTrip(b0 % 4 * 16 + b1 / 16, alphabet);
    SextetRoundTrip(b1 % 16 * 4 + b2 / 64, alphabet);
    SextetRoundTrip(b2 % 64, alphabet);
    RegroupBytes(b0, b1, b2);
  }

  /** One leftover byte: two characters and two pad characters. */
  lemma DecodeEncodeOne(data: seq<byte>, alphabet: Alphabet)
    requires |data| == 1
    ensures Decode(Encode(data, alphabet), alphabet) == Some(data)
  {
    var text := Encode(data, alphabet);
    SextetRoundTrip(data[0] / 4, alphabet);
    SextetRoundTrip(data[0] % 4 * 16, alphabet);
    RegroupBytes(data[0], 0, 0);
    assert text[0] == SextetChar(data[0] / 4, alphabet);
    assert text[1] == SextetChar(data[0] % 4 * 16, alphabet);
    assert text[2] == Pad && text[3] == Pad;
    assert DecodeFinalQuad(text, alphabet) == Some([data[0]]);
    assert [data[0]] == data;
  }

  /** Two leftover bytes: three characters and one pad character. */
  lemma DecodeEncodeTwo(data: seq<byte>, alphabet: Alphabet)
    requires |data| == 2
    ensures Decode(Encode(data, alphabet), alphabet) == Some(data)
  {
    var text := Encode(data, alphabet);
    SextetRoundTrip(data[0] / 4, alphabet);
    SextetRoundTrip(data[0] % 4 * 16 + data[1] / 16, alphabet);
    SextetRoundTrip(data[1] % 16 * 4, alphabet);
    RegroupBytes(data[0], data[1], 0);
    assert text[0] == SextetChar(data[0] / 4, alphabet);
    assert text[1] == SextetChar(data[0] % 4 * 16 + data[1] / 16, alphabet);
    assert text[2] == SextetChar(data[1] % 16 * 4, alphabet);
    assert text[2] != Pad && text[3] == Pad;
    assert DecodeFinalQuad(text, alphabet) == Some([data[0], data[1]]);
    assert [data[0], data[1]] == data;
  }

  /** Exactly one group: four characters and no padding. */
  lemma DecodeEncodeThree(data: seq<byte>, alphabet: Alphabet)
    requires |data| == 3
    ensures Decode(Encode(data, alphabet), alphabet) == Some(data)
  {
    var q := Quad(data[0], data[1], data[2], alphabet);
    EncodeGroup(data, alphabet);
    QuadRoundTrip(data[0], data[1], data[2], alphabet);
    assert q[3] != Pad by { assert IsAlphabetChar(q[3], alphabet); }
    assert Encode(data, alphabet) == q;
    assert DecodeFinalQuad(q, alphabet) == DecodeQuad(q, alphabet);
    assert [data[0], data[1], data[2]] == data;
  }

  /** A full group of three bytes contributes its quad in front of the rest. */
  lemma EncodeGroup(data: seq<byte>, alphabet: Alphabet)
    requires |data| >= 3
    ensures Encode(data, alphabet) == Quad(data[0], data[1], data[2], alphabet) + Encode(data[3..], alphabet)
  {
    assert |data[3..]| % 3 == |data| % 3;
    assert EncodeUnpadded(data, alphabet)
        == Quad(data[0], data[1], data[2], alphabet) + EncodeUnpadded(data[3..], alphabet);
  }

  /** A leading quad without padding decodes independently of what follows. */
  lemma DecodeGroup(q: string, rest: string, alphabet: Alphabet)
    requires |q| == 4 && |rest| >= 4
    requires DecodeQuad(q, alphabet).Some? && Decode(rest, alphabet).Some?
    ensures Decode(q + rest, alphabet)
         == Some(DecodeQuad(q, alphabet).value + Decode(rest, alphabet).value)
  {
    assert (q + rest)[..4] == q && (q + rest)[4..] == rest;
  }

  /** More than one group: the first quad, then the rest by the induction hypothesis. */
  lemma DecodeEncodeMore(data: seq<byte>, alphabet: Alphabet)
    requires |data| > 3
    requires Decode(Encode(data[3..], alphabet), alphabet) == Some(data[3..])
    ensures Decode(Encode(data, alphabet), alphabet) == Some(data)
  {
    var q := Quad(data[0], data[1], data[2], alphabet);
    EncodeGroup(data, alphabet);
    QuadRoundTrip(data[0], data[1], data[2], alphabet);
    DecodeGroup(q, Encode(data[3..], alphabet), alphabet);
    assert [data[0], data[1], data[2]] + data[3..] == data;
  }

  /** Decoding undoes encoding, for both alphabets and every length. */
  lemma {:induction false} DecodeEncode(data: seq<byte>, alphabet: Alphabet)
    ensures Decode(Encode(data, alphabet), alphabet) == Some(data)
    decreases |data|
  {
    if |data| == 1 {
      DecodeEncodeOne(data, alphabet);
    } else if |data| == 2 {
      DecodeEncodeTwo(data, alphabet);
    } else if |data| == 3 {
      DecodeEncodeThree(data, alphabet);
    } else if |data| > 3 {
      DecodeEncode(data[3..], alphabet);
      DecodeEncodeMore(data, alphabet);
    }
  }

  /** `text + "=" * (-len(text) % 4)`: the padding a receiver adds back. */
  function Repad(text: string): (r: string)
    ensures |r| == |text| + (4 - |text| % 4) % 4
    ensures |r| % 4 == 0
    ensures r[..|text|] == text
    ensures forall i :: |text| <= i < |r| ==> r[i] == Pad
  {
    text + seq((4 - |text| % 4) % 4, _ => Pad)
  }

  /** Stripping the padding off an encoding leaves the unpadded encoding. */
  lemma StripPadding(data: seq<byte>, alphabet: Alphabet)
    ensures RStrip(Encode(data, alphabet), Pad) == EncodeUnpadded(data, alphabet)
  {
    var text := EncodeUnpadded(data, alphabet);
    if |text| > 0 {
      assert IsAlphabetChar(text[|text| - 1], alphabet);
    }
    RStripRun(text, Padding(|data|), Pad);
  }

  /** Adding the padding back to the unpadded encoding restores the encoding. */
  lemma RepadUnpadded(data: seq<byte>, alphabet: Alphabet)
    ensures Repad(EncodeUnpadded(data, alphabet)) == Encode(data, alphabet)
  {
    var text := EncodeUnpadded(data, alphabet);
    PaddedLength(|data|);
    var n := (4 - |text| % 4) % 4;
    assert n == |Padding(|data|)|;
    assert seq(n, _ => Pad) == Padding(|data|);
  }
}
