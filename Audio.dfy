/** The audio payload encoder of server.js `handleAudioData`:
    `Buffer.from(new Int16Array(audioData).buffer).toString('base64')`.
    Samples are stored as 16-bit two's complement, laid out little-endian
    (the byte order of the hosts Node runs on), and the bytes are written in
    the padded base64 of section 4 of RFC 4648. The decoders below exist only
    to state what the encoders preserve. */
module Audio {

  /** An octet of a Node Buffer. */
  type Byte = b: int | 0 <= b < 256

  /** A value an Int16Array element can hold. */
  type Int16 = x: int | -32768 <= x <= 32767

  /** ECMAScript ToInt16 on integral numbers: the value an Int16Array
      element takes when an integer is stored in it. The result differs from
      the input by a multiple of 2^16, and in-range values are kept. */
  function ToInt16(x: int): (r: Int16)
    ensures (x - r) % 65536 == 0
    ensures -32768 <= x <= 32767 ==> r == x
  {
    var u := x % 65536;
    if u >= 32768 then u - 65536 else u
  }

  /** `new Int16Array(samples)`, element by element. */
  function StoreInt16(samples: seq<int>): (r: seq<Int16>)
    ensures |r| == |samples|
    ensures forall i | 0 <= i < |samples| :: r[i] == ToInt16(samples[i])
  {
    seq(|samples|, i requires 0 <= i < |samples| => ToInt16(samples[i]))
  }

  /** The bytes of the Int16Array's buffer: two per sample, low byte first.
      Int16BytesAt states what each pair holds. */
  function Int16Bytes(samples: seq<int>): (r: seq<Byte>)
    ensures |r| == 2 * |samples|
  {
    if samples == [] then []
    else
      var u := samples[0] % 65536;
      [u % 256, u / 256] + Int16Bytes(samples[1..])
  }

  /** The two bytes of sample i read, low byte first, as its value modulo
      2^16: the sample's 16-bit two's complement pattern. */
  lemma {:induction false} Int16BytesAt(samples: seq<int>, i: nat)
    requires i < |samples|
    ensures var r := Int16Bytes(samples);
      r[2 * i] as int + 256 * r[2 * i + 1] as int == samples[i] % 65536
  {
    if i > 0 {
      Int16BytesAt(samples[1..], i - 1);
      var r := Int16Bytes(samples);
      assert r[2 * i] == Int16Bytes(samples[1..])[2 * (i - 1)];
      assert r[2 * i + 1] == Int16Bytes(samples[1..])[2 * (i - 1) + 1];
    }
  }

  /** Reads a little-endian buffer back as signed 16-bit samples. */
  function ReadInt16(bytes: seq<Byte>): (r: seq<Int16>)
    ensures |r| == |bytes| / 2
  {
    if |bytes| < 2 then []
    else
      var u: int := bytes[0] as int + 256 * bytes[1] as int;
      [if u >= 32768 then u - 65536 else u] + ReadInt16(bytes[2..])
  }

  /** Reading the buffer back gives the samples as the Int16Array stored
      them. */
  lemma {:induction false} ReadInt16Bytes(samples: seq<int>)
    ensures ReadInt16(Int16Bytes(samples)) == StoreInt16(samples)
  {
    if samples != [] {
      var b := Int16Bytes(samples);
      var u := samples[0] % 65536;
      assert b[0] == u % 256 && b[1] == u / 256;
      assert b[2..] == Int16Bytes(samples[1..]);
      ReadInt16Bytes(samples[1..]);
      assert StoreInt16(samples) == [ToInt16(samples[0])] + StoreInt16(samples[1..]);
    }
  }

  /** The base64 alphabet of Table 1 in section 4 of RFC 4648:
      'A'..'Z' for 0..25, 'a'..'z' for 26..51, '0'..'9' for 52..61, then
      '+' and '/'. */
  function Base64Digit(v: int): (c: char)
    requires 0 <= v < 64
    ensures c != '=' && DigitValue(c) == Some(v)
  {
    if v < 26 then (65 + v) as char
    else if v < 52 then (97 + v - 26) as char
    else if v < 62 then (48 + v - 52) as char
    else if v == 62 then '+'
    else '/'
  }

  datatype Option<T> = None | Some(value: T)

  /** The value of a base64 alphabet character; None for any other
      character, the pad character '=' included. */
  function DigitValue(c: char): (r: Option<int>)
    ensures r.Some? ==> 0 <= r.value < 64
    ensures c == '=' ==> r == None
  {
    if 'A' <= c <= 'Z' then Some(c as int - 65)
    else if 'a' <= c <= 'z' then Some(c as int - 97 + 26)
    else if '0' <= c <= '9' then Some(c as int - 48 + 52)
    else if c == '+' then Some(62)
    else if c == '/' then Some(63)
    else None
  }

  predicate IsDigit(c: char)
  {
    DigitValue(c).Some?
  }

  /** Section 4 of RFC 4648 for a full 24-bit group: four digits of six
      bits each, most significant first. */
  function FullQuad(b0: Byte, b1: Byte, b2: Byte): (q: string)
    ensures |q| == 4 && forall i | 0 <= i < 4 :: IsDigit(q[i])
  {
    [Base64Digit(b0 / 4), Base64Digit((b0 % 4) * 16 + b1 / 16),
     Base64Digit((b1 % 16) * 4 + b2 / 64), Base64Digit(b2 % 64)]
  }

  /** A final group of two bytes: three digits, the last padded with zero
      bits, and one '='. */
  function TwoByteQuad(b0: Byte, b1: Byte): (q: string)
    ensures |q| == 4 && IsDigit(q[0]) && IsDigit(q[1]) && IsDigit(q[2]) && q[3] == '='
  {
    [Base64Digit(b0 / 4), Base64Digit((b0 % 4) * 16 + b1 / 16), Base64Digit((b1 % 16) * 4), '=']
  }

  /** A final group of one byte: two digits, the last padded with zero bits,
      and "==". */
  function OneByteQuad(b0: Byte): (q: string)
    ensures |q| == 4 && IsDigit(q[0]) && IsDigit(q[1]) && q[2] == '=' && q[3] == '='
  {
    [Base64Digit(b0 / 4), Base64Digit((b0 % 4) * 16), '=', '=']
  }

  /** Padded base64: each group of three bytes becomes four digits, and a
      final group of one or two bytes is padded to four characters with '='.
      The length is 4 * ceil(n / 3), and only the last two characters may be
      padding. */
  function Encode(b: seq<Byte>): (r: string)
    ensures |r| == 4 * ((|b| + 2) / 3)
    decreases |b|
  {
    if |b| == 0 then ""
    else if |b| == 1 then OneByteQuad(b[0])
    else if |b| == 2 then TwoByteQuad(b[0], b[1])
    else
      FullQuad(b[0], b[1], b[2]) + Encode(b[3..])
  }

  /** Every character of an encoding is a base64 digit except for at most
      two '=' at its end. */
  lemma {:induction false} EncodeAlphabet(b: seq<Byte>, i: nat)
    requires i < |Encode(b)|
    ensures var r := Encode(b); IsDigit(r[i]) || (r[i] == '=' && |r| - 2 <= i)
    decreases |b|
  {
    if |b| >= 3 && i >= 4 {
      EncodeAlphabet(b[3..], i - 4);
      assert Encode(b)[i] == Encode(b[3..])[i - 4];
    }
  }

  /** Decodes one group of four characters; padding is accepted only in the
      last group. */
  function DecodeQuad(q: string, last: bool): (r: Option<seq<Byte>>)
    requires |q| == 4
  {
    match (DigitValue(q[0]), DigitValue(q[1]), DigitValue(q[2]), DigitValue(q[3]))
    case (Some(v0), Some(v1), Some(v2), Some(v3)) =>
      Some([v0 * 4 + v1 / 16, (v1 % 16) * 16 + v2 / 4, (v2 % 4) * 64 + v3])
    case (Some(v0), Some(v1), Some(v2), None) =>
      if last && q[3] == '=' then Some([v0 * 4 + v1 / 16, (v1 % 16) * 16 + v2 / 4]) else None
    case (Some(v0), Some(v1), None, None) =>
      if last && q[2] == '=' && q[3] == '=' then Some([v0 * 4 + v1 / 16]) else None
    case _ => None
  }

  /** Padded base64 decoding; None for a string that is not padded base64. */
  function Decode(s: string): (r: Option<seq<Byte>>)
    decreases |s|
  {
    if |s| == 0 then Some([])
    else if |s| < 4 then None
    else
      match DecodeQuad(s[..4], |s| == 4)
      case None => None
      case Some(front) =>
        match Decode(s[4..])
        case None => None
        case Some(rest) => Some(front + rest)
  }

  /** The three bytes of a full group come back from their four digits. */
  lemma FullQuadRoundTrip(b0: Byte, b1: Byte, b2: Byte, last: bool)
    ensures DecodeQuad(FullQuad(b0, b1, b2), last) == Some([b0, b1, b2])
  {
    var v1 := (b0 % 4) * 16 + b1 / 16;
    var v2 := (b1 % 16) * 4 + b2 / 64;
    assert v1 / 16 == b0 % 4 && v1 % 16 == b1 / 16;
    assert v2 / 4 == b1 % 16 && v2 % 4 == b2 / 64;
  }

  /** A final group of two bytes comes back from its padded quad. */
  lemma TwoByteRoundTrip(b0: Byte, b1: Byte)
    ensures DecodeQuad(TwoByteQuad(b0, b1), true) == Some([b0, b1])
  {
    var v1 := (b0 % 4) * 16 + b1 / 16;
    var v2 := (b1 % 16) * 4;
    assert v1 / 16 == b0 % 4 && v1 % 16 == b1 / 16;
    assert v2 / 4 == b1 % 16;
  }

  /** A final group of one byte comes back from its padded quad. */
  lemma OneByteRoundTrip(b0: Byte)
    ensures DecodeQuad(OneByteQuad(b0), true) == Some([b0])
  {
    assert ((b0 % 4) * 16) / 16 == b0 % 4;
  }

  /** Decoding a string reads its first quad, then the rest. */
  lemma DecodeFirstQuad(q: string, rest: string, front: seq<Byte>, back: seq<Byte>)
    requires |q| == 4
    requires DecodeQuad(q, rest == []) == Some(front) && Decode(rest) == Some(back)
    ensures Decode(q + rest) == Some(front + back)
  {
    assert (q + rest)[..4] == q && (q + rest)[4..] == rest;
  }

  /** Decoding a single quad is decoding it as the last one. */
  lemma DecodeLastQuad(q: string, front: seq<Byte>)
    requires |q| == 4 && DecodeQuad(q, true) == Some(front)
    ensures Decode(q) == Some(front)
  {
    assert q[..4] == q && q[4..] == [];
    assert front + [] == front;
  }

  /** Decoding undoes encoding for a final group of one or two bytes. */
  lemma DecodeEncodeShort(b: seq<Byte>)
    requires 1 <= |b| <= 2
    ensures Decode(Encode(b)) == Some(b)
  {
    if |b| == 1 {
      assert b == [b[0]];
      OneByteRoundTrip(b[0]);
      DecodeLastQuad(OneByteQuad(b[0]), b);
    } else {
      assert b == [b[0], b[1]];
      TwoByteRoundTrip(b[0], b[1]);
      DecodeLastQuad(TwoByteQuad(b[0], b[1]), b);
    }
  }

  /** Decoding undoes encoding, for every byte sequence. */
  lemma {:induction false} DecodeEncode(b: seq<Byte>)
    ensures Decode(Encode(b)) == Some(b)
    decreases |b|
  {
    if |b| >= 3 {
      var quad := FullQuad(b[0], b[1], b[2]);
      var rest := Encode(b[3..]);
      assert Encode(b) == quad + rest;
      FullQuadRoundTrip(b[0], b[1], b[2], rest == []);
      DecodeEncode(b[3..]);
      DecodeFirstQuad(quad, rest, [b[0], b[1], b[2]], b[3..]);
      assert [b[0], b[1], b[2]] + b[3..] == b;
    } else if |b| > 0 {
      DecodeEncodeShort(b);
    }
  }

  /** The `audio` field of an `input_audio_buffer.append` message. */
  function AudioPayload(samples: seq<int>): string
  {
    Encode(Int16Bytes(samples))
  }

  /** n samples take 4 * ceil(2n / 3) characters, every one a digit of the
      alphabet or trailing padding. */
  lemma AudioPayloadShape(samples: seq<int>)
    ensures var r := AudioPayload(samples);
      && |r| == 4 * ((2 * |samples| + 2) / 3)
      && forall i | 0 <= i < |r| :: IsDigit(r[i]) || (r[i] == '=' && |r| - 2 <= i)
  {
    var r := AudioPayload(samples);
    forall i | 0 <= i < |r|
      ensures IsDigit(r[i]) || (r[i] == '=' && |r| - 2 <= i)
    {
      EncodeAlphabet(Int16Bytes(samples), i);
    }
  }

  /** The payload carries exactly the samples as the Int16Array holds them. */
  lemma AudioPayloadRoundTrip(samples: seq<int>)
    ensures Decode(AudioPayload(samples)) == Some(Int16Bytes(samples))
    ensures ReadInt16(Int16Bytes(samples)) == StoreInt16(samples)
  {
    DecodeEncode(Int16Bytes(samples));
    ReadInt16Bytes(samples);
  }
}
