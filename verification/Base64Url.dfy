/** Unpadded base64url (packages/codec/src/canonical.ts; the alphabet of section 5 of RFC 4648). */
module Base64Url {
  import opened Results
  import opened Octets

  /** A UTF-16 code unit. */
  type Unit = x: int | 0 <= x < 65536

  type Text = seq<Unit>

  /** The alphabet: upper case, lower case, digits, minus and underscore. */
  function Digit(v: int): (c: Unit)
    requires 0 <= v < 64
  {
    if v < 26 then 65 + v
    else if v < 52 then 97 + v - 26
    else if v < 62 then 48 + v - 52
    else if v == 62 then 45
    else 95
  }

  function ValueOf(c: Unit): (v: int)
    ensures -1 <= v < 64
  {
    if 65 <= c <= 90 then c - 65 else if 97 <= c <= 122 then c - 97 + 26 else if 48 <= c <= 57 then c - 48 + 52
    else if c == 45 then 62 else if c == 95 then 63 else -1
  }

  lemma DigitValue(v: int)
    requires 0 <= v < 64
    ensures ValueOf(Digit(v)) == v
  {
  }

  /** The digits are those of section 5 of RFC 4648, in its order. */
  lemma StandardAlphabet(v: int)
    requires 0 <= v < 64
    ensures Digit(0) == 'A' as int && Digit(26) == 'a' as int && Digit(52) == '0' as int
    ensures Digit(62) == '-' as int && Digit(63) == '_' as int
    ensures v < 62 && v != 25 && v != 51 && v != 61 ==> Digit(v + 1) == Digit(v) + 1
  {
  }

  /** The byte at a place, or zero past the end. */
  function ByteAt(bytes: seq<byte>, i: nat): (r: int)
    ensures 0 <= r < 256
  {
    if i < |bytes| then bytes[i] else 0
  }

  /** The digits of up to three bytes; missing bytes leave out their digits. */
  function EncodeGroup(bytes: seq<byte>): (r: Text)
    requires 1 <= |bytes| <= 3
    ensures |r| == |bytes| + 1
  {
    var group := ByteAt(bytes, 0) * 65536 + ByteAt(bytes, 1) * 256 + ByteAt(bytes, 2);
    [Digit(group / 262144 % 64), Digit(group / 4096 % 64)]
    + (if |bytes| > 1 then [Digit(group / 64 % 64)] else [])
    + (if |bytes| > 2 then [Digit(group % 64)] else [])
  }

  function Encode(bytes: seq<byte>): Text {
    if bytes == [] then []
    else if |bytes| <= 3 then EncodeGroup(bytes)
    else EncodeGroup(bytes[..3]) + Encode(bytes[3..])
  }

  method ToBase64Url(bytes: seq<byte>) returns (encoded: Text)
    ensures encoded == Encode(bytes)
  {
    hide EncodeGroup;
    encoded := [];
    var index := 0;
    while index < |bytes|
      invariant 0 <= index <= |bytes|
      invariant encoded + Encode(bytes[index..]) == Encode(bytes)
    {
      var rest := bytes[index..];
      if |rest| <= 3 {
        encoded := encoded + EncodeGroup(rest);
        index := |bytes|;
      } else {
        assert rest[..3] == bytes[index..index + 3] && rest[3..] == bytes[index + 3..];
        encoded := encoded + EncodeGroup(bytes[index..index + 3]);
        index := index + 3;
      }
    }
  }

  // ---- decoding ----

  /** The decoder between two characters: bytes written, and the bits not yet written. */
  datatype Decoder = Decoder(bytes: seq<byte>, accumulator: nat, bitCount: nat)

  /** One six-bit value into the accumulator, and one byte out when eight bits are there. */
  function Feed(d: Decoder, value: nat): Decoder {
    var accumulator, bitCount := d.accumulator * 64 + value, d.bitCount + 6;
    if bitCount >= 8 then
      Decoder(d.bytes + [accumulator / TwoTo(bitCount - 8) % 256], accumulator % TwoTo(bitCount - 8), bitCount - 8)
    else Decoder(d.bytes, accumulator, bitCount)
  }

  function FeedAll(d: Decoder, text: Text): Decoder
    requires forall c :: c in text ==> ValueOf(c) >= 0
  {
    if text == [] then d else Feed(FeedAll(d, text[..|text| - 1]), ValueOf(text[|text| - 1]))
  }

  predicate Alphabetic(text: Text) {
    forall c :: c in text ==> ValueOf(c) >= 0
  }

  /** The bytes of a text, when the text is exactly how they encode: no padding, no stray bits. */
  function Decode(text: Text): Result<seq<byte>> {
    if !Alphabetic(text) || |text| % 4 == 1 then Err("base64url")
    else
      var bytes := FeedAll(Decoder([], 0, 0), text).bytes;
      if Encode(bytes) != text then Err("canonical") else Ok(bytes)
  }

  method FromBase64Url(text: Text) returns (r: Result<seq<byte>>)
    ensures r == Decode(text)
  {
    if !Alphabetic(text) || |text| % 4 == 1 {
      return Err("base64url");
    }
    var bytes: seq<byte>, accumulator: nat, bitCount: nat := [], 0, 0;
    for i := 0 to |text|
      invariant FeedAll(Decoder([], 0, 0), text[..i]) == Decoder(bytes, accumulator, bitCount)
    {
      assert text[..i + 1][..i] == text[..i];
      accumulator := accumulator * 64 + ValueOf(text[i]);
      bitCount := bitCount + 6;
      if bitCount >= 8 {
        bitCount := bitCount - 8;
        bytes := bytes + [accumulator / TwoTo(bitCount) % 256];
        accumulator := accumulator % TwoTo(bitCount);
      }
    }
    assert text[..|text|] == text;
    var again := ToBase64Url(bytes);
    if again != text {
      return Err("canonical");
    }
    return Ok(bytes);
  }

  // ---- round trip ----

  lemma {:induction false} FeedAppend(d: Decoder, a: Text, b: Text)
    requires Alphabetic(a) && Alphabetic(b)
    ensures Alphabetic(a + b) && FeedAll(d, a + b) == FeedAll(FeedAll(d, a), b)
  {
    if b == [] {
      assert a + b == a;
    } else {
      FeedAppend(d, a, b[..|b| - 1]);
      assert (a + b)[..|a + b| - 1] == a + b[..|b| - 1];
    }
  }

  lemma PowersOfTwo()
    ensures TwoTo(0) == 1 && TwoTo(2) == 4 && TwoTo(4) == 16
  {
    assert TwoTo(1) == 2 && TwoTo(3) == 8;
  }

  lemma FeedOne(d: Decoder, c: Unit)
    requires ValueOf(c) >= 0
    ensures FeedAll(d, [c]) == Feed(d, ValueOf(c))
  {
    assert [c][..0] == [];
  }

  lemma FeedTwo(d: Decoder, v: int, w: int)
    requires 0 <= v < 64 && 0 <= w < 64
    ensures Alphabetic([Digit(v), Digit(w)]) && FeedAll(d, [Digit(v), Digit(w)]) == Feed(Feed(d, v), w)
  {
    DigitValue(v);
    DigitValue(w);
    FeedOne(d, Digit(v));
    FeedOne(FeedAll(d, [Digit(v)]), Digit(w));
    FeedAppend(d, [Digit(v)], [Digit(w)]);
    assert [Digit(v)] + [Digit(w)] == [Digit(v), Digit(w)];
  }

  lemma FeedLast(d: Decoder, a: Text, v: int)
    requires 0 <= v < 64 && Alphabetic(a)
    ensures Alphabetic(a + [Digit(v)]) && FeedAll(d, a + [Digit(v)]) == Feed(FeedAll(d, a), v)
  {
    DigitValue(v);
    FeedOne(FeedAll(d, a), Digit(v));
    FeedAppend(d, a, [Digit(v)]);
  }

  lemma FirstDigits(a: int, b: int, c: int)
    requires 0 <= a < 256 && 0 <= b < 256 && 0 <= c < 256
    ensures (a * 65536 + b * 256 + c) / 262144 % 64 == a / 4
    ensures (a * 65536 + b * 256 + c) / 4096 % 64 == a % 4 * 16 + b / 16
  {
    var high, low := a / 4, a % 4;
    assert a == 4 * high + low;
    var rest := b * 256 + c;
    assert 0 <= low * 65536 + rest < 262144;
    assert (a * 65536 + rest) / 262144 == high;
    var top, bottom := b / 16, b % 16;
    assert b == 16 * top + bottom;
    assert (a * 65536 + rest) / 4096 == high * 64 + low * 16 + top;
  }

  lemma LastDigits(a: int, b: int, c: int)
    requires 0 <= a < 256 && 0 <= b < 256 && 0 <= c < 256
    ensures (a * 65536 + b * 256 + c) / 64 % 64 == b % 16 * 4 + c / 64
    ensures (a * 65536 + b * 256 + c) % 64 == c % 64
  {
    var top, bottom, high, low := b / 16, b % 16, c / 64, c % 64;
    assert b == 16 * top + bottom && c == 64 * high + low;
    assert (a * 65536 + b * 256 + c) / 64 == (a * 16 + top) * 64 + bottom * 4 + high;
    assert a * 65536 + b * 256 + c == (a * 1024 + b * 4 + high) * 64 + low;
  }

  /** The first byte needs two digits, the second three, the third four. */
  lemma GroupDigits(a: int, b: int, c: int)
    requires 0 <= a < 256 && 0 <= b < 256 && 0 <= c < 256
    ensures var g := a * 65536 + b * 256 + c;
      var v0, v1, v2, v3 := g / 262144 % 64, g / 4096 % 64, g / 64 % 64, g % 64;
      && (v0 * 64 + v1) / 16 == a && (v0 * 64 + v1) % 16 == b / 16
      && (b / 16 * 64 + v2) / 4 == b / 16 * 16 + b % 16 && (b / 16 * 64 + v2) % 4 == c / 64
      && c / 64 * 64 + v3 == c
  {
    FirstDigits(a, b, c);
    LastDigits(a, b, c);
  }

  lemma FirstByte(out: seq<byte>, v0: nat, v1: nat, a: byte, rest: nat)
    requires (v0 * 64 + v1) / 16 == a && (v0 * 64 + v1) % 16 == rest
    ensures Feed(Feed(Decoder(out, 0, 0), v0), v1) == Decoder(out + [a], rest, 4)
  {
    PowersOfTwo();
  }

  lemma SecondByte(out: seq<byte>, accumulator: nat, v2: nat, b: byte, rest: nat)
    requires (accumulator * 64 + v2) / 4 == b && (accumulator * 64 + v2) % 4 == rest
    ensures Feed(Decoder(out, accumulator, 4), v2) == Decoder(out + [b], rest, 2)
  {
    PowersOfTwo();
  }

  lemma ThirdByte(out: seq<byte>, accumulator: nat, v3: nat, c: byte)
    requires accumulator * 64 + v3 == c
    ensures Feed(Decoder(out, accumulator, 2), v3) == Decoder(out + [c], 0, 0)
  {
    PowersOfTwo();
  }

  /** Feeding the four digits of a group, one byte coming out with each of the last three. */
  lemma DigitsDecode(out: seq<byte>, a: byte, b: byte, c: byte)
    ensures var g := (a as int) * 65536 + (b as int) * 256 + c;
      var d := Feed(Feed(Decoder(out, 0, 0), g / 262144 % 64), g / 4096 % 64);
      var e := Feed(d, g / 64 % 64);
      d == Decoder(out + [a], (b as int) / 16, 4) && e == Decoder(out + [a] + [b], (c as int) / 64, 2)
      && Feed(e, g % 64) == Decoder(out + [a] + [b] + [c], 0, 0)
  {
    hide Feed;
    GroupDigits(a, b, c);
    var g := (a as int) * 65536 + (b as int) * 256 + c;
    FirstByte(out, g / 262144 % 64, g / 4096 % 64, a, (b as int) / 16);
    SecondByte(out + [a], (b as int) / 16, g / 64 % 64, b, (c as int) / 64);
    ThirdByte(out + [a] + [b], (c as int) / 64, g % 64, c);
  }

  lemma GroupDecodes(out: seq<byte>, bytes: seq<byte>)
    requires 1 <= |bytes| <= 3
    ensures Alphabetic(EncodeGroup(bytes))
    ensures var d := FeedAll(Decoder(out, 0, 0), EncodeGroup(bytes));
      d.bytes == out + bytes && (|bytes| == 3 ==> d == Decoder(out + bytes, 0, 0))
  {
    hide FeedAll, Digit, ValueOf, Feed;
    var a: byte, b: byte, c: byte := ByteAt(bytes, 0), ByteAt(bytes, 1), ByteAt(bytes, 2);
    var g := (a as int) * 65536 + (b as int) * 256 + c;
    DigitsDecode(out, a, b, c);
    var v0, v1, v2, v3 := g / 262144 % 64, g / 4096 % 64, g / 64 % 64, g % 64;
    var start := Decoder(out, 0, 0);
    FeedTwo(start, v0, v1);
    FeedLast(start, [Digit(v0), Digit(v1)], v2);
    FeedLast(start, [Digit(v0), Digit(v1)] + [Digit(v2)], v3);
    if |bytes| == 1 {
      assert EncodeGroup(bytes) == [Digit(v0), Digit(v1)] && out + bytes == out + [a];
    } else if |bytes| == 2 {
      assert EncodeGroup(bytes) == [Digit(v0), Digit(v1)] + [Digit(v2)] && out + bytes == out + [a] + [b];
    } else {
      assert EncodeGroup(bytes) == [Digit(v0), Digit(v1)] + [Digit(v2)] + [Digit(v3)]
        && out + bytes == out + [a] + [b] + [c];
    }
  }

  lemma {:induction false} EncodedDecodes(out: seq<byte>, bytes: seq<byte>)
    ensures Alphabetic(Encode(bytes)) && |Encode(bytes)| % 4 != 1
    ensures FeedAll(Decoder(out, 0, 0), Encode(bytes)).bytes == out + bytes
    decreases |bytes|
  {
    hide EncodeGroup, FeedAll, ValueOf;
    if bytes == [] {
      FeedNone(Decoder(out, 0, 0));
      assert out + bytes == out;
    } else if |bytes| <= 3 {
      GroupDecodes(out, bytes);
    } else {
      GroupDecodes(out, bytes[..3]);
      EncodedDecodes(out + bytes[..3], bytes[3..]);
      FeedAppend(Decoder(out, 0, 0), EncodeGroup(bytes[..3]), Encode(bytes[3..]));
      assert out + bytes[..3] + bytes[3..] == out + bytes;
    }
  }

  lemma FeedNone(d: Decoder)
    ensures FeedAll(d, []) == d
  {
  }

  /** Decoding undoes encoding for all bytes, and accepts nothing but encodings. */
  lemma DecodeUndoesEncode(bytes: seq<byte>, text: Text)
    ensures Decode(Encode(bytes)) == Ok(bytes)
    ensures Decode(text).Ok? ==> Encode(Decode(text).value) == text
  {
    EncodedDecodes([], bytes);
    assert [] + bytes == bytes;
  }
}
