/**
 * Text as the platform's encoder writes it and its fatal decoder reads it: UTF-8 without overlong forms or
 * surrogates, and a decoder that drops one leading byte order mark.
 */
module Utf8 {
  import opened Results
  import opened Octets

  const BYTE_ORDER_MARK: char := '\U{FEFF}'

  /** The bytes of one Unicode scalar value. */
  function One(letter: char): (r: seq<byte>)
    ensures 1 <= |r| <= 4
  {
    var c := letter as int;
    if c < 0x80 then [c]
    else if c < 0x800 then [0xC0 + c / 64, 0x80 + c % 64]
    else if c < 0x10000 then [0xE0 + c / 4096, 0x80 + c / 64 % 64, 0x80 + c % 64]
    else [0xF0 + c / 262144, 0x80 + c / 4096 % 64, 0x80 + c / 64 % 64, 0x80 + c % 64]
  }

  function Encode(text: string): (r: seq<byte>)
    ensures |text| <= |r|
  {
    if text == [] then [] else One(text[0]) + Encode(text[1..])
  }

  predicate Continues(bytes: seq<byte>, n: nat) {
    n < |bytes| && forall i :: 1 <= i <= n ==> 0x80 <= bytes[i] < 0xC0
  }

  function Tail(bytes: seq<byte>, i: nat): int
    requires i < |bytes|
  {
    bytes[i] as int - 0x80
  }

  datatype Unit = Unit(scalar: char, length: nat)

  function Scaled(c: int, low: nat, length: nat): (r: Option<Unit>)
    ensures r.Some? ==> r.value.scalar as int == c && r.value.length == length
  {
    if low <= c < 0x110000 && !(0xD800 <= c < 0xE000) then Some(Unit(c as char, length)) else None
  }

  /** The scalar a sequence of bytes begins with, if it begins with a well-formed one. */
  function ReadOne(bytes: seq<byte>): (r: Option<Unit>)
    ensures r.Some? ==> 1 <= r.value.length <= |bytes|
  {
    if bytes == [] then None
    else if bytes[0] < 0x80 then Some(Unit(bytes[0] as char, 1))
    else if 0xC0 <= bytes[0] < 0xE0 && Continues(bytes, 1) then Scaled((bytes[0] as int - 0xC0) * 64 + Tail(bytes, 1),
        0x80, 2)
    else if 0xE0 <= bytes[0] < 0xF0 && Continues(bytes, 2) then
      Scaled((bytes[0] as int - 0xE0) * 4096 + Tail(bytes, 1) * 64 + Tail(bytes, 2), 0x800, 3)
    else if 0xF0 <= bytes[0] < 0xF8 && Continues(bytes, 3) then
      Scaled((bytes[0] as int - 0xF0) * 262144 + Tail(bytes, 1) * 4096 + Tail(bytes, 2) * 64 + Tail(bytes, 3), 0x10000,
             4)
    else None
  }

  function DecodeAll(bytes: seq<byte>): Option<string> {
    if bytes == [] then Some([])
    else
      match ReadOne(bytes)
      case None => None
      case Some(unit) =>
        match DecodeAll(bytes[unit.length..])
        case None => None
        case Some(rest) => Some([unit.scalar] + rest)
  }

  predicate Marked(text: string) {
    text != [] && text[0] == BYTE_ORDER_MARK
  }

  function Unmarked(text: string): string {
    if Marked(text) then text[1..] else text
  }

  /** One call of the decoder: fatal on ill-formed bytes, and without the mark a text may start with. */
  function Decode(bytes: seq<byte>): Option<string> {
    match DecodeAll(bytes)
    case None => None
    case Some(text) => Some(Unmarked(text))
  }

  lemma Digits64(c: int)
    requires 0 <= c
    ensures c / 64 % 64 * 64 + c % 64 == c % 4096
    ensures c / 4096 % 64 * 4096 + c % 4096 == c % 262144
  {
    assert c / 64 == c / 4096 * 64 + c / 64 % 64;
    assert c / 4096 == c / 262144 * 64 + c / 4096 % 64;
  }

  lemma ThreeRead(letter: char, rest: seq<byte>)
    requires 0x800 <= letter as int < 0x10000
    ensures ReadOne(One(letter) + rest) == Some(Unit(letter, 3))
  {
    var c := letter as int;
    var bytes := One(letter) + rest;
    Digits64(c);
    assert bytes[0] == 0xE0 + c / 4096 && bytes[1] == 0x80 + c / 64 % 64 && bytes[2] == 0x80 + c % 64;
    assert (bytes[0] as int - 0xE0) * 4096 + Tail(bytes, 1) * 64 + Tail(bytes, 2) == c;
  }

  lemma FourRead(letter: char, rest: seq<byte>)
    requires 0x10000 <= letter as int
    ensures ReadOne(One(letter) + rest) == Some(Unit(letter, 4))
  {
    var c := letter as int;
    var bytes := One(letter) + rest;
    Digits64(c);
    assert bytes[0] == 0xF0 + c / 262144 && bytes[1] == 0x80 + c / 4096 % 64;
    assert bytes[2] == 0x80 + c / 64 % 64 && bytes[3] == 0x80 + c % 64;
    assert (bytes[0] as int - 0xF0) * 262144 + Tail(bytes, 1) * 4096 + Tail(bytes, 2) * 64 + Tail(bytes, 3) == c;
  }

  lemma OneReads(letter: char, rest: seq<byte>)
    ensures ReadOne(One(letter) + rest) == Some(Unit(letter, |One(letter)|))
  {
    if letter as int >= 0x10000 {
      FourRead(letter, rest);
    } else if letter as int >= 0x800 {
      ThreeRead(letter, rest);
    } else {
      assert letter as int >= 0x80 ==> (One(letter) + rest)[1] == One(letter)[1];
    }
  }

  lemma {:induction false} AllReads(text: string)
    ensures DecodeAll(Encode(text)) == Some(text)
  {
    if text != [] {
      var head, rest := One(text[0]), Encode(text[1..]);
      OneReads(text[0], rest);
      assert Encode(text) == head + rest;
      assert (head + rest)[|head|..] == rest;
      assert text == [text[0]] + text[1..];
      AllReads(text[1..]);
    }
  }

  /** Decoding what was encoded gives the text back, but for a mark at its start. */
  lemma DecodeUndoes(text: string)
    ensures Decode(Encode(text)) == Some(Unmarked(text))
  {
    AllReads(text);
  }

  lemma {:induction false} EncodeAppend(a: string, b: string)
    ensures Encode(a + b) == Encode(a) + Encode(b)
  {
    hide One;
    if a == [] {
      assert a + b == b;
    } else {
      EncodeAppend(a[1..], b);
      assert (a + b)[1..] == a[1..] + b;
      assert Encode(a + b) == One(a[0]) + Encode(a[1..] + b);
    }
  }

  predicate Ascii(text: string) {
    forall c :: c in text ==> c < '\U{80}'
  }

  /** Each character below 128 is one byte. */
  lemma {:induction false} AsciiLength(text: string)
    requires Ascii(text)
    ensures |Encode(text)| == |text|
  {
    if text != [] {
      assert forall c :: c in text[1..] ==> c in text;
      AsciiLength(text[1..]);
      assert text[0] in text;
    }
  }
}
