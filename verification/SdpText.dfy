/** The text patterns of an SDP wire: lines and fields, canonical decimals, and hexadecimal pairs. */
module SdpText {
  import opened Results
  import opened Octets

  // ---- splitting and joining ----

  predicate StartsWith(text: string, prefix: string) {
    prefix <= text
  }

  /** The first place where a separator stands. */
  function IndexOf(text: string, separator: string): (r: Option<nat>)
    ensures r.Some? ==> r.value + |separator| <= |text| && text[r.value..r.value + |separator|] == separator
    ensures r.Some? ==> forall i :: 0 <= i < r.value ==> !StartsWith(text[i..], separator)
    ensures r.None? ==> forall i :: 0 <= i < |text| ==> !StartsWith(text[i..], separator)
  {
    if text == [] then (if separator == [] then Some(0) else None)
    else if StartsWith(text, separator) then Some(0)
    else
      assert forall i :: 1 <= i < |text| ==> text[i..] == text[1..][i - 1..];
      match IndexOf(text[1..], separator)
      case None => None
      case Some(i) => Some(i + 1)
  }

  function Split(text: string, separator: string): (r: seq<string>)
    requires separator != []
    ensures |r| >= 1
    decreases |text|
  {
    match IndexOf(text, separator)
    case None => [text]
    case Some(i) => [text[..i]] + Split(text[i + |separator|..], separator)
  }

  function Join(parts: seq<string>, separator: string): string {
    if parts == [] then [] else if |parts| == 1 then parts[0] else parts[0] + separator + Join(parts[1..], separator)
  }

  lemma CutAround(text: string, at: nat, middle: string)
    requires at + |middle| <= |text| && text[at..at + |middle|] == middle
    ensures text == text[..at] + middle + text[at + |middle|..]
  {
  }

  lemma JoinPush(head: string, parts: seq<string>, separator: string)
    requires parts != []
    ensures Join([head] + parts, separator) == head + separator + Join(parts, separator)
  {
    assert ([head] + parts)[1..] == parts;
  }

  lemma {:induction false} JoinUndoesSplit(text: string, separator: string)
    requires separator != []
    ensures Join(Split(text, separator), separator) == text
    decreases |text|
  {
    hide IndexOf, Join;
    var at := IndexOf(text, separator);
    if at.Some? {
      var rest := text[at.value + |separator|..];
      JoinUndoesSplit(rest, separator);
      JoinPush(text[..at.value], Split(rest, separator), separator);
      CutAround(text, at.value, separator);
    } else {
      JoinOne(text, separator);
    }
  }

  lemma JoinOne(text: string, separator: string)
    ensures Join([text], separator) == text
  {
  }

  // ---- decimals ----

  predicate IsDigit(c: char) {
    '0' <= c <= '9'
  }

  /** Zero, or digits that do not start with zero. */
  predicate IsDecimal(text: string) {
    text != [] && (forall c :: c in text ==> IsDigit(c)) && (text[0] == '0' ==> |text| == 1)
  }

  function ToNumber(text: string): nat
    requires forall c :: c in text ==> IsDigit(c)
  {
    if text == [] then 0
    else
      assert text[|text| - 1] in text && IsDigit(text[|text| - 1]);
      ToNumber(text[..|text| - 1]) * 10 + (text[|text| - 1] as int - '0' as int)
  }

  function Decimal(n: nat): string {
    if n < 10 then [(n + '0' as int) as char] else Decimal(n / 10) + [(n % 10 + '0' as int) as char]
  }

  /** A canonical decimal is exactly how its number prints; only "0" is zero. */
  lemma {:induction false} DecimalPrints(text: string)
    requires IsDecimal(text)
    ensures Decimal(ToNumber(text)) == text && (text[0] != '0' ==> ToNumber(text) > 0)
    decreases |text|
  {
    var front, last := text[..|text| - 1], text[|text| - 1];
    assert last in text && IsDigit(last);
    assert text == front + [last];
    if |text| > 1 {
      DecimalPrints(front);
      var n, d := ToNumber(front), last as int - '0' as int;
      assert (n * 10 + d) / 10 == n && (n * 10 + d) % 10 == d;
    } else {
      assert front == [] && ToNumber(front) == 0;
    }
  }

  // ---- hexadecimal ----

  predicate IsHex(c: char, upper: bool) {
    '0' <= c <= '9' || (if upper then 'A' <= c <= 'F' else 'a' <= c <= 'f')
  }

  function HexValue(c: char): (r: nat)
    requires IsHex(c, true) || IsHex(c, false)
    ensures r < 16
  {
    if '0' <= c <= '9' then c as int - '0' as int
    else if 'A' <= c <= 'F' then c as int - 'A' as int + 10
    else c as int - 'a' as int + 10
  }

  function HexDigit(v: nat, upper: bool): (c: char)
    requires v < 16
    ensures IsHex(c, upper)
  {
    if v < 10 then ('0' as int + v) as char
    else if upper then ('A' as int + v - 10) as char
    else ('a' as int + v - 10) as char
  }

  lemma HexDigitBack(c: char, upper: bool)
    requires IsHex(c, upper)
    ensures HexDigit(HexValue(c), upper) == c
  {
  }

  predicate HexText(text: string, upper: bool) {
    |text| % 2 == 0 && forall c :: c in text ==> IsHex(c, upper)
  }

  /** Two digits a byte. */
  function HexBytes(text: string): (r: seq<byte>)
    requires HexText(text, true) || HexText(text, false)
    ensures |r| == |text| / 2
  {
    assert forall i :: 0 <= i < |text| ==> text[i] in text;
    seq(|text| / 2, i requires 0 <= i < |text| / 2 => HexValue(text[2 * i]) * 16 + HexValue(text[2 * i + 1]))
  }

  function ByteText(b: byte, upper: bool): (r: string)
    ensures |r| == 2
  {
    [HexDigit(b / 16, upper), HexDigit(b % 16, upper)]
  }

  function BytesText(bytes: seq<byte>, upper: bool): (r: string)
    ensures |r| == 2 * |bytes|
    ensures forall i :: 0 <= i < |bytes| ==>
      r[2 * i] == ByteText(bytes[i], upper)[0] && r[2 * i + 1] == ByteText(bytes[i], upper)[1]
  {
    if bytes == [] then [] else BytesText(bytes[..|bytes| - 1], upper) + ByteText(bytes[|bytes| - 1], upper)
  }

  lemma PairBack(high: char, low: char, upper: bool)
    requires IsHex(high, upper) && IsHex(low, upper)
    ensures ByteText(HexValue(high) * 16 + HexValue(low), upper) == [high, low]
  {
    HexDigitBack(high, upper);
    HexDigitBack(low, upper);
    assert (HexValue(high) * 16 + HexValue(low)) / 16 == HexValue(high);
  }

  /** Digits written in one case come back from their bytes. */
  lemma HexBack(text: string, upper: bool)
    requires HexText(text, upper)
    ensures BytesText(HexBytes(text), upper) == text
  {
    hide BytesText, ByteText, HexValue;
    var bytes := HexBytes(text);
    var back := BytesText(bytes, upper);
    forall i | 0 <= i < |bytes| ensures back[2 * i] == text[2 * i] && back[2 * i + 1] == text[2 * i + 1] {
      assert text[2 * i] in text && text[2 * i + 1] in text;
      PairBack(text[2 * i], text[2 * i + 1], upper);
    }
    forall k | 0 <= k < |text| ensures back[k] == text[k] {
      assert k == 2 * (k / 2) || k == 2 * (k / 2) + 1;
    }
  }

  function RemoveAll(text: string, dropped: char): (r: string)
    ensures forall c :: c in r ==> c in text && c != dropped
  {
    if text == [] then [] else (if text[0] == dropped then [] else [text[0]]) + RemoveAll(text[1..], dropped)
  }

  lemma {:induction false} RemoveAppend(a: string, b: string, dropped: char)
    ensures RemoveAll(a + b, dropped) == RemoveAll(a, dropped) + RemoveAll(b, dropped)
  {
    if a == [] {
      assert a + b == b;
    } else {
      RemoveAppend(a[1..], b, dropped);
      assert (a + b)[1..] == a[1..] + b;
      assert (a + b)[0] == a[0];
      var kept: string := if a[0] == dropped then [] else [a[0]];
      assert RemoveAll(a + b, dropped) == kept + (RemoveAll(a[1..], dropped) + RemoveAll(b, dropped));
    }
  }

  lemma {:induction false} RemoveNothing(text: string, dropped: char)
    requires dropped !in text
    ensures RemoveAll(text, dropped) == text
  {
    if text != [] {
      assert dropped !in text[1..];
      RemoveNothing(text[1..], dropped);
      assert text == [text[0]] + text[1..];
    }
  }

  lemma RemoveOne(dropped: char)
    ensures RemoveAll([dropped], dropped) == []
  {
    assert [dropped][1..] == [];
  }

  // ---- UUIDs ----

  /** Groups of 8, 4, 4, 4 and 12 lower-case digits between dashes. */
  predicate IsUuid(text: string) {
    && |text| == 36
    && text[8] == '-' && text[13] == '-' && text[18] == '-' && text[23] == '-'
    && HexText(text[..8], false) && HexText(text[9..13], false) && HexText(text[14..18], false)
    && HexText(text[19..23], false) && HexText(text[24..], false)
  }

  function Grouped(hex: string): string
    requires |hex| == 32
  {
    hex[..8] + "-" + hex[8..12] + "-" + hex[12..16] + "-" + hex[16..20] + "-" + hex[20..]
  }

  function Uuid(bytes: seq<byte>): string
    requires |bytes| == 16
  {
    Grouped(BytesText(bytes, false))
  }

  lemma RemoveDash(group: string, rest: string)
    requires HexText(group, false)
    ensures RemoveAll(group + ("-" + rest), '-') == group + RemoveAll(rest, '-')
  {
    assert '-' !in group;
    RemoveNothing(group, '-');
    RemoveAppend(group, "-" + rest, '-');
    RemoveAppend("-", rest, '-');
    RemoveOne('-');
  }

  function Dashless(text: string): string
    requires |text| == 36
  {
    text[..8] + text[9..13] + text[14..18] + text[19..23] + text[24..]
  }

  lemma DashesGo(text: string)
    requires IsUuid(text)
    ensures RemoveAll(text, '-') == Dashless(text) && HexText(Dashless(text), false)
  {
    hide RemoveAll;
    var d := text[24..];
    var c := text[19..23] + ("-" + d);
    var b := text[14..18] + ("-" + c);
    var a := text[9..13] + ("-" + b);
    assert text == text[..8] + ("-" + a);
    RemoveDash(text[..8], a);
    RemoveDash(text[9..13], b);
    RemoveDash(text[14..18], c);
    RemoveDash(text[19..23], d);
    assert '-' !in d;
    RemoveNothing(d, '-');
    assert text[..8] + (text[9..13] + (text[14..18] + (text[19..23] + d))) == Dashless(text);
  }

  lemma GroupedBack(text: string)
    requires IsUuid(text)
    ensures |text| == 36 && |Dashless(text)| == 32 && Grouped(Dashless(text)) == text
  {
    hide HexText;
    var hex := Dashless(text);
    assert hex[..8] == text[..8] && hex[8..12] == text[9..13] && hex[12..16] == text[14..18]
      && hex[16..20] == text[19..23];
    assert hex[20..] == text[24..];
  }

  /** A UUID comes back from its sixteen bytes. */
  lemma UuidBack(text: string)
    requires IsUuid(text)
    ensures HexText(RemoveAll(text, '-'), false) && |RemoveAll(text, '-')| == 32
    ensures Uuid(HexBytes(RemoveAll(text, '-'))) == text
  {
    hide HexBytes, BytesText, HexText, RemoveAll, IsUuid, Dashless, Grouped;
    DashesGo(text);
    GroupedBack(text);
    HexBack(Dashless(text), false);
  }

  // ---- fingerprints ----

  /** Upper-case pairs with colons between them. */
  predicate IsPairs(text: string, count: nat)
    decreases count
  {
    if count == 0 then false
    else
      && |text| == 3 * count - 1 && IsHex(text[0], true) && IsHex(text[1], true)
      && (count > 1 ==> text[2] == ':' && IsPairs(text[3..], count - 1))
  }

  function PairTexts(bytes: seq<byte>): (r: seq<string>)
    ensures |r| == |bytes| && forall i :: 0 <= i < |r| ==> r[i] == ByteText(bytes[i], true)
  {
    seq(|bytes|, i requires 0 <= i < |bytes| => ByteText(bytes[i], true))
  }

  lemma RemoveColon(pair: string, rest: string)
    requires ':' !in pair
    ensures RemoveAll(pair + (":" + rest), ':') == pair + RemoveAll(rest, ':')
  {
    hide RemoveAll;
    RemoveNothing(pair, ':');
    RemoveAppend(pair, ":" + rest, ':');
    RemoveAppend(":", rest, ':');
    RemoveOne(':');
  }

  lemma HexJoin(pair: string, rest: string)
    requires |pair| == 2 && IsHex(pair[0], true) && IsHex(pair[1], true) && HexText(rest, true)
    ensures HexText(pair + rest, true) && (pair + rest)[..2] == pair && (pair + rest)[2..] == rest
  {
  }

  lemma {:induction false} ColonsGo(text: string, count: nat)
    requires IsPairs(text, count)
    ensures HexText(RemoveAll(text, ':'), true) && |RemoveAll(text, ':')| == 2 * count
    ensures RemoveAll(text, ':')[..2] == text[..2]
    ensures count > 1 ==> RemoveAll(text, ':')[2..] == RemoveAll(text[3..], ':')
    decreases count
  {
    hide RemoveAll;
    var pair := text[..2];
    assert ':' !in pair;
    RemoveNothing(pair, ':');
    if count > 1 {
      ColonsGo(text[3..], count - 1);
      assert text == pair + (":" + text[3..]);
      RemoveColon(pair, text[3..]);
      HexJoin(pair, RemoveAll(text[3..], ':'));
    } else {
      assert text == pair;
    }
  }

  lemma HexBytesHead(text: string)
    requires HexText(text, true) && |text| >= 2
    ensures HexText(text[2..], true) && HexBytes(text)[1..] == HexBytes(text[2..])
    ensures ByteText(HexBytes(text)[0], true) == text[..2]
  {
    var rest := text[2..];
    forall c | c in rest ensures IsHex(c, true) {
      assert c in text;
    }
    forall i | 0 <= i < |rest| / 2 ensures HexBytes(text)[1..][i] == HexBytes(rest)[i] {
      assert rest[2 * i] == text[2 * (i + 1)] && rest[2 * i + 1] == text[2 * (i + 1) + 1];
    }
    assert text[0] in text && text[1] in text;
    HexDigitBack(text[0], true);
    HexDigitBack(text[1], true);
    var high, low := HexValue(text[0]), HexValue(text[1]);
    assert HexBytes(text)[0] == HexValue(text[2 * 0]) * 16 + HexValue(text[2 * 0 + 1]);
    assert (high * 16 + low) / 16 == high && (high * 16 + low) % 16 == low;
  }

  /** Colon-separated pairs come back from their bytes. */
  lemma {:induction false} PairsBack(text: string, count: nat)
    requires IsPairs(text, count)
    ensures HexText(RemoveAll(text, ':'), true) && |RemoveAll(text, ':')| == 2 * count
    ensures Join(PairTexts(HexBytes(RemoveAll(text, ':'))), ":") == text
    decreases count
  {
    hide HexBytes, HexText, ByteText;
    ColonsGo(text, count);
    var hex := RemoveAll(text, ':');
    HexBytesHead(hex);
    var bytes := HexBytes(hex);
    var pairs := PairTexts(bytes);
    if count > 1 {
      PairsBack(text[3..], count - 1);
      assert pairs[1..] == PairTexts(bytes[1..]);
      assert text == text[..2] + ":" + text[3..];
    } else {
      assert text[..2] == text;
    }
  }
}
