/** Writing JSON without any freedom, and reading it back (packages/codec/src/canonical.ts). */
module CanonicalText {
  import opened Results
  import opened Octets
  import opened Base64Url
  import opened Canonical

  const QUOTE: Unit := 34
  const BACKSLASH: Unit := 92
  const COMMA: Unit := 44
  const COLON: Unit := 58
  const OPEN_LIST: Unit := 91
  const CLOSE_LIST: Unit := 93
  const OPEN_RECORD: Unit := 123
  const CLOSE_RECORD: Unit := 125
  const MINUS: Unit := 45

  const NULL_TEXT: Text := [110, 117, 108, 108]
  const TRUE_TEXT: Text := [116, 114, 117, 101]
  const FALSE_TEXT: Text := [102, 97, 108, 115, 101]

  // ---- strings ----

  function Hex(d: int): (c: Unit)
    requires 0 <= d < 16
  {
    if d < 10 then 48 + d else 97 + d - 10
  }

  function HexValue(c: Unit): (d: int)
    ensures -1 <= d < 16
  {
    if 48 <= c <= 57 then c - 48 else if 97 <= c <= 102 then c - 97 + 10 else -1
  }

  function HexEscape(u: Unit): (r: Text)
    ensures |r| == 6
  {
    [BACKSLASH, 117, Hex(u / 4096), Hex(u / 256 % 16), Hex(u / 16 % 16), Hex(u % 16)]
  }

  predicate IsHigh(u: Unit) {
    0xD800 <= u <= 0xDBFF
  }

  predicate IsLow(u: Unit) {
    0xDC00 <= u <= 0xDFFF
  }

  /** A surrogate without its other half is escaped, as `JSON.stringify` does. */
  predicate Lone(s: Text, i: nat)
    requires i < |s|
  {
    || (IsHigh(s[i]) && !(i + 1 < |s| && IsLow(s[i + 1])))
    || (IsLow(s[i]) && !(i > 0 && IsHigh(s[i - 1])))
  }

  function ShortEscape(u: Unit): Option<Unit> {
    if u == 34 then Some(34) else if u == 92 then Some(92) else if u == 8 then Some(98) else if u == 12 then Some(102)
    else if u == 10 then Some(110) else if u == 13 then Some(114) else if u == 9 then Some(116) else None
  }

  function ShortUnescape(c: Unit): Option<Unit> {
    if c == 34 then Some(34) else if c == 92 then Some(92) else if c == 98 then Some(8) else if c == 102 then Some(12)
    else if c == 110 then Some(10) else if c == 114 then Some(13) else if c == 116 then Some(9) else None
  }

  function EscapeAt(s: Text, i: nat): (r: Text)
    requires i < |s|
    ensures |r| >= 1
  {
    match ShortEscape(s[i])
    case Some(c) => [BACKSLASH, c]
    case None => if s[i] < 32 || Lone(s, i) then HexEscape(s[i]) else [s[i]]
  }

  function EscapeFrom(s: Text, i: nat): Text
    requires i <= |s|
    decreases |s| - i
  {
    if i == |s| then [] else EscapeAt(s, i) + EscapeFrom(s, i + 1)
  }

  function Quoted(s: Text): Text {
    [QUOTE] + EscapeFrom(s, 0) + [QUOTE]
  }

  datatype Read<T> = Got(value: T, rest: Text) | Fail

  datatype ReadOne = ReadOne(unit: Unit, length: nat)

  /** One code unit inside a string, escaped or plain. */
  function ReadUnit(text: Text): (r: Option<ReadOne>)
    ensures r.Some? ==> 1 <= r.value.length <= |text|
  {
    if text == [] then None
    else if text[0] != BACKSLASH then (if text[0] >= 32 && text[0] != QUOTE then Some(ReadOne(text[0], 1)) else None)
    else if |text| < 2 then None
    else if text[1] == 117 then
      (if |text| < 6 || HexValue(text[2]) < 0 || HexValue(text[3]) < 0 || HexValue(text[4]) < 0
       || HexValue(text[5]) < 0 then None
       else Some(ReadOne(HexValue(text[2]) * 4096 + HexValue(text[3]) * 256 + HexValue(text[4]) * 16
                         + HexValue(text[5]), 6)))
    else
      match ShortUnescape(text[1])
      case Some(u) => Some(ReadOne(u, 2))
      case None => None
  }

  lemma UnitReads(s: Text, i: nat, rest: Text)
    requires i < |s|
    ensures ReadUnit(EscapeAt(s, i) + rest) == Some(ReadOne(s[i], |EscapeAt(s, i)|))
  {
    var u := s[i];
    var text := EscapeAt(s, i) + rest;
    if ShortEscape(u).None? && (u < 32 || Lone(s, i)) {
      HexRoundTrip(u);
      assert text[0] == BACKSLASH && text[1] == 117 && text[2] == Hex(u / 4096) && text[3] == Hex(u / 256 % 16)
        && text[4] == Hex(u / 16 % 16) && text[5] == Hex(u % 16);
    }
  }

  lemma HexBack(d: int)
    requires 0 <= d < 16
    ensures HexValue(Hex(d)) == d
  {
  }

  lemma HexDigits(u: int)
    requires 0 <= u < 65536
    ensures u / 4096 * 4096 + u / 256 % 16 * 256 + u / 16 % 16 * 16 + u % 16 == u && 0 <= u / 4096 < 16
  {
    assert u / 16 == (u / 256) * 16 + u / 16 % 16;
    assert u / 256 == (u / 4096) * 16 + u / 256 % 16;
  }

  lemma HexRoundTrip(u: Unit)
    ensures HexValue(Hex(u / 4096)) * 4096 + HexValue(Hex(u / 256 % 16)) * 256 + HexValue(Hex(u / 16 % 16)) * 16
      + HexValue(Hex(u % 16)) == u
  {
    hide Hex, HexValue;
    HexDigits(u);
    HexBack(u / 4096);
    HexBack(u / 256 % 16);
    HexBack(u / 16 % 16);
    HexBack(u % 16);
  }

  /** A string body up to its closing quote. */
  function ReadString(text: Text): (r: Read<Text>)
    ensures r.Got? ==> |r.rest| < |text|
    decreases |text|
  {
    if text == [] then Fail
    else if text[0] == QUOTE then Got([], text[1..])
    else
      match ReadUnit(text)
      case None => Fail
      case Some(one) =>
        match ReadString(text[one.length..])
        case Got(s, rest) => Got([one.unit] + s, rest)
        case Fail => Fail
  }

  lemma EscapeStep(s: Text, i: nat, rest: Text)
    requires i < |s|
    ensures var after := EscapeFrom(s, i + 1) + [QUOTE] + rest;
      var text := EscapeFrom(s, i) + [QUOTE] + rest;
      text == EscapeAt(s, i) + after && text[|EscapeAt(s, i)|..] == after
  {
    hide EscapeAt;
  }

  lemma {:induction false} StringReads(s: Text, i: nat, rest: Text)
    requires i <= |s|
    ensures ReadString(EscapeFrom(s, i) + [QUOTE] + rest) == Got(s[i..], rest)
    decreases |s| - i
  {
    hide ReadString, ReadUnit, EscapeAt;
    if i < |s| {
      var after := EscapeFrom(s, i + 1) + [QUOTE] + rest;
      EscapeStep(s, i, rest);
      UnitReads(s, i, after);
      EscapeStarts(s, i);
      StringReads(s, i + 1, rest);
      assert s[i..] == [s[i]] + s[i + 1..];
      OneMoreRead(EscapeFrom(s, i) + [QUOTE] + rest, s[i], |EscapeAt(s, i)|, s[i + 1..], rest);
    } else {
      assert EscapeFrom(s, i) + [QUOTE] + rest == [QUOTE] + rest;
      assert s[i..] == [];
      QuoteReads(rest);
    }
  }

  lemma OneMoreRead(text: Text, unit: Unit, length: nat, tail: Text, rest: Text)
    requires text != [] && text[0] != QUOTE && ReadUnit(text) == Some(ReadOne(unit, length)) && length <= |text|
    requires ReadString(text[length..]) == Got(tail, rest)
    ensures ReadString(text) == Got([unit] + tail, rest)
  {
    hide ReadUnit;
  }

  lemma QuoteReads(rest: Text)
    ensures ReadString([QUOTE] + rest) == Got([], rest)
  {
    assert ([QUOTE] + rest)[1..] == rest;
  }

  lemma EscapeStarts(s: Text, i: nat)
    requires i < |s|
    ensures EscapeAt(s, i)[0] != QUOTE
  {
  }

  // ---- numbers ----

  /** How the platform writes an integer, and what it reads in a run of number units. */
  datatype Numbers = Numbers(show: int -> Text, read: Text -> Option<int>)

  predicate IsDigit(c: Unit) {
    48 <= c <= 57
  }

  /** A unit that can occur in a JSON number: a digit, a sign, a point or an exponent mark. */
  predicate NumberUnit(c: Unit) {
    IsDigit(c) || c == MINUS || c == 43 || c == 46 || c == 69 || c == 101
  }

  predicate NumberShaped(text: Text) {
    text != [] && (IsDigit(text[0]) || text[0] == MINUS) && forall c :: c in text ==> NumberUnit(c)
  }

  /** What the language promises: the text of a double is a JSON number, and reads back as that double. */
  ghost predicate Faithful(nums: Numbers) {
    forall n: int {:trigger nums.show(n)} :: Double(n) ==>
      NumberShaped(nums.show(n)) && nums.read(nums.show(n)) == Some(n)
  }

  function NumberRun(text: Text): (n: nat)
    ensures n <= |text|
  {
    if text == [] || !NumberUnit(text[0]) then 0 else 1 + NumberRun(text[1..])
  }

  predicate NumberEnds(rest: Text) {
    rest == [] || !NumberUnit(rest[0])
  }

  lemma {:induction false} RunEnds(digits: Text, rest: Text)
    requires (forall c :: c in digits ==> NumberUnit(c)) && NumberEnds(rest)
    ensures NumberRun(digits + rest) == |digits|
  {
    if digits == [] {
      assert digits + rest == rest;
    } else {
      assert (digits + rest)[1..] == digits[1..] + rest;
      RunEnds(digits[1..], rest);
    }
  }

  function ReadNumber(text: Text, nums: Numbers): (r: Read<int>)
    ensures r.Got? ==> |r.rest| < |text|
  {
    var n := NumberRun(text);
    if n == 0 then Fail
    else
      match nums.read(text[..n])
      case Some(value) => Got(value, text[n..])
      case None => Fail
  }

  lemma NumberReads(n: int, rest: Text, nums: Numbers)
    requires Faithful(nums) && Double(n) && NumberEnds(rest)
    ensures ReadNumber(nums.show(n) + rest, nums) == Got(n, rest)
  {
    hide NumberRun, Double;
    var shown := nums.show(n);
    assert NumberShaped(shown);
    RunEnds(shown, rest);
    assert (shown + rest)[..|shown|] == shown && (shown + rest)[|shown|..] == rest;
  }

  // Up to two to the 53 the platform writes every decimal digit. Digits for every integer are one faithful way.

  function Decimal(n: nat): (r: Text)
    ensures |r| >= 1
  {
    if n < 10 then [48 + n] else Decimal(n / 10) + [48 + n % 10]
  }

  function NumberText(n: int): Text {
    if n < 0 then [MINUS] + Decimal(-n) else Decimal(n)
  }

  function FromDigits(digits: Text): int {
    if digits == [] then 0 else FromDigits(digits[..|digits| - 1]) * 10 + (digits[|digits| - 1] as int - 48)
  }

  function TextNumber(text: Text): Option<int> {
    if text == [] then None else if text[0] == MINUS then Some(-FromDigits(text[1..])) else Some(FromDigits(text))
  }

  const DIGITS := Numbers(NumberText, TextNumber)

  lemma {:induction false} DecimalDigits(n: nat)
    ensures (forall c :: c in Decimal(n) ==> IsDigit(c)) && FromDigits(Decimal(n)) == n
  {
    if n < 10 {
      assert Decimal(n)[..0] == [];
    } else {
      DecimalDigits(n / 10);
      assert Decimal(n)[..|Decimal(n)| - 1] == Decimal(n / 10);
    }
  }

  lemma DigitsAreFaithful()
    ensures Faithful(DIGITS)
  {
    hide Decimal, FromDigits, Double;
    forall n: int ensures NumberShaped(NumberText(n)) && TextNumber(NumberText(n)) == Some(n) {
      DecimalDigits(if n < 0 then -n else n);
      var digits := Decimal(if n < 0 then -n else n);
      assert digits[0] in digits;
      assert n < 0 ==> NumberText(n)[1..] == digits;
    }
  }

  // ---- whole values ----

  /** Every number in the value is a double. */
  predicate Fits(j: Json) {
    match j
    case JNum(n) => Double(n)
    case JArr(items) => forall i :: 0 <= i < |items| ==> Fits(items[i])
    case JObj(members) => forall i :: 0 <= i < |members| ==> Fits(members[i].value)
    case _ => true
  }

  function PrintItems(nums: Numbers, items: seq<Json>): Text
    requires items != []
    decreases items
  {
    Print(nums, items[0]) + if |items| == 1 then [] else [COMMA] + PrintItems(nums, items[1..])
  }

  function PrintMembers(nums: Numbers, members: seq<Member>): Text
    requires members != []
    decreases members
  {
    Quoted(members[0].key) + [COLON] + Print(nums, members[0].value)
      + (if |members| == 1 then [] else [COMMA] + PrintMembers(nums, members[1..]))
  }

  function Print(nums: Numbers, j: Json): Text
    decreases j
  {
    match j
    case JNull => NULL_TEXT
    case JBool(b) => if b then TRUE_TEXT else FALSE_TEXT
    case JNum(n) => nums.show(n)
    case JStr(s) => Quoted(s)
    case JArr(items) => [OPEN_LIST] + (if items == [] then [] else PrintItems(nums, items)) + [CLOSE_LIST]
    case JObj(members) => [OPEN_RECORD] + (if members == [] then [] else PrintMembers(nums, members)) + [CLOSE_RECORD]
  }

  function ReadLiteral(text: Text, literal: Text, value: Json): (r: Read<Json>)
    requires literal != []
    ensures r.Got? ==> |r.rest| < |text|
  {
    if literal <= text then Got(value, text[|literal|..]) else Fail
  }

  /** One JSON value at the start of a text, written without blanks. */
  function ReadValue(nums: Numbers, text: Text): (r: Read<Json>)
    ensures r.Got? ==> |r.rest| < |text|
    decreases |text|, 0
  {
    if text == [] then Fail
    else if text[0] == 110 then ReadLiteral(text, NULL_TEXT, JNull)
    else if text[0] == 116 then ReadLiteral(text, TRUE_TEXT, JBool(true))
    else if text[0] == 102 then ReadLiteral(text, FALSE_TEXT, JBool(false))
    else if text[0] == QUOTE then
      (match ReadString(text[1..])
       case Got(s, rest) => Got(JStr(s), rest)
       case Fail => Fail)
    else if text[0] == OPEN_LIST then
      if |text| > 1 && text[1] == CLOSE_LIST then Got(JArr([]), text[2..])
      else
        (match ReadItems(nums, text[1..])
         case Got(items, rest) => Got(JArr(items), rest)
         case Fail => Fail)
    else if text[0] == OPEN_RECORD then
      if |text| > 1 && text[1] == CLOSE_RECORD then Got(JObj([]), text[2..])
      else
        (match ReadMembers(nums, text[1..])
         case Got(members, rest) => Got(JObj(members), rest)
         case Fail => Fail)
    else
      match ReadNumber(text, nums)
      case Got(n, rest) => Got(JNum(n), rest)
      case Fail => Fail
  }

  function ReadItems(nums: Numbers, text: Text): (r: Read<seq<Json>>)
    ensures r.Got? ==> |r.rest| < |text|
    decreases |text|, 1
  {
    match ReadValue(nums, text)
    case Fail => Fail
    case Got(first, rest) =>
      if rest == [] then Fail
      else if rest[0] == CLOSE_LIST then Got([first], rest[1..])
      else if rest[0] != COMMA then Fail
      else
        match ReadItems(nums, rest[1..])
        case Got(items, end) => Got([first] + items, end)
        case Fail => Fail
  }

  function ReadMembers(nums: Numbers, text: Text): (r: Read<seq<Member>>)
    ensures r.Got? ==> |r.rest| < |text|
    decreases |text|, 1
  {
    if text == [] || text[0] != QUOTE then Fail
    else
      match ReadString(text[1..])
      case Fail => Fail
      case Got(key, colon) =>
        if colon == [] || colon[0] != COLON then Fail
        else
          match ReadValue(nums, colon[1..])
          case Fail => Fail
          case Got(value, rest) =>
            if rest == [] then Fail
            else if rest[0] == CLOSE_RECORD then Got([Member(key, value)], rest[1..])
            else if rest[0] != COMMA then Fail
            else
              match ReadMembers(nums, rest[1..])
              case Got(members, end) => Got([Member(key, value)] + members, end)
              case Fail => Fail
  }

  function FirstUnit(nums: Numbers, j: Json): Unit
    requires j.JNum? ==> nums.show(j.number) != []
  {
    match j
    case JNull => 110
    case JBool(b) => if b then 116 else 102
    case JNum(n) => nums.show(n)[0]
    case JStr(s) => QUOTE
    case JArr(items) => OPEN_LIST
    case JObj(members) => OPEN_RECORD
  }

  /** A value starts with none of the closing marks. */
  lemma PrintStarts(nums: Numbers, j: Json)
    requires Faithful(nums) && Fits(j)
    ensures j.JNum? ==> nums.show(j.number) != []
    ensures Print(nums, j) != [] && Print(nums, j)[0] == FirstUnit(nums, j)
    ensures FirstUnit(nums, j) != CLOSE_LIST && FirstUnit(nums, j) != CLOSE_RECORD
  {
    hide Double;
    if j.JNum? {
      assert NumberShaped(nums.show(j.number));
    }
  }

  lemma QuotedReads(s: Text, rest: Text)
    ensures var text := Quoted(s) + rest; text[0] == QUOTE && ReadString(text[1..]) == Got(s, rest)
  {
    hide EscapeFrom, ReadString;
    var text := Quoted(s) + rest;
    assert text[1..] == EscapeFrom(s, 0) + [QUOTE] + rest;
    StringReads(s, 0, rest);
    assert s[0..] == s;
  }

  lemma {:induction false} ItemsRead(nums: Numbers, items: seq<Json>, rest: Text)
    requires Faithful(nums) && items != [] && Fits(JArr(items))
    ensures ReadItems(nums, PrintItems(nums, items) + [CLOSE_LIST] + rest) == Got(items, rest)
    decreases items, 1
  {
    hide Print, ReadValue;
    var text := PrintItems(nums, items) + [CLOSE_LIST] + rest;
    if |items| == 1 {
      assert text == Print(nums, items[0]) + ([CLOSE_LIST] + rest);
      PrintReads(nums, items[0], [CLOSE_LIST] + rest);
      assert items == [items[0]];
      assert ([CLOSE_LIST] + rest)[1..] == rest;
    } else {
      var more := PrintItems(nums, items[1..]) + [CLOSE_LIST] + rest;
      assert text == Print(nums, items[0]) + ([COMMA] + more);
      PrintReads(nums, items[0], [COMMA] + more);
      assert ([COMMA] + more)[1..] == more;
      ItemsRead(nums, items[1..], rest);
      assert items == [items[0]] + items[1..];
    }
  }

  lemma MembersText(nums: Numbers, members: seq<Member>, rest: Text) returns (tail: Text)
    requires members != []
    ensures PrintMembers(nums, members) + [CLOSE_RECORD] + rest
      == Quoted(members[0].key) + ([COLON] + (Print(nums, members[0].value) + tail))
    ensures tail == if |members| == 1 then [CLOSE_RECORD] + rest
      else [COMMA] + (PrintMembers(nums, members[1..]) + [CLOSE_RECORD] + rest)
  {
    hide Print, Quoted;
    tail := if |members| == 1 then [CLOSE_RECORD] + rest
      else [COMMA] + (PrintMembers(nums, members[1..]) + [CLOSE_RECORD] + rest);
  }

  lemma {:induction false} FirstFits(members: seq<Member>)
    requires members != [] && Fits(JObj(members))
    ensures Fits(members[0].value) && Fits(JObj(members[1..]))
  {
  }

  lemma {:induction false} MembersRead(nums: Numbers, members: seq<Member>, rest: Text)
    requires Faithful(nums) && members != [] && Fits(JObj(members))
    ensures ReadMembers(nums, PrintMembers(nums, members) + [CLOSE_RECORD] + rest) == Got(members, rest)
    decreases members, 1
  {
    hide Print, PrintMembers, ReadValue, Quoted, ReadString, Fits, Faithful;
    FirstFits(members);
    var key, value := members[0].key, members[0].value;
    var tail := MembersText(nums, members, rest);
    QuotedReads(key, [COLON] + (Print(nums, value) + tail));
    assert ([COLON] + (Print(nums, value) + tail))[1..] == Print(nums, value) + tail;
    PrintReads(nums, value, tail);
    if |members| == 1 {
      assert tail[1..] == rest && members == [members[0]];
    } else {
      assert tail[1..] == PrintMembers(nums, members[1..]) + [CLOSE_RECORD] + rest;
      MembersRead(nums, members[1..], rest);
      assert members == [members[0]] + members[1..];
    }
  }

  /** Reading undoes printing, whatever follows that cannot extend a number. */
  lemma {:induction false} PrintReads(nums: Numbers, j: Json, rest: Text)
    requires Faithful(nums) && Fits(j) && NumberEnds(rest)
    ensures ReadValue(nums, Print(nums, j) + rest) == Got(j, rest)
    decreases j, 0
  {
    hide ReadItems, ReadMembers, PrintItems, PrintMembers, ReadNumber, Quoted, ReadString;
    var text := Print(nums, j) + rest;
    PrintStarts(nums, j);
    match j {
      case JNull => assert NULL_TEXT <= text && text[4..] == rest;
      case JBool(b) =>
        if b {
          assert TRUE_TEXT <= text && text[4..] == rest;
        } else {
          assert FALSE_TEXT <= text && text[5..] == rest;
        }
      case JNum(n) => NumberReads(n, rest, nums);
      case JStr(s) => QuotedReads(s, rest);
      case JArr(items) => ListReads(nums, items, rest);
      case JObj(members) => RecordReads(nums, members, rest);
    }
  }

  lemma {:induction false} ListReads(nums: Numbers, items: seq<Json>, rest: Text)
    requires Faithful(nums) && Fits(JArr(items))
    ensures ReadValue(nums, Print(nums, JArr(items)) + rest) == Got(JArr(items), rest)
    decreases items, 2
  {
    hide ReadItems, ReadMembers, PrintMembers, ReadNumber, ReadString;
    var text := Print(nums, JArr(items)) + rest;
    if items == [] {
      assert text == [OPEN_LIST, CLOSE_LIST] + rest;
    } else {
      assert text[1..] == PrintItems(nums, items) + [CLOSE_LIST] + rest;
      ItemsRead(nums, items, rest);
      PrintStarts(nums, items[0]);
      assert text[1] == Print(nums, items[0])[0];
    }
  }

  lemma {:induction false} RecordReads(nums: Numbers, members: seq<Member>, rest: Text)
    requires Faithful(nums) && Fits(JObj(members))
    ensures ReadValue(nums, Print(nums, JObj(members)) + rest) == Got(JObj(members), rest)
    decreases members, 2
  {
    hide ReadItems, ReadMembers, PrintItems, ReadNumber, ReadString;
    var text := Print(nums, JObj(members)) + rest;
    if members == [] {
      assert text == [OPEN_RECORD, CLOSE_RECORD] + rest;
    } else {
      assert text[1..] == PrintMembers(nums, members) + [CLOSE_RECORD] + rest;
      MembersRead(nums, members, rest);
      assert text[1] == QUOTE;
    }
  }

  // ---- the codec ----

  /** The text of an accepted value; a record that looks like a byte tag is refused. */
  function EncodeValue(nums: Numbers, v: Value): Result<Text> {
    if Accepted(v) then Ok(Print(nums, Tagged(Normal(v)))) else Err("reserved")
  }

  /** Parse, turn tags into bytes, and refuse any text that is not how the value encodes. */
  function CanonicalDecode(nums: Numbers, text: Text, parse: Text -> Option<Json>): Result<Value> {
    match parse(text)
    case None => Err("json")
    case Some(j) =>
      match DecodeTagged(j)
      case Err(code) => Err(code)
      case Ok(v) => if EncodeValue(nums, v) == Ok(text) then Ok(v) else Err("canonical")
  }

  /** A detached copy: what the encoded text parses to, with its tags turned into bytes. */
  function CanonicalClone(nums: Numbers, v: Value, parse: Text -> Option<Json>): Result<Value> {
    match EncodeValue(nums, v)
    case Err(code) => Err(code)
    case Ok(text) =>
      match parse(text)
      case None => Err("clone")
      case Some(j) => DecodeTagged(j)
  }

  // ---- what the platform's parser returns ----

  predicate UniqueMembers(members: seq<Member>) {
    forall i, j :: 0 <= i < j < |members| ==> members[i].key != members[j].key
  }

  /** What parsing can return: every number a double, every key of an object once. */
  predicate Plain(j: Json) {
    match j
    case JNum(n) => Double(n)
    case JArr(items) => forall i :: 0 <= i < |items| ==> Plain(items[i])
    case JObj(members) => UniqueMembers(members) && forall i :: 0 <= i < |members| ==> Plain(members[i].value)
    case _ => true
  }

  function KeysOf(members: seq<Member>): set<Text> {
    set i | 0 <= i < |members| :: members[i].key
  }

  /** Equal but for the order of members: an object lists integer-like keys first, whatever its text does. */
  predicate SameJson(a: Json, b: Json)
    decreases a
  {
    match a
    case JArr(items) =>
      b.JArr? && |items| == |b.items| && forall i :: 0 <= i < |items| ==> SameJson(items[i], b.items[i])
    case JObj(members) =>
      && b.JObj? && UniqueMembers(members) && |members| == |b.members| && KeysOf(members) == KeysOf(b.members)
      && forall i, k :: 0 <= i < |members| && 0 <= k < |b.members| && members[i].key == b.members[k].key ==>
           SameJson(members[i].value, b.members[k].value)
    case _ => a == b
  }

  ghost predicate ReadsBack(nums: Numbers, parse: Text -> Option<Json>, v: Value) {
    var j := Tagged(Normal(v));
    parse(Print(nums, j)).Some? && SameJson(parse(Print(nums, j)).value, j)
  }

  /** The parser reads what the encoder writes, up to the order of members. */
  ghost predicate ReadsPrinted(nums: Numbers, parse: Text -> Option<Json>) {
    forall v :: WellFormed(v) && Accepted(v) ==> ReadsBack(nums, parse, v)
  }

  /** Whatever the parser is given, it returns plain values. */
  ghost predicate ReturnsPlain(parse: Text -> Option<Json>) {
    forall text :: parse(text).Some? ==> Plain(parse(text).value)
  }

  lemma {:induction false} SameJsonItself(j: Json)
    requires Plain(j)
    ensures SameJson(j, j)
    decreases j
  {
    match j {
      case JArr(items) =>
        forall i | 0 <= i < |items| ensures SameJson(items[i], items[i]) {
          SameJsonItself(items[i]);
        }
      case JObj(members) =>
        forall i, k | 0 <= i < |members| && 0 <= k < |members| && members[i].key == members[k].key
          ensures SameJson(members[i].value, members[k].value)
        {
          assert i == k;
          SameJsonItself(members[i].value);
        }
      case _ =>
    }
  }

  lemma {:induction false} TaggedIsPlain(v: Value)
    requires WellFormed(v)
    ensures Plain(Tagged(v))
    decreases v
  {
    match v {
      case Arr(items) =>
        forall i | 0 <= i < |items| ensures Plain(Tagged(items[i])) {
          TaggedIsPlain(items[i]);
        }
      case Rec(fields) =>
        forall i | 0 <= i < |fields| ensures Plain(Tagged(fields[i].value)) {
          TaggedIsPlain(fields[i].value);
        }
      case _ =>
    }
  }

  lemma {:induction false} PlainFits(j: Json)
    requires Plain(j)
    ensures Fits(j)
    decreases j
  {
    match j {
      case JArr(items) =>
        forall i | 0 <= i < |items| ensures Fits(items[i]) {
          PlainFits(items[i]);
        }
      case JObj(members) =>
        forall i | 0 <= i < |members| ensures Fits(members[i].value) {
          PlainFits(members[i].value);
        }
      case _ =>
    }
  }

  /** The reader of this module, made to refuse what is not plain, is such a parser. */
  function ReadPlain(nums: Numbers, text: Text): Option<Json> {
    match ReadValue(nums, text)
    case Got(j, rest) => if rest == [] && Plain(j) then Some(j) else None
    case Fail => None
  }

  lemma ReaderIsAParser(nums: Numbers)
    requires Faithful(nums)
    ensures var parse := text => ReadPlain(nums, text); ReadsPrinted(nums, parse) && ReturnsPlain(parse)
  {
    hide Faithful, Print, ReadValue, Tagged, Plain, SameJson, WellFormed, Accepted;
    var parse := text => ReadPlain(nums, text);
    forall v | WellFormed(v) && Accepted(v) ensures ReadsBack(nums, parse, v) {
      var j := Tagged(Normal(v));
      NormalWellFormed(v);
      TaggedIsPlain(Normal(v));
      PlainFits(j);
      PrintReads(nums, j, []);
      assert Print(nums, j) + [] == Print(nums, j);
      SameJsonItself(j);
    }
  }

  // ---- encoding is injective ----

  /** Different JSON values never print alike. */
  lemma PrintInjective(nums: Numbers, a: Json, b: Json)
    requires Faithful(nums) && Fits(a) && Fits(b) && Print(nums, a) == Print(nums, b)
    ensures a == b
  {
    hide Print, ReadValue, Faithful;
    PrintReads(nums, a, []);
    PrintReads(nums, b, []);
    assert Print(nums, a) + [] == Print(nums, a) && Print(nums, b) + [] == Print(nums, b);
  }

  /** Encoding is injective up to the order of record fields. */
  lemma EncodeInjective(nums: Numbers, v: Value, w: Value)
    requires Faithful(nums) && WellFormed(v) && WellFormed(w) && Accepted(v) && Accepted(w)
    ensures EncodeValue(nums, v) == EncodeValue(nums, w) <==> Normal(v) == Normal(w)
  {
    hide Print, Tagged, DecodeTagged, Faithful, WellFormed, Plain, Fits;
    if EncodeValue(nums, v) == EncodeValue(nums, w) {
      NormalFits(v);
      NormalFits(w);
      PrintInjective(nums, Tagged(Normal(v)), Tagged(Normal(w)));
      NormalAccepted(v);
      NormalAccepted(w);
      TaggedDecodes(Normal(v));
      TaggedDecodes(Normal(w));
    }
  }

  lemma NormalFits(v: Value)
    requires WellFormed(v)
    ensures Fits(Tagged(Normal(v)))
  {
    NormalWellFormed(v);
    TaggedIsPlain(Normal(v));
    PlainFits(Tagged(Normal(v)));
  }

  /** At every depth, the keys of an object rise in the order of strings. */
  ghost predicate KeysRise(j: Json) {
    match j
    case JArr(items) => forall i :: 0 <= i < |items| ==> KeysRise(items[i])
    case JObj(members) =>
      && (forall i, k :: 0 <= i < k < |members| ==> Before(members[i].key, members[k].key))
      && forall i :: 0 <= i < |members| ==> KeysRise(members[i].value)
    case _ => true
  }

  lemma {:induction false} NormalRises(v: Value)
    requires WellFormed(v)
    ensures KeysRise(Tagged(Normal(v)))
    decreases v
  {
    match v {
      case Arr(items) =>
        forall i | 0 <= i < |items| ensures KeysRise(Tagged(Normal(items[i]))) {
          NormalRises(items[i]);
        }
      case Rec(fields) =>
        var normal := NormalFields(fields);
        var sorted := SortFields(normal);
        SortRises(normal);
        forall i | 0 <= i < |sorted| ensures KeysRise(Tagged(sorted[i].value)) {
          assert sorted[i] in normal;
          var k :| 0 <= k < |normal| && normal[k] == sorted[i];
          NormalRises(fields[k].value);
        }
      case _ =>
    }
  }

  /** Whatever order a record's fields come in, its text reads as an object whose keys rise, at every depth. */
  lemma EncodingRises(nums: Numbers, v: Value)
    requires Faithful(nums) && WellFormed(v) && Accepted(v)
    ensures var read := ReadPlain(nums, EncodeValue(nums, v).value); read.Some? && KeysRise(read.value)
  {
    hide Print, ReadValue, Faithful, Tagged, WellFormed, Accepted, Plain, Fits, KeysRise;
    var j := Tagged(Normal(v));
    NormalFits(v);
    NormalWellFormed(v);
    TaggedIsPlain(Normal(v));
    NormalRises(v);
    PrintReads(nums, j, []);
    assert Print(nums, j) + [] == Print(nums, j);
  }

  // ---- decoding undoes encoding ----

  lemma {:induction false} ItemsDecode(items: seq<Json>)
    requires forall i :: 0 <= i < |items| ==> DecodeTagged(items[i]).Ok?
    ensures var r := DecodeItems(items);
      r.Ok? && |r.value| == |items|
      && forall i :: 0 <= i < |items| ==> r.value[i] == DecodeTagged(items[i]).value
  {
    hide DecodeTagged;
    if items != [] {
      ItemsDecode(items[1..]);
    }
  }

  lemma {:induction false} MembersDecode(members: seq<Member>)
    requires forall i :: 0 <= i < |members| ==> DecodeTagged(members[i].value).Ok?
    ensures var r := DecodeMembers(members);
      r.Ok? && |r.value| == |members|
      && forall i :: 0 <= i < |members| ==> r.value[i] == Field(members[i].key, DecodeTagged(members[i].value).value)
  {
    hide DecodeTagged;
    if members != [] {
      MembersDecode(members[1..]);
    }
  }

  /** `w` is `u` with the fields of its records in some order. */
  ghost predicate Reordered(w: Value, u: Value) {
    WellFormed(w) && Accepted(w) && Normal(w) == Normal(u)
  }

  lemma ReorderedList(ws: seq<Value>, us: seq<Value>)
    requires |ws| == |us| && forall i :: 0 <= i < |ws| ==> Reordered(ws[i], us[i])
    ensures Reordered(Arr(ws), Arr(us))
  {
    assert NormalItems(ws) == NormalItems(us);
  }

  function FieldKeys(fields: seq<Field>): set<Text> {
    set i | 0 <= i < |fields| :: fields[i].key
  }

  /** The same keys, and at each key the same value up to order. */
  ghost predicate ReorderedFields(ws: seq<Field>, us: seq<Field>) {
    && UniqueKeys(ws) && UniqueKeys(us) && |ws| == |us| && FieldKeys(ws) == FieldKeys(us)
    && forall i, k :: 0 <= i < |ws| && 0 <= k < |us| && ws[i].key == us[k].key ==> Reordered(ws[i].value, us[k].value)
  }

  /** Two records with the same fields, whatever their order, have one normal form. */
  lemma ReorderedRecord(ws: seq<Field>, us: seq<Field>)
    requires ReorderedFields(ws, us) && !(|us| == 1 && us[0].key == BYTE_TAG)
    ensures Reordered(Rec(ws), Rec(us))
  {
    hide WellFormed, Accepted, Normal;
    var a, b := NormalFields(ws), NormalFields(us);
    forall x ensures x in a <==> x in b {
      ReorderedSome(ws, us, x);
    }
    SameSorts(a, b);
    RecordIs(ws);
    RecordIs(us);
    forall i | 0 <= i < |ws| ensures WellFormed(ws[i].value) && Accepted(ws[i].value) {
      var k := KeyPlace(us, ws[i].key);
    }
    if |ws| == 1 {
      var k := KeyPlace(us, ws[0].key);
    }
  }

  lemma KeyPlace(fields: seq<Field>, key: Text) returns (k: nat)
    requires key in FieldKeys(fields)
    ensures k < |fields| && fields[k].key == key
  {
    k :| k < |fields| && fields[k].key == key;
  }

  lemma ReorderedSome(ws: seq<Field>, us: seq<Field>, x: Field)
    requires ReorderedFields(ws, us)
    ensures x in NormalFields(ws) <==> x in NormalFields(us)
  {
    hide WellFormed, Accepted, Normal;
    var a, b := NormalFields(ws), NormalFields(us);
    if x in a {
      var i :| 0 <= i < |a| && a[i] == x;
      assert ws[i].key in FieldKeys(ws);
      var k := KeyPlace(us, ws[i].key);
      assert b[k] == x;
    }
    if x in b {
      var k :| 0 <= k < |b| && b[k] == x;
      assert us[k].key in FieldKeys(us);
      var i := KeyPlace(ws, us[k].key);
      assert a[i] == x;
    }
  }

  lemma {:induction false} RecordIs(fields: seq<Field>)
    ensures Normal(Rec(fields)) == Rec(SortFields(NormalFields(fields)))
    ensures WellFormed(Rec(fields)) <==>
      UniqueKeys(fields) && forall i :: 0 <= i < |fields| ==> WellFormed(fields[i].value)
    ensures Accepted(Rec(fields)) <==>
      !(|fields| == 1 && fields[0].key == BYTE_TAG) && forall i :: 0 <= i < |fields| ==> Accepted(fields[i].value)
  {
  }

  /** A parsed value that is the tagged form of `u` up to order decodes to `u` up to order. */
  lemma {:induction false} SameDecodes(j: Json, u: Value)
    requires SameJson(j, Tagged(u)) && WellFormed(u) && Accepted(u)
    ensures DecodeTagged(j).Ok? && Reordered(DecodeTagged(j).value, u)
    decreases j, 1
  {
    match u {
      case Bytes(bs) => SameTagDecodes(j, bs);
      case Arr(items) => SameListDecodes(j, items);
      case Rec(fields) => SameRecordDecodes(j, fields);
      case _ =>
    }
  }

  lemma SameTagDecodes(j: Json, bs: seq<byte>)
    requires SameJson(j, Tagged(Bytes(bs)))
    ensures DecodeTagged(j) == Ok(Bytes(bs))
  {
    hide DecodeTagged;
    var tag := Member(BYTE_TAG, JStr(Encode(bs)));
    assert j.members[0].key in KeysOf(j.members);
    assert KeysOf([tag]) == {BYTE_TAG};
    assert j.members[0].value == tag.value;
    assert j.members == [tag];
    TaggedDecodes(Bytes(bs));
  }

  lemma {:induction false} SameListDecodes(j: Json, us: seq<Value>)
    requires SameJson(j, Tagged(Arr(us))) && WellFormed(Arr(us)) && Accepted(Arr(us))
    ensures DecodeTagged(j).Ok? && Reordered(DecodeTagged(j).value, Arr(us))
    decreases j, 0
  {
    hide Reordered;
    forall i | 0 <= i < |us|
      ensures DecodeTagged(j.items[i]).Ok? && Reordered(DecodeTagged(j.items[i]).value, us[i])
    {
      SameDecodes(j.items[i], us[i]);
    }
    ItemsDecode(j.items);
    ReorderedList(DecodeItems(j.items).value, us);
  }

  lemma {:induction false} SameRecordDecodes(j: Json, us: seq<Field>)
    requires SameJson(j, Tagged(Rec(us))) && WellFormed(Rec(us)) && Accepted(Rec(us))
    ensures DecodeTagged(j).Ok? && Reordered(DecodeTagged(j).value, Rec(us))
    decreases j, 0
  {
    hide Reordered, DecodeTagged, WellFormed, Accepted;
    var members, tagged := j.members, TaggedFields(us);
    RecordIs(us);
    TaggedKeys(us);
    forall i, k | 0 <= i < |members| && 0 <= k < |us| && members[i].key == us[k].key
      ensures MemberDecodes(members[i], us[k])
    {
      assert SameJson(members[i].value, tagged[k].value);
      SameDecodes(members[i].value, us[k].value);
    }
    RecordDecodes(members, us);
  }

  lemma TaggedKeys(us: seq<Field>)
    ensures KeysOf(TaggedFields(us)) == FieldKeys(us)
  {
    hide Tagged;
    var tagged := TaggedFields(us);
    forall key ensures key in KeysOf(tagged) <==> key in FieldKeys(us) {
      if key in KeysOf(tagged) {
        var i :| 0 <= i < |tagged| && tagged[i].key == key;
        assert us[i].key == key;
      }
      if key in FieldKeys(us) {
        var i := KeyPlace(us, key);
        assert tagged[i].key == key;
      }
    }
  }

  ghost predicate MemberDecodes(m: Member, u: Field) {
    m.key == u.key && DecodeTagged(m.value).Ok? && Reordered(DecodeTagged(m.value).value, u.value)
  }

  lemma RecordDecodes(members: seq<Member>, us: seq<Field>)
    requires UniqueMembers(members) && UniqueKeys(us) && |members| == |us| && KeysOf(members) == FieldKeys(us)
    requires !(|us| == 1 && us[0].key == BYTE_TAG)
    requires forall i, k :: 0 <= i < |members| && 0 <= k < |us| && members[i].key == us[k].key ==>
      MemberDecodes(members[i], us[k])
    ensures DecodeTagged(JObj(members)).Ok? && Reordered(DecodeTagged(JObj(members)).value, Rec(us))
  {
    hide Reordered;
    forall i | 0 <= i < |members|
      ensures DecodeTagged(members[i].value).Ok?
      ensures |members| == 1 ==> members[i].key == us[0].key
    {
      assert members[i].key in KeysOf(members);
      var k := KeyPlace(us, members[i].key);
      assert MemberDecodes(members[i], us[k]);
    }
    MembersDecode(members);
    var ws := DecodeMembers(members).value;
    forall key ensures key in KeysOf(members) <==> key in FieldKeys(ws) {
      if key in KeysOf(members) {
        var i :| 0 <= i < |members| && members[i].key == key;
        assert ws[i].key == key;
      }
      if key in FieldKeys(ws) {
        var i := KeyPlace(ws, key);
        assert members[i].key == key;
      }
    }
    forall i, k | 0 <= i < |ws| && 0 <= k < |us| && ws[i].key == us[k].key
      ensures Reordered(ws[i].value, us[k].value)
    {
      assert MemberDecodes(members[i], us[k]);
    }
    ReorderedRecord(ws, us);
  }

  /** Decoding an encoded value gives it back, up to the order of its fields; a clone is the value too. */
  lemma DecodeUndoesEncodeValue(nums: Numbers, v: Value, parse: Text -> Option<Json>)
    requires ReadsPrinted(nums, parse) && WellFormed(v) && Accepted(v)
    ensures var r := CanonicalDecode(nums, EncodeValue(nums, v).value, parse); r.Ok? && Reordered(r.value, v)
    ensures CanonicalClone(nums, v, parse) == CanonicalDecode(nums, EncodeValue(nums, v).value, parse)
  {
    hide Print, Tagged, DecodeTagged, SameJson, WellFormed, Accepted;
    assert ReadsBack(nums, parse, v);
    NormalAccepted(v);
    NormalWellFormed(v);
    NormalTwice(v);
    SameDecodes(parse(Print(nums, Tagged(Normal(v)))).value, Normal(v));
  }

  /** A text decodes exactly when it is the encoding of some value. */
  lemma DecodesExactlyEncodings(nums: Numbers, text: Text, parse: Text -> Option<Json>)
    requires ReadsPrinted(nums, parse) && ReturnsPlain(parse)
    ensures CanonicalDecode(nums, text, parse).Ok? <==>
      exists v :: WellFormed(v) && EncodeValue(nums, v) == Ok(text)
  {
    hide Print, Tagged, DecodeTagged, SameJson, WellFormed, Plain;
    if CanonicalDecode(nums, text, parse).Ok? {
      PlainDecodes(parse(text).value);
    }
    if v :| WellFormed(v) && EncodeValue(nums, v) == Ok(text) {
      DecodeUndoesEncodeValue(nums, v, parse);
    }
  }

  /** Whatever the parser does, no two texts decode to one value. */
  lemma OneTextEach(nums: Numbers, s: Text, t: Text, parse: Text -> Option<Json>)
    requires CanonicalDecode(nums, s, parse).Ok? && CanonicalDecode(nums, t, parse).Ok?
    requires Normal(CanonicalDecode(nums, s, parse).value) == Normal(CanonicalDecode(nums, t, parse).value)
    ensures s == t
  {
    hide Print, Tagged, DecodeTagged, Normal;
  }

  lemma {:induction false} PlainDecodes(j: Json)
    requires Plain(j) && DecodeTagged(j).Ok?
    ensures WellFormed(DecodeTagged(j).value)
    decreases j
  {
    match j {
      case JArr(items) =>
        DecodedItems(items);
        forall i | 0 <= i < |items| ensures WellFormed(DecodeTagged(items[i]).value) {
          PlainDecodes(items[i]);
        }
      case JObj(members) =>
        if !(|members| == 1 && members[0].key == BYTE_TAG) {
          DecodedMembers(members);
          forall i | 0 <= i < |members| ensures WellFormed(DecodeTagged(members[i].value).value) {
            PlainDecodes(members[i].value);
          }
        }
      case _ =>
    }
  }

  lemma {:induction false} DecodedItems(items: seq<Json>)
    requires DecodeItems(items).Ok?
    ensures forall i :: 0 <= i < |items| ==> DecodeTagged(items[i]).Ok?
    ensures |DecodeItems(items).value| == |items|
    ensures forall i :: 0 <= i < |items| ==> DecodeItems(items).value[i] == DecodeTagged(items[i]).value
  {
    hide DecodeTagged;
    if items != [] {
      DecodedItems(items[1..]);
      assert forall i :: 0 < i < |items| ==> items[i] == items[1..][i - 1];
    }
  }

  lemma {:induction false} DecodedMembers(members: seq<Member>)
    requires DecodeMembers(members).Ok?
    ensures forall i :: 0 <= i < |members| ==> DecodeTagged(members[i].value).Ok?
    ensures |DecodeMembers(members).value| == |members|
    ensures forall i :: 0 <= i < |members| ==>
      DecodeMembers(members).value[i] == Field(members[i].key, DecodeTagged(members[i].value).value)
  {
    hide DecodeTagged;
    if members != [] {
      DecodedMembers(members[1..]);
      assert forall i :: 0 < i < |members| ==> members[i] == members[1..][i - 1];
    }
  }

  // ---- the text survives UTF-8 ----

  /** No control character, and no half of a surrogate pair without the other: UTF-8 keeps such a text whole. */
  predicate Transportable(text: Text) {
    forall i :: 0 <= i < |text| ==> text[i] >= 32 && !Lone(text, i)
  }

  lemma JoinTransportable(a: Text, b: Text)
    requires Transportable(a) && Transportable(b)
    ensures Transportable(a + b)
  {
    var text := a + b;
    forall i | 0 <= i < |text| ensures text[i] >= 32 && !Lone(text, i) {
      if i < |a| {
        assert !Lone(a, i);
      } else {
        assert !Lone(b, i - |a|);
      }
    }
  }

  lemma PlainTransportable(text: Text)
    requires forall c :: c in text ==> 32 <= c < 0xD800
    ensures Transportable(text)
  {
    forall i | 0 <= i < |text| ensures text[i] >= 32 && !Lone(text, i) {
      assert text[i] in text;
    }
  }

  lemma HexTransportable(u: Unit)
    ensures Transportable(HexEscape(u))
  {
  }

  /** An escaped string, from a place that is not inside a pair. */
  lemma {:induction false} EscapeTransportable(s: Text, i: nat)
    requires i <= |s| && !(0 < i < |s| && IsHigh(s[i - 1]) && IsLow(s[i]))
    ensures Transportable(EscapeFrom(s, i))
    decreases |s| - i
  {
    hide Transportable, HexEscape;
    if i == |s| {
      PlainTransportable([]);
    } else if IsHigh(s[i]) && i + 1 < |s| && IsLow(s[i + 1]) {
      EscapeTransportable(s, i + 2);
      PairTransportable(s[i], s[i + 1]);
      assert EscapeFrom(s, i) == [s[i], s[i + 1]] + EscapeFrom(s, i + 2);
      JoinTransportable([s[i], s[i + 1]], EscapeFrom(s, i + 2));
    } else {
      EscapeTransportable(s, i + 1);
      if ShortEscape(s[i]).None? && (s[i] < 32 || Lone(s, i)) {
        HexTransportable(s[i]);
      } else {
        OneTransportable(s, i);
      }
      JoinTransportable(EscapeAt(s, i), EscapeFrom(s, i + 1));
    }
  }

  lemma PairTransportable(high: Unit, low: Unit)
    requires IsHigh(high) && IsLow(low)
    ensures Transportable([high, low])
  {
  }

  lemma OneTransportable(s: Text, i: nat)
    requires i < |s| && (ShortEscape(s[i]).Some? || (s[i] >= 32 && !Lone(s, i)))
    requires !(i > 0 && IsHigh(s[i - 1]) && IsLow(s[i])) && !(IsHigh(s[i]) && i + 1 < |s| && IsLow(s[i + 1]))
    ensures Transportable(EscapeAt(s, i))
  {
  }

  lemma QuotedTransportable(s: Text)
    ensures Transportable(Quoted(s))
  {
    hide Transportable;
    EscapeTransportable(s, 0);
    PlainTransportable([QUOTE]);
    JoinTransportable([QUOTE], EscapeFrom(s, 0));
    JoinTransportable([QUOTE] + EscapeFrom(s, 0), [QUOTE]);
  }

  lemma {:induction false} ItemsTransportable(nums: Numbers, items: seq<Json>)
    requires Faithful(nums) && items != [] && Fits(JArr(items))
    ensures Transportable(PrintItems(nums, items))
    decreases items, 1
  {
    hide Transportable, Print, Faithful;
    PrintTransportable(nums, items[0]);
    if |items| > 1 {
      ItemsTransportable(nums, items[1..]);
      PlainTransportable([COMMA]);
      JoinTransportable([COMMA], PrintItems(nums, items[1..]));
      JoinTransportable(Print(nums, items[0]), [COMMA] + PrintItems(nums, items[1..]));
    } else {
      assert PrintItems(nums, items) == Print(nums, items[0]);
    }
  }

  lemma {:induction false} MembersTransportable(nums: Numbers, members: seq<Member>)
    requires Faithful(nums) && members != [] && Fits(JObj(members))
    ensures Transportable(PrintMembers(nums, members))
    decreases members, 1
  {
    hide Transportable, Print, Quoted, Fits, Faithful;
    FirstFits(members);
    var first := Quoted(members[0].key) + [COLON] + Print(nums, members[0].value);
    QuotedTransportable(members[0].key);
    PlainTransportable([COLON]);
    PrintTransportable(nums, members[0].value);
    JoinTransportable(Quoted(members[0].key), [COLON]);
    JoinTransportable(Quoted(members[0].key) + [COLON], Print(nums, members[0].value));
    if |members| > 1 {
      MembersTransportable(nums, members[1..]);
      PlainTransportable([COMMA]);
      JoinTransportable([COMMA], PrintMembers(nums, members[1..]));
      JoinTransportable(first, [COMMA] + PrintMembers(nums, members[1..]));
    } else {
      assert PrintMembers(nums, members) == first;
    }
  }

  lemma {:induction false} PrintTransportable(nums: Numbers, j: Json)
    requires Faithful(nums) && Fits(j)
    ensures Transportable(Print(nums, j))
    decreases j, 0
  {
    hide Transportable, Quoted, PrintItems, PrintMembers, Double;
    match j {
      case JNum(n) =>
        assert NumberShaped(nums.show(n));
        PlainTransportable(nums.show(n));
      case JStr(s) => QuotedTransportable(s);
      case JArr(items) =>
        PlainTransportable([OPEN_LIST]);
        PlainTransportable([CLOSE_LIST]);
        PlainTransportable([]);
        var body := if items == [] then [] else PrintItems(nums, items);
        if items != [] {
          ItemsTransportable(nums, items);
        }
        JoinTransportable([OPEN_LIST], body);
        JoinTransportable([OPEN_LIST] + body, [CLOSE_LIST]);
      case JObj(members) =>
        PlainTransportable([OPEN_RECORD]);
        PlainTransportable([CLOSE_RECORD]);
        PlainTransportable([]);
        var body := if members == [] then [] else PrintMembers(nums, members);
        if members != [] {
          MembersTransportable(nums, members);
        }
        JoinTransportable([OPEN_RECORD], body);
        JoinTransportable([OPEN_RECORD] + body, [CLOSE_RECORD]);
      case _ => PlainTransportable(Print(nums, j));
    }
  }

  /** Whatever strings a value holds, its text is one that UTF-8 carries without loss. */
  lemma EncodingIsTransportable(nums: Numbers, v: Value)
    requires Faithful(nums) && WellFormed(v) && Accepted(v)
    ensures Transportable(EncodeValue(nums, v).value)
  {
    hide Transportable, Print, Tagged, WellFormed, Accepted, Faithful;
    NormalFits(v);
    PrintTransportable(nums, Tagged(Normal(v)));
  }

  // ---- one text, to the letter ----

  function UnitOf(c: char): Unit {
    if c as int < 65536 then c as int else 0xFFFD
  }

  function Units(s: string): Text {
    seq(|s|, i requires 0 <= i < |s| => UnitOf(s[i]))
  }

  /** A letter, a line feed and a control character. */
  const SAMPLE_STRING: Text := [120, 10, 1]

  lemma SampleString()
    ensures Quoted(SAMPLE_STRING) == Units("\"x\\n\\u0001\"")
  {
    var s := SAMPLE_STRING;
    assert EscapeFrom(s, 3) == [];
    assert EscapeFrom(s, 2) == HexEscape(1);
    assert EscapeFrom(s, 1) == [BACKSLASH, 110] + HexEscape(1);
    assert EscapeFrom(s, 0) == [120] + ([BACKSLASH, 110] + HexEscape(1));
  }

  lemma PlainString(s: Text)
    requires |s| == 1 && 97 <= s[0] <= 122
    ensures Quoted(s) == [QUOTE, s[0], QUOTE]
  {
    assert EscapeFrom(s, 1) == [];
  }

  lemma SampleNumber()
    ensures DIGITS.show(-12) == Units("-12") && DIGITS.show(0) == Units("0")
  {
    assert Decimal(12) == Decimal(1) + [50];
  }

  lemma SampleTag()
    ensures Quoted(BYTE_TAG) == Units("\"$b\"") && Quoted([65, 81]) == Units("\"AQ\"")
  {
    assert EscapeFrom(BYTE_TAG, 2) == [] && EscapeFrom(BYTE_TAG, 1) == [98] && EscapeFrom(BYTE_TAG, 0) == [36] + [98];
    assert EscapeFrom([65, 81], 2) == [] && EscapeFrom([65, 81], 1) == [81] && EscapeFrom([65, 81], 0) == [65] + [81];
  }

  lemma SampleBytes()
    ensures Print(DIGITS, Tagged(Bytes([1]))) == Units("{\"$b\":\"AQ\"}")
  {
    hide Quoted;
    assert Encode([1]) == [65, 81];
    SampleTag();
    assert PrintMembers(DIGITS, [Member(BYTE_TAG, JStr([65, 81]))]) == Quoted(BYTE_TAG) + [COLON] + Quoted([65, 81]);
  }

  lemma SampleLiterals()
    ensures NULL_TEXT == Units("null") && TRUE_TEXT == Units("true") && FALSE_TEXT == Units("false")
  {
  }

  lemma SampleList()
    ensures Print(DIGITS, JArr([JNull, JNum(-12)])) == Units("[null,-12]")
  {
    hide NumberText;
    SampleNumber();
    SampleLiterals();
    assert PrintItems(DIGITS, [JNum(-12)]) == Units("-12");
    assert [JNull, JNum(-12)][1..] == [JNum(-12)];
    assert PrintItems(DIGITS, [JNull, JNum(-12)]) == Units("null,-12");
  }

  lemma SampleOrder(a: Field, b: Field)
    requires a.key == [97] && b.key == [98]
    ensures SortFields([b, a]) == [a, b]
  {
    assert Less(a.key, b.key);
    assert SortFields([a]) == [a];
    assert [b, a][1..] == [a] && InsertField(b, [a]) == [a] + [b];
  }

  lemma SampleNormal()
    ensures Normal(Arr([Null, Num(-12)])) == Arr([Null, Num(-12)])
    ensures Tagged(Arr([Null, Num(-12)])) == JArr([JNull, JNum(-12)])
  {
    assert NormalItems([Null, Num(-12)]) == [Null, Num(-12)];
    assert TaggedItems([Null, Num(-12)]) == [JNull, JNum(-12)];
  }

  /** The fields come in any order; the keys are written in theirs. */
  lemma SampleRecord()
    ensures EncodeValue(DIGITS, Rec([Field([98], Bytes([1])), Field([97], Arr([Null, Num(-12)]))]))
      == Ok(Units("{\"a\":[null,-12],\"b\":{\"$b\":\"AQ\"}}"))
  {
    hide Quoted, NumberText, PrintItems, Encode, SortFields, Tagged, Print, TaggedItems, NormalItems;
    var a, b := Field([97], Arr([Null, Num(-12)])), Field([98], Bytes([1]));
    SampleNormal();
    SampleOrder(a, b);
    assert NormalFields([b, a]) == [b, a];
    SampleRest();
  }

  lemma SampleRest()
    ensures Print(DIGITS, Tagged(Rec([Field([97], Arr([Null, Num(-12)])), Field([98], Bytes([1]))])))
      == Units("{\"a\":[null,-12],\"b\":{\"$b\":\"AQ\"}}")
  {
    hide Quoted, NumberText, PrintItems, Encode;
    SampleNormal();
    SampleList();
    SampleBytes();
    var first, second := Member([97], Tagged(Arr([Null, Num(-12)]))), Member([98], Tagged(Bytes([1])));
    assert TaggedFields([Field([97], Arr([Null, Num(-12)])), Field([98], Bytes([1]))]) == [first, second];
    SampleMembers(first, second);
  }

  lemma SampleMembers(first: Member, second: Member)
    requires first.key == [97] && second.key == [98]
    requires Print(DIGITS, first.value) == Units("[null,-12]")
      && Print(DIGITS, second.value) == Units("{\"$b\":\"AQ\"}")
    ensures Print(DIGITS, JObj([first, second])) == Units("{\"a\":[null,-12],\"b\":{\"$b\":\"AQ\"}}")
  {
    hide Units, Print, PrintMembers;
    var x, y := "[null,-12]", "{\"$b\":\"AQ\"}";
    SampleBody(first, second, x, y);
    PrintsObject([first, second]);
    UnitsObject("\"a\":", x, "\"b\":", y);
    assert "{" + ("\"a\":" + x + ("," + ("\"b\":" + y))) + "}" == "{\"a\":[null,-12],\"b\":{\"$b\":\"AQ\"}}";
  }

  lemma SampleBody(first: Member, second: Member, x: string, y: string)
    requires first.key == [97] && second.key == [98]
    requires Print(DIGITS, first.value) == Units(x) && Print(DIGITS, second.value) == Units(y)
    ensures PrintMembers(DIGITS, [first, second])
      == Units("\"a\":") + Units(x) + (Units(",") + (Units("\"b\":") + Units(y)))
  {
    hide Quoted, Units, Print;
    SampleKeys();
    assert PrintMembers(DIGITS, [second]) == Units("\"b\":") + Units(y);
    assert [first, second][1..] == [second];
  }

  lemma UnitsObject(k: string, x: string, l: string, y: string)
    ensures Units("{" + (k + x + ("," + (l + y))) + "}")
      == Units("{") + (Units(k) + Units(x) + (Units(",") + (Units(l) + Units(y)))) + Units("}")
  {
    hide Units;
    UnitsJoin(l, y);
    UnitsJoin(",", l + y);
    UnitsJoin(k, x);
    UnitsJoin(k + x, "," + (l + y));
    UnitsJoin("{", k + x + ("," + (l + y)));
    UnitsJoin("{" + (k + x + ("," + (l + y))), "}");
  }

  lemma PrintsObject(members: seq<Member>)
    requires members != []
    ensures Print(DIGITS, JObj(members)) == Units("{") + PrintMembers(DIGITS, members) + Units("}")
  {
    hide PrintMembers;
    assert Units("{") == [OPEN_RECORD] && Units("}") == [CLOSE_RECORD];
  }

  lemma SampleKeys()
    ensures Quoted([97]) + [COLON] == Units("\"a\":") && Quoted([98]) + [COLON] == Units("\"b\":")
    ensures [COMMA] == Units(",")
  {
    PlainString([97]);
    PlainString([98]);
    hide Quoted;
  }

  lemma UnitsJoin(s: string, t: string)
    ensures Units(s + t) == Units(s) + Units(t)
  {
  }

  // ---- what is refused ----

  /** A value, or one inside it at any depth. */
  ghost predicate Inside(u: Value, v: Value)
    decreases v
  {
    || u == v
    || match v
       case Arr(items) => exists i :: 0 <= i < |items| && Inside(u, items[i])
       case Rec(fields) => exists i :: 0 <= i < |fields| && Inside(u, fields[i].value)
       case _ => false
  }

  predicate Reserved(u: Value) {
    u.Rec? && |u.fields| == 1 && u.fields[0].key == BYTE_TAG
  }

  lemma {:induction false} RefusedAt(v: Value) returns (u: Value)
    requires !Accepted(v)
    ensures Inside(u, v) && Reserved(u)
    decreases v
  {
    match v
    case Arr(items) =>
      var i :| 0 <= i < |items| && !Accepted(items[i]);
      u := RefusedAt(items[i]);
    case Rec(fields) =>
      if Reserved(v) {
        u := v;
      } else {
        var i :| 0 <= i < |fields| && !Accepted(fields[i].value);
        u := RefusedAt(fields[i].value);
      }
  }

  lemma {:induction false} AcceptedInside(u: Value, v: Value)
    requires Accepted(v) && Inside(u, v)
    ensures !Reserved(u)
    decreases v
  {
    if u != v {
      match v
      case Arr(items) =>
        var i :| 0 <= i < |items| && Inside(u, items[i]);
        AcceptedInside(u, items[i]);
      case Rec(fields) =>
        var i :| 0 <= i < |fields| && Inside(u, fields[i].value);
        AcceptedInside(u, fields[i].value);
    }
  }

  /** A value has no encoding exactly when a record inside it, at any depth, has the byte tag as its only key. */
  lemma RefusedIff(nums: Numbers, v: Value)
    ensures EncodeValue(nums, v).Err? <==> exists u :: Inside(u, v) && Reserved(u)
  {
    hide Inside, Reserved, Print;
    if !Accepted(v) {
      var u := RefusedAt(v);
    } else {
      forall u | Inside(u, v) ensures !Reserved(u) {
        AcceptedInside(u, v);
      }
    }
  }
}
