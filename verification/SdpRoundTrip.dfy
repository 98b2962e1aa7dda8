/** What comes back from a session description's wire: every character, but for byte order marks the decoder drops. */
module SdpRoundTrip {
  import opened Results
  import opened Octets
  import opened SdpText
  import opened SdpWire
  import Utf8

  function ItemText(item: Item): string
    requires Fits(item)
  {
    match item
    case Raw(line) => line
    case Constant(place) => CONSTANTS[place]
    case Fingerprint(digest) => FingerprintText(digest)
    case Candidate(foundation, priority, host, port, cost) => CandidateText(foundation, priority, host, port, cost)
    case Origin(session, version) => OriginText(session, version)
    case Prefixed(place, suffix) => PREFIXES[place] + suffix
  }

  /** Every number is within its field. */
  predicate Fits(item: Item) {
    match item
    case Raw(line) => |Utf8.Encode(line)| < 65536
    case Constant(place) => place < |CONSTANTS|
    case Fingerprint(digest) => |digest| == 32
    case Candidate(foundation, priority, host, port, cost) =>
      && 1 <= |foundation| <= 32 && Printable(foundation) && priority < TWO_32 && |host| == 16 && port < 65536
      && cost < 65536
    case Origin(session, version) => session < TWO_64 && version < TWO_32
    case Prefixed(place, suffix) => place < |PREFIXES| && |Utf8.Encode(suffix)| < 65536
  }

  /** The text a reader gets for an item: a mark at the start of decoded text is dropped. */
  function Seen(item: Item): string
    requires Fits(item)
  {
    match item
    case Raw(line) => Utf8.Unmarked(line)
    case Prefixed(place, suffix) => PREFIXES[place] + Utf8.Unmarked(suffix)
    case _ => ItemText(item)
  }

  predicate Loses(item: Item) {
    match item
    case Raw(line) => Utf8.Marked(line)
    case Prefixed(_, suffix) => Utf8.Marked(suffix)
    case _ => false
  }

  // ---- classifying loses nothing ----

  lemma CandidateKeeps(fields: seq<string>)
    requires CandidateFields(fields)
    ensures Fits(CandidateOf(fields)) && ItemText(CandidateOf(fields)) == Join(fields, " ")
  {
    hide Join, HexBytes, RemoveAll, IsUuid, ToNumber, Decimal, Uuid;
    UuidBack(fields[4][..36]);
    DecimalPrints(fields[3]);
    DecimalPrints(fields[5]);
    DecimalPrints(fields[11]);
    var item := CandidateOf(fields);
    assert fields[0] == CANDIDATE + item.foundation;
    assert fields[4] == Uuid(item.host) + LOCAL;
    assert fields == [CANDIDATE + item.foundation, "1", "udp", Decimal(item.priority), Uuid(item.host) + LOCAL,
                      Decimal(item.port),
                      "typ", "host", "generation", "0", "network-cost", Decimal(item.cost)];
  }

  lemma OriginKeeps(fields: seq<string>)
    requires OriginFields(fields)
    ensures OriginText(ToNumber(fields[1]), ToNumber(fields[2])) == Join(fields, " ")
  {
    hide Join, ToNumber, Decimal;
    DecimalPrints(fields[1]);
    DecimalPrints(fields[2]);
    assert fields == ["o=-", fields[1], fields[2], "IN", "IP4", "127.0.0.1"];
  }

  lemma FingerprintKeeps(line: string)
    requires IsFingerprint(line)
    ensures FingerprintText(FingerprintOf(line).digest) == line
  {
    hide Join, HexBytes, RemoveAll, IsPairs;
    PairsBack(line[|FINGERPRINT|..], 32);
    assert line == FINGERPRINT + line[|FINGERPRINT|..];
  }

  lemma SuffixFits(prefix: string, line: string)
    requires StartsWith(line, prefix)
    ensures line == prefix + line[|prefix|..] && |Utf8.Encode(line[|prefix|..])| <= |Utf8.Encode(line)|
  {
    Utf8.EncodeAppend(prefix, line[|prefix|..]);
    assert line == prefix + line[|prefix|..];
  }

  /** Whatever branch a line takes, its item prints the line again, and no field overflows. */
  lemma ClassifyKeeps(line: string)
    requires |Utf8.Encode(line)| < 65536
    ensures Fits(Classify(line)) && ItemText(Classify(line)) == line
  {
    hide CandidateFields, OriginFields, IsFingerprint, Split, Join, Decimal, CandidateText, OriginText,
      FingerprintText, Utf8.Encode;
    if PlaceOf(CONSTANTS, line).Some? {
    } else if IsFingerprint(line) {
      FingerprintKeeps(line);
    } else {
      var fields := Split(line, " ");
      JoinUndoesSplit(line, " ");
      if CandidateFields(fields) {
        CandidateKeeps(fields);
      } else if OriginFields(fields) {
        OriginKeeps(fields);
        OriginFits(fields);
      } else if PrefixOf(PREFIXES, line).Some? {
        SuffixFits(PREFIXES[PrefixOf(PREFIXES, line).value], line);
      }
    }
  }

  lemma OriginFits(fields: seq<string>)
    requires OriginFields(fields)
    ensures |fields| == 6 && ToNumber.requires(fields[1]) && ToNumber.requires(fields[2])
    ensures ToNumber(fields[1]) < TWO_64 && ToNumber(fields[2]) < TWO_32
  {
  }

  // ---- reading what was written ----

  /** The bytes from a place on begin with a piece. */
  predicate At(bytes: seq<byte>, at: nat, piece: seq<byte>) {
    at + |piece| <= |bytes| && bytes[at..at + |piece|] == piece
  }

  lemma AtParts(bytes: seq<byte>, at: nat, a: seq<nat>, b: seq<nat>)
    requires At(bytes, at, Truncated(a + b))
    ensures At(bytes, at, Truncated(a)) && At(bytes, at + |a|, Truncated(b))
  {
    var all := Truncated(a + b);
    assert all[..|a|] == Truncated(a);
    assert all[|a|..] == Truncated(b);
    assert bytes[at..at + |a|] == bytes[at..at + |all|][..|a|];
    assert bytes[at + |a|..at + |a| + |b|] == bytes[at..at + |all|][|a|..];
  }

  lemma AtByte(bytes: seq<byte>, at: nat, value: nat)
    requires At(bytes, at, Truncated([value])) && value < 256
    ensures GetByte(bytes, at) == Got(value, at + 1)
  {
    assert bytes[at] == bytes[at..at + 1][0] == Truncated([value])[0];
  }

  lemma AtU16(bytes: seq<byte>, at: nat, value: nat)
    requires At(bytes, at, Truncated(U16(value))) && value < 65536
    ensures GetU16(bytes, at) == Got(value, at + 2)
  {
    var piece := bytes[at..at + 2];
    assert piece[0] == U16(value)[0] % 256 && piece[1] == U16(value)[1] % 256;
  }

  lemma Digits32(value: nat)
    requires value < TWO_32
    ensures value / 0x100_0000 < 256
    ensures value / 0x100_0000 * 0x100_0000 + value / 0x1_0000 % 256 * 0x1_0000 + value / 256 % 256 * 256 + value % 256
      == value
  {
    assert value / 256 == value / 0x1_0000 * 256 + value / 256 % 256;
    assert value / 0x1_0000 == value / 0x100_0000 * 256 + value / 0x1_0000 % 256;
  }

  /** Numbers below 256 are written as they are. */
  lemma SmallStays(numbers: seq<nat>, i: nat)
    requires i < |numbers| && numbers[i] < 256
    ensures Truncated(numbers)[i] == numbers[i]
  {
  }

  lemma U32Digits(value: nat)
    requires value < TWO_32
    ensures var numbers := U32(value);
      && numbers[0] == value / 0x100_0000 < 256 && numbers[1] == value / 0x1_0000 % 256
      && numbers[2] == value / 256 % 256
      && numbers[3] == value % 256
  {
  }

  lemma AtU32(bytes: seq<byte>, at: nat, value: nat)
    requires At(bytes, at, Truncated(U32(value))) && value < TWO_32
    ensures GetU32(bytes, at) == Got(value, at + 4)
  {
    var numbers, piece := U32(value), Truncated(U32(value));
    U32Digits(value);
    hide U32, Truncated;
    Digits32(value);
    SmallStays(numbers, 0);
    SmallStays(numbers, 1);
    SmallStays(numbers, 2);
    SmallStays(numbers, 3);
    assert bytes[at..at + 4] == piece;
    assert bytes[at] == piece[0] && bytes[at + 1] == piece[1] && bytes[at + 2] == piece[2] && bytes[at + 3] == piece[3];
    var high, mid, low := value / 0x100_0000, value / 0x1_0000 % 256, value / 256 % 256;
    assert high * 0x100_0000 + mid * 0x1_0000 + low * 256 + value % 256 == value;
  }

  lemma FoldedPush(front: seq<byte>, last: byte)
    ensures Folded(front + [last]) == Folded(front) * 256 + last as nat
  {
    assert (front + [last])[..|front|] == front;
  }

  lemma ShiftStep(value: nat)
    ensures value / 256 * 256 + value % 256 == value
  {
  }

  lemma NothingAbove(value: nat)
    requires value < TWO_64
    ensures Shifted(value, 8) == 0
  {
    assert Shifted(value, 1) == value / 256 < 0x100_0000_0000_0000;
    assert Shifted(value, 2) == Shifted(value, 1) / 256 < 0x1_0000_0000_0000;
    assert Shifted(value, 3) == Shifted(value, 2) / 256 < 0x100_0000_0000;
    assert Shifted(value, 4) == Shifted(value, 3) / 256 < 0x1_0000_0000;
    assert Shifted(value, 5) == Shifted(value, 4) / 256 < 0x100_0000;
    assert Shifted(value, 6) == Shifted(value, 5) / 256 < 0x1_0000;
    assert Shifted(value, 7) == Shifted(value, 6) / 256 < 256;
  }

  /** The first `n` of the eight bytes fold to the value without its last `8 - n` digits. */
  lemma {:induction false} Folds64(value: nat, b: seq<byte>, n: nat)
    requires value < TWO_64 && n <= 8 && b == Truncated(U64(value)) && |b| == 8
    ensures Folded(b[..n]) == Shifted(value, 8 - n)
  {
    hide Folded;
    if n == 0 {
      NothingAbove(value);
      assert b[..0] == [];
      NothingFolded();
    } else {
      Folds64(value, b, n - 1);
      assert b[..n] == b[..n - 1] + [b[n - 1]];
      FoldedPush(b[..n - 1], b[n - 1]);
      ShiftStep(Shifted(value, 8 - n));
    }
  }

  lemma NothingFolded()
    ensures Folded([]) == 0
  {
  }

  lemma AtU64(bytes: seq<byte>, at: nat, value: nat)
    requires At(bytes, at, Truncated(U64(value))) && value < TWO_64
    ensures GetU64(bytes, at) == Got(value, at + 8)
  {
    hide Folded, U64;
    var piece := Truncated(U64(value));
    Folds64(value, piece, 8);
    assert piece[..8] == piece;
  }

  lemma DataKept(data: seq<byte>)
    ensures Truncated(Data(data)) == data
  {
  }

  lemma AtData(bytes: seq<byte>, at: nat, data: seq<byte>)
    requires At(bytes, at, Truncated(Data(data)))
    ensures GetData(bytes, at, |data|) == Got(data, at + |data|)
  {
    DataKept(data);
  }

  lemma AtText(bytes: seq<byte>, at: nat, text: string)
    requires At(bytes, at, Truncated(Data(Utf8.Encode(text))))
    ensures GetText(bytes, at, |Utf8.Encode(text)|) == Got(Utf8.Unmarked(text), at + |Utf8.Encode(text)|)
  {
    hide Utf8.Encode, Utf8.Decode;
    AtData(bytes, at, Utf8.Encode(text));
    Utf8.DecodeUndoes(text);
  }

  lemma AtCounted(bytes: seq<byte>, at: nat, text: string)
    requires At(bytes, at, Truncated(TextData(text))) && |Utf8.Encode(text)| < 65536
    ensures GetCounted(bytes, at) == Got(Utf8.Unmarked(text), at + |TextData(text)|)
  {
    hide Utf8.Encode, GetText, At, GetU16;
    var length := |Utf8.Encode(text)|;
    AtParts(bytes, at, U16(length), Data(Utf8.Encode(text)));
    AtU16(bytes, at, length);
    AtText(bytes, at + 2, text);
  }

  /** A printable foundation is one byte a character and holds no mark. */
  lemma FoundationBytes(foundation: string)
    requires Printable(foundation)
    ensures |Utf8.Encode(foundation)| == |foundation| && Utf8.Unmarked(foundation) == foundation
  {
    Utf8.AsciiLength(foundation);
    if foundation != [] {
      assert foundation[0] in foundation;
    }
  }

  lemma NumbersRead(bytes: seq<byte>, at: nat, priority: nat, host: seq<byte>, port: nat, cost: nat)
    requires priority < TWO_32 && |host| == 16 && port < 65536 && cost < 65536
    requires At(bytes, at, Truncated(U32(priority) + (Data(host) + (U16(port) + U16(cost)))))
    ensures GetU32(bytes, at) == Got(priority, at + 4) && GetData(bytes, at + 4, 16) == Got(host, at + 20)
    ensures GetU16(bytes, at + 20) == Got(port, at + 22) && GetU16(bytes, at + 22) == Got(cost, at + 24)
  {
    hide At, GetU16, GetU32, GetData, U16, U32;
    FieldLengths(priority, port);
    var d := U16(port) + U16(cost);
    AtParts(bytes, at, U32(priority), Data(host) + d);
    AtU32(bytes, at, priority);
    AtParts(bytes, at + 4, Data(host), d);
    AtData(bytes, at + 4, host);
    AtParts(bytes, at + 20, U16(port), U16(cost));
    AtU16(bytes, at + 20, port);
    AtU16(bytes, at + 22, cost);
  }

  lemma CandidateWritten(item: Item)
    requires item.Candidate? && |item.host| == 16
    ensures Written(item) ==
      [3] + ([|item.foundation|] + (Data(Utf8.Encode(item.foundation))
        + (U32(item.priority) + (Data(item.host) + (U16(item.port) + U16(item.cost))))))
    ensures |Written(item)| == 26 + |Utf8.Encode(item.foundation)|
  {
    hide Utf8.Encode;
  }

  lemma CandidateReads(item: Item, bytes: seq<byte>, at: nat)
    requires item.Candidate? && Fits(item) && At(bytes, at, Truncated(Written(item)))
    ensures GetLine(bytes, at) == Got(ItemText(item), at + |Written(item)|)
  {
    hide At, GetU16, GetU32, GetData, GetText, GetByte, Utf8.Encode, CandidateText, U16, U32, Printable, Truncated,
      Written;
    var Candidate(foundation, priority, host, port, cost) := item;
    var text := Data(Utf8.Encode(foundation));
    FoundationBytes(foundation);
    CandidateWritten(item);
    var b := U32(priority) + (Data(host) + (U16(port) + U16(cost)));
    AtParts(bytes, at, [3], [|foundation|] + (text + b));
    AtByte(bytes, at, 3);
    AtParts(bytes, at + 1, [|foundation|], text + b);
    AtByte(bytes, at + 1, |foundation|);
    AtParts(bytes, at + 2, text, b);
    AtText(bytes, at + 2, foundation);
    NumbersRead(bytes, at + 2 + |text|, priority, host, port, cost);
  }

  lemma FieldLengths(wide: nat, narrow: nat)
    ensures |U32(wide)| == 4 && |U16(narrow)| == 2
  {
  }

  lemma OriginWritten(item: Item)
    requires item.Origin?
    ensures Written(item) == [4] + (U64(item.session) + U32(item.version)) && |Written(item)| == 13
  {
  }

  lemma OriginReads(item: Item, bytes: seq<byte>, at: nat)
    requires item.Origin? && Fits(item) && At(bytes, at, Truncated(Written(item)))
    ensures GetLine(bytes, at) == Got(ItemText(item), at + |Written(item)|)
  {
    hide At, GetU64, GetU32, GetByte, OriginText, U64, U32, Truncated, Written;
    var Origin(session, version) := item;
    FieldLengths(version, 0);
    OriginWritten(item);
    AtParts(bytes, at, [4], U64(session) + U32(version));
    AtByte(bytes, at, 4);
    AtParts(bytes, at + 1, U64(session), U32(version));
    AtU64(bytes, at + 1, session);
    AtU32(bytes, at + 9, version);
  }

  lemma PrefixedReads(item: Item, bytes: seq<byte>, at: nat)
    requires item.Prefixed? && Fits(item) && At(bytes, at, Truncated(Written(item)))
    ensures GetLine(bytes, at) == Got(Seen(item), at + |Written(item)|)
  {
    hide At, GetByte, GetCounted, Utf8.Encode, Utf8.Unmarked, TextData, Truncated;
    var Prefixed(place, suffix) := item;
    assert Written(item) == [5] + ([place] + TextData(suffix));
    AtParts(bytes, at, [5], [place] + TextData(suffix));
    AtByte(bytes, at, 5);
    AtParts(bytes, at + 1, [place], TextData(suffix));
    AtByte(bytes, at + 1, place);
    AtCounted(bytes, at + 2, suffix);
  }

  /** Reading back any written item gives its text, and stops where the item stops. */
  lemma ItemReads(item: Item, bytes: seq<byte>, at: nat)
    requires Fits(item) && At(bytes, at, Truncated(Written(item)))
    ensures GetLine(bytes, at) == Got(Seen(item), at + |Written(item)|)
  {
    hide At, GetByte, GetCounted, GetData, GetCandidate, GetOrigin, FingerprintText, Utf8.Encode, Utf8.Unmarked,
      TextData, Truncated;
    match item
    case Candidate(_, _, _, _, _) => CandidateReads(item, bytes, at);
    case Origin(_, _) => OriginReads(item, bytes, at);
    case Raw(line) =>
      AtParts(bytes, at, [0], TextData(line));
      AtByte(bytes, at, 0);
      AtCounted(bytes, at + 1, line);
    case Constant(place) =>
      assert [1] + [place] == [1, place];
      AtParts(bytes, at, [1], [place]);
      AtByte(bytes, at, 1);
      AtByte(bytes, at + 1, place);
    case Fingerprint(digest) =>
      AtParts(bytes, at, [2], Data(digest));
      AtByte(bytes, at, 2);
      AtData(bytes, at + 1, digest);
    case Prefixed(_, _) => PrefixedReads(item, bytes, at);
  }

  // ---- whole descriptions ----

  predicate AllFit(lines: seq<string>) {
    forall i :: 0 <= i < |lines| ==> |Utf8.Encode(lines[i])| < 65536
  }

  function SeenLine(line: string): string {
    if Fits(Classify(line)) then Seen(Classify(line)) else line
  }

  function SeenLines(lines: seq<string>): (r: seq<string>)
    ensures |r| == |lines| && forall i :: 0 <= i < |r| ==> r[i] == SeenLine(lines[i])
  {
    seq(|lines|, i requires 0 <= i < |lines| => SeenLine(lines[i]))
  }

  lemma {:induction false} LinesRead(lines: seq<string>, bytes: seq<byte>, at: nat)
    requires AllFit(lines) && At(bytes, at, Truncated(WrittenAll(lines)))
    ensures GetLines(bytes, at, |lines|) == Got(SeenLines(lines), at + |WrittenAll(lines)|)
  {
    hide At, GetLine, Classify, Written, Seen, Fits;
    if lines != [] {
      var front, last := lines[..|lines| - 1], lines[|lines| - 1];
      var item := Classify(last);
      AtParts(bytes, at, WrittenAll(front), Written(item));
      LinesRead(front, bytes, at);
      ClassifyKeeps(last);
      ItemReads(item, bytes, at + |WrittenAll(front)|);
      assert SeenLines(lines) == SeenLines(front) + [Seen(item)];
    }
  }

  predicate NoneLoses(lines: seq<string>) {
    forall i :: 0 <= i < |lines| ==> !Loses(Classify(lines[i]))
  }

  /** A description that loses a mark somewhere: at the start of any text the decoder is given. */
  predicate LosesMark(sdp: string) {
    if UsesCompact(sdp) then !NoneLoses(LinesOf(sdp)) else Utf8.Marked(sdp)
  }

  function Delivered(sdp: string): string {
    if UsesCompact(sdp) then Join(SeenLines(LinesOf(sdp)), LINE_END) + LINE_END else Utf8.Unmarked(sdp)
  }

  lemma {:induction false} PartFits(parts: seq<string>, separator: string, i: nat)
    requires i < |parts|
    ensures |Utf8.Encode(parts[i])| <= |Utf8.Encode(Join(parts, separator))|
  {
    hide Utf8.Encode;
    if |parts| > 1 {
      Utf8.EncodeAppend(parts[0] + separator, Join(parts[1..], separator));
      Utf8.EncodeAppend(parts[0], separator);
      if i > 0 {
        PartFits(parts[1..], separator, i - 1);
      }
    }
  }

  /** Complete lines put together again are the description. */
  lemma LinesBack(sdp: string)
    requires EndsWith(sdp, LINE_END)
    ensures Join(LinesOf(sdp), LINE_END) + LINE_END == sdp
    ensures |Utf8.Encode(sdp)| == |Utf8.Encode(Join(LinesOf(sdp), LINE_END))| + |Utf8.Encode(LINE_END)|
    ensures |Utf8.Encode(LINE_END)| >= 2
  {
    hide Join, Split;
    var body := sdp[..|sdp| - |LINE_END|];
    JoinUndoesSplit(body, LINE_END);
    assert sdp == body + LINE_END;
    Utf8.EncodeAppend(body, LINE_END);
  }

  lemma LinesFit(sdp: string)
    requires EndsWith(sdp, LINE_END) && |Utf8.Encode(sdp)| <= MAX_SDP_BYTES
    ensures AllFit(LinesOf(sdp))
  {
    hide LinesOf, Join, EndsWith;
    LinesBack(sdp);
    forall i | 0 <= i < |LinesOf(sdp)| ensures |Utf8.Encode(LinesOf(sdp)[i])| < 65536 {
      PartFits(LinesOf(sdp), LINE_END, i);
    }
  }

  /** Dropping a mark shortens a line by one character, and its bytes do not grow. */
  lemma SeenShortens(line: string)
    requires |Utf8.Encode(line)| < 65536
    ensures !Loses(Classify(line)) ==> SeenLine(line) == line
    ensures Loses(Classify(line)) ==> |SeenLine(line)| < |line|
    ensures |SeenLine(line)| <= |line| && |Utf8.Encode(SeenLine(line))| <= |Utf8.Encode(line)|
  {
    hide Classify, Utf8.Encode, Fits, CandidateText, OriginText, FingerprintText;
    ClassifyKeeps(line);
    var item := Classify(line);
    if item.Raw? {
      UnmarkedShrinks(item.line);
    } else if item.Prefixed? {
      UnmarkedShrinks(item.suffix);
      PrefixInRange(item);
      Utf8.EncodeAppend(PREFIXES[item.place], item.suffix);
      Utf8.EncodeAppend(PREFIXES[item.place], Utf8.Unmarked(item.suffix));
    }
  }

  lemma PrefixInRange(item: Item)
    requires item.Prefixed? && Fits(item)
    ensures item.place < |PREFIXES|
  {
  }

  lemma UnmarkedShrinks(text: string)
    ensures |Utf8.Encode(Utf8.Unmarked(text))| <= |Utf8.Encode(text)|
    ensures if Utf8.Marked(text) then |Utf8.Unmarked(text)| < |text| else Utf8.Unmarked(text) == text
  {
  }

  lemma JoinBytes(head: string, parts: seq<string>)
    requires parts != []
    ensures |Utf8.Encode(Join([head] + parts, LINE_END))| == |Utf8.Encode(head)| + |Utf8.Encode(LINE_END)|
      + |Utf8.Encode(Join(parts, LINE_END))|
    ensures |Join([head] + parts, LINE_END)| == |head| + |LINE_END| + |Join(parts, LINE_END)|
  {
    hide Utf8.Encode, Join;
    JoinPush(head, parts, LINE_END);
    Utf8.EncodeAppend(head + LINE_END, Join(parts, LINE_END));
    Utf8.EncodeAppend(head, LINE_END);
  }

  /** The lines read back are no longer than those written, and as long only when none lost a mark. */
  lemma {:induction false} SeenJoin(lines: seq<string>)
    requires AllFit(lines)
    ensures |Utf8.Encode(Join(SeenLines(lines), LINE_END))| <= |Utf8.Encode(Join(lines, LINE_END))|
    ensures if NoneLoses(lines) then SeenLines(lines) == lines
      else |Join(SeenLines(lines), LINE_END)| < |Join(lines, LINE_END)|
  {
    hide Utf8.Encode, Loses, Classify, SeenLine, Join;
    if lines == [] {
      assert SeenLines(lines) == lines;
    } else {
      SeenShortens(lines[0]);
      var rest, seen := lines[1..], SeenLines(lines);
      assert lines == [lines[0]] + rest && seen == [seen[0]] + SeenLines(rest);
      NoneLosesTail(lines);
      if rest == [] {
        assert lines == [lines[0]] && seen == [seen[0]];
        JoinOne(lines[0], LINE_END);
        JoinOne(seen[0], LINE_END);
      } else {
        SeenJoin(rest);
        JoinBytes(lines[0], rest);
        JoinBytes(seen[0], SeenLines(rest));
      }
    }
  }

  lemma NoneLosesTail(lines: seq<string>)
    requires lines != []
    ensures NoneLoses(lines) <==> !Loses(Classify(lines[0])) && NoneLoses(lines[1..])
  {
    hide Loses, Classify;
    if NoneLoses(lines[1..]) && !Loses(Classify(lines[0])) {
      forall i | 0 <= i < |lines| ensures !Loses(Classify(lines[i])) {
        assert i > 0 ==> lines[i] == lines[1..][i - 1];
      }
    }
  }

  lemma CompactReads(sdp: string)
    requires UsesCompact(sdp) && |Utf8.Encode(sdp)| <= MAX_SDP_BYTES
    ensures Read(Compact(LinesOf(sdp))) == Ok(Join(SeenLines(LinesOf(sdp)), LINE_END) + LINE_END)
  {
    hide GetLines, GetU16, Join, LinesOf, SeenLines, WrittenAll, Utf8.Encode, U16, At;
    var lines, bytes := LinesOf(sdp), Compact(LinesOf(sdp));
    var counted := U16(|lines|) + WrittenAll(lines);
    CompleteLines(sdp);
    LinesFit(sdp);
    LinesBack(sdp);
    assert [1] + U16(|lines|) + WrittenAll(lines) == [1] + counted;
    assert At(bytes, 0, bytes) by { WholeAt(bytes); }
    FieldLengths(0, |lines|);
    AtParts(bytes, 0, [1], counted);
    AtByte(bytes, 0, 1);
    AtParts(bytes, 1, U16(|lines|), WrittenAll(lines));
    AtU16(bytes, 1, |lines|);
    LinesRead(lines, bytes, 3);
    SeenJoin(lines);
    Utf8.EncodeAppend(Join(SeenLines(lines), LINE_END), LINE_END);
  }

  lemma CompleteLines(sdp: string)
    requires UsesCompact(sdp)
    ensures EndsWith(sdp, LINE_END)
  {
  }

  lemma WholeAt(bytes: seq<byte>)
    ensures At(bytes, 0, bytes)
  {
    assert bytes[0..|bytes|] == bytes;
  }

  lemma LiteralReads(sdp: string)
    requires sdp != [] && |Utf8.Encode(sdp)| <= MAX_SDP_BYTES
    ensures Read(Literal(sdp)) == Ok(Utf8.Unmarked(sdp))
  {
    hide GetText, Utf8.Encode, Utf8.Unmarked, At;
    var raw, bytes := Utf8.Encode(sdp), Literal(sdp);
    WholeAt(bytes);
    AtParts(bytes, 0, [0], Data(raw));
    AtByte(bytes, 0, 0);
    AtText(bytes, 1, sdp);
  }

  /** What a reader gets of any description within the limit. */
  lemma ReadsDelivered(sdp: string)
    requires sdp != [] && |Utf8.Encode(sdp)| <= MAX_SDP_BYTES
    ensures Wire(sdp).Ok? && Read(Wire(sdp).value) == Ok(Delivered(sdp))
  {
    hide Read, Compact, Literal, Join, LinesOf, Utf8.Encode;
    if UsesCompact(sdp) {
      CompactReads(sdp);
    } else {
      LiteralReads(sdp);
    }
  }

  lemma DeliveredWhole(sdp: string)
    requires |Utf8.Encode(sdp)| <= MAX_SDP_BYTES
    ensures Delivered(sdp) == sdp <==> !LosesMark(sdp)
  {
    hide UsesCompact, Utf8.Encode, NoneLoses, Join, LinesOf, SeenLines;
    if UsesCompact(sdp) {
      CompleteLines(sdp);
      LinesFit(sdp);
      LinesBack(sdp);
      SeenJoin(LinesOf(sdp));
    } else {
      UnmarkedShrinks(sdp);
    }
  }

  lemma NothingIsRefused()
    ensures Wire([]).Ok? && Read(Wire([]).value).Err?
  {
    assert LinesOf([]) == [];
    assert |Literal([])| == 1;
  }

  /**
   * A description within the limit comes back whole exactly when it is not empty and no text handed to the
   * decoder begins with a byte order mark: the whole of it in literal form, and in compact form each line
   * kept verbatim and each rest of a prefixed line.
   */
  lemma RoundTrip(sdp: string)
    requires |Utf8.Encode(sdp)| <= MAX_SDP_BYTES
    ensures Wire(sdp).Ok?
    ensures Read(Wire(sdp).value) == Ok(sdp) <==> sdp != [] && !LosesMark(sdp)
  {
    hide Read, Wire, LosesMark, Delivered, Utf8.Encode;
    if sdp == [] {
      NothingIsRefused();
    } else {
      ReadsDelivered(sdp);
      DeliveredWhole(sdp);
    }
  }

  /** A description that starts with the mark comes back without it. */
  lemma MarkIsLost()
    ensures var sdp := [Utf8.BYTE_ORDER_MARK, 'v']; Wire(sdp).Ok? && Read(Wire(sdp).value) == Ok("v")
  {
    hide Read, Compact, Literal, SeenLines;
    var sdp := [Utf8.BYTE_ORDER_MARK, 'v'];
    assert sdp[1..] == ['v'] && ['v'][1..] == [];
    assert |Utf8.Encode(sdp)| == 4;
    assert LinesOf(sdp) == [];
    ReadsDelivered(sdp);
  }

  // ---- how much is saved ----

  /** The wire is never longer than the text and one byte, and is the compact form wherever that is shorter. */
  lemma WireIsShortest(sdp: string)
    requires Wire(sdp).Ok?
    ensures var text := |Utf8.Encode(sdp)| + 1;
      |Wire(sdp).value|
        == if LineByLine(LinesOf(sdp)) && |Compact(LinesOf(sdp))| < text then |Compact(LinesOf(sdp))| else text
  {
    hide Compact, LinesOf, LineByLine;
  }

  /** A line the format knows takes two bytes, a fingerprint thirty-three, an origin thirteen. */
  lemma KnownLinesAreShort(line: string)
    ensures line in CONSTANTS ==> |Written(Classify(line))| == 2
    ensures line !in CONSTANTS && IsFingerprint(line) ==> |Written(Classify(line))| == 33
    ensures var fields := Split(line, " ");
      line !in CONSTANTS && !IsFingerprint(line) && !CandidateFields(fields) && OriginFields(fields) ==>
        |Written(Classify(line))| == 13
  {
    hide CandidateOf, FingerprintOf, IsFingerprint, CandidateFields, OriginFields, Split, PrefixOf;
    Listed(CONSTANTS, line);
    if IsFingerprint(line) {
      assert |FingerprintOf(line).digest| == 32;
    }
  }

  lemma {:induction false} Listed(list: seq<string>, line: string)
    ensures PlaceOf(list, line).Some? <==> line in list
  {
    if list != [] {
      Listed(list[..|list| - 1], line);
    }
  }
}
