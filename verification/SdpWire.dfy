/**
 * The compact wire of a session description, as values: how each line is classified, what it writes, and
 * how it is read back (packages/p2p/src/manual-sdp-codec.ts).
 */
module SdpWire {
  import opened Results
  import opened Octets
  import opened SdpText
  import Utf8

  const CONSTANTS: seq<string> := [
    "v=0", "s=-", "t=0 0", "a=group:BUNDLE 0", "a=group:BUNDLE data", "a=extmap-allow-mixed", "a=msid-semantic: WMS",
    "m=application 9 UDP/DTLS/SCTP webrtc-datachannel", "c=IN IP4 0.0.0.0", "a=ice-options:trickle", "a=setup:actpass",
    "a=setup:active", "a=setup:passive", "a=mid:0", "a=mid:data", "a=sctp-port:5000", "a=max-message-size:262144",
    "a=end-of-candidates"
  ]

  const PREFIXES: seq<string> := [
    "a=ice-ufrag:", "a=ice-pwd:", "a=group:BUNDLE ", "a=mid:", "a=setup:", "a=sctp-port:", "a=max-message-size:",
    "a=ice-options:", "a=msid-semantic:", "a=candidate:"
  ]

  const FINGERPRINT := "a=fingerprint:sha-256 "
  const CANDIDATE := "a=candidate:"
  const LOCAL := ".local"
  const LINE_END := "\r\n"

  const MAX_SDP_BYTES := 65_536
  const MAX_LINES := 1_024
  const TWO_32 := 0x1_0000_0000
  const TWO_64 := 0x1_0000_0000_0000_0000

  /** Which branch a line takes, with what it writes. */
  datatype Item =
    | Raw(line: string)
    | Constant(place: nat)
    | Fingerprint(digest: seq<byte>)
    | Candidate(foundation: string, priority: nat, host: seq<byte>, port: nat, cost: nat)
    | Origin(session: nat, version: nat)
    | Prefixed(place: nat, suffix: string)

  // ---- classification ----

  function PlaceOf(list: seq<string>, line: string): (r: Option<nat>)
    ensures r.Some? ==> r.value < |list| && list[r.value] == line
  {
    if list == [] then None
    else
      match PlaceOf(list[..|list| - 1], line)
      case Some(i) => Some(i)
      case None => if list[|list| - 1] == line then Some(|list| - 1) else None
  }

  function PrefixOf(list: seq<string>, line: string): (r: Option<nat>)
    ensures r.Some? ==> r.value < |list| && StartsWith(line, list[r.value])
  {
    if list == [] then None
    else
      match PrefixOf(list[..|list| - 1], line)
      case Some(i) => Some(i)
      case None => if StartsWith(line, list[|list| - 1]) then Some(|list| - 1) else None
  }

  /** A decimal of at most so many digits, as the patterns of the source bound them. */
  predicate Number(text: string, digits: nat) {
    IsDecimal(text) && |text| <= digits
  }

  predicate Positive(text: string, digits: nat) {
    Number(text, digits) && text[0] != '0'
  }

  predicate Printable(text: string) {
    forall c :: c in text ==> '!' <= c <= '~'
  }

  predicate HostField(text: string) {
    |text| == 36 + |LOCAL| && text[36..] == LOCAL && IsUuid(text[..36])
  }

  /** The twelve fields of a candidate line: the captures of its pattern hold no spaces. */
  predicate CandidateFields(fields: seq<string>) {
    && |fields| == 12
    && StartsWith(fields[0], CANDIDATE) && 1 <= |fields[0]| - |CANDIDATE| <= 32 && Printable(fields[0][|CANDIDATE|..])
    && fields[1] == "1" && fields[2] == "udp"
    && Positive(fields[3], 10) && ToNumber(fields[3]) < TWO_32
    && HostField(fields[4])
    && Positive(fields[5], 5) && ToNumber(fields[5]) < 65536
    && fields[6] == "typ" && fields[7] == "host" && fields[8] == "generation" && fields[9] == "0"
    && fields[10] == "network-cost"
    && Number(fields[11], 5) && ToNumber(fields[11]) < 65536
  }

  function CandidateOf(fields: seq<string>): (r: Item)
    requires CandidateFields(fields)
    ensures r.Candidate? && |r.host| == 16
  {
    UuidBack(fields[4][..36]);
    Candidate(fields[0][|CANDIDATE|..], ToNumber(fields[3]), HexBytes(RemoveAll(fields[4][..36], '-')),
              ToNumber(fields[5]), ToNumber(fields[11]))
  }

  predicate OriginFields(fields: seq<string>) {
    && |fields| == 6
    && fields[0] == "o=-" && fields[3] == "IN" && fields[4] == "IP4" && fields[5] == "127.0.0.1"
    && Number(fields[1], 20) && ToNumber(fields[1]) < TWO_64
    && Number(fields[2], 10) && ToNumber(fields[2]) < TWO_32
  }

  predicate IsFingerprint(line: string) {
    StartsWith(line, FINGERPRINT) && IsPairs(line[|FINGERPRINT|..], 32)
  }

  function FingerprintOf(line: string): (r: Item)
    requires IsFingerprint(line)
    ensures r.Fingerprint? && |r.digest| == 32
  {
    PairsBack(line[|FINGERPRINT|..], 32);
    Fingerprint(HexBytes(RemoveAll(line[|FINGERPRINT|..], ':')))
  }

  function Classify(line: string): Item {
    var constant := PlaceOf(CONSTANTS, line);
    if constant.Some? then Constant(constant.value)
    else if IsFingerprint(line) then FingerprintOf(line)
    else
      var fields := Split(line, " ");
      if CandidateFields(fields) then CandidateOf(fields)
      else if OriginFields(fields) then Origin(ToNumber(fields[1]), ToNumber(fields[2]))
      else
        match PrefixOf(PREFIXES, line)
        case Some(i) => Prefixed(i, line[|PREFIXES[i]|..])
        case None => Raw(line)
  }

  // ---- writing ----

  /** Numbers as the writer pushes them: shifts and masks of an unsigned 32-bit value. */
  function U16(value: nat): (r: seq<nat>) {
    [value % TWO_32 / 256, value % 256]
  }

  function U32(value: nat): (r: seq<nat>) {
    [value % TWO_32 / 0x100_0000, value % TWO_32 / 0x1_0000 % 256, value % TWO_32 / 256 % 256, value % 256]
  }

  /** A right shift by so many bytes. */
  function Shifted(value: nat, places: nat): nat {
    if places == 0 then value else Shifted(value, places - 1) / 256
  }

  function U64(value: nat): (r: seq<nat>)
    ensures |r| == 8 && forall i :: 0 <= i < 8 ==> r[i] == Shifted(value, 7 - i) % 256
  {
    seq(8, i requires 0 <= i < 8 => Shifted(value, 7 - i) % 256)
  }

  function Data(bytes: seq<byte>): (r: seq<nat>)
    ensures |r| == |bytes| && forall i :: 0 <= i < |r| ==> r[i] == bytes[i]
  {
    seq(|bytes|, i requires 0 <= i < |bytes| => bytes[i] as nat)
  }

  function TextData(text: string): seq<nat> {
    U16(|Utf8.Encode(text)|) + Data(Utf8.Encode(text))
  }

  function Written(item: Item): seq<nat> {
    match item
    case Constant(place) => [1, place]
    case Fingerprint(digest) => [2] + Data(digest)
    case Candidate(foundation, priority, host, port, cost) =>
      [3, |foundation|] + Data(Utf8.Encode(foundation)) + U32(priority) + Data(host) + U16(port) + U16(cost)
    case Origin(session, version) => [4] + U64(session) + U32(version)
    case Prefixed(place, suffix) => [5, place] + TextData(suffix)
    case Raw(line) => [0] + TextData(line)
  }

  function WrittenAll(lines: seq<string>): seq<nat> {
    if lines == [] then [] else WrittenAll(lines[..|lines| - 1]) + Written(Classify(lines[|lines| - 1]))
  }

  /** A typed array keeps the low eight bits of each number. */
  function Truncated(numbers: seq<nat>): (r: seq<byte>)
    ensures |r| == |numbers| && forall i :: 0 <= i < |r| ==> r[i] == numbers[i] % 256
  {
    seq(|numbers|, i requires 0 <= i < |numbers| => (numbers[i] % 256) as byte)
  }

  predicate EndsWith(text: string, suffix: string) {
    |suffix| <= |text| && text[|text| - |suffix|..] == suffix
  }

  function LinesOf(sdp: string): seq<string> {
    if EndsWith(sdp, LINE_END) then Split(sdp[..|sdp| - |LINE_END|], LINE_END) else []
  }

  /** Only complete lines, without a bare line feed, take the compact form. */
  predicate LineByLine(lines: seq<string>) {
    1 <= |lines| <= MAX_LINES && forall line :: line in lines ==> '\n' !in line
  }

  function Compact(lines: seq<string>): seq<byte> {
    Truncated([1] + U16(|lines|) + WrittenAll(lines))
  }

  function Literal(sdp: string): seq<byte> {
    Truncated([0] + Data(Utf8.Encode(sdp)))
  }

  /** The compact form is used only when it is shorter. */
  predicate UsesCompact(sdp: string) {
    LineByLine(LinesOf(sdp)) && |Compact(LinesOf(sdp))| < |Utf8.Encode(sdp)| + 1
  }

  function Wire(sdp: string): Result<seq<byte>> {
    if |Utf8.Encode(sdp)| > MAX_SDP_BYTES then Err("range")
    else if UsesCompact(sdp) then Ok(Compact(LinesOf(sdp)))
    else Ok(Literal(sdp))
  }

  // ---- reading ----

  /** A value read, and where the reader stands after it. */
  datatype Got<+T> = Got(value: T, next: nat) | Invalid

  function GetByte(bytes: seq<byte>, at: nat): Got<nat> {
    if at < |bytes| then Got(bytes[at] as nat, at + 1) else Invalid
  }

  function GetU16(bytes: seq<byte>, at: nat): Got<nat> {
    if at + 2 <= |bytes| then Got(bytes[at] as nat * 256 + bytes[at + 1] as nat, at + 2) else Invalid
  }

  function GetU32(bytes: seq<byte>, at: nat): Got<nat> {
    if at + 4 <= |bytes|
    then Got((bytes[at] as nat * 0x100_0000 + bytes[at + 1] as nat * 0x1_0000 + bytes[at + 2] as nat * 256
              + bytes[at + 3] as nat) % TWO_32, at + 4)
    else Invalid
  }

  /** The bytes so far, most significant first. */
  function Folded(bytes: seq<byte>): nat {
    if bytes == [] then 0 else Folded(bytes[..|bytes| - 1]) * 256 + bytes[|bytes| - 1] as nat
  }

  function GetU64(bytes: seq<byte>, at: nat): Got<nat> {
    if at + 8 <= |bytes| then Got(Folded(bytes[at..at + 8]), at + 8) else Invalid
  }

  function GetData(bytes: seq<byte>, at: nat, length: nat): (r: Got<seq<byte>>)
    ensures r.Got? ==> |r.value| == length
  {
    if at + length <= |bytes| then Got(bytes[at..at + length], at + length) else Invalid
  }

  function GetText(bytes: seq<byte>, at: nat, length: nat): Got<string> {
    match GetData(bytes, at, length)
    case Invalid => Invalid
    case Got(data, next) =>
      match Utf8.Decode(data)
      case None => Invalid
      case Some(text) => Got(text, next)
  }

  function GetCounted(bytes: seq<byte>, at: nat): Got<string> {
    match GetU16(bytes, at)
    case Invalid => Invalid
    case Got(length, next) => GetText(bytes, next, length)
  }

  function CandidateText(foundation: string, priority: nat, host: seq<byte>, port: nat, cost: nat): string
    requires |host| == 16
  {
    Join([CANDIDATE + foundation, "1", "udp", Decimal(priority), Uuid(host) + LOCAL, Decimal(port), "typ", "host",
          "generation", "0",
          "network-cost", Decimal(cost)], " ")
  }

  function OriginText(session: nat, version: nat): string {
    Join(["o=-", Decimal(session), Decimal(version), "IN", "IP4", "127.0.0.1"], " ")
  }

  function FingerprintText(digest: seq<byte>): string {
    FINGERPRINT + Join(PairTexts(digest), ":")
  }

  function GetCandidate(bytes: seq<byte>, at: nat): Got<string> {
    match GetByte(bytes, at)
    case Invalid => Invalid
    case Got(length, a) =>
      match GetText(bytes, a, length)
      case Invalid => Invalid
      case Got(foundation, b) =>
        match GetU32(bytes, b)
        case Invalid => Invalid
        case Got(priority, c) =>
          match GetData(bytes, c, 16)
          case Invalid => Invalid
          case Got(host, d) =>
            match GetU16(bytes, d)
            case Invalid => Invalid
            case Got(port, e) =>
              match GetU16(bytes, e)
              case Invalid => Invalid
              case Got(cost, f) => Got(CandidateText(foundation, priority, host, port, cost), f)
  }

  function GetOrigin(bytes: seq<byte>, at: nat): Got<string> {
    match GetU64(bytes, at)
    case Invalid => Invalid
    case Got(session, a) =>
      match GetU32(bytes, a)
      case Invalid => Invalid
      case Got(version, b) => Got(OriginText(session, version), b)
  }

  function GetFingerprint(bytes: seq<byte>, at: nat): Got<string> {
    match GetData(bytes, at, 32)
    case Invalid => Invalid
    case Got(digest, next) => Got(FingerprintText(digest), next)
  }

  function GetConstant(bytes: seq<byte>, at: nat): Got<string> {
    match GetByte(bytes, at)
    case Invalid => Invalid
    case Got(place, next) => if place < |CONSTANTS| then Got(CONSTANTS[place], next) else Invalid
  }

  function GetPrefixed(bytes: seq<byte>, at: nat): Got<string> {
    match GetByte(bytes, at)
    case Invalid => Invalid
    case Got(place, a) =>
      if place >= |PREFIXES| then Invalid
      else
        match GetCounted(bytes, a)
        case Invalid => Invalid
        case Got(suffix, b) => Got(PREFIXES[place] + suffix, b)
  }

  function GetLine(bytes: seq<byte>, at: nat): Got<string> {
    match GetByte(bytes, at)
    case Invalid => Invalid
    case Got(tag, a) =>
      if tag == 0 then GetCounted(bytes, a)
      else if tag == 1 then GetConstant(bytes, a)
      else if tag == 2 then GetFingerprint(bytes, a)
      else if tag == 3 then GetCandidate(bytes, a)
      else if tag == 4 then GetOrigin(bytes, a)
      else if tag == 5 then GetPrefixed(bytes, a)
      else Invalid
  }

  function GetLines(bytes: seq<byte>, at: nat, count: nat): Got<seq<string>> {
    if count == 0 then Got([], at)
    else
      match GetLines(bytes, at, count - 1)
      case Invalid => Invalid
      case Got(lines, a) =>
        match GetLine(bytes, a)
        case Invalid => Invalid
        case Got(line, b) => Got(lines + [line], b)
  }

  /** Everything between the mode byte and the end must be lines, and the text must fit again. */
  function ReadCompact(bytes: seq<byte>): Result<string> {
    match GetU16(bytes, 1)
    case Invalid => Err("invalid")
    case Got(count, a) =>
      if count < 1 || count > MAX_LINES then Err("invalid")
      else
        match GetLines(bytes, a, count)
        case Invalid => Err("invalid")
        case Got(lines, b) =>
          var sdp := Join(lines, LINE_END) + LINE_END;
          if b != |bytes| || |Utf8.Encode(sdp)| > MAX_SDP_BYTES then Err("invalid") else Ok(sdp)
  }

  function Read(bytes: seq<byte>): Result<string> {
    if |bytes| < 2 || |bytes| > MAX_SDP_BYTES + 1 then Err("invalid")
    else if bytes[0] == 0 then
      match GetText(bytes, 1, |bytes| - 1)
      case Invalid => Err("invalid")
      case Got(text, _) => Ok(text)
    else if bytes[0] == 1 then ReadCompact(bytes)
    else Err("invalid")
  }
}
