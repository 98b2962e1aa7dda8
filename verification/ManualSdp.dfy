/**
 * The writer, the reader and the loops of the manual session description wire (packages/p2p/src/manual-sdp-codec.ts).
 */
module ManualSdp {
  import opened Results
  import opened Octets
  import opened SdpText
  import opened SdpWire
  import opened SdpRoundTrip
  import Utf8

  class Writer {
    var bytes: seq<nat>

    constructor ()
      ensures bytes == []
    {
      bytes := [];
    }

    method Byte(value: nat)
      modifies this
      ensures bytes == old(bytes) + [value]
    {
      bytes := bytes + [value];
    }

    method Write16(value: nat)
      modifies this
      ensures bytes == old(bytes) + U16(value)
    {
      bytes := bytes + [value % TWO_32 / 256, value % 256];
    }

    method Write32(value: nat)
      modifies this
      ensures bytes == old(bytes) + U32(value)
    {
      bytes := bytes + [value % TWO_32 / 0x100_0000, value % TWO_32 / 0x1_0000 % 256, value % TWO_32 / 256 % 256,
                        value % 256];
    }

    method Write(value: seq<byte>)
      modifies this
      ensures bytes == old(bytes) + Data(value)
    {
      for i := 0 to |value|
        invariant bytes == old(bytes) + Data(value[..i])
      {
        assert Data(value[..i + 1]) == Data(value[..i]) + [value[i] as nat];
        bytes := bytes + [value[i] as nat];
      }
      assert value[..|value|] == value;
    }

    function Output(): seq<byte>
      reads this
    {
      Truncated(bytes)
    }
  }

  class Reader {
    const bytes: seq<byte>
    var offset: nat

    constructor (bytes: seq<byte>)
      ensures this.bytes == bytes && offset == 0
    {
      this.bytes, offset := bytes, 0;
    }

    /** The reader moved from a place by a read, or the read failed. */
    ghost predicate Moved<T(!new)>(from: nat, r: Result<T>, got: Got<T>)
      reads this
    {
      match got
      case Invalid => r.Err?
      case Got(value, next) => r == Ok(value) && offset == next
    }

    method Byte() returns (r: Result<nat>)
      modifies this
      ensures Moved(old(offset), r, GetByte(bytes, old(offset)))
    {
      if offset >= |bytes| {
        return Err("invalid");
      }
      offset := offset + 1;
      return Ok(bytes[offset - 1] as nat);
    }

    method Read16() returns (r: Result<nat>)
      modifies this
      ensures Moved(old(offset), r, GetU16(bytes, old(offset)))
    {
      var high := Byte();
      var low := Byte();
      if high.Err? || low.Err? {
        return Err("invalid");
      }
      return Ok(high.value * 256 + low.value);
    }

    method Read32() returns (r: Result<nat>)
      modifies this
      ensures Moved(old(offset), r, GetU32(bytes, old(offset)))
    {
      var a := Byte();
      var b := Byte();
      var c := Byte();
      var d := Byte();
      if a.Err? || b.Err? || c.Err? || d.Err? {
        return Err("invalid");
      }
      return Ok((a.value * 0x100_0000 + b.value * 0x1_0000 + c.value * 256 + d.value) % TWO_32);
    }

    method Take(length: nat) returns (r: Result<seq<byte>>)
      modifies this
      ensures Moved(old(offset), r, GetData(bytes, old(offset), length))
    {
      if offset + length > |bytes| {
        return Err("invalid");
      }
      r := Ok(bytes[offset..offset + length]);
      offset := offset + length;
    }

    method Text(length: nat) returns (r: Result<string>)
      modifies this
      ensures Moved(old(offset), r, GetText(bytes, old(offset), length))
    {
      var data := Take(length);
      if data.Err? {
        return Err("invalid");
      }
      var text := Utf8.Decode(data.value);
      if text.None? {
        return Err("invalid");
      }
      return Ok(text.value);
    }

    method Counted() returns (r: Result<string>)
      modifies this
      ensures Moved(old(offset), r, GetCounted(bytes, old(offset)))
    {
      hide GetText, GetU16;
      var length := Read16();
      if length.Err? {
        return Err("invalid");
      }
      r := Text(length.value);
    }

    /** Eight bytes, shifted in one by one. */
    method Session() returns (r: Result<nat>)
      modifies this
      ensures Moved(old(offset), r, GetU64(bytes, old(offset)))
    {
      var session, start := 0, offset;
      for j := 0 to 8
        invariant offset == start + j && (j > 0 ==> offset <= |bytes|)
        invariant session == if j == 0 then 0 else Folded(bytes[start..offset])
      {
        var next := Byte();
        if next.Err? {
          return Err("invalid");
        }
        assert bytes[start..start] == [];
        assert bytes[start..offset] == bytes[start..offset - 1] + [bytes[offset - 1]];
        FoldedPush(bytes[start..offset - 1], bytes[offset - 1]);
        session := session * 256 + next.value;
      }
      return Ok(session);
    }

    method Candidate() returns (r: Result<string>)
      modifies this
      ensures Moved(old(offset), r, GetCandidate(bytes, old(offset)))
    {
      hide GetByte, GetText, GetU32, GetU16, GetData, CandidateText;
      var length := Byte();
      if length.Err? {
        return Err("invalid");
      }
      var foundation := Text(length.value);
      if foundation.Err? {
        return Err("invalid");
      }
      var priority := Read32();
      if priority.Err? {
        return Err("invalid");
      }
      var host := Take(16);
      if host.Err? {
        return Err("invalid");
      }
      var port := Read16();
      if port.Err? {
        return Err("invalid");
      }
      var cost := Read16();
      if cost.Err? {
        return Err("invalid");
      }
      return Ok(CandidateText(foundation.value, priority.value, host.value, port.value, cost.value));
    }

    /** One line, by its tag. */
    method Line() returns (r: Result<string>)
      modifies this
      ensures Moved(old(offset), r, GetLine(bytes, old(offset)))
    {
      hide GetByte, GetCounted, GetData, GetCandidate, GetU64, GetU32, OriginText, FingerprintText;
      var tag := Byte();
      if tag.Err? {
        return Err("invalid");
      }
      match tag.value {
        case 0 =>
          r := Counted();
        case 1 =>
          var place := Byte();
          if place.Err? || place.value >= |CONSTANTS| {
            return Err("invalid");
          }
          r := Ok(CONSTANTS[place.value]);
        case 2 =>
          var digest := Take(32);
          if digest.Err? {
            return Err("invalid");
          }
          r := Ok(FingerprintText(digest.value));
        case 3 =>
          r := Candidate();
        case 4 =>
          var session := Session();
          if session.Err? {
            return Err("invalid");
          }
          var version := Read32();
          if version.Err? {
            return Err("invalid");
          }
          r := Ok(OriginText(session.value, version.value));
        case 5 =>
          var place := Byte();
          if place.Err? || place.value >= |PREFIXES| {
            return Err("invalid");
          }
          var suffix := Counted();
          if suffix.Err? {
            return Err("invalid");
          }
          r := Ok(PREFIXES[place.value] + suffix.value);
        case _ =>
          r := Err("invalid");
      }
    }
  }

  method WriteCandidate(writer: Writer, item: Item)
    requires item.Candidate?
    modifies writer
    ensures writer.bytes == old(writer.bytes) + Written(item)
  {
    hide U16, U32, Utf8.Encode, Data;
    var Candidate(foundation, priority, host, port, cost) := item;
    ghost var start := writer.bytes;
    writer.Byte(3);
    writer.Byte(|foundation|);
    ghost var text := [3, |foundation|] + Data(Utf8.Encode(foundation));
    writer.Write(Utf8.Encode(foundation));
    assert writer.bytes == start + text;
    writer.Write32(priority);
    assert writer.bytes == start + (text + U32(priority));
    writer.Write(host);
    assert writer.bytes == start + (text + U32(priority) + Data(host));
    writer.Write16(port);
    assert writer.bytes == start + (text + U32(priority) + Data(host) + U16(port));
    writer.Write16(cost);
    assert writer.bytes == start + (text + U32(priority) + Data(host) + U16(port) + U16(cost));
  }

  /** The session as eight bytes, the most significant first. */
  method WriteOrigin(writer: Writer, session: nat, version: nat)
    modifies writer
    ensures writer.bytes == old(writer.bytes) + ([4] + U64(session) + U32(version))
  {
    hide U32;
    writer.Byte(4);
    ghost var before := writer.bytes;
    for place := 0 to 8
      invariant writer.bytes == before + U64(session)[..place]
    {
      assert U64(session)[..place + 1] == U64(session)[..place] + [U64(session)[place]];
      writer.Byte(Shifted(session, 7 - place) % 256);
    }
    assert U64(session)[..8] == U64(session);
    writer.Write32(version);
  }

  /** Writes one line in the shortest form its pattern allows. */
  method WriteLine(writer: Writer, line: string)
    modifies writer
    ensures writer.bytes == old(writer.bytes) + Written(Classify(line))
  {
    hide Classify, U16, U32, U64, Utf8.Encode;
    var item := Classify(line);
    match item {
      case Constant(place) =>
        writer.Byte(1);
        writer.Byte(place);
      case Fingerprint(digest) =>
        writer.Byte(2);
        writer.Write(digest);
      case Candidate(_, _, _, _, _) =>
        WriteCandidate(writer, item);
      case Origin(session, version) =>
        WriteOrigin(writer, session, version);
      case Prefixed(place, suffix) =>
        writer.Byte(5);
        writer.Byte(place);
        writer.Write16(|Utf8.Encode(suffix)|);
        writer.Write(Utf8.Encode(suffix));
      case Raw(_) =>
        writer.Byte(0);
        writer.Write16(|Utf8.Encode(item.line)|);
        writer.Write(Utf8.Encode(item.line));
    }
  }

  method EncodeManualSdpWire(sdp: string) returns (r: Result<seq<byte>>)
    ensures r == Wire(sdp)
  {
    hide Classify, Written, LinesOf, Utf8.Encode;
    var raw := Utf8.Encode(sdp);
    if |raw| > MAX_SDP_BYTES {
      return Err("range");
    }
    var plain := new Writer();
    plain.Byte(0);
    plain.Write(raw);
    assert plain.bytes == [0] + Data(raw);
    var lines := LinesOf(sdp);
    if !LineByLine(lines) {
      return Ok(plain.Output());
    }
    var writer := new Writer();
    writer.Byte(1);
    writer.Write16(|lines|);
    for i := 0 to |lines|
      invariant plain.bytes == [0] + Data(raw)
      invariant writer.bytes == [1] + U16(|lines|) + WrittenAll(lines[..i])
    {
      assert lines[..i + 1][..i] == lines[..i];
      WriteLine(writer, lines[i]);
    }
    assert lines[..|lines|] == lines;
    var compact := writer.Output();
    return Ok(if |compact| < |raw| + 1 then compact else plain.Output());
  }

  lemma {:induction false} FailedLineFails(bytes: seq<byte>, at: nat, done: nat, count: nat)
    requires done <= count && GetLines(bytes, at, done).Invalid?
    ensures GetLines(bytes, at, count).Invalid?
    decreases count
  {
    if done < count {
      FailedLineFails(bytes, at, done, count - 1);
    }
  }

  method DecodeManualSdpWire(bytes: seq<byte>) returns (r: Result<string>)
    ensures r.Ok? <==> Read(bytes).Ok?
    ensures r.Ok? ==> r == Read(bytes)
  {
    hide GetLine, GetText, GetU16, Utf8.Encode;
    if |bytes| < 2 || |bytes| > MAX_SDP_BYTES + 1 {
      return Err("invalid");
    }
    var reader := new Reader(bytes);
    var mode := reader.Byte();
    if mode.value == 0 {
      r := reader.Text(|bytes| - 1);
      return;
    }
    if mode.value != 1 {
      return Err("invalid");
    }
    var count := reader.Read16();
    if count.Err? || count.value < 1 || count.value > MAX_LINES {
      return Err("invalid");
    }
    ghost var start := reader.offset;
    var lines: seq<string> := [];
    for i := 0 to count.value
      invariant GetLines(bytes, start, i) == Got(lines, reader.offset)
    {
      var line := reader.Line();
      if line.Err? {
        FailedLineFails(bytes, start, i + 1, count.value);
        return Err("invalid");
      }
      lines := lines + [line.value];
    }
    if reader.offset != |bytes| {
      return Err("invalid");
    }
    var sdp := Join(lines, LINE_END) + LINE_END;
    if |Utf8.Encode(sdp)| > MAX_SDP_BYTES {
      return Err("invalid");
    }
    return Ok(sdp);
  }
}
