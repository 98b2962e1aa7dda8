/** Splitting messages into frames and putting them together again (packages/p2p/src/framing.ts). */
module Framing {
  import opened Results
  import opened Octets
  import opened OrderedMaps

  const MAX_MESSAGE_BYTES := 1_048_576
  const MAX_FRAME_BYTES := 16_384
  const FRAME_HEADER_BYTES := 8
  const FRAME_PAYLOAD_BYTES := MAX_FRAME_BYTES - FRAME_HEADER_BYTES
  const MAX_FRAMES := (MAX_MESSAGE_BYTES + FRAME_PAYLOAD_BYTES - 1) / FRAME_PAYLOAD_BYTES
  const MAX_PARTIAL_MESSAGES := 8
  const MAX_PARTIAL_BYTES := 2 * MAX_MESSAGE_BYTES
  const PARTIAL_TTL_MS := 30_000
  const RECENT_IDS := 64
  const MAX_ID := 0xffff_ffff

  type Chunks = seq<Entry<nat, seq<byte>>>

  datatype Partial = Partial(count: nat, chunks: Chunks, bytes: nat, expires: int)

  datatype Done = Done(count: nat, hashes: seq<Entry<nat, nat>>)

  datatype State = State(partialBytes: int, partial: seq<Entry<nat, Partial>>, completed: seq<Entry<nat, Done>>)

  /** A call's new state with what it returns or throws; a throw keeps the changes made before it. */
  datatype Outcome = Outcome(state: State, result: Result<Option<seq<byte>>>)

  const EMPTY := State(0, [], [])

  // ---- frames ----

  /** `n` bytes, most significant first. */
  function BigEndian(x: nat, n: nat): (r: seq<byte>)
    ensures |r| == n
  {
    if n == 0 then [] else BigEndian(x / 256, n - 1) + [x % 256]
  }

  function FromBigEndian(bytes: seq<byte>): nat {
    if bytes == [] then 0 else FromBigEndian(bytes[..|bytes| - 1]) * 256 + bytes[|bytes| - 1]
  }

  function Pow256(n: nat): (r: nat)
    ensures r > 0
  {
    if n == 0 then 1 else 256 * Pow256(n - 1)
  }

  lemma {:induction false} BigEndianRoundTrip(x: nat, n: nat)
    requires x < Pow256(n)
    ensures FromBigEndian(BigEndian(x, n)) == x
  {
    if n > 0 {
      BigEndianRoundTrip(x / 256, n - 1);
      assert BigEndian(x, n)[..n - 1] == BigEndian(x / 256, n - 1);
    }
  }

  function FrameCount(length: nat): (r: nat)
    ensures r >= 1
    ensures r == 1 || (r - 1) * FRAME_PAYLOAD_BYTES < length
    ensures length <= r * FRAME_PAYLOAD_BYTES
  {
    if length == 0 then 1 else (length + FRAME_PAYLOAD_BYTES - 1) / FRAME_PAYLOAD_BYTES
  }

  function Min(a: int, b: int): int {
    if a < b then a else b
  }

  function Payload(message: seq<byte>, index: nat): (r: seq<byte>)
    requires index < FrameCount(|message|)
    ensures |r| <= FRAME_PAYLOAD_BYTES
  {
    message[index * FRAME_PAYLOAD_BYTES..Min((index + 1) * FRAME_PAYLOAD_BYTES, |message|)]
  }

  function EncodeFrame(id: nat, index: nat, count: nat, payload: seq<byte>): (r: seq<byte>)
    ensures |r| == FRAME_HEADER_BYTES + |payload|
  {
    BigEndian(id, 4) + BigEndian(index, 2) + BigEndian(count, 2) + payload
  }

  datatype Header = Header(id: nat, index: nat, count: nat)

  function ReadHeader(frame: seq<byte>): Header
    requires |frame| >= FRAME_HEADER_BYTES
  {
    Header(FromBigEndian(frame[0..4]), FromBigEndian(frame[4..6]), FromBigEndian(frame[6..8]))
  }

  lemma FrameRoundTrip(id: nat, index: nat, count: nat, payload: seq<byte>)
    requires id <= MAX_ID && index < 65536 && count < 65536
    ensures var frame := EncodeFrame(id, index, count, payload);
      ReadHeader(frame) == Header(id, index, count) && frame[FRAME_HEADER_BYTES..] == payload
  {
    var frame := EncodeFrame(id, index, count, payload);
    assert Pow256(2) == 65536 && Pow256(4) == 65536 * 65536 by {
      assert Pow256(1) == 256 && Pow256(2) == 256 * Pow256(1) && Pow256(3) == 256 * Pow256(2)
        && Pow256(4) == 256 * Pow256(3);
    }
    BigEndianRoundTrip(id, 4);
    BigEndianRoundTrip(index, 2);
    BigEndianRoundTrip(count, 2);
    assert frame[0..4] == BigEndian(id, 4) && frame[4..6] == BigEndian(index, 2) && frame[6..8] == BigEndian(count, 2);
  }

  /** The header of a frame, byte by byte. */
  lemma HeaderBytes(id: nat, index: nat, count: nat, payload: seq<byte>)
    requires id <= MAX_ID && index < 65536 && count < 65536
    ensures EncodeFrame(id, index, count, payload)
      == [id / 0x100_0000, id / 0x1_0000 % 256, id / 256 % 256, id % 256, index / 256, index % 256, count / 256,
          count % 256] + payload
  {
    TwoBytes(index);
    TwoBytes(count);
    TwoBytes(id / 65536);
    TwoBytes(id % 65536);
    assert BigEndian(id, 4) == BigEndian(id / 65536, 2) + [id / 256 % 256] + [id % 256];
  }

  lemma TwoBytes(x: nat)
    requires x < 65536
    ensures BigEndian(x, 2) == [x / 256, x % 256]
  {
    assert BigEndian(x / 256, 1) == BigEndian(x / 65536, 0) + [x / 256 % 256];
  }

  // ---- reassembly, one call ----

  function Live(partial: seq<Entry<nat, Partial>>, now: int): seq<Entry<nat, Partial>> {
    Select((e: Entry<nat, Partial>) => e.value.expires > now, partial)
  }

  function SumBytes(partial: seq<Entry<nat, Partial>>): nat {
    if partial == [] then 0 else partial[0].value.bytes + SumBytes(partial[1..])
  }

  /** Drops every partial message whose time is over. */
  function Expire(s: State, now: int): State {
    s.(partial := Live(s.partial, now),
       partialBytes := s.partialBytes - (SumBytes(s.partial) - SumBytes(Live(s.partial, now))))
  }

  function ExpiredCount(s: State, now: int): int {
    |s.partial| - |Live(s.partial, now)|
  }

  /** The chunks of parts `0` to `k`, joined; a missing part contributes nothing. */
  function Joined(chunks: Chunks, k: nat): seq<byte> {
    if k == 0 then []
    else
      Joined(chunks, k - 1) + match Lookup(chunks, k - 1) case Some(chunk) => chunk case None => []
  }

  function Hashes(chunks: Chunks, hash: seq<byte> -> nat): (r: seq<Entry<nat, nat>>)
    ensures |r| == |chunks| && forall i :: 0 <= i < |r| ==> r[i] == Entry(chunks[i].key, hash(chunks[i].value))
  {
    seq(|chunks|, i requires 0 <= i < |chunks| => Entry(chunks[i].key, hash(chunks[i].value)))
  }

  /** Remembers a completed message, forgetting the oldest beyond the window. */
  function Remember(completed: seq<Entry<nat, Done>>, id: nat, done: Done): seq<Entry<nat, Done>> {
    var more := Put(completed, id, done);
    if |more| > RECENT_IDS then more[1..] else more
  }

  predicate WellFormedFrame(frame: seq<byte>) {
    FRAME_HEADER_BYTES <= |frame| <= MAX_FRAME_BYTES
  }

  predicate ValidHeader(h: Header) {
    h.count != 0 && h.count <= MAX_FRAMES && h.index < h.count
  }

  function Complete(s: State, id: nat, p: Partial, hash: seq<byte> -> nat): State {
    State(s.partialBytes - p.bytes, Remove(s.partial, id),
          Remember(s.completed, id, Done(p.count, Hashes(p.chunks, hash))))
  }

  /** A new chunk: the limits, then the bookkeeping, then the message when nothing is missing. */
  function AddChunk(s: State, h: Header, payload: seq<byte>, p: Partial, now: int, hash: seq<byte> -> nat): Outcome {
    if p.bytes + |payload| > MAX_MESSAGE_BYTES
       || s.partialBytes + |payload| > MAX_PARTIAL_BYTES then Outcome(s, Err("limit"))
    else
      var next := Partial(p.count, Put(p.chunks, h.index, payload), p.bytes + |payload|, now + PARTIAL_TTL_MS);
      var stored := s.(partial := Put(s.partial, h.id, next), partialBytes := s.partialBytes + |payload|);
      if |next.chunks| != h.count then Outcome(stored, Ok(None))
      else Outcome(Complete(stored, h.id, next, hash), Ok(Some(Joined(next.chunks, h.count))))
  }

  function AcceptPending(s: State, h: Header, payload: seq<byte>, p: Partial, now: int,
                         hash: seq<byte> -> nat): Outcome {
    if p.count != h.count then Outcome(s, Err("count"))
    else
      match Lookup(p.chunks, h.index)
      case Some(prior) =>
        if prior != payload then Outcome(s, Err("duplicate"))
        else Outcome(s.(partial := Put(s.partial, h.id, p.(expires := now + PARTIAL_TTL_MS))), Ok(None))
      case None => AddChunk(s, h, payload, p, now, hash)
  }

  function AcceptFrame(s: State, h: Header, payload: seq<byte>, now: int, hash: seq<byte> -> nat): Outcome {
    match Lookup(s.completed, h.id)
    case Some(done) =>
      if done.count != h.count || Lookup(done.hashes, h.index) != Some(hash(payload)) then Outcome(s, Err("completed"))
      else Outcome(s, Ok(None))
    case None =>
      match Lookup(s.partial, h.id)
      case Some(p) => AcceptPending(s, h, payload, p, now, hash)
      case None =>
        if |s.partial| >= MAX_PARTIAL_MESSAGES then Outcome(s, Err("partials"))
        else
          var p := Partial(h.count, [], 0, now + PARTIAL_TTL_MS);
          AcceptPending(s.(partial := Put(s.partial, h.id, p)), h, payload, p, now, hash)
  }

  function Accept(s: State, frame: seq<byte>, now: int, hash: seq<byte> -> nat): Outcome {
    if !WellFormedFrame(frame) then Outcome(s, Err("frame"))
    else
      var live := Expire(s, now);
      if ExpiredCount(s, now) > 0 then Outcome(live, Err("timeout"))
      else if !ValidHeader(ReadHeader(frame)) then Outcome(live, Err("indices"))
      else AcceptFrame(live, ReadHeader(frame), frame[FRAME_HEADER_BYTES..], now, hash)
  }

  // ---- the invariant of a framer ----

  function SumLengths(chunks: Chunks): nat {
    if chunks == [] then 0 else |chunks[0].value| + SumLengths(chunks[1..])
  }

  /** A message still missing a part, with its exact size. */
  predicate PartialInv(p: Partial) {
    && 1 <= p.count <= MAX_FRAMES && |p.chunks| < p.count && UniqueKeys(p.chunks)
    && (forall i :: 0 <= i < |p.chunks| ==> p.chunks[i].key < p.count)
    && p.bytes == SumLengths(p.chunks) && p.bytes <= MAX_MESSAGE_BYTES
  }

  predicate FramerInv(s: State) {
    && UniqueKeys(s.partial) && UniqueKeys(s.completed)
    && |s.partial| <= MAX_PARTIAL_MESSAGES && |s.completed| <= RECENT_IDS
    && (forall i :: 0 <= i < |s.partial| ==> PartialInv(s.partial[i].value))
    && s.partialBytes == SumBytes(s.partial) && s.partialBytes <= MAX_PARTIAL_BYTES
  }

  lemma {:induction false} SumBytesPush(partial: seq<Entry<nat, Partial>>, e: Entry<nat, Partial>)
    ensures SumBytes(partial + [e]) == SumBytes(partial) + e.value.bytes
  {
    if partial == [] {
      assert (partial + [e])[1..] == [];
    } else {
      SumBytesPush(partial[1..], e);
      assert (partial + [e])[1..] == partial[1..] + [e];
    }
  }

  lemma {:induction false} SumLengthsPush(chunks: Chunks, e: Entry<nat, seq<byte>>)
    ensures SumLengths(chunks + [e]) == SumLengths(chunks) + |e.value|
  {
    if chunks == [] {
      assert (chunks + [e])[1..] == [];
    } else {
      SumLengthsPush(chunks[1..], e);
      assert (chunks + [e])[1..] == chunks[1..] + [e];
    }
  }

  function BytesAt(partial: seq<Entry<nat, Partial>>, id: nat): nat {
    match Lookup(partial, id) case Some(p) => p.bytes case None => 0
  }

  lemma {:induction false} SumBytesPut(partial: seq<Entry<nat, Partial>>, id: nat, p: Partial)
    ensures SumBytes(Put(partial, id, p)) == SumBytes(partial) - BytesAt(partial, id) + p.bytes
  {
    if partial != [] {
      if partial[0].key == id {
        assert ([Entry(id, p)] + partial[1..])[1..] == partial[1..];
      } else {
        SumBytesPut(partial[1..], id, p);
        assert ([partial[0]] + Put(partial[1..], id, p))[1..] == Put(partial[1..], id, p);
      }
    }
  }

  lemma {:induction false} SumBytesRemove(partial: seq<Entry<nat, Partial>>, id: nat)
    ensures SumBytes(Remove(partial, id)) == SumBytes(partial) - BytesAt(partial, id)
  {
    if partial != [] && partial[0].key != id {
      SumBytesRemove(partial[1..], id);
      assert ([partial[0]] + Remove(partial[1..], id))[1..] == Remove(partial[1..], id);
    }
  }

  lemma LivePush(front: seq<Entry<nat, Partial>>, e: Entry<nat, Partial>, now: int)
    ensures Live(front + [e], now) == Live(front, now) + if e.value.expires > now then [e] else []
  {
    assert (front + [e])[..|front|] == front;
  }

  lemma LiveSubset(partial: seq<Entry<nat, Partial>>, now: int)
    ensures |Live(partial, now)| <= |partial| && forall e :: e in Live(partial, now) ==> e in partial
  {
  }

  lemma {:induction false} LiveUnique(partial: seq<Entry<nat, Partial>>, now: int)
    requires UniqueKeys(partial)
    ensures UniqueKeys(Live(partial, now))
  {
    hide Live;
    if partial == [] {
      LiveSubset(partial, now);
    } else {
      var front, last := partial[..|partial| - 1], partial[|partial| - 1];
      assert partial == front + [last];
      LiveUnique(front, now);
      LivePush(front, last, now);
      LiveSubset(front, now);
      var live := Live(front, now);
      forall i | 0 <= i < |live| ensures live[i].key != last.key {
        assert live[i] in front;
        var k :| 0 <= k < |front| && front[k] == live[i];
        assert partial[k].key != partial[|front|].key;
      }
    }
  }

  /** Expiry keeps a part of the entries, in their order. */
  lemma {:induction false} LiveFacts(partial: seq<Entry<nat, Partial>>, now: int)
    ensures SumBytes(Live(partial, now)) <= SumBytes(partial)
    ensures |Live(partial, now)| == |partial| ==> Live(partial, now) == partial
  {
    hide Live;
    LiveSubset(partial, now);
    if partial == [] {
      assert Live(partial, now) == [];
    } else {
      var front, last := partial[..|partial| - 1], partial[|partial| - 1];
      assert partial == front + [last];
      LiveFacts(front, now);
      LiveSubset(front, now);
      LivePush(front, last, now);
      SumBytesPush(front, last);
      SumBytesPush(Live(front, now), last);
      assert Live(front, now) + [] == Live(front, now);
    }
  }

  lemma ExpireKeeps(s: State, now: int)
    requires FramerInv(s)
    ensures FramerInv(Expire(s, now))
  {
    LiveFacts(s.partial, now);
    LiveUnique(s.partial, now);
    var live := Live(s.partial, now);
    forall i | 0 <= i < |live| ensures PartialInv(live[i].value) {
      assert live[i] in live;
      var j :| 0 <= j < |s.partial| && s.partial[j] == live[i];
    }
  }

  lemma {:induction false} PutEntries<V>(m: seq<Entry<nat, V>>, key: nat, value: V, i: nat)
    requires i < |Put(m, key, value)|
    ensures Put(m, key, value)[i] == Entry(key, value) || Put(m, key, value)[i] in m
  {
    if m != [] && m[0].key != key && i > 0 {
      PutEntries(m[1..], key, value, i - 1);
    }
  }

  lemma {:induction false} RemoveEntries<V>(m: seq<Entry<nat, V>>, key: nat, i: nat)
    requires i < |Remove(m, key)|
    ensures Remove(m, key)[i] in m
  {
    if m[0].key != key && i > 0 {
      RemoveEntries(m[1..], key, i - 1);
    }
  }

  /** Storing a partial message that keeps the invariant of its entry. */
  lemma StoreKeeps(s: State, id: nat, p: Partial, total: int)
    requires FramerInv(s) && PartialInv(p) && (Has(s.partial, id) || |s.partial| < MAX_PARTIAL_MESSAGES)
    requires total == s.partialBytes - BytesAt(s.partial, id) + p.bytes && total <= MAX_PARTIAL_BYTES
    ensures FramerInv(s.(partial := Put(s.partial, id, p), partialBytes := total))
  {
    var more := Put(s.partial, id, p);
    PutUnique(s.partial, id, p);
    PutFacts(s.partial, id, p, id);
    SumBytesPut(s.partial, id, p);
    forall i | 0 <= i < |more| ensures PartialInv(more[i].value) {
      PutEntries(s.partial, id, p, i);
      if more[i] in s.partial {
        var j :| 0 <= j < |s.partial| && s.partial[j] == more[i];
      }
    }
  }

  lemma RememberKeeps(completed: seq<Entry<nat, Done>>, id: nat, done: Done)
    requires UniqueKeys(completed) && |completed| <= RECENT_IDS
    ensures UniqueKeys(Remember(completed, id, done)) && |Remember(completed, id, done)| <= RECENT_IDS
  {
    hide Put, Has, Lookup;
    PutUnique(completed, id, done);
    PutFacts(completed, id, done, id);
    var more := Put(completed, id, done);
    if |more| > RECENT_IDS {
      TailUnique(more);
    }
  }

  lemma RemovedKeeps(s: State, id: nat, completed: seq<Entry<nat, Done>>)
    requires FramerInv(s) && UniqueKeys(completed) && |completed| <= RECENT_IDS
    ensures FramerInv(State(s.partialBytes - BytesAt(s.partial, id), Remove(s.partial, id), completed))
  {
    RemoveFacts(s.partial, id, id);
    SumBytesRemove(s.partial, id);
    forall i | 0 <= i < |Remove(s.partial, id)| ensures PartialInv(Remove(s.partial, id)[i].value) {
      RemoveEntries(s.partial, id, i);
      var j :| 0 <= j < |s.partial| && s.partial[j] == Remove(s.partial, id)[i];
    }
  }

  lemma FoundPartial(s: State, id: nat, p: Partial)
    requires FramerInv(s) && Lookup(s.partial, id) == Some(p)
    ensures PartialInv(p) && Has(s.partial, id) && BytesAt(s.partial, id) == p.bytes
  {
    var i :| 0 <= i < |s.partial| && s.partial[i] == Entry(id, p);
  }

  lemma NextPartial(p: Partial, index: nat, payload: seq<byte>, expires: int)
    requires PartialInv(p) && Lookup(p.chunks, index).None? && index < p.count
      && p.bytes + |payload| <= MAX_MESSAGE_BYTES
    ensures var next := Partial(p.count, Put(p.chunks, index, payload), p.bytes + |payload|, expires);
      && next.chunks == p.chunks + [Entry(index, payload)]
      && next.bytes == SumLengths(next.chunks) && UniqueKeys(next.chunks)
      && (forall i :: 0 <= i < |next.chunks| ==> next.chunks[i].key < p.count)
      && (|next.chunks| < p.count ==> PartialInv(next)) && |next.chunks| <= p.count
  {
    hide Put, Lookup;
    PutFacts(p.chunks, index, payload, index);
    PutUnique(p.chunks, index, payload);
    SumLengthsPush(p.chunks, Entry(index, payload));
  }

  lemma {:induction false} PutRemoved(partial: seq<Entry<nat, Partial>>, id: nat, p: Partial)
    ensures Remove(Put(partial, id, p), id) == Remove(partial, id)
  {
    if partial != [] {
      if partial[0].key == id {
        assert ([Entry(id, p)] + partial[1..])[1..] == partial[1..];
      } else {
        PutRemoved(partial[1..], id, p);
        assert ([partial[0]] + Put(partial[1..], id, p))[1..] == Put(partial[1..], id, p);
      }
    }
  }

  lemma AddChunkKeeps(s: State, h: Header, payload: seq<byte>, p: Partial, now: int, hash: seq<byte> -> nat)
    requires FramerInv(s) && Lookup(s.partial, h.id) == Some(p) && p.count == h.count && ValidHeader(h)
      && Lookup(p.chunks, h.index).None?
    ensures FramerInv(AddChunk(s, h, payload, p, now, hash).state)
  {
    hide FramerInv, PartialInv, Put, Remove, Remember, Hashes, UniqueKeys, Lookup, Has, SumLengths, Joined;
    FoundPartial(s, h.id, p);
    if p.bytes + |payload| <= MAX_MESSAGE_BYTES && s.partialBytes + |payload| <= MAX_PARTIAL_BYTES {
      NextPartial(p, h.index, payload, now + PARTIAL_TTL_MS);
      var next := Partial(p.count, Put(p.chunks, h.index, payload), p.bytes + |payload|, now + PARTIAL_TTL_MS);
      if |next.chunks| < h.count {
        StoreKeeps(s, h.id, next, s.partialBytes + |payload|);
      } else {
        PutRemoved(s.partial, h.id, next);
        var done := Done(next.count, Hashes(next.chunks, hash));
        CompletedFacts(s);
        RememberKeeps(s.completed, h.id, done);
        RemovedKeeps(s, h.id, Remember(s.completed, h.id, done));
      }
    }
  }

  lemma CompletedFacts(s: State)
    requires FramerInv(s)
    ensures UniqueKeys(s.completed) && |s.completed| <= RECENT_IDS && s.partialBytes <= MAX_PARTIAL_BYTES
  {
  }

  lemma AcceptPendingKeeps(s: State, h: Header, payload: seq<byte>, p: Partial, now: int, hash: seq<byte> -> nat)
    requires FramerInv(s) && Lookup(s.partial, h.id) == Some(p) && ValidHeader(h)
    ensures FramerInv(AcceptPending(s, h, payload, p, now, hash).state)
  {
    hide FramerInv, AddChunk;
    FoundPartial(s, h.id, p);
    CompletedFacts(s);
    if p.count == h.count {
      if Lookup(p.chunks, h.index).Some? {
        StoreKeeps(s, h.id, p.(expires := now + PARTIAL_TTL_MS), s.partialBytes);
      } else {
        AddChunkKeeps(s, h, payload, p, now, hash);
      }
    }
  }

  /** Every call, returning or throwing, keeps the books: the byte counter is the sum of the stored chunks. */
  lemma AcceptKeeps(s: State, frame: seq<byte>, now: int, hash: seq<byte> -> nat)
    requires FramerInv(s)
    ensures FramerInv(Accept(s, frame, now, hash).state)
  {
    hide FramerInv, AcceptPending;
    if WellFormedFrame(frame) {
      ExpireKeeps(s, now);
      var live, h := Expire(s, now), ReadHeader(frame);
      if ExpiredCount(s, now) <= 0 && ValidHeader(h) {
        var payload := frame[FRAME_HEADER_BYTES..];
        if Lookup(live.completed, h.id).None? {
          if Lookup(live.partial, h.id).Some? {
            AcceptPendingKeeps(live, h, payload, Lookup(live.partial, h.id).value, now, hash);
          } else if |live.partial| < MAX_PARTIAL_MESSAGES {
            var p := Partial(h.count, [], 0, now + PARTIAL_TTL_MS);
            EmptyPartial(p);
            CompletedFacts(live);
            StoreKeeps(live, h.id, p, live.partialBytes);
            PutFacts(live.partial, h.id, p, h.id);
            AcceptPendingKeeps(live.(partial := Put(live.partial, h.id, p)), h, payload, p, now, hash);
          }
        }
      }
    }
  }

  lemma EmptyPartial(p: Partial)
    requires 1 <= p.count <= MAX_FRAMES && p.chunks == [] && p.bytes == 0
    ensures PartialInv(p)
  {
  }

  // ---- the joined length ----

  function PartLength(chunks: Chunks, k: nat): nat {
    match Lookup(chunks, k) case Some(chunk) => |chunk| case None => 0
  }

  lemma PartSplit(chunks: Chunks, k: nat)
    requires chunks != [] && UniqueKeys(chunks)
    ensures PartLength(chunks, k) == PartLength(chunks[1..], k) + if chunks[0].key == k then |chunks[0].value| else 0
  {
    hide Lookup;
    LookupSplit(chunks, k);
  }

  /** The lengths of the first `k` parts, added up. */
  function PartLengths(chunks: Chunks, k: nat): nat {
    if k == 0 then 0 else PartLengths(chunks, k - 1) + PartLength(chunks, k - 1)
  }

  lemma {:induction false} JoinedLengths(chunks: Chunks, k: nat)
    ensures |Joined(chunks, k)| == PartLengths(chunks, k)
  {
    hide Lookup;
    if k > 0 {
      JoinedLengths(chunks, k - 1);
    }
  }

  lemma {:induction false} LengthsFront(chunks: Chunks, k: nat)
    requires chunks != [] && UniqueKeys(chunks)
    ensures PartLengths(chunks, k) == PartLengths(chunks[1..], k) + if chunks[0].key < k then |chunks[0].value| else 0
  {
    hide PartLength, UniqueKeys;
    if k > 0 {
      LengthsFront(chunks, k - 1);
      PartSplit(chunks, k - 1);
    }
  }

  lemma JoinedFront(chunks: Chunks, k: nat)
    requires chunks != [] && UniqueKeys(chunks)
    ensures |Joined(chunks, k)| == |Joined(chunks[1..], k)| + if chunks[0].key < k then |chunks[0].value| else 0
  {
    hide Joined, PartLengths, UniqueKeys;
    JoinedLengths(chunks, k);
    JoinedLengths(chunks[1..], k);
    LengthsFront(chunks, k);
  }

  /** A key is looked up at the head or behind it, and never in both places. */
  lemma LookupSplit(chunks: Chunks, key: nat)
    requires chunks != [] && UniqueKeys(chunks)
    ensures Lookup(chunks, key) == if chunks[0].key == key then Some(chunks[0].value) else Lookup(chunks[1..], key)
    ensures chunks[0].key == key ==> Lookup(chunks[1..], key).None?
  {
    TailUnique(chunks);
  }

  /** The parts of a chunk list are as long together as its chunks. */
  lemma {:induction false} JoinedLength(chunks: Chunks, n: nat)
    requires UniqueKeys(chunks) && forall i :: 0 <= i < |chunks| ==> chunks[i].key < n
    ensures |Joined(chunks, n)| == SumLengths(chunks)
  {
    if chunks == [] {
      NothingJoined(n);
    } else {
      TailUnique(chunks);
      JoinedLength(chunks[1..], n);
      JoinedFront(chunks, n);
    }
  }

  lemma {:induction false} NothingJoined(n: nat)
    ensures Joined([], n) == []
  {
    if n > 0 {
      NothingJoined(n - 1);
    }
  }
}
