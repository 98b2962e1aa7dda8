/** The framer of one connection: its fields and loops (packages/p2p/src/framing.ts). */
module MessageFramer {
  import opened Results
  import opened Octets
  import opened OrderedMaps
  import opened Framing

  class Framer {
    var nextId: nat
    var partialBytes: int
    var partial: seq<Entry<nat, Partial>>
    var completed: seq<Entry<nat, Done>>
    const hash: seq<byte> -> nat

    function Value(): State
      reads this
    {
      State(partialBytes, partial, completed)
    }

    constructor (hash: seq<byte> -> nat)
      ensures Value() == EMPTY && FramerInv(Value()) && nextId == 0 && this.hash == hash
    {
      nextId, partialBytes, partial, completed := 0, 0, [], [];
      this.hash := hash;
    }

    method Clear()
      modifies this
      ensures Value() == EMPTY && FramerInv(Value()) && nextId == old(nextId)
    {
      partial, completed, partialBytes := [], [], 0;
    }

    /** Every frame carries its identifier, place and count; the identifier space is used once. */
    method Split(message: seq<byte>) returns (r: Result<seq<seq<byte>>>)
      modifies this`nextId
      ensures r.Ok? <==> |message| <= MAX_MESSAGE_BYTES && old(nextId) <= MAX_ID
      ensures r.Ok? ==>
        && nextId == old(nextId) + 1 && |r.value| == FrameCount(|message|)
        && forall i :: 0 <= i < |r.value| ==> r.value[i] == EncodeFrame(old(nextId), i, |r.value|, Payload(message, i))
      ensures r.Err? ==> nextId == old(nextId)
    {
      hide EncodeFrame, Payload, FrameCount;
      if |message| > MAX_MESSAGE_BYTES || nextId > MAX_ID {
        return Err("range");
      }
      var id := nextId;
      nextId := nextId + 1;
      var count := FrameCount(|message|);
      var frames: seq<seq<byte>> := [];
      for index := 0 to count
        invariant |frames| == index
        invariant forall i :: 0 <= i < index ==> frames[i] == EncodeFrame(id, i, count, Payload(message, i))
      {
        frames := frames + [EncodeFrame(id, index, count, Payload(message, index))];
      }
      return Ok(frames);
    }

    /** Drops what has timed out and says how much that was. */
    method Expire(now: int) returns (expired: int)
      requires partialBytes == SumBytes(partial)
      modifies this`partial, this`partialBytes
      ensures Value() == Framing.Expire(old(Value()), now)
      ensures expired == ExpiredCount(old(Value()), now)
    {
      var entries := partial;
      var live: seq<Entry<nat, Partial>> := [];
      expired := 0;
      for i := 0 to |entries|
        invariant live == Live(entries[..i], now) && expired == i - |live|
        invariant partial == entries && partialBytes == SumBytes(live) + SumBytes(entries[i..])
      {
        var e := entries[i];
        assert entries[..i + 1] == entries[..i] + [e];
        LivePush(entries[..i], e, now);
        assert entries[i..][0] == e && entries[i..][1..] == entries[i + 1..];
        SumBytesPush(live, e);
        assert live + [] == live;
        if e.value.expires > now {
          live := live + [e];
        } else {
          partialBytes := partialBytes - e.value.bytes;
          expired := expired + 1;
        }
      }
      assert entries[..|entries|] == entries;
      partial := live;
    }

    /** Writes a chunk into the buffer at an offset and touches nothing else. */
    method CopyAt(bytes: array<byte>, offset: nat, chunk: seq<byte>)
      requires offset + |chunk| <= bytes.Length
      modifies bytes
      ensures bytes[..offset] == old(bytes[..offset])
      ensures bytes[offset..offset + |chunk|] == chunk
    {
      for at := 0 to |chunk|
        invariant bytes[..offset] == old(bytes[..offset])
        invariant bytes[offset..offset + at] == chunk[..at]
      {
        bytes[offset + at] := chunk[at];
      }
    }

    /** Copies the parts one after the other into a buffer of exactly their length. */
    method Assemble(p: Partial) returns (bytes: array<byte>)
      requires UniqueKeys(p.chunks) && p.bytes == SumLengths(p.chunks)
      requires forall i :: 0 <= i < |p.chunks| ==> p.chunks[i].key < p.count
      ensures fresh(bytes) && bytes[..] == Joined(p.chunks, p.count)
    {
      hide UniqueKeys, SumLengths, Lookup, Joined;
      NothingJoinedYet(p.chunks);
      JoinedLength(p.chunks, p.count);
      bytes := new byte[p.bytes];
      var offset := 0;
      for part := 0 to p.count
        invariant offset == |Joined(p.chunks, part)| <= bytes.Length
        invariant bytes[..offset] == Joined(p.chunks, part)
      {
        var chunk := match Lookup(p.chunks, part) case Some(c) => c case None => [];
        JoinedGrows(p.chunks, part + 1, p.count);
        JoinedNext(p.chunks, part);
        CopyAt(bytes, offset, chunk);
        assert bytes[..offset + |chunk|] == bytes[..offset] + bytes[offset..offset + |chunk|];
        offset := offset + |chunk|;
      }
      assert bytes[..bytes.Length] == bytes[..];
    }

    /** One frame from the wire: the state and the answer are those of `Framing.Accept`. */
    method Accept(frame: seq<byte>, now: int) returns (r: Result<Option<seq<byte>>>)
      requires FramerInv(Value())
      modifies this`partial, this`partialBytes, this`completed
      ensures FramerInv(Value())
      ensures Value() == Framing.Accept(old(Value()), frame, now, hash).state
      ensures r.Ok? <==> Framing.Accept(old(Value()), frame, now, hash).result.Ok?
      ensures r.Ok? ==> r == Framing.Accept(old(Value()), frame, now, hash).result
    {
      hide PartialInv, ReadHeader, Live, Joined, Hashes, Put, Remove;
      AcceptKeeps(Value(), frame, now, hash);
      if !WellFormedFrame(frame) {
        return Err("frame");
      }
      ghost var before := Value();
      ExpireKeeps(before, now);
      var expired := Expire(now);
      if expired > 0 {
        return Err("timeout");
      }
      var h := ReadHeader(frame);
      if !ValidHeader(h) {
        return Err("indices");
      }
      var payload := frame[FRAME_HEADER_BYTES..];
      r := AcceptLive(h, payload, now);
    }

    method AcceptLive(h: Header, payload: seq<byte>, now: int) returns (r: Result<Option<seq<byte>>>)
      requires FramerInv(Value()) && ValidHeader(h)
      modifies this`partial, this`partialBytes, this`completed
      ensures Value() == AcceptFrame(old(Value()), h, payload, now, hash).state
      ensures r.Ok? <==> AcceptFrame(old(Value()), h, payload, now, hash).result.Ok?
      ensures r.Ok? ==> r == AcceptFrame(old(Value()), h, payload, now, hash).result
    {
      hide FramerInv, PartialInv, Joined, Hashes, Put, Remove, AddChunk, Remember;
      CompletedFacts(Value());
      var done := Lookup(completed, h.id);
      if done.Some? {
        if done.value.count != h.count || Lookup(done.value.hashes, h.index) != Some(hash(payload)) {
          return Err("completed");
        }
        return Ok(None);
      }
      var pending := Lookup(partial, h.id);
      if pending.None? {
        if |partial| >= MAX_PARTIAL_MESSAGES {
          return Err("partials");
        }
        var p := Partial(h.count, [], 0, now + PARTIAL_TTL_MS);
        EmptyPartial(p);
        StoreKeeps(Value(), h.id, p, partialBytes);
        PutFacts(partial, h.id, p, h.id);
        pending := Some(p);
        partial := Put(partial, h.id, p);
      }
      var p := pending.value;
      FoundPartial(Value(), h.id, p);
      if p.count != h.count {
        return Err("count");
      }
      var prior := Lookup(p.chunks, h.index);
      if prior.Some? {
        if prior.value != payload {
          return Err("duplicate");
        }
        partial := Put(partial, h.id, p.(expires := now + PARTIAL_TTL_MS));
        return Ok(None);
      }
      r := StoreChunk(h, payload, p, now);
    }

    method StoreChunk(h: Header, payload: seq<byte>, p: Partial, now: int) returns (r: Result<Option<seq<byte>>>)
      requires PartialInv(p) && p.count == h.count && ValidHeader(h) && Lookup(p.chunks, h.index).None?
      modifies this`partial, this`partialBytes, this`completed
      ensures Value() == AddChunk(old(Value()), h, payload, p, now, hash).state
      ensures r.Ok? <==> AddChunk(old(Value()), h, payload, p, now, hash).result.Ok?
      ensures r.Ok? ==> r == AddChunk(old(Value()), h, payload, p, now, hash).result
    {
      hide PartialInv, Joined, Hashes, Put, Remove, Remember;
      if p.bytes + |payload| > MAX_MESSAGE_BYTES || partialBytes + |payload| > MAX_PARTIAL_BYTES {
        return Err("limit");
      }
      NextPartial(p, h.index, payload, now + PARTIAL_TTL_MS);
      var next := Partial(p.count, Put(p.chunks, h.index, payload), p.bytes + |payload|, now + PARTIAL_TTL_MS);
      partial := Put(partial, h.id, next);
      partialBytes := partialBytes + |payload|;
      if |next.chunks| != h.count {
        return Ok(None);
      }
      var buffer := Assemble(next);
      partial := Remove(partial, h.id);
      partialBytes := partialBytes - next.bytes;
      completed := Remember(completed, h.id, Done(next.count, Hashes(next.chunks, hash)));
      return Ok(Some(buffer[..]));
    }
  }

  lemma NothingJoinedYet(chunks: Chunks)
    ensures Joined(chunks, 0) == []
  {
  }

  lemma JoinedNext(chunks: Chunks, part: nat)
    ensures Joined(chunks, part + 1) == Joined(chunks, part) + match Lookup(chunks, part) case Some(c) =>
      c case None => []
  {
  }

  lemma {:induction false} JoinedGrows(chunks: Chunks, a: nat, b: nat)
    requires a <= b
    ensures |Joined(chunks, a)| <= |Joined(chunks, b)|
  {
    if a < b {
      JoinedGrows(chunks, a, b - 1);
    }
  }
}
