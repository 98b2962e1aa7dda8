/** Whatever the order of arrival, a message comes out once, whole, when its last frame arrives. */
module Reassembly {
  import opened Results
  import opened Octets
  import opened OrderedMaps
  import opened Framing
  import Permutations

  type Messages = map<nat, seq<byte>>

  /** One frame of one message reaching the receiver at a time. */
  datatype Arrival = Arrival(id: nat, index: nat, now: int)

  predicate ValidMessages(messages: Messages) {
    forall id :: id in messages ==> id <= MAX_ID && |messages[id]| <= MAX_MESSAGE_BYTES
  }

  predicate ValidArrival(messages: Messages, a: Arrival) {
    a.id in messages && a.index < FrameCount(|messages[a.id]|)
  }

  function Count(messages: Messages, id: nat): (r: nat)
    requires id in messages
    ensures r >= 1
  {
    FrameCount(|messages[id]|)
  }

  function FrameOf(messages: Messages, a: Arrival): seq<byte>
    requires ValidArrival(messages, a)
  {
    EncodeFrame(a.id, a.index, Count(messages, a.id), Payload(messages[a.id], a.index))
  }

  predicate Seen(arrivals: seq<Arrival>, id: nat, index: nat) {
    exists a :: a in arrivals && a.id == id && a.index == index
  }

  /** Every frame of the message has arrived. */
  predicate AllSeen(arrivals: seq<Arrival>, messages: Messages, id: nat)
    requires id in messages
  {
    forall index :: 0 <= index < Count(messages, id) ==> Seen(arrivals, id, index)
  }

  lemma MessageCount(messages: Messages, id: nat)
    requires ValidMessages(messages) && id in messages
    ensures Count(messages, id) <= MAX_FRAMES
  {
    assert MAX_FRAMES == 65;
  }

  // ---- splitting and joining undo each other ----

  function Pieces(message: seq<byte>, k: nat): seq<byte>
    requires k <= FrameCount(|message|)
  {
    if k == 0 then [] else Pieces(message, k - 1) + Payload(message, k - 1)
  }

  lemma {:induction false} PiecesAre(message: seq<byte>, k: nat)
    requires k <= FrameCount(|message|)
    ensures Pieces(message, k) == message[..Min(k * FRAME_PAYLOAD_BYTES, |message|)]
  {
    if k > 0 {
      PiecesAre(message, k - 1);
      PieceStart(message, k - 1);
    }
  }

  lemma PieceStart(message: seq<byte>, k: nat)
    requires k < FrameCount(|message|)
    ensures k * FRAME_PAYLOAD_BYTES <= |message| && k * FRAME_PAYLOAD_BYTES <= (k + 1) * FRAME_PAYLOAD_BYTES
  {
    if k > 0 {
      assert k * FRAME_PAYLOAD_BYTES <= (FrameCount(|message|) - 1) * FRAME_PAYLOAD_BYTES;
    }
  }

  /** The payloads of all frames, in order, are the message. */
  lemma PiecesJoin(message: seq<byte>)
    ensures Pieces(message, FrameCount(|message|)) == message
  {
    PiecesAre(message, FrameCount(|message|));
  }

  lemma {:induction false} JoinedPieces(chunks: Chunks, message: seq<byte>, k: nat)
    requires k <= FrameCount(|message|)
    requires forall index :: 0 <= index < FrameCount(|message|) ==>
      Lookup(chunks, index) == Some(Payload(message, index))
    ensures Joined(chunks, k) == Pieces(message, k)
  {
    hide Lookup, Payload;
    if k > 0 {
      JoinedPieces(chunks, message, k - 1);
      assert Lookup(chunks, k - 1) == Some(Payload(message, k - 1));
    }
  }

  // ---- what the receiver holds ----

  /** The stored chunks are exactly the frames seen so far. */
  predicate HoldsSeen(p: Partial, arrivals: seq<Arrival>, messages: Messages, id: nat)
    requires id in messages
  {
    && p.count == Count(messages, id)
    && forall index :: 0 <= index < p.count ==>
      Lookup(p.chunks, index) == if Seen(arrivals, id, index) then Some(Payload(messages[id], index)) else None
  }

  predicate RemembersAll(done: Done, messages: Messages, id: nat, hash: seq<byte> -> nat)
    requires id in messages
  {
    && done.count == Count(messages, id)
    && forall index :: 0 <= index < done.count ==>
         Lookup(done.hashes, index) == Some(hash(Payload(messages[id], index)))
  }

  /** A finished message is remembered or already forgotten; an unfinished one holds what was seen. */
  predicate Tracked(s: State, arrivals: seq<Arrival>, messages: Messages, id: nat, hash: seq<byte> -> nat)
    requires id in messages
  {
    if AllSeen(arrivals, messages, id) then
      && Lookup(s.partial, id).None?
      && (Lookup(s.completed, id).Some? ==> RemembersAll(Lookup(s.completed, id).value, messages, id, hash))
    else
      && Lookup(s.completed, id).None?
      && match Lookup(s.partial, id)
         case Some(p) => HoldsSeen(p, arrivals, messages, id)
         case None => forall index :: 0 <= index < Count(messages, id) ==> !Seen(arrivals, id, index)
  }

  predicate Tracks(s: State, arrivals: seq<Arrival>, messages: Messages, hash: seq<byte> -> nat) {
    forall id :: id in messages ==> Tracked(s, arrivals, messages, id, hash)
  }

  /** A late duplicate of a finished message comes while the message is still remembered. */
  predicate WithinWindow(s: State, arrivals: seq<Arrival>, messages: Messages, a: Arrival)
    requires a.id in messages
  {
    AllSeen(arrivals, messages, a.id) ==> Has(s.completed, a.id)
  }

  lemma SeenPush(arrivals: seq<Arrival>, a: Arrival, id: nat, index: nat)
    ensures Seen(arrivals + [a], id, index) <==> Seen(arrivals, id, index) || (a.id == id && a.index == index)
  {
    assert a in arrivals + [a];
    assert forall x :: x in arrivals ==> x in arrivals + [a];
    if Seen(arrivals, id, index) {
      var x :| x in arrivals && x.id == id && x.index == index;
      assert x in arrivals + [a];
    }
  }

  lemma OtherSeen(arrivals: seq<Arrival>, a: Arrival, messages: Messages, id: nat)
    requires id in messages && id != a.id
    ensures AllSeen(arrivals + [a], messages, id) <==> AllSeen(arrivals, messages, id)
    ensures forall index: nat :: Seen(arrivals + [a], id, index) <==> Seen(arrivals, id, index)
  {
    forall index: nat ensures Seen(arrivals + [a], id, index) <==> Seen(arrivals, id, index) {
      SeenPush(arrivals, a, id, index);
    }
  }

  /** Distinct keys below `n` cover all of them exactly when there are `n`. */
  lemma FullWhenCovered(chunks: Chunks, n: nat)
    requires UniqueKeys(chunks) && forall i :: 0 <= i < |chunks| ==> chunks[i].key < n
    ensures |chunks| == n <==> forall index :: 0 <= index < n ==> Has(chunks, index)
  {
    var keys := seq(|chunks|, i requires 0 <= i < |chunks| => chunks[i].key);
    Permutations.DistinctElements(keys);
    var covered := set x | x in keys;
    forall x | x in covered ensures x in Permutations.Range(n) {
      var i :| 0 <= i < |keys| && keys[i] == x;
    }
    forall index: nat ensures Has(chunks, index) <==> (index as int) in covered {
      if Has(chunks, index) {
        var i :| 0 <= i < |chunks| && chunks[i].key == index;
        assert keys[i] == index;
      }
      if (index as int) in covered {
        var i :| 0 <= i < |keys| && keys[i] == index;
        assert chunks[i].key == index;
      }
    }
    if |chunks| == n {
      Permutations.SameSize(covered, Permutations.Range(n));
    }
    if forall index :: 0 <= index < n ==> Has(chunks, index) {
      forall x | x in Permutations.Range(n) ensures x in covered {
        var index: nat := x;
        assert Has(chunks, index);
      }
      assert covered == Permutations.Range(n);
    }
  }

  // ---- one arrival ----

  lemma HeaderOf(messages: Messages, a: Arrival)
    requires ValidMessages(messages) && ValidArrival(messages, a)
    ensures var frame := FrameOf(messages, a);
      && WellFormedFrame(frame) && ReadHeader(frame) == Header(a.id, a.index, Count(messages, a.id))
      && ValidHeader(ReadHeader(frame)) && frame[FRAME_HEADER_BYTES..] == Payload(messages[a.id], a.index)
  {
    MessageCount(messages, a.id);
    FrameRoundTrip(a.id, a.index, Count(messages, a.id), Payload(messages[a.id], a.index));
  }

  /** The step's expected result: the message when this arrival is the one that completes it. */
  function Expected(arrivals: seq<Arrival>, messages: Messages, a: Arrival): Option<seq<byte>>
    requires a.id in messages
  {
    if AllSeen(arrivals + [a], messages, a.id) && !AllSeen(arrivals, messages, a.id) then Some(messages[a.id]) else None
  }

  lemma SeenAgain(arrivals: seq<Arrival>, a: Arrival, messages: Messages)
    requires ValidArrival(messages, a) && Seen(arrivals, a.id, a.index)
    ensures AllSeen(arrivals + [a], messages, a.id) <==> AllSeen(arrivals, messages, a.id)
    ensures forall index: nat :: Seen(arrivals + [a], a.id, index) <==> Seen(arrivals, a.id, index)
  {
    forall index: nat ensures Seen(arrivals + [a], a.id, index) <==> Seen(arrivals, a.id, index) {
      SeenPush(arrivals, a, a.id, index);
    }
  }

  lemma NextLookup(p: Partial, arrivals: seq<Arrival>, a: Arrival, messages: Messages, index: nat)
    requires ValidArrival(messages, a) && HoldsSeen(p, arrivals, messages, a.id) && !Seen(arrivals, a.id, a.index)
      && index < p.count
    ensures Lookup(Put(p.chunks, a.index, Payload(messages[a.id], a.index)), index)
         == if Seen(arrivals + [a], a.id, index) then Some(Payload(messages[a.id], index)) else None
  {
    hide Payload, Seen, Lookup, Put;
    PutFacts(p.chunks, a.index, Payload(messages[a.id], a.index), index);
    SeenPush(arrivals, a, a.id, index);
  }

  lemma SeenWhenHeld(chunks: Chunks, arrivals: seq<Arrival>, messages: Messages, id: nat)
    requires id in messages
    requires forall index :: 0 <= index < Count(messages, id) ==>
      Lookup(chunks, index) == if Seen(arrivals, id, index) then Some(Payload(messages[id], index)) else None
    ensures (forall index :: 0 <= index < Count(messages, id) ==> Has(chunks, index)) <==>
      AllSeen(arrivals, messages, id)
  {
    hide Payload, Seen, Lookup;
    forall index | 0 <= index < Count(messages, id) ensures Has(chunks, index) <==> Seen(arrivals, id, index) {
      assert Lookup(chunks, index) == if Seen(arrivals, id, index) then Some(Payload(messages[id], index)) else None;
      assert Lookup(chunks, index).Some? <==> Has(chunks, index);
    }
  }

  /** The next chunk list holds exactly what has now been seen, and is full exactly when all is seen. */
  lemma NextHolds(p: Partial, next: Partial, arrivals: seq<Arrival>, a: Arrival, messages: Messages)
    requires ValidArrival(messages, a) && PartialInv(p) && HoldsSeen(p, arrivals, messages, a.id)
      && !Seen(arrivals, a.id, a.index)
    requires next.count == p.count && next.chunks == Put(p.chunks, a.index, Payload(messages[a.id], a.index))
    ensures HoldsSeen(next, arrivals + [a], messages, a.id)
    ensures |next.chunks| == p.count <==> AllSeen(arrivals + [a], messages, a.id)
  {
    hide Payload, Seen, AllSeen, Lookup, Put, PartialInv, UniqueKeys, Has;
    var payload := Payload(messages[a.id], a.index);
    forall index | 0 <= index < p.count
      ensures Lookup(next.chunks, index) ==
        if Seen(arrivals + [a], a.id, index) then Some(Payload(messages[a.id], index)) else None
    {
      NextLookup(p, arrivals, a, messages, index);
    }
    NextKeys(p, a.index, payload);
    FullWhenCovered(next.chunks, p.count);
    SeenWhenHeld(next.chunks, arrivals + [a], messages, a.id);
  }

  lemma NextKeys(p: Partial, index: nat, payload: seq<byte>)
    requires PartialInv(p) && Lookup(p.chunks, index).None? && index < p.count
    ensures UniqueKeys(Put(p.chunks, index, payload))
    ensures forall i :: 0 <= i < |Put(p.chunks, index, payload)| ==> Put(p.chunks, index, payload)[i].key < p.count
  {
    hide Put, SumLengths;
    PutUnique(p.chunks, index, payload);
    PutFacts(p.chunks, index, payload, index);
  }

  lemma HashesLookup(chunks: Chunks, index: nat, hash: seq<byte> -> nat)
    ensures Lookup(Hashes(chunks, hash), index) ==
      match Lookup(chunks, index) case Some(c) => Some(hash(c)) case None => None
  {
    if chunks != [] && chunks[0].key != index {
      HashesLookup(chunks[1..], index, hash);
      assert Hashes(chunks, hash)[1..] == Hashes(chunks[1..], hash);
    }
  }

  lemma DoneRemembers(p: Partial, arrivals: seq<Arrival>, messages: Messages, id: nat, hash: seq<byte> -> nat)
    requires id in messages && HoldsSeen(p, arrivals, messages, id) && AllSeen(arrivals, messages, id)
    ensures RemembersAll(Done(p.count, Hashes(p.chunks, hash)), messages, id, hash)
    ensures Joined(p.chunks, p.count) == messages[id]
  {
    forall index | 0 <= index < p.count
      ensures Lookup(Hashes(p.chunks, hash), index) == Some(hash(Payload(messages[id], index)))
    {
      HashesLookup(p.chunks, index, hash);
    }
    JoinedPieces(p.chunks, messages[id], p.count);
    PiecesJoin(messages[id]);
  }

  lemma RememberLookup(completed: seq<Entry<nat, Done>>, id: nat, done: Done, other: nat)
    requires UniqueKeys(completed)
    ensures other != id ==>
      Lookup(Remember(completed, id, done), other).None?
        || Lookup(Remember(completed, id, done), other) == Lookup(completed, other)
    ensures Lookup(Remember(completed, id, done), id).Some? ==> Lookup(Remember(completed, id, done), id) == Some(done)
  {
    var more := Put(completed, id, done);
    PutFacts(completed, id, done, other);
    PutFacts(completed, id, done, id);
    PutUnique(completed, id, done);
    if |more| > RECENT_IDS {
      TailLookup(more, other);
      TailLookup(more, id);
    }
  }

  lemma TailLookup(m: seq<Entry<nat, Done>>, key: nat)
    requires m != [] && UniqueKeys(m)
    ensures Lookup(m[1..], key).None? || Lookup(m[1..], key) == Lookup(m, key)
  {
    TailUnique(m);
  }

  lemma OthersTracked(s: State, t: State, arrivals: seq<Arrival>, a: Arrival, messages: Messages,
                      hash: seq<byte> -> nat)
    requires a.id in messages && Tracks(s, arrivals, messages, hash) && Tracked(t, arrivals + [a], messages, a.id, hash)
    requires forall id :: id in messages && id != a.id ==>
      && Lookup(t.partial, id) == Lookup(s.partial, id)
      && (Lookup(t.completed, id).None? || Lookup(t.completed, id) == Lookup(s.completed, id))
    ensures Tracks(t, arrivals + [a], messages, hash)
  {
    forall id | id in messages ensures Tracked(t, arrivals + [a], messages, id, hash) {
      if id != a.id {
        assert Tracked(s, arrivals, messages, id, hash);
        OtherSeen(arrivals, a, messages, id);
      }
    }
  }

  lemma StoredOthers(s: State, id: nat, next: Partial, other: nat, done: Done)
    requires UniqueKeys(s.partial) && UniqueKeys(s.completed) && other != id
    ensures Lookup(Put(s.partial, id, next), other) == Lookup(s.partial, other)
    ensures Lookup(Remove(Put(s.partial, id, next), id), other) == Lookup(s.partial, other)
    ensures var more := Remember(s.completed, id, done);
      Lookup(more, other).None? || Lookup(more, other) == Lookup(s.completed, other)
  {
    hide Lookup, Put, Remove, Remember;
    PutUnique(s.partial, id, next);
    PutFacts(s.partial, id, next, other);
    RemoveFacts(Put(s.partial, id, next), id, other);
    RememberLookup(s.completed, id, done, other);
  }

  lemma StoredOwn(s: State, id: nat, next: Partial, done: Done)
    requires UniqueKeys(s.partial) && UniqueKeys(s.completed)
    ensures Lookup(Put(s.partial, id, next), id) == Some(next)
    ensures Lookup(Remove(Put(s.partial, id, next), id), id).None?
    ensures var more := Remember(s.completed, id, done); Lookup(more, id).None? || Lookup(more, id) == Some(done)
  {
    hide Lookup, Put, Remove, Remember;
    PutUnique(s.partial, id, next);
    PutFacts(s.partial, id, next, id);
    RemoveFacts(Put(s.partial, id, next), id, id);
    RememberLookup(s.completed, id, done, id);
  }

  lemma AddChunkTracks(s: State, arrivals: seq<Arrival>, a: Arrival, messages: Messages, p: Partial,
                       hash: seq<byte> -> nat)
    requires ValidArrival(messages, a) && FramerInv(s) && Lookup(s.partial, a.id) == Some(p)
    requires HoldsSeen(p, arrivals, messages, a.id) && !Seen(arrivals, a.id, a.index)
    requires forall id :: id in messages && id != a.id ==> Tracked(s, arrivals, messages, id, hash)
    requires Lookup(s.completed, a.id).None?
    requires AddChunk(s, Header(a.id, a.index, p.count), Payload(messages[a.id], a.index), p, a.now, hash).result.Ok?
    ensures var r := AddChunk(s, Header(a.id, a.index, p.count), Payload(messages[a.id], a.index), p, a.now, hash);
      r.result.value == Expected(arrivals, messages, a) && Tracks(r.state, arrivals + [a], messages, hash)
  {
    hide FramerInv, PartialInv, AllSeen, HoldsSeen, RemembersAll, Payload, Remember, Joined, Seen, Lookup, Put, Remove,
      Hashes;
    var payload := Payload(messages[a.id], a.index);
    var next := Partial(p.count, Put(p.chunks, a.index, payload), p.bytes + |payload|, a.now + PARTIAL_TTL_MS);
    FoundPartial(s, a.id, p);
    CompletedFacts(s);
    PartialUnique(s);
    NotAllSeen(arrivals, messages, a);
    NextHolds(p, next, arrivals, a, messages);
    CountHeld(p, arrivals, messages, a.id);
    var done := Done(next.count, Hashes(next.chunks, hash));
    StoredOwn(s, a.id, next, done);
    var t := AddChunk(s, Header(a.id, a.index, p.count), payload, p, a.now, hash).state;
    if |next.chunks| == p.count {
      DoneRemembers(next, arrivals + [a], messages, a.id, hash);
    }
    assert Tracked(t, arrivals + [a], messages, a.id, hash);
    forall id | id in messages && id != a.id ensures Tracked(t, arrivals + [a], messages, id, hash) {
      StoredOthers(s, a.id, next, id, done);
      StillTracked(s, t, arrivals, a, messages, id, hash);
    }
  }

  lemma CountHeld(p: Partial, arrivals: seq<Arrival>, messages: Messages, id: nat)
    requires id in messages && HoldsSeen(p, arrivals, messages, id)
    ensures p.count == Count(messages, id)
  {
  }

  lemma StillTracked(s: State, t: State, arrivals: seq<Arrival>, a: Arrival, messages: Messages, id: nat,
                     hash: seq<byte> -> nat)
    requires id in messages && id != a.id && Tracked(s, arrivals, messages, id, hash)
    requires Lookup(t.partial, id) == Lookup(s.partial, id)
    requires Lookup(t.completed, id).None? || Lookup(t.completed, id) == Lookup(s.completed, id)
    ensures Tracked(t, arrivals + [a], messages, id, hash)
  {
    OtherSeen(arrivals, a, messages, id);
  }

  lemma PartialUnique(s: State)
    requires FramerInv(s)
    ensures UniqueKeys(s.partial)
  {
  }

  lemma NotAllSeen(arrivals: seq<Arrival>, messages: Messages, a: Arrival)
    requires ValidArrival(messages, a) && !Seen(arrivals, a.id, a.index)
    ensures !AllSeen(arrivals, messages, a.id)
  {
  }

  lemma PendingTracks(s: State, arrivals: seq<Arrival>, a: Arrival, messages: Messages, p: Partial,
                      hash: seq<byte> -> nat)
    requires ValidArrival(messages, a) && FramerInv(s) && Lookup(s.partial, a.id) == Some(p)
    requires HoldsSeen(p, arrivals, messages, a.id) && !AllSeen(arrivals, messages, a.id)
      && Lookup(s.completed, a.id).None?
    requires forall id :: id in messages && id != a.id ==> Tracked(s, arrivals, messages, id, hash)
    requires AcceptPending(s, Header(a.id, a.index, Count(messages, a.id)), Payload(messages[a.id], a.index), p, a.now,
                           hash).result.Ok?
    ensures var r := AcceptPending(s, Header(a.id, a.index, Count(messages, a.id)), Payload(messages[a.id], a.index),
                                   p, a.now, hash);
      r.result.value == Expected(arrivals, messages, a) && Tracks(r.state, arrivals + [a], messages, hash)
  {
    hide FramerInv, AllSeen, Payload, AddChunk, Put, RemembersAll;
    if Seen(arrivals, a.id, a.index) {
      SeenAgain(arrivals, a, messages);
      var later := p.(expires := a.now + PARTIAL_TTL_MS);
      var t := s.(partial := Put(s.partial, a.id, later));
      forall id | id in messages ensures Tracked(t, arrivals + [a], messages, id, hash) {
        PutFacts(s.partial, a.id, later, id);
        if id != a.id {
          StillTracked(s, t, arrivals, a, messages, id, hash);
        }
      }
    } else {
      AddChunkTracks(s, arrivals, a, messages, p, hash);
    }
  }

  lemma NothingExpired(s: State, now: int)
    requires FramerInv(s) && ExpiredCount(s, now) <= 0
    ensures Expire(s, now) == s
  {
    LiveSubset(s.partial, now);
    LiveFacts(s.partial, now);
  }

  /** With nothing expired, a frame of a message goes straight to the bookkeeping of its id. */
  lemma AcceptIs(s: State, messages: Messages, a: Arrival, hash: seq<byte> -> nat)
    requires ValidMessages(messages) && ValidArrival(messages, a) && FramerInv(s)
    requires Accept(s, FrameOf(messages, a), a.now, hash).result.Ok?
    ensures Accept(s, FrameOf(messages, a), a.now, hash)
         == AcceptFrame(s, Header(a.id, a.index, Count(messages, a.id)), Payload(messages[a.id], a.index), a.now, hash)
  {
    hide FramerInv, Payload, AcceptFrame, EncodeFrame, ReadHeader, Expire, ExpiredCount;
    HeaderOf(messages, a);
    NothingExpired(s, a.now);
  }

  /** A frame of a finished, still remembered message changes nothing and returns nothing. */
  lemma LateTracks(s: State, arrivals: seq<Arrival>, a: Arrival, messages: Messages, hash: seq<byte> -> nat)
    requires ValidArrival(messages, a) && Tracks(s, arrivals, messages, hash)
    requires WithinWindow(s, arrivals, messages, a) && AllSeen(arrivals, messages, a.id)
    requires AcceptFrame(s, Header(a.id, a.index, Count(messages, a.id)), Payload(messages[a.id], a.index), a.now,
                         hash).result.Ok?
    ensures var r := AcceptFrame(s, Header(a.id, a.index, Count(messages, a.id)), Payload(messages[a.id], a.index),
                                 a.now, hash);
      r.state == s && r.result.value == None && Tracks(s, arrivals + [a], messages, hash)
    ensures AllSeen(arrivals + [a], messages, a.id)
  {
    hide AllSeen, Payload, AcceptPending, HoldsSeen, RemembersAll;
    assert Tracked(s, arrivals, messages, a.id, hash);
    AllSeenHas(arrivals, messages, a);
    SeenAgain(arrivals, a, messages);
    OthersTracked(s, s, arrivals, a, messages, hash);
  }

  /** The first frame of a message opens its entry, and then is any other frame. */
  lemma FirstTracks(s: State, arrivals: seq<Arrival>, a: Arrival, messages: Messages, hash: seq<byte> -> nat)
    requires ValidMessages(messages) && ValidArrival(messages, a) && FramerInv(s) && Tracks(s, arrivals, messages, hash)
    requires !AllSeen(arrivals, messages, a.id) && Lookup(s.partial, a.id).None? && |s.partial| < MAX_PARTIAL_MESSAGES
    requires var t :=
      s.(partial := Put(s.partial, a.id, Partial(Count(messages, a.id), [], 0, a.now + PARTIAL_TTL_MS)));
      AcceptPending(t, Header(a.id, a.index, Count(messages, a.id)), Payload(messages[a.id], a.index),
                    Partial(Count(messages, a.id), [], 0, a.now + PARTIAL_TTL_MS), a.now, hash).result.Ok?
    ensures var p := Partial(Count(messages, a.id), [], 0, a.now + PARTIAL_TTL_MS);
      var r := AcceptPending(s.(partial := Put(s.partial, a.id, p)), Header(a.id, a.index, Count(messages, a.id)),
                             Payload(messages[a.id], a.index), p, a.now, hash);
      r.result.value == Expected(arrivals, messages, a) && Tracks(r.state, arrivals + [a], messages, hash)
  {
    hide FramerInv, AllSeen, Payload, AcceptPending, HoldsSeen, Put, Lookup;
    var p := Partial(Count(messages, a.id), [], 0, a.now + PARTIAL_TTL_MS);
    var t := s.(partial := Put(s.partial, a.id, p));
    assert Tracked(s, arrivals, messages, a.id, hash);
    PutFacts(s.partial, a.id, p, a.id);
    FreshHolds(p, arrivals, messages, a.id);
    StartedKeeps(s, messages, a, p);
    forall id | id in messages && id != a.id ensures Tracked(t, arrivals, messages, id, hash) {
      PutFacts(s.partial, a.id, p, id);
      assert Tracked(s, arrivals, messages, id, hash);
    }
    PendingTracks(t, arrivals, a, messages, p, hash);
  }

  /**
   * One accepted frame: the call returns the whole message exactly when this frame completes it for
   * the first time, and otherwise nothing; all other messages are left as they were.
   */
  lemma ArrivalTracks(s: State, arrivals: seq<Arrival>, a: Arrival, messages: Messages, hash: seq<byte> -> nat)
    requires ValidMessages(messages) && ValidArrival(messages, a) && FramerInv(s) && Tracks(s, arrivals, messages, hash)
    requires WithinWindow(s, arrivals, messages, a) && Accept(s, FrameOf(messages, a), a.now, hash).result.Ok?
    ensures var r := Accept(s, FrameOf(messages, a), a.now, hash);
      r.result.value == Expected(arrivals, messages, a) && Tracks(r.state, arrivals + [a], messages, hash)
  {
    hide FramerInv, AllSeen, Payload, AcceptPending, HoldsSeen, RemembersAll, Accept, Put, Lookup;
    AcceptIs(s, messages, a, hash);
    if AllSeen(arrivals, messages, a.id) {
      LateTracks(s, arrivals, a, messages, hash);
    } else {
      assert Tracked(s, arrivals, messages, a.id, hash);
      if Lookup(s.partial, a.id).Some? {
        PendingTracks(s, arrivals, a, messages, Lookup(s.partial, a.id).value, hash);
      } else {
        FirstTracks(s, arrivals, a, messages, hash);
      }
    }
  }

  lemma AllSeenHas(arrivals: seq<Arrival>, messages: Messages, a: Arrival)
    requires ValidArrival(messages, a) && AllSeen(arrivals, messages, a.id)
    ensures Seen(arrivals, a.id, a.index)
  {
  }

  lemma FreshHolds(p: Partial, arrivals: seq<Arrival>, messages: Messages, id: nat)
    requires id in messages && p.count == Count(messages, id) && p.chunks == []
    requires forall index :: 0 <= index < Count(messages, id) ==> !Seen(arrivals, id, index)
    ensures HoldsSeen(p, arrivals, messages, id)
  {
  }

  lemma StartedKeeps(s: State, messages: Messages, a: Arrival, p: Partial)
    requires ValidMessages(messages) && ValidArrival(messages, a) && FramerInv(s) && Lookup(s.partial, a.id).None?
    requires p.count == Count(messages, a.id) && p.chunks == [] && p.bytes == 0 && |s.partial| < MAX_PARTIAL_MESSAGES
    ensures FramerInv(s.(partial := Put(s.partial, a.id, p)))
  {
    MessageCount(messages, a.id);
    EmptyPartial(p);
    StoreKeeps(s, a.id, p, s.partialBytes);
  }

  // ---- whole runs ----

  /** The receiver after some arrivals, when no call throws and no late duplicate is out of the window. */
  function After(messages: Messages, arrivals: seq<Arrival>, hash: seq<byte> -> nat): Option<State>
    requires forall a :: a in arrivals ==> ValidArrival(messages, a)
  {
    if arrivals == [] then Some(EMPTY)
    else
      var front, last := arrivals[..|arrivals| - 1], arrivals[|arrivals| - 1];
      assert forall a :: a in front ==> a in arrivals;
      match After(messages, front, hash)
      case None => None
      case Some(s) =>
        var r := Accept(s, FrameOf(messages, last), last.now, hash);
        if r.result.Ok? && WithinWindow(s, front, messages, last) then Some(r.state) else None
  }

  lemma {:induction false} RunTracks(messages: Messages, arrivals: seq<Arrival>, hash: seq<byte> -> nat)
    requires ValidMessages(messages) && (forall a :: a in arrivals ==> ValidArrival(messages, a))
      && After(messages, arrivals, hash).Some?
    ensures FramerInv(After(messages, arrivals, hash).value)
      && Tracks(After(messages, arrivals, hash).value, arrivals, messages, hash)
    decreases |arrivals|
  {
    hide Accept, FramerInv, Tracked, WithinWindow;
    if arrivals == [] {
      EmptyTracks(messages, hash);
    } else {
      var front, last := arrivals[..|arrivals| - 1], arrivals[|arrivals| - 1];
      assert forall a :: a in front ==> a in arrivals;
      RunTracks(messages, front, hash);
      ArrivalTracks(After(messages, front, hash).value, front, last, messages, hash);
      AcceptKeeps(After(messages, front, hash).value, FrameOf(messages, last), last.now, hash);
      assert arrivals == front + [last];
    }
  }

  lemma EmptyTracks(messages: Messages, hash: seq<byte> -> nat)
    ensures FramerInv(EMPTY) && Tracks(EMPTY, [], messages, hash)
  {
    forall id | id in messages ensures Tracked(EMPTY, [], messages, id, hash) {
      assert !Seen([], id, 0);
    }
  }

  /** What the call for arrival `k` of a run returned. */
  function Returned(messages: Messages, arrivals: seq<Arrival>, k: nat, hash: seq<byte> -> nat): Option<seq<byte>>
    requires (forall a :: a in arrivals ==> ValidArrival(messages, a)) && k < |arrivals|
    requires (forall a :: a in arrivals[..k] ==> a in arrivals) && After(messages, arrivals[..k], hash).Some?
    requires Accept(After(messages, arrivals[..k], hash).value, FrameOf(messages, arrivals[k]), arrivals[k].now,
                    hash).result.Ok?
  {
    Accept(After(messages, arrivals[..k], hash).value, FrameOf(messages, arrivals[k]), arrivals[k].now,
           hash).result.value
  }

  lemma {:induction false} PrefixRuns(messages: Messages, arrivals: seq<Arrival>, k: nat, hash: seq<byte> -> nat)
    requires (forall a :: a in arrivals ==> ValidArrival(messages, a)) && k <= |arrivals|
      && After(messages, arrivals, hash).Some?
    ensures (forall a :: a in arrivals[..k] ==> a in arrivals) && After(messages, arrivals[..k], hash).Some?
    ensures k < |arrivals| ==>
      var s := After(messages, arrivals[..k], hash).value;
      && Accept(s, FrameOf(messages, arrivals[k]), arrivals[k].now, hash).result.Ok?
      && WithinWindow(s, arrivals[..k], messages, arrivals[k])
    decreases |arrivals|
  {
    hide Accept, WithinWindow;
    if k == |arrivals| {
      assert arrivals[..k] == arrivals;
    } else {
      var front := arrivals[..|arrivals| - 1];
      assert forall a :: a in front ==> a in arrivals;
      if k < |front| {
        PrefixRuns(messages, front, k, hash);
      } else {
        assert arrivals[..k] == front;
      }
      assert front[..k] == arrivals[..k];
    }
  }

  /**
   * Exactly once: in a run, each message whose frames all arrived is returned by exactly one call,
   * byte for byte, and no other call returns anything for it.
   */
  lemma DeliveredExactlyOnce(messages: Messages, arrivals: seq<Arrival>, k: nat, hash: seq<byte> -> nat)
    requires ValidMessages(messages) && (forall a :: a in arrivals ==> ValidArrival(messages, a))
      && After(messages, arrivals, hash).Some?
    requires k < |arrivals|
    ensures (forall a :: a in arrivals[..k] ==> a in arrivals) && After(messages, arrivals[..k], hash).Some?
    ensures Accept(After(messages, arrivals[..k], hash).value, FrameOf(messages, arrivals[k]), arrivals[k].now,
                   hash).result.Ok?
    ensures Returned(messages, arrivals, k, hash) == Expected(arrivals[..k], messages, arrivals[k])
  {
    hide Accept, FramerInv, Tracks, Expected;
    PrefixRuns(messages, arrivals, k, hash);
    RunTracks(messages, arrivals[..k], hash);
    ArrivalTracks(After(messages, arrivals[..k], hash).value, arrivals[..k], arrivals[k], messages, hash);
  }

  lemma SeenMonotone(arrivals: seq<Arrival>, messages: Messages, id: nat, k: nat, n: nat)
    requires id in messages && k <= n <= |arrivals| && AllSeen(arrivals[..k], messages, id)
    ensures AllSeen(arrivals[..n], messages, id)
  {
    forall index | 0 <= index < Count(messages, id) ensures Seen(arrivals[..n], id, index) {
      assert Seen(arrivals[..k], id, index);
      var a :| a in arrivals[..k] && a.id == id && a.index == index;
      var i :| 0 <= i < k && arrivals[i] == a;
      assert arrivals[..n][i] == a;
    }
  }

  /** The one call that returns a message is the arrival after which, for the first time, nothing is missing. */
  lemma {:induction false} OneCompletingArrival(arrivals: seq<Arrival>, messages: Messages, id: nat, n: nat)
    returns (k: nat)
    requires id in messages && n <= |arrivals| && AllSeen(arrivals[..n], messages, id)
    requires forall a :: a in arrivals ==> ValidArrival(messages, a)
    ensures k < n && arrivals[k].id == id && Expected(arrivals[..k], messages, arrivals[k]) == Some(messages[id])
    ensures forall j :: 0 <= j < n && arrivals[j].id == id && Expected(arrivals[..j], messages, arrivals[j]).Some? ==>
      j == k
    decreases n
  {
    hide AllSeen;
    if n == 0 {
      NothingSeen(arrivals, messages, id);
    } else if AllSeen(arrivals[..n - 1], messages, id) {
      k := OneCompletingArrival(arrivals, messages, id, n - 1);
      assert arrivals[..n - 1] + [arrivals[n - 1]] == arrivals[..n];
    } else {
      k := n - 1;
      assert arrivals[..k] + [arrivals[k]] == arrivals[..n];
      if arrivals[k].id != id {
        OtherSeen(arrivals[..k], arrivals[k], messages, id);
      }
      forall j | 0 <= j < n && arrivals[j].id == id && Expected(arrivals[..j], messages, arrivals[j]).Some?
        ensures j == k
      {
        assert arrivals[..j] + [arrivals[j]] == arrivals[..j + 1];
        if j < k {
          SeenMonotone(arrivals, messages, id, j + 1, k);
        }
      }
    }
  }

  lemma NothingSeen(arrivals: seq<Arrival>, messages: Messages, id: nat)
    requires id in messages
    ensures !AllSeen(arrivals[..0], messages, id)
  {
    assert !Seen(arrivals[..0], id, 0);
  }

  // ---- when a call throws ----

  lemma {:induction false} JoinedWithin(chunks: Chunks, message: seq<byte>, k: nat)
    requires k <= FrameCount(|message|)
    requires forall index :: 0 <= index < FrameCount(|message|) ==>
      Lookup(chunks, index).None? || Lookup(chunks, index) == Some(Payload(message, index))
    ensures |Joined(chunks, k)| <= |Pieces(message, k)|
  {
    if k > 0 {
      JoinedWithin(chunks, message, k - 1);
    }
  }

  /** The frames of one message never exceed the per-message limit. */
  lemma NextFits(p: Partial, arrivals: seq<Arrival>, a: Arrival, messages: Messages)
    requires ValidMessages(messages) && ValidArrival(messages, a) && PartialInv(p)
    requires HoldsSeen(p, arrivals, messages, a.id) && !Seen(arrivals, a.id, a.index)
    ensures p.bytes + |Payload(messages[a.id], a.index)| <= MAX_MESSAGE_BYTES
  {
    hide Payload, Seen, Lookup;
    var payload, message := Payload(messages[a.id], a.index), messages[a.id];
    var next := Put(p.chunks, a.index, payload);
    PutFacts(p.chunks, a.index, payload, a.index);
    PutUnique(p.chunks, a.index, payload);
    assert Lookup(p.chunks, a.index).None?;
    SumLengthsPush(p.chunks, Entry(a.index, payload));
    forall index | 0 <= index < p.count
      ensures Lookup(next, index).None? || Lookup(next, index) == Some(Payload(message, index))
    {
      NextLookup(p, arrivals, a, messages, index);
    }
    JoinedLength(next, p.count);
    JoinedWithin(next, message, p.count);
    PiecesJoin(message);
  }

  /** What a receiver must have room for: a place among the partial messages, and the new bytes. */
  predicate WithinLimits(s: State, arrivals: seq<Arrival>, a: Arrival, messages: Messages)
    requires ValidArrival(messages, a)
  {
    && ExpiredCount(s, a.now) <= 0
    && (AllSeen(arrivals, messages, a.id) ||
        (&& (Has(s.partial, a.id) || |s.partial| < MAX_PARTIAL_MESSAGES)
         && (Seen(arrivals, a.id, a.index) || s.partialBytes
             + |Payload(messages[a.id], a.index)| <= MAX_PARTIAL_BYTES)))
  }

  lemma PendingAccepts(s: State, arrivals: seq<Arrival>, a: Arrival, messages: Messages, p: Partial,
                       hash: seq<byte> -> nat)
    requires ValidMessages(messages) && ValidArrival(messages, a) && PartialInv(p)
      && HoldsSeen(p, arrivals, messages, a.id)
    ensures AcceptPending(s, Header(a.id, a.index, Count(messages, a.id)), Payload(messages[a.id], a.index), p, a.now,
                          hash).result.Ok?
      <==> Seen(arrivals, a.id, a.index) || s.partialBytes + |Payload(messages[a.id], a.index)| <= MAX_PARTIAL_BYTES
  {
    hide Payload, Seen, Complete, PartialInv, Put;
    if !Seen(arrivals, a.id, a.index) {
      NextFits(p, arrivals, a, messages);
    }
  }

  /** An intact frame is accepted exactly when nothing has timed out and the receiver has room for it. */
  lemma AcceptedIffRoom(s: State, arrivals: seq<Arrival>, a: Arrival, messages: Messages, hash: seq<byte> -> nat)
    requires ValidMessages(messages) && ValidArrival(messages, a) && FramerInv(s) && Tracks(s, arrivals, messages, hash)
    requires WithinWindow(s, arrivals, messages, a)
    ensures Accept(s, FrameOf(messages, a), a.now, hash).result.Ok? <==> WithinLimits(s, arrivals, a, messages)
  {
    hide FramerInv, AllSeen, Payload, AcceptPending, EncodeFrame, ReadHeader, Expire, ExpiredCount, HoldsSeen, Seen;
    HeaderOf(messages, a);
    if ExpiredCount(s, a.now) <= 0 {
      NothingExpired(s, a.now);
      assert Tracked(s, arrivals, messages, a.id, hash);
      if AllSeen(arrivals, messages, a.id) {
      } else if Lookup(s.partial, a.id).Some? {
        FoundPartial(s, a.id, Lookup(s.partial, a.id).value);
        PendingAccepts(s, arrivals, a, messages, Lookup(s.partial, a.id).value, hash);
      } else {
        var p := Partial(Count(messages, a.id), [], 0, a.now + PARTIAL_TTL_MS);
        MessageCount(messages, a.id);
        EmptyPartial(p);
        FreshHolds(p, arrivals, messages, a.id);
        PendingAccepts(s.(partial := Put(s.partial, a.id, p)), arrivals, a, messages, p, hash);
      }
    }
  }
}
