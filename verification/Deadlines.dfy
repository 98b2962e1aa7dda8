/** When a partial message runs out of time (expire and accept, packages/p2p/src/framing.ts). */
module Deadlines {
  import opened Results
  import opened Octets
  import opened OrderedMaps
  import opened Framing
  import opened Reassembly

  // ---- one call ----

  /** Some partial message has waited past its time. */
  predicate Overdue(s: State, now: int) {
    exists e :: e in s.partial && e.value.expires <= now
  }

  lemma {:induction false} LookupIs<V>(m: seq<Entry<nat, V>>, key: nat, value: V)
    requires UniqueKeys(m)
    ensures Lookup(m, key) == Some(value) <==> Entry(key, value) in m
  {
    if m != [] {
      TailUnique(m);
      LookupIs(m[1..], key, value);
      if Entry(key, value) in m && m[0] != Entry(key, value) {
        assert Entry(key, value) in m[1..];
      }
      if Entry(key, value) in m[1..] {
        var i :| 0 <= i < |m[1..]| && m[1..][i] == Entry(key, value);
        assert Has(m[1..], key);
      }
    }
  }

  lemma {:induction false} LiveShorter(partial: seq<Entry<nat, Partial>>, now: int)
    ensures |Live(partial, now)| < |partial| <==> exists e :: e in partial && e.value.expires <= now
  {
    hide Live;
    LiveSubset(partial, now);
    if partial != [] {
      var front, last := partial[..|partial| - 1], partial[|partial| - 1];
      assert partial == front + [last];
      LiveShorter(front, now);
      LiveSubset(front, now);
      LivePush(front, last, now);
    }
  }

  lemma LiveMembers(partial: seq<Entry<nat, Partial>>, now: int)
    ensures forall e :: e in Live(partial, now) <==> e in partial && e.value.expires > now
  {
  }

  lemma LiveLookup(s: State, now: int, id: nat)
    requires FramerInv(s)
    ensures Lookup(Live(s.partial, now), id)
      == match Lookup(s.partial, id) case Some(p) => (if p.expires > now then Some(p) else None) case None => None
  {
    hide Live, Lookup;
    LiveMembers(s.partial, now);
    LiveUnique(s.partial, now);
    var live := Live(s.partial, now);
    if Lookup(s.partial, id).Some? {
      LookupIs(s.partial, id, Lookup(s.partial, id).value);
      LookupIs(live, id, Lookup(s.partial, id).value);
    }
    if Lookup(live, id).Some? {
      LookupIs(live, id, Lookup(live, id).value);
      LookupIs(s.partial, id, Lookup(live, id).value);
    }
  }

  /** The bookkeeping of one frame never reports a timeout. */
  lemma NoOtherTimeout(s: State, h: Header, payload: seq<byte>, now: int, hash: seq<byte> -> nat)
    ensures AcceptFrame(s, h, payload, now, hash).result != Err("timeout")
  {
  }

  /**
   * A well-formed frame is refused for a timeout exactly when some partial message is overdue. Then exactly the
   * overdue ones are dropped, and the frame with them.
   */
  lemma TimedOutIff(s: State, frame: seq<byte>, now: int, hash: seq<byte> -> nat)
    requires FramerInv(s)
    ensures var r := Accept(s, frame, now, hash);
      && (r.result == Err("timeout") <==> WellFormedFrame(frame) && Overdue(s, now))
      && (r.result == Err("timeout") ==>
            && r.state.completed == s.completed
            && forall id :: Lookup(r.state.partial, id)
                 == match Lookup(s.partial, id)
                    case Some(p) => (if p.expires > now then Some(p) else None)
                    case None => None)
  {
    hide FramerInv, AcceptFrame, Live, ReadHeader, ValidHeader, Lookup;
    LiveShorter(s.partial, now);
    if WellFormedFrame(frame) {
      NoOtherTimeout(Expire(s, now), ReadHeader(frame), frame[FRAME_HEADER_BYTES..], now, hash);
    }
    forall id
      ensures Lookup(Live(s.partial, now), id)
        == match Lookup(s.partial, id) case Some(p) => (if p.expires > now then Some(p) else None) case None => None
    {
      LiveLookup(s, now, id);
    }
  }

  lemma PutLookup(m: seq<Entry<nat, Partial>>, key: nat, p: Partial)
    ensures forall id :: Lookup(Put(m, key, p), id) == if id == key then Some(p) else Lookup(m, id)
  {
    forall id ensures Lookup(Put(m, key, p), id) == if id == key then Some(p) else Lookup(m, id) {
      PutFacts(m, key, p, id);
    }
  }

  lemma RemoveLookup(m: seq<Entry<nat, Partial>>, key: nat)
    requires UniqueKeys(m)
    ensures forall id :: Lookup(Remove(m, key), id) == if id == key then None else Lookup(m, id)
  {
    forall id ensures Lookup(Remove(m, key), id) == if id == key then None else Lookup(m, id) {
      RemoveFacts(m, key, id);
    }
  }

  lemma PendingRenews(s: State, h: Header, payload: seq<byte>, p: Partial, now: int, hash: seq<byte> -> nat)
    requires UniqueKeys(s.partial) && AcceptPending(s, h, payload, p, now, hash).result.Ok?
    ensures var t := AcceptPending(s, h, payload, p, now, hash).state;
      && (forall id :: id != h.id ==> Lookup(t.partial, id) == Lookup(s.partial, id))
      && (Lookup(t.partial, h.id).Some? ==> Lookup(t.partial, h.id).value.expires == now + PARTIAL_TTL_MS)
  {
    hide Lookup, Put, Remove, Joined, Hashes, Remember;
    var prior := Lookup(p.chunks, h.index);
    if prior.Some? {
      PutLookup(s.partial, h.id, p.(expires := now + PARTIAL_TTL_MS));
    } else {
      var next := Partial(p.count, Put(p.chunks, h.index, payload), p.bytes + |payload|, now + PARTIAL_TTL_MS);
      PutLookup(s.partial, h.id, next);
      PutUnique(s.partial, h.id, next);
      RemoveLookup(Put(s.partial, h.id, next), h.id);
    }
  }

  /** An accepted frame of an unfinished message sets that message's deadline anew and no other. */
  lemma FrameRenews(s: State, h: Header, payload: seq<byte>, now: int, hash: seq<byte> -> nat)
    requires UniqueKeys(s.partial) && AcceptFrame(s, h, payload, now, hash).result.Ok?
      && Lookup(s.completed, h.id).None?
    ensures var t := AcceptFrame(s, h, payload, now, hash).state;
      && (forall id :: id != h.id ==> Lookup(t.partial, id) == Lookup(s.partial, id))
      && (Lookup(t.partial, h.id).Some? ==> Lookup(t.partial, h.id).value.expires == now + PARTIAL_TTL_MS)
  {
    hide Lookup, Put, AcceptPending;
    var found := Lookup(s.partial, h.id);
    if found.Some? {
      PendingRenews(s, h, payload, found.value, now, hash);
    } else {
      var p := Partial(h.count, [], 0, now + PARTIAL_TTL_MS);
      PutLookup(s.partial, h.id, p);
      PutUnique(s.partial, h.id, p);
      PendingRenews(s.(partial := Put(s.partial, h.id, p)), h, payload, p, now, hash);
    }
  }

  // ---- whole runs ----

  /** The time of the last frame of a message. */
  function LastTime(arrivals: seq<Arrival>, id: nat): (r: Option<int>)
    ensures r.Some? <==> exists a :: a in arrivals && a.id == id
  {
    if arrivals == [] then None
    else if arrivals[|arrivals| - 1].id == id then Some(arrivals[|arrivals| - 1].now)
    else
      assert forall a :: a in arrivals && a.id == id ==> a in arrivals[..|arrivals| - 1];
      LastTime(arrivals[..|arrivals| - 1], id)
  }

  /** Each partial message's deadline is its last frame's time and the thirty seconds it may wait. */
  predicate OnTime(s: State, arrivals: seq<Arrival>, id: nat) {
    Lookup(s.partial, id).Some? ==>
      && LastTime(arrivals, id).Some?
      && Lookup(s.partial, id).value.expires == LastTime(arrivals, id).value + PARTIAL_TTL_MS
  }

  lemma {:induction false} RunDeadlines(messages: Messages, arrivals: seq<Arrival>, hash: seq<byte> -> nat, id: nat)
    requires ValidMessages(messages) && (forall a :: a in arrivals ==> ValidArrival(messages, a))
      && After(messages, arrivals, hash).Some?
    ensures OnTime(After(messages, arrivals, hash).value, arrivals, id)
    decreases |arrivals|
  {
    hide Accept, FramerInv, Tracked, WithinWindow, Lookup, AcceptFrame, ValidArrival;
    if arrivals == [] {
      NothingHeld(id);
    } else {
      var front, last := arrivals[..|arrivals| - 1], arrivals[|arrivals| - 1];
      assert forall a :: a in front ==> a in arrivals;
      RunDeadlines(messages, front, hash, id);
      RunTracks(messages, front, hash);
      var s := After(messages, front, hash).value;
      AcceptIs(s, messages, last, hash);
      StepDeadline(s, front, last, messages, hash, id);
      assert arrivals == front + [last];
    }
  }

  lemma NothingHeld(id: nat)
    ensures Lookup(EMPTY.partial, id).None?
  {
  }

  lemma LastPush(arrivals: seq<Arrival>, a: Arrival, id: nat)
    ensures LastTime(arrivals + [a], id) == if a.id == id then Some(a.now) else LastTime(arrivals, id)
  {
    assert (arrivals + [a])[..|arrivals|] == arrivals;
  }

  lemma StepDeadline(s: State, arrivals: seq<Arrival>, a: Arrival, messages: Messages, hash: seq<byte> -> nat, id: nat)
    requires ValidArrival(messages, a) && FramerInv(s) && Tracks(s, arrivals, messages, hash) && OnTime(s, arrivals, id)
    requires var h := Header(a.id, a.index, Count(messages, a.id));
      AcceptFrame(s, h, Payload(messages[a.id], a.index), a.now, hash).result.Ok?
    ensures var h := Header(a.id, a.index, Count(messages, a.id));
      OnTime(AcceptFrame(s, h, Payload(messages[a.id], a.index), a.now, hash).state, arrivals + [a], id)
  {
    hide Lookup, AcceptPending, LastTime, AllSeen, HoldsSeen, RemembersAll, FramerInv;
    LastPush(arrivals, a, id);
    PartialUnique(s);
    assert Tracked(s, arrivals, messages, a.id, hash);
    if Lookup(s.completed, a.id).None? {
      FrameRenews(s, Header(a.id, a.index, Count(messages, a.id)), Payload(messages[a.id], a.index), a.now, hash);
    }
  }

  /** A message of which some but not all frames arrived, the last of them too long ago. */
  predicate RanOut(arrivals: seq<Arrival>, messages: Messages, id: nat, now: int)
    requires forall a :: a in arrivals ==> ValidArrival(messages, a)
  {
    && LastTime(arrivals, id).Some? && id in messages && !AllSeen(arrivals, messages, id)
    && LastTime(arrivals, id).value + PARTIAL_TTL_MS <= now
  }

  lemma PartialIsUnfinished(s: State, arrivals: seq<Arrival>, messages: Messages, hash: seq<byte> -> nat, id: nat)
    requires (forall a :: a in arrivals ==> ValidArrival(messages, a)) && id in messages
    requires Tracks(s, arrivals, messages, hash) && LastTime(arrivals, id).Some?
    ensures Lookup(s.partial, id).Some? <==> !AllSeen(arrivals, messages, id)
  {
    hide Lookup, HoldsSeen, RemembersAll, AllSeen;
    assert Tracked(s, arrivals, messages, id, hash);
    var a :| a in arrivals && a.id == id;
    assert Seen(arrivals, id, a.index) && ValidArrival(messages, a);
  }

  /**
   * In every run, the next frame is refused for a timeout exactly when some message, started and not finished, had its
   * last frame at least thirty seconds ago.
   */
  lemma RunTimesOut(messages: Messages, arrivals: seq<Arrival>, frame: seq<byte>, now: int, hash: seq<byte> -> nat)
    requires ValidMessages(messages) && (forall a :: a in arrivals ==> ValidArrival(messages, a))
      && After(messages, arrivals, hash).Some? && WellFormedFrame(frame)
    ensures Accept(After(messages, arrivals, hash).value, frame, now, hash).result == Err("timeout")
      <==> exists id: nat :: RanOut(arrivals, messages, id, now)
  {
    hide Accept, FramerInv, After, AllSeen, Tracks, Lookup, LastTime;
    var s := After(messages, arrivals, hash).value;
    RunTracks(messages, arrivals, hash);
    TimedOutIff(s, frame, now, hash);
    PartialUnique(s);
    if id: nat :| RanOut(arrivals, messages, id, now) {
      PartialIsUnfinished(s, arrivals, messages, hash, id);
      RunDeadlines(messages, arrivals, hash, id);
      var p := Lookup(s.partial, id).value;
      LookupIs(s.partial, id, p);
      assert Entry(id, p) in s.partial;
    }
    if e :| e in s.partial && e.value.expires <= now {
      LookupIs(s.partial, e.key, e.value);
      RunDeadlines(messages, arrivals, hash, e.key);
      var a :| a in arrivals && a.id == e.key;
      assert ValidArrival(messages, a);
      PartialIsUnfinished(s, arrivals, messages, hash, e.key);
      assert RanOut(arrivals, messages, e.key, now);
    }
  }

  // ---- what is remembered of finished messages ----

  function KeysOf(m: seq<Entry<nat, Done>>): (r: seq<nat>)
    ensures |r| == |m| && forall i :: 0 <= i < |r| ==> r[i] == m[i].key
  {
    seq(|m|, i requires 0 <= i < |m| => m[i].key)
  }

  /** The last so many elements. */
  function Latest(ids: seq<nat>, count: nat): seq<nat> {
    if |ids| > count then ids[|ids| - count..] else ids
  }

  /** The messages in the order in which they were finished. */
  function Finished(messages: Messages, arrivals: seq<Arrival>): seq<nat>
    requires forall a :: a in arrivals ==> ValidArrival(messages, a)
  {
    if arrivals == [] then []
    else
      var front, last := arrivals[..|arrivals| - 1], arrivals[|arrivals| - 1];
      assert forall a :: a in front ==> a in arrivals;
      assert last in arrivals && ValidArrival(messages, last);
      Finished(messages, front)
        + if AllSeen(arrivals, messages, last.id) && !AllSeen(front, messages, last.id) then [last.id] else []
  }

  lemma RememberKeys(completed: seq<Entry<nat, Done>>, id: nat, done: Done, finished: seq<nat>)
    requires !Has(completed, id) && KeysOf(completed) == Latest(finished, RECENT_IDS)
    ensures KeysOf(Remember(completed, id, done)) == Latest(finished + [id], RECENT_IDS)
  {
    hide Put, Has;
    PutFacts(completed, id, done, id);
    var more := completed + [Entry(id, done)];
    assert KeysOf(more) == KeysOf(completed) + [id];
  }

  /** Only the frame that completes a message changes what is remembered, and it adds that message last. */
  lemma FrameRemembers(s: State, h: Header, payload: seq<byte>, now: int, hash: seq<byte> -> nat, finished: seq<nat>)
    requires AcceptFrame(s, h, payload, now, hash).result.Ok? && KeysOf(s.completed) == Latest(finished, RECENT_IDS)
    ensures var r := AcceptFrame(s, h, payload, now, hash);
      KeysOf(r.state.completed)
        == Latest(if r.result.value.Some? then finished + [h.id] else finished, RECENT_IDS)
  {
    hide Remember, KeysOf, Latest, Put, Remove, Joined, Hashes;
    if Lookup(s.completed, h.id).None? {
      forall done ensures KeysOf(Remember(s.completed, h.id, done)) == Latest(finished + [h.id], RECENT_IDS) {
        RememberKeys(s.completed, h.id, done, finished);
      }
    }
  }

  /** In every run the receiver remembers exactly the last sixty-four messages that were finished. */
  lemma {:induction false} RunRemembers(messages: Messages, arrivals: seq<Arrival>, hash: seq<byte> -> nat)
    requires ValidMessages(messages) && (forall a :: a in arrivals ==> ValidArrival(messages, a))
      && After(messages, arrivals, hash).Some?
    ensures KeysOf(After(messages, arrivals, hash).value.completed) == Latest(Finished(messages, arrivals), RECENT_IDS)
    decreases |arrivals|
  {
    hide Accept, FramerInv, Tracked, WithinWindow, AcceptFrame, ValidArrival, AllSeen, KeysOf, Latest;
    if arrivals == [] {
      NothingRemembered();
    } else {
      var front, last := arrivals[..|arrivals| - 1], arrivals[|arrivals| - 1];
      assert forall a :: a in front ==> a in arrivals;
      assert last in arrivals;
      KnownId(messages, last);
      RunRemembers(messages, front, hash);
      RunTracks(messages, front, hash);
      var s := After(messages, front, hash).value;
      AcceptIs(s, messages, last, hash);
      ArrivalTracks(s, front, last, messages, hash);
      assert arrivals == front + [last];
      FrameRemembers(s, Header(last.id, last.index, Count(messages, last.id)), Payload(messages[last.id], last.index),
                     last.now, hash, Finished(messages, front));
      FinishedStep(messages, front, last);
    }
  }

  lemma FinishedStep(messages: Messages, front: seq<Arrival>, last: Arrival)
    requires forall a :: a in front + [last] ==> ValidArrival(messages, a)
    requires last.id in messages && forall a :: a in front ==> ValidArrival(messages, a)
    ensures Finished(messages, front + [last])
      == (if Expected(front, messages, last).Some? then Finished(messages, front) + [last.id]
          else Finished(messages, front))
  {
    hide ValidArrival, AllSeen;
    assert (front + [last])[..|front|] == front;
  }

  lemma KnownId(messages: Messages, a: Arrival)
    requires ValidArrival(messages, a)
    ensures a.id in messages && a.index < Count(messages, a.id)
  {
  }

  lemma NothingRemembered()
    ensures KeysOf(EMPTY.completed) == Latest([], RECENT_IDS)
  {
  }
}
