/**
 * The signaling rooms: who is in each, what roster each member was last sent, and how fast a session may
 * send (apps/signaling/src/room-core.ts). A room, a key and a challenge are numbers; a send may fail at any time.
 */
module Rooms {
  import opened Results

  const MAX_ROOM_PEERS := 8
  const ROOM_IDLE_MS := 24 * 60 * 60 * 1_000
  const ROOM_JOIN_TIMEOUT_MS := 10_000
  const RATE_WINDOW_MS := 1_000
  const MAX_RATE := 30

  datatype Session = Session(id: nat, room: nat, challenge: nat, openedAt: int, lastNow: int, arrivals: seq<int>,
                             peer: Option<nat>)

  /** Members by key, each the session that joined under it. */
  datatype Room = Room(peers: map<nat, nat>, lastActivity: int)

  /** A clock reads a finite time, minus infinity, or nothing usable. */
  datatype Clock = At(now: int) | Below | NotFinite

  /** A join's fields; `genuine` says that its signature verifies under the key it names. */
  datatype JoinBody = JoinBody(room: nat, peer: nat, challenge: nat, genuine: bool)

  /** A text frame as the receiver reads it; `fits` says that the forwarded frame is within the wire limit. */
  datatype Frame = TooLong | Malformed | Join(body: JoinBody) | Signal(to: nat, envelope: nat, fits: bool) | Leave

  // ---- the rate limiter ----

  /**
   * The arrivals kept are the last accepted times; those dropped are a whole window old; and any thirty-one
   * accepted in a row span at least a window.
   */
  predicate Limited(s: Session, times: seq<int>) {
    && |s.arrivals| <= MAX_RATE && |s.arrivals| <= |times| && s.arrivals == times[|times| - |s.arrivals|..]
    && (forall i :: 0 <= i < |times| ==> times[i] <= s.lastNow)
    && Rising(times)
    && (forall i :: 0 <= i < |times| - |s.arrivals| ==> times[i] + RATE_WINDOW_MS <= s.lastNow)
    && Spaced(times)
  }

  predicate Spaced(times: seq<int>) {
    forall i :: 0 <= i < |times| - MAX_RATE ==> times[i] + RATE_WINDOW_MS <= times[i + MAX_RATE]
  }

  predicate Rising(times: seq<int>) {
    forall i, j :: 0 <= i < j < |times| ==> times[i] <= times[j]
  }

  /** Thirty-one accepted frames never fit in one window, wherever the window lies. */
  lemma NeverTooMany(times: seq<int>, first: nat, last: nat)
    requires Spaced(times) && Rising(times) && first + MAX_RATE <= last < |times|
    ensures times[last] - times[first] >= RATE_WINDOW_MS
  {
    assert times[first] + RATE_WINDOW_MS <= times[first + MAX_RATE];
  }

  /** The arrivals kept while the window slides to a time: the last accepted ones, all older ones expired. */
  predicate Kept(arrivals: seq<int>, times: seq<int>, now: int) {
    && |arrivals| <= MAX_RATE && |arrivals| <= |times| && arrivals == times[|times| - |arrivals|..]
    && forall i :: 0 <= i < |times| - |arrivals| ==> times[i] + RATE_WINDOW_MS <= now
  }

  /** What is left of the arrivals once all that are a window old are dropped from the front. */
  function Slid(arrivals: seq<int>, now: int): seq<int> {
    if |arrivals| > 0 && arrivals[0] <= now - RATE_WINDOW_MS then Slid(arrivals[1..], now) else arrivals
  }

  predicate HasRoom(s: Session, now: int) {
    |Slid(s.arrivals, now)| < MAX_RATE
  }

  /** The session after a frame: its window slid, and the new time taken if there is room. */
  function Timed(s: Session, now: int): Session {
    s.(lastNow := now, arrivals := Slid(s.arrivals, now) + if HasRoom(s, now) then [now] else [])
  }

  lemma {:induction false} SlidKept(arrivals: seq<int>, times: seq<int>, now: int)
    requires Kept(arrivals, times, now)
    ensures Kept(Slid(arrivals, now), times, now)
    ensures |Slid(arrivals, now)| > 0 ==> Slid(arrivals, now)[0] > now - RATE_WINDOW_MS
    decreases |arrivals|
  {
    if |arrivals| > 0 && arrivals[0] <= now - RATE_WINDOW_MS {
      assert arrivals[0] == times[|times| - |arrivals|];
      SlidKept(arrivals[1..], times, now);
    }
  }

  lemma StillLimited(s: Session, now: int, arrivals: seq<int>, times: seq<int>)
    requires Limited(s, times) && s.lastNow <= now && Kept(arrivals, times, now)
    ensures Limited(s.(lastNow := now, arrivals := arrivals), times)
  {
    hide Spaced, Rising;
  }

  lemma OneMoreSpaced(arrivals: seq<int>, now: int, times: seq<int>)
    requires |arrivals| < MAX_RATE && Kept(arrivals, times, now) && Spaced(times)
    ensures Spaced(times + [now])
  {
    var longer := times + [now];
    forall i | 0 <= i < |longer| - MAX_RATE ensures longer[i] + RATE_WINDOW_MS <= longer[i + MAX_RATE] {
      assert longer[i] == times[i];
      assert i + MAX_RATE < |times| ==> times[i] + RATE_WINDOW_MS <= times[i + MAX_RATE];
    }
  }

  /** Accepting one more keeps the limit when fewer than thirty are left in the window. */
  lemma OneMore(s: Session, now: int, arrivals: seq<int>, times: seq<int>)
    requires Limited(s, times) && s.lastNow <= now && Kept(arrivals, times, now) && |arrivals| < MAX_RATE
    ensures Limited(s.(lastNow := now, arrivals := arrivals + [now]), times + [now])
  {
    OneMoreSpaced(arrivals, now, times);
    hide Spaced;
    var longer := times + [now];
    assert longer[|times| - |arrivals|..] == arrivals + [now];
  }

  /** The limiter stays exact: a frame has room exactly when the thirtieth accepted one before it is a window old. */
  lemma ArrivalLimited(s: Session, now: int, times: seq<int>)
    requires Limited(s, times) && s.lastNow <= now
    ensures Limited(Timed(s, now), if HasRoom(s, now) then times + [now] else times)
    ensures HasRoom(s, now) <==> |times| < MAX_RATE || times[|times| - MAX_RATE] + RATE_WINDOW_MS <= now
  {
    hide Spaced, Rising, Slid;
    var arrivals := Slid(s.arrivals, now);
    SlidKept(s.arrivals, times, now);
    assert arrivals + [] == arrivals;
    if HasRoom(s, now) {
      OneMore(s, now, arrivals, times);
    } else {
      assert times[|times| - MAX_RATE] == arrivals[0];
      StillLimited(s, now, arrivals, times);
    }
  }

  /** The sliding window: drops what is a window old, and takes the new time if there is room. */
  method Arrive(s: Session, now: int) returns (next: Session, ok: bool)
    ensures next == Timed(s, now) && (ok <==> HasRoom(s, now))
  {
    var arrivals := s.arrivals;
    while |arrivals| > 0 && arrivals[0] <= now - RATE_WINDOW_MS
      invariant Slid(arrivals, now) == Slid(s.arrivals, now)
    {
      arrivals := arrivals[1..];
    }
    ok := |arrivals| < MAX_RATE;
    next := s.(lastNow := now, arrivals := if ok then arrivals + [now] else arrivals);
    assert arrivals + [] == arrivals;
  }

  // ---- who is where ----

  datatype Registry = Registry(sessions: map<nat, Session>, rooms: map<nat, Room>)

  /** Where a session is a member, if it is one. */
  function RoomOf(g: Registry, id: nat): Option<nat> {
    if id in g.sessions && g.sessions[id].peer.Some? then Some(g.sessions[id].room) else None
  }

  predicate MemberAt(g: Registry, r: nat, p: nat) {
    r in g.rooms && p in g.rooms[r].peers
  }

  function SessionAt(g: Registry, r: nat, p: nat): nat
    requires MemberAt(g, r, p)
  {
    g.rooms[r].peers[p]
  }

  /** Each member entry names a live session of that room and key. */
  ghost predicate EntriesOk(g: Registry) {
    forall r: nat, p: nat :: MemberAt(g, r, p) ==>
      && SessionAt(g, r, p) in g.sessions
      && g.sessions[SessionAt(g, r, p)].room == r && g.sessions[SessionAt(g, r, p)].peer == Some(p)
  }

  predicate Listed(g: Registry, id: nat)
    requires id in g.sessions
  {
    var s := g.sessions[id];
    s.peer.Some? ==> MemberAt(g, s.room, s.peer.value) && SessionAt(g, s.room, s.peer.value) == id
  }

  predicate RoomOk(room: Room) {
    1 <= |room.peers| <= MAX_ROOM_PEERS
  }

  /** Sessions and rooms point at each other, and no empty or overfull room is kept. */
  ghost predicate Linked(g: Registry) {
    && EntriesOk(g)
    && (forall id :: id in g.sessions ==> g.sessions[id].id == id && Listed(g, id))
    && (forall r :: r in g.rooms ==> RoomOk(g.rooms[r]))
  }

  /** Every member was last sent exactly the members its room has now, except perhaps in one room. */
  ghost predicate Told(g: Registry, rosters: map<nat, set<nat>>, but: Option<nat>) {
    forall r: nat, p: nat :: MemberAt(g, r, p) && but != Some(r) ==>
      SessionAt(g, r, p) in rosters && rosters[SessionAt(g, r, p)] == g.rooms[r].peers.Keys
  }

  /** Ids are not above the counter, and each session's limiter agrees with its accepted times. */
  predicate Counted(sessions: map<nat, Session>, nextId: nat, accepted: map<nat, seq<int>>) {
    forall id :: id in sessions ==> id <= nextId && id in accepted && Limited(sessions[id], accepted[id])
  }

  lemma CountedStays(before: Registry, after: Registry, nextId: nat, accepted: map<nat, seq<int>>, gone: Option<nat>,
                     r: Option<nat>)
    requires Counted(before.sessions, nextId, accepted) && OnlyLeave(before, after, gone, r)
    ensures Counted(after.sessions, nextId, accepted)
  {
    hide Limited;
  }

  /** Nobody is added or changed; only one session, and members of one room, may go. */
  predicate OnlyLeave(before: Registry, after: Registry, gone: Option<nat>, r: Option<nat>) {
    && (forall id :: id in after.sessions ==> id in before.sessions && after.sessions[id] == before.sessions[id])
    && (forall id :: id in before.sessions && gone != Some(id) && (r.None? || RoomOf(before, id) != r) ==>
        id in after.sessions)
    && (forall x :: x in after.rooms ==>
        x in before.rooms && after.rooms[x].lastActivity == before.rooms[x].lastActivity)
  }

  lemma LeavesCompose(a: Registry, b: Registry, c: Registry, gone: Option<nat>, r: Option<nat>)
    requires OnlyLeave(a, b, gone, r) && OnlyLeave(b, c, None, r)
    ensures OnlyLeave(a, c, gone, r)
  {
  }

  /** The registry without a session that was never a member. */
  function Dropped(g: Registry, id: nat): Registry {
    g.(sessions := g.sessions - {id})
  }

  lemma DropKeeps(g: Registry, id: nat, rosters: map<nat, set<nat>>)
    requires Linked(g) && id in g.sessions && g.sessions[id].peer.None? && Told(g, rosters, None)
    ensures Linked(Dropped(g, id)) && Told(Dropped(g, id), rosters, None)
      && OnlyLeave(g, Dropped(g, id), Some(id), None)
  {
    var h := Dropped(g, id);
    forall r: nat, p: nat | MemberAt(h, r, p)
      ensures SessionAt(h, r, p) in h.sessions && h.sessions[SessionAt(h, r, p)].room == r
        && h.sessions[SessionAt(h, r, p)].peer == Some(p)
      ensures SessionAt(h, r, p) in rosters && rosters[SessionAt(h, r, p)] == h.rooms[r].peers.Keys
    {
      assert MemberAt(g, r, p);
    }
    forall k | k in h.sessions ensures Listed(h, k) {
      assert Listed(g, k);
      var s := h.sessions[k];
      assert s.peer.Some? ==> MemberAt(h, s.room, s.peer.value);
    }
  }

  /** The registry after a member left: its room goes when it was the last. */
  function Left(g: Registry, id: nat): Registry
    requires id in g.sessions && g.sessions[id].peer.Some? && g.sessions[id].room in g.rooms
  {
    var s := g.sessions[id];
    var room := g.rooms[s.room];
    var peers := room.peers - {s.peer.value};
    Registry(g.sessions - {id}, if |peers| == 0 then g.rooms - {s.room} else g.rooms[s.room := room.(peers := peers)])
  }

  lemma LeftMembers(g: Registry, id: nat, r: nat, p: nat)
    requires Linked(g) && id in g.sessions && g.sessions[id].peer.Some?
    ensures g.sessions[id].room in g.rooms
    ensures MemberAt(Left(g, id), r, p) <==>
      MemberAt(g, r, p) && !(r == g.sessions[id].room && p == g.sessions[id].peer.value)
    ensures MemberAt(Left(g, id), r, p) ==> SessionAt(Left(g, id), r, p) == SessionAt(g, r, p) != id
  {
    assert Listed(g, id);
    var s := g.sessions[id];
    assert MemberAt(g, s.room, s.peer.value) && SessionAt(g, s.room, s.peer.value) == id;
  }

  lemma LeaveFits(g: Registry, id: nat)
    requires Linked(g) && id in g.sessions && g.sessions[id].peer.Some? && g.sessions[id].room in g.rooms
    ensures var h, r := Left(g, id), g.sessions[id].room;
      && (forall x :: x in h.rooms ==>
            x in g.rooms && RoomOk(h.rooms[x]) && h.rooms[x].lastActivity == g.rooms[x].lastActivity)
      && (r in h.rooms ==> |h.rooms[r].peers| < |g.rooms[r].peers|)
  {
    assert Listed(g, id);
    var s := g.sessions[id];
    assert MemberAt(g, s.room, s.peer.value);
    var peers := g.rooms[s.room].peers;
    assert RoomOk(g.rooms[s.room]);
    assert peers.Keys == (peers - {s.peer.value}).Keys + {s.peer.value};
    assert |peers.Keys| == |(peers - {s.peer.value}).Keys| + 1;
  }

  lemma LeaveListed(g: Registry, id: nat, k: nat)
    requires Linked(g) && id in g.sessions && g.sessions[id].peer.Some? && g.sessions[id].room in g.rooms
    requires k in Left(g, id).sessions
    ensures k in g.sessions && k != id && Left(g, id).sessions[k] == g.sessions[k] && Listed(Left(g, id), k)
  {
    assert Listed(g, k);
    if g.sessions[k].peer.Some? {
      LeftMembers(g, id, g.sessions[k].room, g.sessions[k].peer.value);
    }
  }

  lemma LeaveKeeps(g: Registry, id: nat, rosters: map<nat, set<nat>>)
    requires Linked(g) && id in g.sessions && g.sessions[id].peer.Some? && Told(g, rosters, Some(g.sessions[id].room))
    ensures g.sessions[id].room in g.rooms && g.sessions[id].peer.value in g.rooms[g.sessions[id].room].peers
    ensures g.rooms[g.sessions[id].room].peers[g.sessions[id].peer.value] == id
    ensures var h := Left(g, id);
      && Linked(h) && Told(h, rosters, Some(g.sessions[id].room))
      && OnlyLeave(g, h, Some(id), Some(g.sessions[id].room))
      && (g.sessions[id].room in h.rooms ==>
          |h.rooms[g.sessions[id].room].peers| < |g.rooms[g.sessions[id].room].peers|)
  {
    MemberSelf(g, id);
    var h := Left(g, id);
    LeaveFits(g, id);
    LeaveOnly(g, id);
    LeaveEntries(g, id);
    LeaveTold(g, id, rosters);
    hide RoomOk, Left, EntriesOk, Told, OnlyLeave, Listed;
    forall k | k in h.sessions ensures h.sessions[k].id == k && Listed(h, k) {
      LeaveListed(g, id, k);
    }
  }

  lemma LeaveEntries(g: Registry, id: nat)
    requires Linked(g) && id in g.sessions && g.sessions[id].peer.Some? && g.sessions[id].room in g.rooms
    ensures EntriesOk(Left(g, id))
  {
    hide Linked, Left, MemberAt, SessionAt;
    forall r: nat, p: nat | MemberAt(Left(g, id), r, p)
      ensures var h := Left(g, id);
        SessionAt(h, r, p) in h.sessions && h.sessions[SessionAt(h, r, p)].room == r
          && h.sessions[SessionAt(h, r, p)].peer == Some(p)
    {
      LeftEntry(g, id, r, p);
    }
  }

  lemma LeaveTold(g: Registry, id: nat, rosters: map<nat, set<nat>>)
    requires Linked(g) && id in g.sessions && g.sessions[id].peer.Some? && g.sessions[id].room in g.rooms
    requires Told(g, rosters, Some(g.sessions[id].room))
    ensures Told(Left(g, id), rosters, Some(g.sessions[id].room))
  {
    hide Linked, Left;
    forall r: nat, p: nat | MemberAt(Left(g, id), r, p) && r != g.sessions[id].room
      ensures var h := Left(g, id);
        SessionAt(h, r, p) in rosters && rosters[SessionAt(h, r, p)] == h.rooms[r].peers.Keys
    {
      LeftEntry(g, id, r, p);
    }
  }

  lemma MemberSelf(g: Registry, id: nat)
    requires Linked(g) && id in g.sessions && g.sessions[id].peer.Some?
    ensures MemberAt(g, g.sessions[id].room, g.sessions[id].peer.value)
      && SessionAt(g, g.sessions[id].room, g.sessions[id].peer.value) == id
  {
    assert Listed(g, id);
  }

  /** Of the members, exactly the one that left has gone, and other rooms are as they were. */
  lemma LeftEntry(g: Registry, id: nat, r: nat, p: nat)
    requires Linked(g) && id in g.sessions && g.sessions[id].peer.Some? && g.sessions[id].room in g.rooms
      && MemberAt(Left(g, id), r, p)
    ensures var h := Left(g, id);
      && MemberAt(g, r, p) && SessionAt(h, r, p) == SessionAt(g, r, p) && SessionAt(h, r, p) in h.sessions
      && h.sessions[SessionAt(h, r, p)] == g.sessions[SessionAt(h, r, p)]
      && h.sessions[SessionAt(h, r, p)].room == r && h.sessions[SessionAt(h, r, p)].peer == Some(p)
      && (r != g.sessions[id].room ==> h.rooms[r] == g.rooms[r])
  {
    LeftMembers(g, id, r, p);
  }

  lemma LeaveOnly(g: Registry, id: nat)
    requires Linked(g) && id in g.sessions && g.sessions[id].peer.Some? && g.sessions[id].room in g.rooms
    ensures OnlyLeave(g, Left(g, id), Some(id), Some(g.sessions[id].room))
  {
    hide Linked;
  }

  /** The registry after a session became a member, taking the place of any session with its key. */
  function Joined(g: Registry, id: nat, peer: nat, now: int): Registry
    requires id in g.sessions
  {
    var s := g.sessions[id];
    var room := if s.room in g.rooms then g.rooms[s.room] else Room(map[], now);
    var sessions := if peer in room.peers then g.sessions - {room.peers[peer]} else g.sessions;
    Registry(sessions[id := s.(peer := Some(peer))], g.rooms[s.room := Room(room.peers[peer := id], now)])
  }

  predicate HasPlace(g: Registry, r: nat, peer: nat) {
    r in g.rooms && peer !in g.rooms[r].peers ==> |g.rooms[r].peers| < MAX_ROOM_PEERS
  }

  lemma JoinMembers(g: Registry, id: nat, peer: nat, now: int, r: nat, p: nat)
    requires Linked(g) && id in g.sessions && g.sessions[id].peer.None?
    ensures var h, mine := Joined(g, id, peer, now), r == g.sessions[id].room && p == peer;
      && (MemberAt(h, r, p) <==> MemberAt(g, r, p) || mine)
      && (mine ==> SessionAt(h, r, p) == id)
      && (MemberAt(g, r, p) && !mine ==>
            SessionAt(h, r, p) == SessionAt(g, r, p) && SessionAt(g, r, p) in h.sessions
              && h.sessions[SessionAt(g, r, p)] == g.sessions[SessionAt(g, r, p)])
  {
    var s := g.sessions[id];
    if MemberAt(g, r, p) && !(r == s.room && p == peer) && MemberAt(g, s.room, peer) {
      assert g.sessions[SessionAt(g, s.room, peer)].peer == Some(peer)
        && g.sessions[SessionAt(g, s.room, peer)].room == s.room;
    }
  }

  lemma JoinFits(g: Registry, id: nat, peer: nat, now: int, r: nat)
    requires Linked(g) && id in g.sessions && HasPlace(g, g.sessions[id].room, peer)
      && r in Joined(g, id, peer, now).rooms
    ensures RoomOk(Joined(g, id, peer, now).rooms[r])
  {
    var h := Joined(g, id, peer, now);
    assert r in g.rooms ==> RoomOk(g.rooms[r]);
    if r == g.sessions[id].room {
      var before: map<nat, nat> := if r in g.rooms then g.rooms[r].peers else map[];
      assert h.rooms[r].peers.Keys == before.Keys + {peer};
      assert |h.rooms[r].peers.Keys| == |before.Keys| + if peer in before then 0 else 1;
    }
  }

  lemma JoinKeeps(g: Registry, id: nat, peer: nat, now: int, rosters: map<nat, set<nat>>)
    requires Linked(g) && id in g.sessions && g.sessions[id].peer.None? && HasPlace(g, g.sessions[id].room, peer)
      && Told(g, rosters, None)
    ensures var h := Joined(g, id, peer, now);
      Linked(h) && Told(h, rosters, Some(g.sessions[id].room)) && MemberAt(h, g.sessions[id].room, peer)
  {
    var s, h := g.sessions[id], Joined(g, id, peer, now);
    forall r: nat, p: nat | MemberAt(h, r, p)
      ensures SessionAt(h, r, p) in h.sessions && h.sessions[SessionAt(h, r, p)].room == r
        && h.sessions[SessionAt(h, r, p)].peer == Some(p)
      ensures r != s.room ==> SessionAt(h, r, p) in rosters && rosters[SessionAt(h, r, p)] == h.rooms[r].peers.Keys
    {
      JoinMembers(g, id, peer, now, r, p);
    }
    JoinMembers(g, id, peer, now, s.room, peer);
    forall k | k in h.sessions ensures h.sessions[k].id == k && Listed(h, k) {
      if k != id {
        JoinListed(g, id, peer, now, k);
      }
    }
    forall r | r in h.rooms ensures RoomOk(h.rooms[r]) {
      JoinFits(g, id, peer, now, r);
    }
  }

  lemma JoinListed(g: Registry, id: nat, peer: nat, now: int, k: nat)
    requires Linked(g) && id in g.sessions && g.sessions[id].peer.None? && k in Joined(g, id, peer, now).sessions
      && k != id
    ensures k in g.sessions && Listed(Joined(g, id, peer, now), k)
  {
    assert Listed(g, k);
    if g.sessions[k].peer.Some? {
      JoinMembers(g, id, peer, now, g.sessions[k].room, g.sessions[k].peer.value);
    }
  }

  /**
   * What a join must show: in time, in this room, over this session's own challenge, and signed by the key it names.
   */
  predicate GoodJoin(s: Session, body: JoinBody, now: int) {
    s.peer.None? && now - s.openedAt < ROOM_JOIN_TIMEOUT_MS && body.room == s.room && body.challenge == s.challenge
      && body.genuine
  }

  /** The registry with one session's clock and arrivals moved on. */
  function Touched(g: Registry, id: nat, lastNow: int, arrivals: seq<int>): Registry
    requires id in g.sessions
  {
    g.(sessions := g.sessions[id := g.sessions[id].(lastNow := lastNow, arrivals := arrivals)])
  }

  lemma TouchKeeps(g: Registry, id: nat, lastNow: int, arrivals: seq<int>, rosters: map<nat, set<nat>>)
    requires Linked(g) && id in g.sessions && Told(g, rosters, None)
    ensures Linked(Touched(g, id, lastNow, arrivals)) && Told(Touched(g, id, lastNow, arrivals), rosters, None)
  {
    var h := Touched(g, id, lastNow, arrivals);
    forall r: nat, p: nat | MemberAt(h, r, p)
      ensures SessionAt(h, r, p) in h.sessions && h.sessions[SessionAt(h, r, p)].room == r
        && h.sessions[SessionAt(h, r, p)].peer == Some(p)
      ensures SessionAt(h, r, p) in rosters && rosters[SessionAt(h, r, p)] == h.rooms[r].peers.Keys
    {
      assert MemberAt(g, r, p);
    }
    forall k | k in h.sessions ensures Listed(h, k) {
      assert Listed(g, k);
      assert h.sessions[k].peer.Some? ==> MemberAt(h, h.sessions[k].room, h.sessions[k].peer.value);
    }
  }

  /** The registry with a new session that has not joined. */
  function Added(g: Registry, s: Session): Registry {
    g.(sessions := g.sessions[s.id := s])
  }

  lemma AddKeeps(g: Registry, s: Session, rosters: map<nat, set<nat>>)
    requires Linked(g) && s.id !in g.sessions && s.peer.None? && Told(g, rosters, None)
    ensures Linked(Added(g, s)) && Told(Added(g, s), rosters, None)
  {
    var h := Added(g, s);
    forall r: nat, p: nat | MemberAt(h, r, p)
      ensures SessionAt(h, r, p) in h.sessions && h.sessions[SessionAt(h, r, p)].room == r
        && h.sessions[SessionAt(h, r, p)].peer == Some(p)
      ensures SessionAt(h, r, p) in rosters && rosters[SessionAt(h, r, p)] == h.rooms[r].peers.Keys
    {
      assert MemberAt(g, r, p);
    }
    forall k | k in h.sessions ensures Listed(h, k) {
      assert k != s.id ==> Listed(g, k);
      assert k != s.id && h.sessions[k].peer.Some? ==> MemberAt(h, h.sessions[k].room, h.sessions[k].peer.value);
    }
  }

  /** The registry with one room active now. */
  function Active(g: Registry, r: nat, now: int): Registry
    requires r in g.rooms
  {
    g.(rooms := g.rooms[r := g.rooms[r].(lastActivity := now)])
  }

  lemma ActiveKeeps(g: Registry, r: nat, now: int, rosters: map<nat, set<nat>>)
    requires Linked(g) && r in g.rooms && Told(g, rosters, None)
    ensures Linked(Active(g, r, now)) && Told(Active(g, r, now), rosters, None)
  {
    var h := Active(g, r, now);
    forall x: nat, p: nat | MemberAt(h, x, p)
      ensures SessionAt(h, x, p) in h.sessions && h.sessions[SessionAt(h, x, p)].room == x
        && h.sessions[SessionAt(h, x, p)].peer == Some(p)
      ensures SessionAt(h, x, p) in rosters && rosters[SessionAt(h, x, p)] == h.rooms[x].peers.Keys
    {
      assert MemberAt(g, x, p);
    }
    forall k | k in h.sessions ensures Listed(h, k) {
      assert Listed(g, k);
      assert h.sessions[k].peer.Some? ==> MemberAt(h, h.sessions[k].room, h.sessions[k].peer.value);
    }
    forall x | x in h.rooms ensures RoomOk(h.rooms[x]) {
      assert RoomOk(g.rooms[x]);
    }
  }

  /** With a session, every member of its room. */
  predicate WholeRooms(g: Registry, ids: set<nat>) {
    forall a, k :: a in ids && k in g.sessions && RoomOf(g, a).Some? && RoomOf(g, k) == RoomOf(g, a) ==> k in ids
  }

  /** A room that is left over holds a session that is left over. */
  lemma RoomHasMember(g: Registry, r: nat) returns (id: nat)
    requires Linked(g) && r in g.rooms
    ensures id in g.sessions && RoomOf(g, id) == Some(r)
  {
    assert RoomOk(g.rooms[r]);
    var p :| p in g.rooms[r].peers;
    assert MemberAt(g, r, p);
    id := SessionAt(g, r, p);
  }
}
