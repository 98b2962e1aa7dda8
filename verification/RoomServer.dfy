/** The signaling server's room decisions, on its own fields (apps/signaling/src/room-core.ts). */
module RoomServer {
  import opened Results
  import opened Rooms

  /** A signal that a session took: the key it is from, and its envelope. */
  datatype Forwarded = Forwarded(session: nat, sender: nat, envelope: nat)

  class RoomCore {
    var sessions: map<nat, Session>
    var rooms: map<nat, Room>
    var nextId: nat
    /** For each session, the members named by the last roster frame it was sent. */
    ghost var rosters: map<nat, set<nat>>
    /** For each session, the times of the frames its limiter let through. */
    ghost var accepted: map<nat, seq<int>>
    /** Every signal handed to a socket, in order. */
    ghost var forwarded: seq<Forwarded>

    ghost function State(): Registry
      reads this
    {
      Registry(sessions, rooms)
    }

    ghost predicate Sound(but: Option<nat>)
      reads this
    {
      Linked(State()) && Counted(sessions, nextId, accepted) && Told(State(), rosters, but)
    }

    /** Registry and limiter invariants, and every member last sent exactly the present roster. */
    ghost predicate Valid()
      reads this
    {
      Sound(None)
    }

    constructor ()
      ensures Valid() && sessions == map[] && rooms == map[] && nextId == 0 && forwarded == []
    {
      sessions, rooms, nextId, rosters, accepted, forwarded := map[], map[], 0, map[], map[], [];
    }

    ghost function SizeOf(r: nat): nat
      reads this
    {
      if r in rooms then |rooms[r].peers| else 0
    }

    ghost function RoomSize(id: nat): nat
      reads this
    {
      if id in sessions then SizeOf(sessions[id].room) else 0
    }

    /** A socket takes a frame or throws. */
    method Send() returns (sent: bool) {
      sent := *;
    }

    /** Sends the roster to every member; the first failure removes that member, which announces again. */
    method Announce(r: nat)
      requires Sound(Some(r)) && r in rooms
      modifies this
      ensures Valid() && OnlyLeave(old(State()), State(), None, Some(r)) && nextId == old(nextId)
        && forwarded == old(forwarded) && accepted == old(accepted)
      decreases SizeOf(r), 2
    {
      hide Linked, Counted;
      var peers := rooms[r].peers;
      var roster := peers.Keys;
      var left := roster;
      while left != {}
        invariant left <= roster
        invariant sessions == old(sessions) && rooms == old(rooms) && nextId == old(nextId)
          && forwarded == old(forwarded) && accepted == old(accepted)
        invariant Told(State(), rosters, Some(r))
        invariant forall p :: p in roster - left ==> peers[p] in rosters && rosters[peers[p]] == roster
        decreases |left|
      {
        var p :| p in left;
        MemberSession(State(), r, p);
        var sent := Send();
        if !sent {
          assert RoomSize(peers[p]) == old(SizeOf(r)) && RoomOf(State(), peers[p]) == Some(r);
          Reject(peers[p]);
          return;
        }
        SentOne(State(), rosters, r, p, roster);
        rosters := rosters[peers[p] := roster];
        left := left - {p};
      }
      assert Told(State(), rosters, None);
    }

    method Reject(id: nat)
      requires Sound(RoomOf(State(), id))
      modifies this
      ensures Valid() && id !in sessions && OnlyLeave(old(State()), State(), Some(id), old(RoomOf(State(), id)))
      ensures nextId == old(nextId) && forwarded == old(forwarded) && accepted == old(accepted)
      decreases RoomSize(id), 1
    {
      Disconnect(id);
    }

    method Disconnect(id: nat)
      requires Sound(RoomOf(State(), id))
      modifies this
      ensures Valid() && id !in sessions && OnlyLeave(old(State()), State(), Some(id), old(RoomOf(State(), id)))
      ensures nextId == old(nextId) && forwarded == old(forwarded) && accepted == old(accepted)
      decreases RoomSize(id), 0
    {
      hide Linked, Told, Counted, OnlyLeave, Left, Dropped;
      if id !in sessions {
        NobodyLeft(State(), Some(id), None);
        return;
      }
      var session := sessions[id];
      ghost var g := State();
      if session.peer.Some? {
        LeaveKeeps(g, id, rosters);
      } else {
        DropKeeps(g, id, rosters);
      }
      sessions := sessions - {id};
      if session.peer.None? || session.room !in rooms || session.peer.value !in rooms[session.room].peers
         || rooms[session.room].peers[session.peer.value] != id {
        DropIs(g, State(), id);
        CountedStays(g, State(), nextId, accepted, Some(id), None);
        return;
      }
      var room := rooms[session.room];
      var peers := room.peers - {session.peer.value};
      if |peers| == 0 {
        rooms := rooms - {session.room};
        LeftIs(g, State(), id);
        EmptyRoomTold(State(), rosters, session.room);
        CountedStays(g, State(), nextId, accepted, Some(id), Some(session.room));
      } else {
        rooms := rooms[session.room := room.(peers := peers)];
        LeftIs(g, State(), id);
        CountedStays(g, State(), nextId, accepted, Some(id), Some(session.room));
        Announce(session.room);
        LeavesCompose(g, Left(g, id), State(), Some(id), Some(session.room));
        GoneStays(Left(g, id), State(), id, Some(session.room));
      }
    }

    // ---- what a socket may ask ----

    /** A new session, challenged before it may join; a failed send leaves no session behind. */
    method Open(room: nat, challenge: nat, clock: Clock) returns (r: Result<nat>)
      requires Valid()
      modifies this
      ensures Valid() && rooms == old(rooms) && forwarded == old(forwarded)
      ensures r.Ok? ==> clock.At? && r.value == nextId == old(nextId) + 1
      ensures r.Ok? ==> State() == Added(old(State()),
                                         Session(r.value, room, challenge, clock.now, clock.now, [], None))
      ensures r.Err? ==> sessions == old(sessions)
    {
      hide Linked, Told, Counted;
      if !clock.At? {
        return Err("clock");
      }
      var session := Session(nextId + 1, room, challenge, clock.now, clock.now, [], None);
      AddCounted(State(), session, nextId, accepted);
      nextId := nextId + 1;
      var sent := Send();
      if !sent {
        return Err("send-failed");
      }
      AddKeeps(State(), session, rosters);
      sessions := sessions[session.id := session];
      accepted := accepted[session.id := []];
      return Ok(session.id);
    }

    /** A proved key takes its place in the room, over any earlier session with that key. */
    method Join(id: nat, body: JoinBody, now: int)
      requires Valid() && id in sessions
      modifies this
      ensures Valid() && nextId == old(nextId) && forwarded == old(forwarded) && accepted == old(accepted)
      ensures var s := old(sessions)[id];
        if GoodJoin(s, body, now) && HasPlace(old(State()), s.room, body.peer)
        then OnlyLeave(Joined(old(State()), id, body.peer, now), State(), None, Some(s.room))
        else id !in sessions && OnlyLeave(old(State()), State(), Some(id), RoomOf(old(State()), id))
    {
      hide Linked, Told, Counted, OnlyLeave, RoomOf;
      var session := sessions[id];
      ghost var g := State();
      ToldAll(g, rosters, RoomOf(g, id));
      if !GoodJoin(session, body, now) {
        Reject(id);
        return;
      }
      var room := if session.room in rooms then rooms[session.room] else Room(map[], now);
      if body.peer !in room.peers && |room.peers| >= MAX_ROOM_PEERS {
        Reject(id);
        return;
      }
      JoinKeeps(g, id, body.peer, now, rosters);
      JoinCounted(g, id, body.peer, now, nextId, accepted);
      if body.peer in room.peers {
        sessions := sessions - {room.peers[body.peer]};
      }
      sessions := sessions[id := session.(peer := Some(body.peer))];
      rooms := rooms[session.room := Room(room.peers[body.peer := id], now)];
      assert State() == Joined(g, id, body.peer, now);
      Announce(session.room);
    }

    /** Forwards to one member of the sender's own room, and keeps the room alive. */
    method Forward(id: nat, to: nat, envelope: nat, fits: bool, now: int)
      requires Valid() && id in sessions
      modifies this
      ensures Valid() && nextId == old(nextId) && accepted == old(accepted)
      ensures var s, g := old(sessions)[id], old(State());
        if s.peer.None? || !MemberAt(g, s.room, to) then State() == g && forwarded == old(forwarded)
        else if !fits then id !in sessions && OnlyLeave(g, State(), Some(id), Some(s.room))
          && forwarded == old(forwarded)
        else
          var recipient := SessionAt(g, s.room, to);
          || (&& State() == Active(g, s.room, now)
              && forwarded == old(forwarded) + [Forwarded(recipient, s.peer.value, envelope)])
          || (&& OnlyLeave(Active(g, s.room, now), State(), Some(recipient), Some(s.room))
              && recipient !in sessions && forwarded == old(forwarded))
    {
      hide Linked, Told, Counted, OnlyLeave;
      var session := sessions[id];
      ghost var g := State();
      if session.room !in rooms || to !in rooms[session.room].peers || session.peer.None? {
        return;
      }
      var recipient := rooms[session.room].peers[to];
      ToldAll(g, rosters, Some(session.room));
      if !fits {
        Reject(id);
        return;
      }
      ActiveKeeps(g, session.room, now, rosters);
      MemberSession(g, session.room, to);
      rooms := rooms[session.room := rooms[session.room].(lastActivity := now)];
      assert State() == Active(g, session.room, now);
      ToldAll(State(), rosters, Some(session.room));
      var sent := Send();
      if sent {
        forwarded := forwarded + [Forwarded(recipient, session.peer.value, envelope)];
      } else {
        Reject(recipient);
      }
    }

    /** Whether a received frame gets past the clock and the limiter, and the session after it. */
    method Admit(id: nat, clock: Clock) returns (now: Option<int>)
      requires Valid() && id in sessions
      modifies this
      ensures Valid() && nextId == old(nextId) && forwarded == old(forwarded)
      ensures clock.NotFinite? ==> now.None? && State() == old(State()) && accepted == old(accepted)
      ensures !clock.NotFinite? ==>
        var s, times := old(sessions)[id], old(accepted)[id];
        var at := if clock.At? && clock.now > s.lastNow then clock.now else s.lastNow;
        && id in sessions && State() == Touched(old(State()), id, at, sessions[id].arrivals)
        && (now == Some(at) <==> |times| < MAX_RATE || times[|times| - MAX_RATE] + RATE_WINDOW_MS <= at)
        && (now.Some? ==> now.value == at)
        && accepted == old(accepted)[id := if now.Some? then times + [at] else times]
    {
      hide Linked, Told, Limited, Slid, HasRoom;
      if clock.NotFinite? {
        return None;
      }
      var session := sessions[id];
      var at := if clock.At? && clock.now > session.lastNow then clock.now else session.lastNow;
      ghost var times := accepted[id];
      ArrivalLimited(session, at, times);
      var next, ok := Arrive(session, at);
      TouchKeeps(State(), id, next.lastNow, next.arrivals, rosters);
      sessions := sessions[id := next];
      accepted := accepted[id := if ok then times + [at] else times];
      return if ok then Some(at) else None;
    }

    /** One text frame. Whatever it is, the invariants hold after it, and only a good join makes a member. */
    method Receive(id: nat, frame: Frame, clock: Clock)
      requires Valid()
      modifies this
      ensures Valid() && nextId == old(nextId)
      ensures id !in old(sessions) ==> State() == old(State())
      ensures forall k :: k in sessions ==> k in old(sessions) && (sessions[k].peer == old(sessions)[k].peer || k == id)
      ensures id in sessions && sessions[id].peer != old(sessions)[id].peer ==>
        frame.Join? && frame.body.genuine && frame.body.challenge == old(sessions)[id].challenge
          && frame.body.room == old(sessions)[id].room
        && sessions[id].peer == Some(frame.body.peer)
      ensures forwarded == old(forwarded) || (
        && frame.Signal? && id in old(sessions) && old(sessions)[id].peer.Some?
        && MemberAt(old(State()), old(sessions)[id].room, frame.to)
        && forwarded == old(forwarded)
             + [Forwarded(SessionAt(old(State()), old(sessions)[id].room, frame.to), old(sessions)[id].peer.value,
                          frame.envelope)])
      ensures id in old(sessions) && (frame.TooLong? || frame.Malformed? || frame.Leave?) ==> id !in sessions
    {
      hide Linked, Told, Counted;
      if id !in sessions {
        return;
      }
      ToldAll(State(), rosters, RoomOf(State(), id));
      if frame.TooLong? {
        Reject(id);
        return;
      }
      var now := Admit(id, clock);
      ToldAll(State(), rosters, RoomOf(State(), id));
      if now.None? || frame.Malformed? {
        Reject(id);
        return;
      }
      match frame {
        case Join(body) =>
          Join(id, body, now.value);
        case Signal(to, envelope, fits) =>
          if sessions[id].peer.None? {
            Reject(id);
          } else {
            Forward(id, to, envelope, fits, now.value);
          }
        case Leave =>
          if sessions[id].peer.None? {
            Reject(id);
          } else {
            Disconnect(id);
          }
        case _ =>
      }
    }

    /** Rejects every session of a set that holds whole rooms; exactly those go. */
    method RejectAll(ids: set<nat>)
      requires Valid() && WholeRooms(State(), ids)
      modifies this
      ensures Valid() && sessions == old(sessions) - ids && nextId == old(nextId) && forwarded == old(forwarded)
        && accepted == old(accepted)
      ensures forall x :: x in rooms ==> x in old(rooms) && rooms[x].lastActivity == old(rooms)[x].lastActivity
    {
      hide Linked, Told, Counted, OnlyLeave, RoomOf, WholeRooms, Remains;
      ghost var g := State();
      AllRemain(g, ids);
      var left := ids;
      while left != {}
        invariant left <= ids && Valid() && nextId == old(nextId) && forwarded == old(forwarded)
          && accepted == old(accepted)
        invariant Remains(g, State(), ids, left)
        decreases |left|
      {
        var id :| id in left;
        ghost var h := State();
        ToldAll(h, rosters, RoomOf(h, id));
        Reject(id);
        RejectStep(g, h, State(), ids, left, id);
        left := left - {id};
      }
      ExactlyGone(g, State(), ids);
    }

    /** Sessions that did not join in time go, and so does every member of an idle room; nobody else does. */
    method Sweep(clock: Clock)
      requires Valid()
      modifies this
      ensures Valid() && forwarded == old(forwarded)
      ensures !clock.At? ==> State() == old(State())
      ensures clock.At? ==> forall k :: k in sessions <==> k in old(sessions) && !Stale(old(State()), k, clock.now)
      ensures forall k :: k in sessions ==> sessions[k] == old(sessions)[k]
      ensures clock.At? ==> forall x :: x in rooms ==> clock.now - rooms[x].lastActivity < ROOM_IDLE_MS
    {
      hide Linked, Told, Counted;
      if !clock.At? {
        return;
      }
      var now := clock.now;
      ghost var g := State();
      RejectAll(set k | k in sessions && sessions[k].peer.None? && now - sessions[k].openedAt >= ROOM_JOIN_TIMEOUT_MS);
      ghost var h := State();
      MembersHaveRooms(g);
      MembersHaveRooms(h);
      RejectAll(set k | k in sessions && sessions[k].peer.Some? && sessions[k].room in rooms
                        && now - rooms[sessions[k].room].lastActivity >= ROOM_IDLE_MS);
      forall x | x in rooms ensures now - rooms[x].lastActivity < ROOM_IDLE_MS {
        var id := RoomHasMember(State(), x);
      }
    }

    method Peers(room: nat) returns (members: set<nat>)
      requires Valid()
      ensures members == set p | room in rooms && p in rooms[room].peers
    {
      if room in rooms {
        members := rooms[room].peers.Keys;
      } else {
        members := {};
      }
    }
  }

  /** What is left of a registry while a set of sessions is being rejected. */
  predicate Remains(g: Registry, h: Registry, ids: set<nat>, left: set<nat>) {
    && (forall k :: k in h.sessions ==> k in g.sessions && h.sessions[k] == g.sessions[k] && k !in ids - left)
    && (forall k :: k in g.sessions && k !in ids ==> k in h.sessions)
    && forall x :: x in h.rooms ==> x in g.rooms && h.rooms[x].lastActivity == g.rooms[x].lastActivity
  }

  lemma AllRemain(g: Registry, ids: set<nat>)
    ensures Remains(g, g, ids, ids)
  {
  }

  lemma RejectStep(g: Registry, h: Registry, next: Registry, ids: set<nat>, left: set<nat>, id: nat)
    requires Remains(g, h, ids, left) && WholeRooms(g, ids) && left <= ids && id in left
    requires OnlyLeave(h, next, Some(id), RoomOf(h, id)) && id !in next.sessions
    ensures Remains(g, next, ids, left - {id})
  {
  }

  lemma ExactlyGone(g: Registry, h: Registry, ids: set<nat>)
    requires Remains(g, h, ids, {})
    ensures h.sessions == g.sessions - ids
    ensures forall x :: x in h.rooms ==> x in g.rooms && h.rooms[x].lastActivity == g.rooms[x].lastActivity
  {
  }

  predicate Stale(g: Registry, k: nat, now: int)
    requires k in g.sessions
  {
    var s := g.sessions[k];
    if s.peer.None? then now - s.openedAt >= ROOM_JOIN_TIMEOUT_MS
    else s.room in g.rooms && now - g.rooms[s.room].lastActivity >= ROOM_IDLE_MS
  }

  lemma MembersHaveRooms(g: Registry)
    requires Linked(g)
    ensures forall k :: k in g.sessions && g.sessions[k].peer.Some? ==> g.sessions[k].room in g.rooms
  {
    forall k | k in g.sessions && g.sessions[k].peer.Some? ensures g.sessions[k].room in g.rooms {
      assert Listed(g, k);
    }
  }

  lemma ToldAll(g: Registry, rosters: map<nat, set<nat>>, but: Option<nat>)
    requires Told(g, rosters, None)
    ensures Told(g, rosters, but)
  {
  }

  lemma AddCounted(g: Registry, s: Session, nextId: nat, accepted: map<nat, seq<int>>)
    requires Counted(g.sessions, nextId, accepted) && s.id == nextId + 1 && s.arrivals == []
    ensures s.id !in g.sessions && Counted(g.sessions, nextId + 1, accepted)
    ensures Counted(Added(g, s).sessions, nextId + 1, accepted[s.id := []])
  {
    assert Limited(s, []);
    hide Limited;
  }

  lemma SameLimit(s: Session, peer: nat, times: seq<int>)
    requires Limited(s, times)
    ensures Limited(s.(peer := Some(peer)), times)
  {
  }

  lemma JoinCounted(g: Registry, id: nat, peer: nat, now: int, nextId: nat, accepted: map<nat, seq<int>>)
    requires id in g.sessions && Counted(g.sessions, nextId, accepted)
    ensures Counted(Joined(g, id, peer, now).sessions, nextId, accepted)
  {
    hide Limited;
    SameLimit(g.sessions[id], peer, accepted[id]);
  }

  lemma GoneStays(g: Registry, h: Registry, id: nat, r: Option<nat>)
    requires id !in g.sessions && OnlyLeave(g, h, None, r)
    ensures id !in h.sessions
  {
  }

  lemma DropIs(g: Registry, h: Registry, id: nat)
    requires h == g.(sessions := g.sessions - {id})
    ensures h == Dropped(g, id)
  {
  }

  lemma LeftIs(g: Registry, h: Registry, id: nat)
    requires id in g.sessions && g.sessions[id].peer.Some? && g.sessions[id].room in g.rooms
      && h.sessions == g.sessions - {id}
    requires var s := g.sessions[id];
      var room := g.rooms[s.room];
      var peers := room.peers - {s.peer.value};
      h.rooms == if |peers| == 0 then g.rooms - {s.room} else g.rooms[s.room := room.(peers := peers)]
    ensures h == Left(g, id)
  {
  }

  lemma MemberSession(g: Registry, r: nat, p: nat)
    requires Linked(g) && MemberAt(g, r, p)
    ensures SessionAt(g, r, p) in g.sessions && g.sessions[SessionAt(g, r, p)].room == r
      && g.sessions[SessionAt(g, r, p)].peer == Some(p)
  {
  }

  lemma NobodyLeft(g: Registry, gone: Option<nat>, r: Option<nat>)
    ensures OnlyLeave(g, g, gone, r)
  {
  }

  /** Telling one member of a room says nothing new to any other room's members. */
  lemma SentOne(g: Registry, rosters: map<nat, set<nat>>, r: nat, p: nat, roster: set<nat>)
    requires Linked(g) && MemberAt(g, r, p) && Told(g, rosters, Some(r))
    ensures Told(g, rosters[SessionAt(g, r, p) := roster], Some(r))
  {
    MemberSession(g, r, p);
    forall x: nat, q: nat | MemberAt(g, x, q) && x != r
      ensures SessionAt(g, x, q) != SessionAt(g, r, p)
    {
      MemberSession(g, x, q);
    }
  }

  lemma EmptyRoomTold(g: Registry, rosters: map<nat, set<nat>>, r: nat)
    requires Told(g, rosters, Some(r)) && r !in g.rooms
    ensures Told(g, rosters, None)
  {
  }
}
