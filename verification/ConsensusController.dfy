/**
 * The objects of one controller (packages/protocol/src/consensus-controller.ts, safety-store.ts and
 * the owned state of consensus.ts). Each method names the stages of `Network.dfy` it performs.
 */
module ConsensusController {
  import opened Results
  import opened Votes
  import opened Proposals
  import opened Consensus
  import opened Transitions
  import opened ConsensusRestore
  import opened Recovery
  import ConsensusReducer
  import Network

  /** In-memory compare-and-swap storage that outlives its controllers. */
  class MemorySafetyStore {
    var record: Option<Network.Stored>

    constructor ()
      ensures record == None
    {
      record := None;
    }

    method Load() returns (r: Option<Network.Stored>)
      ensures r == record
    {
      r := record;
    }

    /** Succeeds exactly when the expected revision is the stored one; a failed save changes nothing. */
    method Save(expected: Option<nat>, next: State) returns (saved: bool)
      modifies this
      ensures saved <==> Network.CompareAndSwap(old(record), expected, next).Some?
      ensures record == if saved then Network.CompareAndSwap(old(record), expected, next) else old(record)
    {
      if (if expected.None? then record.Some? else record.None? || record.value.revision != expected.value) {
        return false;
      }
      var nextRevision := if record.None? then 0 else record.value.revision + 1;
      record := Some(Network.Stored(nextRevision, next));
      return true;
    }
  }

  /** The validated state of one height: a transition stays pending until its record is durable. */
  class OwnedConsensusState {
    var state: State
    var pending: Option<State>
    const ctx: Context

    constructor (s: State, c: Context)
      ensures state == s && pending == None && ctx == c
    {
      state, pending, ctx := s, None, c;
    }

    method Dispatch(event: Event, admit: Admission) returns (r: Result<Work>)
      requires OrderedSeats(ctx.voters)
      modifies this`pending
      ensures old(pending).Some? ==> r == Err("consensus-pending") && pending == old(pending)
      ensures old(pending).None? ==>
        r == Reduce(state, ctx, event, admit) && pending == (if r.Ok? then Some(r.value.state) else None)
    {
      if pending.Some? {
        return Err("consensus-pending");
      }
      r := ConsensusReducer.Transition(state, ctx, event, admit);
      if r.Ok? {
        pending := Some(r.value.state);
      }
    }

    method Commit()
      requires pending.Some?
      modifies this
      ensures state == old(pending).value && pending == None
    {
      state, pending := pending.value, None;
    }

    method Discard()
      modifies this`pending
      ensures pending == None
    {
      pending := None;
    }
  }

  /** A record or context that no longer checks ends the controller; other errors leave it running. */
  predicate StopsVoting(reduced: Result<Work>) {
    reduced.Err? && (reduced.code == "consensus-restore" || reduced.code == "consensus-context")
  }

  /** Everything handed to the effect handler, in order. */
  class Outbox {
    var sent: seq<Effect>

    constructor ()
      ensures sent == []
    {
      sent := [];
    }
  }

  class Controller {
    const seat: Seat
    const store: MemorySafetyStore
    const owned: OwnedConsensusState
    const outbox: Outbox
    var state: State
    var revision: nat
    var stopped: bool

    ghost predicate Valid()
      reads this, owned
    {
      owned.state == state && owned.pending == None && OrderedSeats(owned.ctx.voters)
    }

    constructor (seat: Seat, ctx: Context, store: MemorySafetyStore, outbox: Outbox, state: State, revision: nat)
      requires OrderedSeats(ctx.voters)
      ensures Valid() && fresh(owned) && !stopped
      ensures this.seat == seat && this.store == store && this.outbox == outbox && this.state == state
        && this.revision == revision
      ensures owned.ctx == ctx
    {
      this.seat, this.store, this.outbox, this.state, this.revision, stopped := seat, store, outbox, state, revision,
        false;
      owned := new OwnedConsensusState(state, ctx);
    }

    /** The first record of a height: a store that holds one already is left alone. */
    static method Create(ctx: Context, seat: Seat, proven: Option<ProvenOffender>, pending: Option<Control>,
                         store: MemorySafetyStore, outbox: Outbox)
      returns (r: Result<Controller>)
      modifies store
      ensures r.Ok? <==> CreateState(ctx, seat, proven, pending).Ok? && old(store.record).None?
      ensures r.Ok? ==>
        var initial := CreateState(ctx, seat, proven, pending).value;
        && store.record == Some(Network.Stored(0, initial))
        && r.value.Valid() && !r.value.stopped && r.value.state == initial && r.value.revision == 0
        && r.value.store == store && r.value.outbox == outbox && fresh(r.value) && fresh(r.value.owned)
      ensures r.Err? ==> store.record == old(store.record)
    {
      var initial := CreateState(ctx, seat, proven, pending);
      if initial.Err? {
        return Err(initial.code);
      }
      var existing := store.Load();
      if existing.Some? {
        return Err("consensus-store-exists");
      }
      var saved := store.Save(None, initial.value);
      if !saved {
        return Err("consensus-write-conflict");
      }
      var c := new Controller(seat, ctx, store, outbox, initial.value, 0);
      return Ok(c);
    }

    /**
     * Restores the stored record after all its checks; only terminal evidence may change it, and the
     * change is saved before the controller exists.
     */
    static method Restore(ctx: Context, seat: Seat, store: MemorySafetyStore, outbox: Outbox, exact: bool)
      returns (r: Result<Controller>)
      requires OrderedSeats(ctx.voters)
      modifies store
      ensures r.Ok? ==>
        && old(store.record).Some? && RestoreState(old(store.record.value.record), ctx, seat).Ok?
        && store.record.Some? && store.record.value.record
             == RestoreState(old(store.record.value.record), ctx, seat).value
        && r.value.Valid() && !r.value.stopped && fresh(r.value) && fresh(r.value.owned) && r.value.store == store
        && r.value.outbox == outbox
        && r.value.state == store.record.value.record && r.value.revision == store.record.value.revision
      ensures store.record == old(store.record)
        || (old(store.record).Some? && store.record.Some?
            && store.record.value.revision == old(store.record).value.revision + 1
            && SameOrStopped(old(store.record).value.record, store.record.value.record))
      ensures exact || r.Err? ==> store.record == old(store.record)
      ensures r.Err? ==>
        || old(store.record).None? || RestoreState(old(store.record).value.record, ctx, seat).Err?
        || (exact && RestoreState(old(store.record).value.record, ctx, seat) != Ok(old(store.record).value.record))
    {
      var loaded := store.Load();
      if loaded.None? {
        return Err("consensus-store-missing");
      }
      var restored := RestoreState(loaded.value.record, ctx, seat);
      if restored.Err? {
        return Err(restored.code);
      }
      RestoreKeepsRecord(loaded.value.record, ctx, seat);
      var revision := loaded.value.revision;
      if restored.value != loaded.value.record {
        if exact || restored.value.haltKind != Some(Terminal) {
          return Err("consensus-restore");
        }
        var saved := store.Save(Some(revision), restored.value);
        if !saved {
          return Err("consensus-write-conflict");
        }
        revision := revision + 1;
      }
      var c := new Controller(seat, ctx, store, outbox, restored.value, revision);
      return Ok(c);
    }

    /** Exactly these dispatches make their record durable. */
    predicate Saves(reduced: Result<Work>, allowed: bool)
      reads this, store
    {
      && !stopped && reduced.Ok? && allowed
      && store.record.Some? && store.record.value.revision == revision
    }

    /**
     * Reduce, save, install, emit: effects are handed out only after the record they come from is durable, and a
     * lost compare-and-swap stops this controller without a trace. The handler takes `taken` effects and then
     * throws, which stops the controller too; the record still holds what was signed.
     */
    method Dispatch(event: Event, admit: Admission, allowed: bool, taken: nat) returns (r: Result<()>)
      requires Valid()
      modifies this, store, owned, outbox
      ensures Valid()
      ensures var reduced := Reduce(old(state), owned.ctx, event, admit);
        if old(Saves(Reduce(state, owned.ctx, event, admit), allowed)) then
          var next := reduced.value;
          && store.record == Some(Network.Stored(old(revision) + 1, next.state))
          && state == next.state && revision == old(revision) + 1
          && outbox.sent == old(outbox.sent) + (if taken < |next.effects| then next.effects[..taken] else next.effects)
          && (r.Ok? <==> |next.effects| <= taken) && stopped == r.Err?
        else
          && r.Err? && store.record == old(store.record) && state == old(state) && revision == old(revision)
          && outbox.sent == old(outbox.sent)
          && (stopped <==> old(stopped) || StopsVoting(reduced) || (reduced.Ok? && allowed))
    {
      hide Reduce;
      if stopped {
        return Err("consensus-stopped");
      }
      var next := owned.Dispatch(event, admit);
      if next.Err? {
        stopped := StopsVoting(next);
        r := Err(next.code);
        return;
      }
      if !allowed {
        owned.Discard();
        return Err("not-admitted");
      }
      var saved := store.Save(Some(revision), next.value.state);
      if !saved {
        owned.Discard();
        stopped := true;
        return Err("consensus-write-conflict");
      }
      revision := revision + 1;
      owned.Commit();
      state := next.value.state;
      if taken < |next.value.effects| {
        outbox.sent := outbox.sent + next.value.effects[..taken];
        stopped := true;
        return Err("consensus-effects");
      }
      outbox.sent := outbox.sent + next.value.effects;
      return Ok(());
    }

    /** After a restart: repeat signed records and timers without touching the record. */
    method Resume() returns (r: Result<()>)
      requires Valid()
      modifies this`stopped, outbox
      ensures Valid()
      ensures r.Ok? <==> !old(stopped) && RecoverEffects(state, owned.ctx).Ok?
      ensures outbox.sent == old(outbox.sent) + if r.Ok? then RecoverEffects(state, owned.ctx).value else []
      ensures stopped == (old(stopped) || r.Err?)
    {
      if stopped {
        return Err("consensus-stopped");
      }
      var recovered := RecoverEffects(state, owned.ctx);
      if recovered.Err? {
        stopped := true;
        return Err(recovered.code);
      }
      outbox.sent := outbox.sent + recovered.value;
      return Ok(());
    }
  }

  /**
   * What `Controller.Dispatch` does to store, state and revision is what the stages of the network do one by
   * one: reduce, save, settle; and a lost compare-and-swap changes no record and ends the controller.
   */
  lemma DispatchIsStages(v: Network.Voter, ctx: Context, seat: Seat, id: nat, event: Event, admit: Admission)
    requires OrderedSeats(ctx.voters) && id in v.controllers && v.controllers[id].progress.Idle?
    requires Reduce(v.controllers[id].state, ctx, event, admit).Ok?
    ensures var c, next := v.controllers[id], Reduce(v.controllers[id].state, ctx, event, admit).value;
      var reduced := Network.Act(v, ctx, seat, Network.Dispatch(id, event, admit));
      && reduced.Some?
      && var saved := Network.Act(reduced.value, ctx, seat, Network.Save(id));
         && saved.Some?
         && if v.store.Some? && v.store.value.revision == c.revision then
              && saved.value.store == Some(Network.Stored(c.revision + 1, next.state))
              && Network.Act(saved.value, ctx, seat, Network.Settled(id))
                   == Some(Network.Put(saved.value, id, Network.Controller(c.revision + 1, next.state, Network.Idle)))
              && forall k :: 0 <= k < |next.effects| ==>
                   Network.Act(saved.value, ctx, seat, Network.EmitOne(id, k))
                     == Some(Network.Send(saved.value, next.effects[k]))
            else
              saved.value.store == v.store && id !in saved.value.controllers && saved.value.votes == v.votes
                && saved.value.proposals == v.proposals
  {
    hide Reduce;
  }
}
