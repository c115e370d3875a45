// The rendezvous between a codex turn's notifications and the handler waiting for it
// (internal/codexbridge/turn_tracker.go): the object itself, and what its locked sections do to the
// table the mutex guards.

module TurnTracker {
  import opened Options
  import opened Turns

  /** What the mutex guards. Channels are named by the order they were made in. */
  datatype Table = Table(waiters: map<string, nat>, pending: map<string, TurnResult>, active: string)

  const EMPTY := Table(map[], map[], "")

  /** Register's locked section, for a channel just made; a result means the turn was
      already over and is sent once the lock is released. */
  function Registered(t: Table, turnID: string, ch: nat): (Table, Option<TurnResult>) {
    if turnID in t.pending then (t.(pending := t.pending - {turnID}), Some(t.pending[turnID]))
    else (t.(waiters := t.waiters[turnID := ch], active := turnID), None)
  }

  function Cancelled(t: Table, turnID: string): Table {
    Table(t.waiters - {turnID}, t.pending - {turnID}, if t.active == turnID then "" else t.active)
  }

  /** Notify's locked section; a channel means somebody waits on it. */
  function Notified(t: Table, result: TurnResult): (Table, Option<nat>) {
    if result.turnID in t.waiters
    then (t.(waiters := t.waiters - {result.turnID}, active := if t.active == result.turnID then "" else t.active),
          Some(t.waiters[result.turnID]))
    else (t.(pending := t.pending[result.turnID := result]), None)
  }

  /** NotifyActive's locked section. */
  function NotifiedActive(t: Table): (Table, Option<nat>) {
    if t.active == "" || t.active !in t.waiters then (t, None)
    else (t.(waiters := t.waiters - {t.active}, active := ""), Some(t.waiters[t.active]))
  }

  /** What every locked section keeps. */
  ghost predicate Sound(t: Table) {
    && t.waiters.Keys !! t.pending.Keys
    && (t.active != "" ==> t.active in t.waiters)
    && (forall id | id in t.pending :: t.pending[id].turnID == id)
    && (forall a, b | a in t.waiters && b in t.waiters && a != b :: t.waiters[a] != t.waiters[b])
  }

  /** A Go channel of capacity one. */
  class Channel {
    const id: nat
    var buffer: seq<TurnResult>
    var closed: bool

    constructor (id: nat)
      ensures this.id == id && buffer == [] && !closed
    {
      this.id := id;
      buffer, closed := [], false;
    }

    /** A send that has room and an open channel to go to. */
    method Send(result: TurnResult)
      requires |buffer| < 1 && !closed
      modifies this`buffer
      ensures buffer == old(buffer) + [result]
    {
      buffer := buffer + [result];
    }

    method Close()
      requires !closed
      modifies this`closed
      ensures closed
    {
      closed := true;
    }
  }

  class TurnTracker {
    var waiters: map<string, Channel>
    var pending: map<string, TurnResult>
    var active: string
    var made: nat

    ghost function State(): Table
      reads this
    {
      Table(map turnID | turnID in waiters :: waiters[turnID].id, pending, active)
    }

    ghost predicate Valid()
      reads this, waiters.Values
    {
      && Sound(State())
      && (forall a, b | a in waiters && b in waiters && a != b :: waiters[a] != waiters[b])
      && forall turnID | turnID in waiters ::
           waiters[turnID].id < made && waiters[turnID].buffer == [] && !waiters[turnID].closed
    }

    constructor ()
      ensures Valid() && State() == EMPTY
    {
      waiters, pending, active, made := map[], map[], "", 0;
    }

    method Register(turnID: string) returns (ch: Channel)
      requires Valid()
      modifies this
      ensures Valid() && fresh(ch) && ch.id == old(made)
      ensures State() == Registered(old(State()), turnID, ch.id).0
      ensures
        match Registered(old(State()), turnID, ch.id).1
        case Some(result) => ch.buffer == [result] && ch.closed
        case None => ch.buffer == [] && !ch.closed
      ensures turnID in old(pending) ==> ch.buffer == [old(pending[turnID])] && active == old(active)
      ensures turnID !in old(pending) ==> active == turnID && turnID in waiters && waiters[turnID] == ch
    {
      ch := new Channel(made);
      made := made + 1;
      if turnID in pending {
        var result := pending[turnID];
        pending := pending - {turnID};
        ch.Send(result);
        ch.Close();
        return;
      }
      waiters := waiters[turnID := ch];
      active := turnID;
      assert State().waiters == old(State()).waiters[turnID := ch.id];
    }

    method Cancel(turnID: string)
      requires Valid()
      modifies this
      ensures Valid() && State() == Cancelled(old(State()), turnID)
    {
      waiters := waiters - {turnID};
      pending := pending - {turnID};
      if active == turnID {
        active := "";
      }
      assert State().waiters == old(State()).waiters - {turnID};
    }

    method Notify(result: TurnResult)
      requires Valid()
      modifies this, waiters.Values
      ensures Valid() && State() == Notified(old(State()), result).0
      ensures result.turnID in old(waiters) ==>
        var ch := old(waiters[result.turnID]); ch.buffer == [result] && ch.closed
      ensures forall turnID | turnID in old(waiters) && turnID != result.turnID :: unchanged(old(waiters[turnID]))
    {
      if result.turnID in waiters {
        var ch := waiters[result.turnID];
        waiters := waiters - {result.turnID};
        if active == result.turnID {
          active := "";
        }
        assert State().waiters == old(State()).waiters - {result.turnID};
        ch.Send(result);
        ch.Close();
      } else {
        pending := pending[result.turnID := result];
      }
    }

    method NotifyActive(result: TurnResult) returns (delivered: bool)
      requires Valid()
      modifies this, waiters.Values
      ensures Valid() && State() == NotifiedActive(old(State())).0
      ensures delivered == (old(active) != "")
      ensures delivered ==>
        old(active in waiters) &&
        var ch := old(waiters[active]); ch.buffer == [Addressed(result, old(active))] && ch.closed
      ensures forall turnID | turnID in old(waiters) && turnID != old(active) :: unchanged(old(waiters[turnID]))
    {
      var turnID := active;
      if turnID == "" {
        return false;
      }
      if turnID !in waiters {
        assert false;
        return false;
      }
      var ch := waiters[turnID];
      waiters := waiters - {turnID};
      active := "";
      assert State().waiters == old(State()).waiters - {turnID};
      ch.Send(Addressed(result, turnID));
      ch.Close();
      return true;
    }
  }
}
