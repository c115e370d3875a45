// The one conversation an instance has with codex (ensureCodexThread).

module Conversation {
  // The call that keeps memory and file in step (internal/daemon/daemon.go:1037-1082).

  import opened Options
  import opened ThreadMapping
  import opened MappingStore

  /** The state across restarts: the maps are the process's, the disk stays. started holds
      every thread codex was asked to start, oldest first. */
  datatype State = State(maps: Maps, disk: Disk, started: seq<string>)

  /** What one call meets: the time, whether the file can be read, whether codex resumes the
      thread under the same id, what it answers to starting one, and what befalls the save. */
  datatype World = World(now: int, readFails: bool, resumes: bool, startedID: Option<string>, fault: Fault)

  datatype Outcome = Got(codexID: string) | Failed | Dead

  function Remember(s: State, r: Record, fault: Fault): (State, Outcome) {
    var (disk, saved) := Save(s.disk, r, fault);
    var s' := s.(maps := Set(s.maps, r), disk := disk);
    match saved
    case Ok => (s', Got(r.codexID))
    case Error => (s', Failed)
    case Killed => (s'.(maps := EMPTY), Dead)
  }

  /** ensureCodexThread for the instance me. */
  function Ensure(s: State, me: string, w: World): (State, Outcome) {
    if me in s.maps.forward then
      Remember(s, s.maps.forward[me].(lastUsedAt := w.now), w.fault)
    else
      match Load(s.disk, me, w.readFails)
      case None => (s, Failed)
      case Some(Some(r)) => if w.resumes then Remember(s, r.(lastUsedAt := w.now), w.fault) else (s, Failed)
      case Some(None) =>
        if w.startedID.None? then (s, Failed)
        else
          var s' := s.(started := s.started + [w.startedID.value]);
          Remember(s', Record(me, w.startedID.value, w.now, w.now), w.fault)
  }

  class CodexThreads {
    const me: string
    const mapping: ThreadMapping
    const store: Store
    var started: seq<string>

    ghost function View(): State
      reads this, mapping, store
    {
      State(mapping.State(), store.State(), started)
    }

    constructor (me: string, disk: Disk)
      ensures View() == State(EMPTY, disk, []) && this.me == me
      ensures fresh(mapping) && fresh(store)
    {
      this.me := me;
      mapping := new ThreadMapping();
      store := new Store(disk);
      started := [];
    }

    method Keep(r: Record, fault: Fault) returns (outcome: Outcome)
      modifies this, mapping, store
      ensures !outcome.Dead? ==> (View(), outcome) == Remember(old(View()), r, fault)
      ensures outcome.Dead? ==> (View().(maps := EMPTY), outcome) == Remember(old(View()), r, fault)
    {
      mapping.SetRecord(r);
      var saved := store.SaveRecord(r, fault);
      match saved {
        case Ok => return Got(r.codexID);
        case Error => return Failed;
        case Killed => return Dead;
      }
    }

    /** A process that is killed leaves its disk; its maps go with it. */
    method EnsureCodexThread(w: World) returns (outcome: Outcome)
      modifies this, mapping, store
      ensures !outcome.Dead? ==> (View(), outcome) == Ensure(old(View()), me, w)
      ensures outcome.Dead? ==> (View().(maps := EMPTY), outcome) == Ensure(old(View()), me, w)
    {
      var known := mapping.RecordForInstance(me);
      if known.Some? {
        var updated := known.value.(lastUsedAt := w.now);
        outcome := Keep(updated, w.fault);
        return;
      }
      var loaded := store.LoadRecord(me, w.readFails);
      if loaded.None? {
        return Failed;
      }
      if loaded.value.Some? {
        if !w.resumes {
          return Failed;
        }
        outcome := Keep(loaded.value.value.(lastUsedAt := w.now), w.fault);
        return;
      }
      if w.startedID.None? {
        return Failed;
      }
      started := started + [w.startedID.value];
      outcome := Keep(Record(me, w.startedID.value, w.now, w.now), w.fault);
    }
  }

  // ---- Whole lives ----

  datatype Op = Call(world: World) | Restart

  function Step(s: State, me: string, op: Op): State {
    match op
    case Call(w) => Ensure(s, me, w).0
    case Restart => s.(maps := EMPTY)
  }

  function After(s: State, me: string, ops: seq<Op>): State {
    if ops == [] then s else Step(After(s, me, ops[..|ops| - 1]), me, ops[|ops| - 1])
  }

  /** What the i-th op returns, if it is a call. */
  function OutcomeAt(s: State, me: string, ops: seq<Op>, i: nat): Outcome
    requires i < |ops|
  {
    if ops[i].Restart? then Failed else Ensure(After(s, me, ops[..i]), me, ops[i].world).1
  }

  predicate Knows(s: State, me: string, codexID: string) {
    me in s.maps.forward && s.maps.forward[me].instanceID == me && s.maps.forward[me].codexID == codexID
  }

  /** The file holds the instance's record, loadable, for this thread. */
  predicate OnDisk(s: State, me: string, codexID: string) {
    var loaded := Load(s.disk, me, false);
    loaded.Some? && loaded.value.Some? && loaded.value.value.codexID == codexID
  }

  /** And memory does not contradict it. */
  predicate Holds(s: State, me: string, codexID: string) {
    OnDisk(s, me, codexID) && (me in s.maps.forward ==> Knows(s, me, codexID))
  }

  /** Memory and file agree, whenever both have something to say. */
  ghost predicate Agree(s: State, me: string) {
    me in s.maps.forward ==>
      && s.maps.forward[me].instanceID == me
      && forall x | OnDisk(s, me, x) :: x == s.maps.forward[me].codexID
  }

  lemma {:induction false} RememberKeeps(s: State, me: string, r: Record, fault: Fault)
    requires r.instanceID == me
    requires forall x | OnDisk(s, me, x) :: x == r.codexID
    ensures
      var (s', outcome) := Remember(s, r, fault);
      && s'.started == s.started
      && Agree(s', me)
      && (outcome.Got? ==> outcome.codexID == r.codexID && Holds(s', me, r.codexID))
      && (!outcome.Dead? ==> Knows(s', me, r.codexID))
      && (OnDisk(s, me, r.codexID) ==> Holds(s', me, r.codexID))
      && (outcome.Dead? ==> s'.maps == EMPTY)
  {
    SaveIsAtomic(s.disk, r, fault);
    var s' := Remember(s, r, fault).0;
    forall x | OnDisk(s', me, x) ensures x == r.codexID {
      if s'.disk.files == s.disk.files {
        assert OnDisk(s, me, x);
      }
    }
  }

  /** One call: memory and file still agree; a success is on disk; what memory knows or the
      file holds is what a success returns, and it is kept. */
  lemma {:induction false} CallKeeps(s: State, me: string, w: World)
    requires Agree(s, me)
    ensures
      var (s', outcome) := Ensure(s, me, w);
      && Agree(s', me)
      && (outcome.Got? ==> Holds(s', me, outcome.codexID) && Knows(s', me, outcome.codexID))
      && (forall x | Knows(s, me, x) && !outcome.Dead? :: Knows(s', me, x))
      && (forall x | Holds(s, me, x) :: Holds(s', me, x) && s'.started == s.started)
      && (me in s.maps.forward ==> s'.started == s.started)
      && (outcome.Dead? ==> s'.maps == EMPTY)
  {
    if me in s.maps.forward {
      RememberKeeps(s, me, s.maps.forward[me].(lastUsedAt := w.now), w.fault);
    } else if Load(s.disk, me, w.readFails).Some? {
      match Load(s.disk, me, w.readFails).value {
        case Some(r) => RememberKeeps(s, me, r.(lastUsedAt := w.now), w.fault);
        case None =>
          if w.startedID.Some? {
            RememberKeeps(s.(started := s.started + [w.startedID.value]), me, Record(me, w.startedID.value, w.now, w.now), w.fault);
          }
      }
    }
  }

  lemma {:induction false} AlwaysAgree(disk: Disk, me: string, ops: seq<Op>)
    ensures Agree(After(State(EMPTY, disk, []), me, ops), me)
  {
    if ops != [] {
      AlwaysAgree(disk, me, ops[..|ops| - 1]);
      if ops[|ops| - 1].Call? {
        CallKeeps(After(State(EMPTY, disk, []), me, ops[..|ops| - 1]), me, ops[|ops| - 1].world);
      }
    }
  }

  /** What the file holds stays, and no thread is started any more. */
  lemma {:induction false} HeldStays(disk: Disk, me: string, ops: seq<Op>, n: nat, codexID: string)
    requires n <= |ops| && Holds(After(State(EMPTY, disk, []), me, ops[..n]), me, codexID)
    ensures
      var s, s' := After(State(EMPTY, disk, []), me, ops[..n]), After(State(EMPTY, disk, []), me, ops);
      Holds(s', me, codexID) && s'.started == s.started
    decreases |ops|
  {
    if n == |ops| {
      assert ops[..n] == ops;
    } else {
      var init := ops[..|ops| - 1];
      assert init[..n] == ops[..n];
      HeldStays(disk, me, init, n, codexID);
      AlwaysAgree(disk, me, init);
      if ops[|ops| - 1].Call? {
        CallKeeps(After(State(EMPTY, disk, []), me, init), me, ops[|ops| - 1].world);
      }
    }
  }

  /** One conversation across restarts: once the file holds the instance's record, every later
      successful call -- in this process or any after it, whatever saves fail or are cut short
      -- returns that record's thread, and no new thread is started. */
  lemma {:induction false} HeldThreadIsReturned(disk: Disk, me: string, ops: seq<Op>, n: nat, i: nat, codexID: string)
    requires n <= i < |ops| && Holds(After(State(EMPTY, disk, []), me, ops[..n]), me, codexID)
    ensures OutcomeAt(State(EMPTY, disk, []), me, ops, i).Got? ==> OutcomeAt(State(EMPTY, disk, []), me, ops, i).codexID == codexID
    ensures After(State(EMPTY, disk, []), me, ops[..i + 1]).started == After(State(EMPTY, disk, []), me, ops[..n]).started
  {
    assert ops[..i + 1][..n] == ops[..n] && ops[..i][..n] == ops[..n];
    HeldStays(disk, me, ops[..i + 1], n, codexID);
    HeldStays(disk, me, ops[..i], n, codexID);
    HeldCallReturns(disk, me, ops, i, codexID);
  }

  lemma {:induction false} HeldCallReturns(disk: Disk, me: string, ops: seq<Op>, i: nat, codexID: string)
    requires i < |ops| && Holds(After(State(EMPTY, disk, []), me, ops[..i]), me, codexID)
    ensures OutcomeAt(State(EMPTY, disk, []), me, ops, i).Got? ==> OutcomeAt(State(EMPTY, disk, []), me, ops, i).codexID == codexID
  {
    AlwaysAgree(disk, me, ops[..i]);
    if ops[i].Call? {
      CallKeeps(After(State(EMPTY, disk, []), me, ops[..i]), me, ops[i].world);
    }
  }

  /** The first success decides: from then on every success, in any process, returns its thread. */
  lemma {:induction false} FirstSuccessDecides(disk: Disk, me: string, ops: seq<Op>, i: nat, k: nat)
    requires i < k < |ops|
    requires OutcomeAt(State(EMPTY, disk, []), me, ops, i).Got? && OutcomeAt(State(EMPTY, disk, []), me, ops, k).Got?
    ensures OutcomeAt(State(EMPTY, disk, []), me, ops, k) == OutcomeAt(State(EMPTY, disk, []), me, ops, i)
    ensures After(State(EMPTY, disk, []), me, ops[..k + 1]).started == After(State(EMPTY, disk, []), me, ops[..i + 1]).started
  {
    AlwaysAgree(disk, me, ops[..i]);
    CallKeeps(After(State(EMPTY, disk, []), me, ops[..i]), me, ops[i].world);
    assert ops[..i + 1][..i] == ops[..i];
    HeldThreadIsReturned(disk, me, ops, i + 1, k, OutcomeAt(State(EMPTY, disk, []), me, ops, i).codexID);
  }

  /** Within one process a thread, once started, is the only one, even while every save fails. */
  lemma {:induction false} OneThreadPerProcess(s: State, me: string, ops: seq<Op>, codexID: string)
    requires Agree(s, me) && Knows(s, me, codexID)
    requires forall i | 0 <= i < |ops| :: ops[i].Call? && !ops[i].world.fault.KilledAt?
    ensures Knows(After(s, me, ops), me, codexID) && Agree(After(s, me, ops), me)
    ensures After(s, me, ops).started == s.started
    ensures forall i | 0 <= i < |ops| :: OutcomeAt(s, me, ops, i) in {Got(codexID), Failed}
  {
    StaysKnown(s, me, ops, codexID);
    forall i | 0 <= i < |ops| ensures OutcomeAt(s, me, ops, i) in {Got(codexID), Failed} {
      StaysKnown(s, me, ops[..i], codexID);
      KnownCall(After(s, me, ops[..i]), me, ops[i].world, codexID);
    }
  }

  lemma {:induction false} StaysKnown(s: State, me: string, ops: seq<Op>, codexID: string)
    requires Agree(s, me) && Knows(s, me, codexID)
    requires forall i | 0 <= i < |ops| :: ops[i].Call? && !ops[i].world.fault.KilledAt?
    ensures Knows(After(s, me, ops), me, codexID) && Agree(After(s, me, ops), me)
    ensures After(s, me, ops).started == s.started
  {
    if ops != [] {
      var init, last := ops[..|ops| - 1], ops[|ops| - 1];
      StaysKnown(s, me, init, codexID);
      KnownCall(After(s, me, init), me, last.world, codexID);
    }
  }

  /** One call of a process that knows its thread and is not killed. */
  lemma {:induction false} KnownCall(s: State, me: string, w: World, codexID: string)
    requires Agree(s, me) && Knows(s, me, codexID) && !w.fault.KilledAt?
    ensures
      var (s', outcome) := Ensure(s, me, w);
      && Agree(s', me) && Knows(s', me, codexID) && s'.started == s.started
      && outcome in {Got(codexID), Failed}
  {
    CallKeeps(s, me, w);
  }
}
