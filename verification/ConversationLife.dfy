// When a call for the instance's conversation succeeds, exactly.

module ConversationLife {
  // ensureCodexThread (internal/daemon/daemon.go:1037-1082), over a whole life of calls and
  // restarts.

  import opened Options
  import opened Strings
  import opened ThreadMapping
  import opened MappingStore
  import opened Conversation

  /** Not empty, and without space at either end. */
  predicate Clean(id: string) {
    id != "" && !IsSpace(id[0]) && !IsSpace(id[|id| - 1])
  }

  predicate CleanName(me: string) {
    Clean(me) && '/' !in me
  }

  lemma {:induction false} CleanIsTrimmed(id: string)
    ensures Clean(id) <==> id != "" && Trim(id) == id
  {
    TrimProperties(id);
  }

  /** A record of the instance's that a save at this time accepts. */
  predicate Storable(r: Record, me: string, now: int) {
    CleanName(me) && r.instanceID == me && Clean(r.codexID) && 0 < r.createdAt <= now
  }

  /** The instance's file holds this record, fit to be read. */
  predicate Held(s: State, me: string, r: Record) {
    && CleanName(me) && me in s.disk.files && s.disk.files[me] == Stored(r)
    && r.instanceID == me && Clean(r.codexID) && 0 < r.createdAt <= r.lastUsedAt
  }

  /** When one call succeeds, whatever memory and file hold, and with which thread: nothing
      befalls the save, the record is one a save accepts, and it is the one in memory, or else
      the file's once codex has resumed it, or else, there being no file, a new thread's. */
  lemma {:induction false} CallSucceedsIff(s: State, me: string, w: World)
    ensures
      var outcome := Ensure(s, me, w).1;
      forall codexID :: outcome == Got(codexID) <==>
        && w.fault.NoFault?
        && if me in s.maps.forward then
             var r := s.maps.forward[me];
             CleanName(r.instanceID) && Clean(r.codexID) && 0 < r.createdAt <= w.now && codexID == r.codexID
           else
             && CleanName(me) && !w.readFails
             && if me in s.disk.files then
                  w.resumes && exists r :: Held(s, me, r) && r.createdAt <= w.now && codexID == r.codexID
                else w.startedID == Some(codexID) && Clean(codexID) && w.now > 0
  {
    CleanIsTrimmed(me);
    if me in s.maps.forward {
      CleanIsTrimmed(s.maps.forward[me].instanceID);
      CleanIsTrimmed(s.maps.forward[me].codexID);
    } else if Trim(me) in s.disk.files && s.disk.files[Trim(me)].Stored? {
      var r := s.disk.files[Trim(me)].record;
      CleanIsTrimmed(r.codexID);
      CleanIsTrimmed(r.instanceID);
      assert Trim(me) == me && ValidRecord(r) && r.instanceID == me && ValidName(me) ==> Held(s, me, r);
    } else if w.startedID.Some? {
      CleanIsTrimmed(w.startedID.value);
    }
  }

  /** Codex is asked for a new thread exactly when nothing is kept: neither memory nor a readable
      disk has anything for the instance. */
  lemma {:induction false} ThreadIsStartedIff(s: State, me: string, w: World)
    ensures
      var s' := Ensure(s, me, w).0;
      var nothing := me !in s.maps.forward && ValidName(me) && Trim(me) !in s.disk.files && !w.readFails;
      s'.started == s.started + if nothing && w.startedID.Some? then [w.startedID.value] else []
  {
    assert s.started + [] == s.started;
  }

  // ---- Over a whole life ----

  function Life(disk: Disk, me: string, ops: seq<Op>): State {
    After(State(EMPTY, disk, []), me, ops)
  }

  predicate Succeeds(disk: Disk, me: string, ops: seq<Op>, i: nat)
    requires i < |ops|
  {
    OutcomeAt(State(EMPTY, disk, []), me, ops, i).Got?
  }

  /** No save fails, new threads have clean ids, and the clock does not fall back. */
  ghost predicate Fair(disk: Disk, me: string, ops: seq<Op>) {
    && CleanName(me)
    && (me in disk.files ==> exists r :: Held(State(EMPTY, disk, []), me, r) && Lasts(r, ops, 0))
    && (forall i | 0 <= i < |ops| && ops[i].Call? ::
          && ops[i].world.fault.NoFault? && ops[i].world.now > 0
          && (ops[i].world.startedID.Some? ==> Clean(ops[i].world.startedID.value)))
    && forall i, j | 0 <= i < j < |ops| && ops[i].Call? && ops[j].Call? :: ops[i].world.now <= ops[j].world.now
  }

  /** Some call before i has succeeded since the process last started. */
  ghost predicate InProcess(disk: Disk, me: string, ops: seq<Op>, i: nat)
    requires i <= |ops|
  {
    exists j :: 0 <= j < i && Succeeds(disk, me, ops, j) && NoRestart(ops, j + 1, i)
  }

  predicate NoRestart(ops: seq<Op>, from: nat, to: nat)
    requires to <= |ops|
  {
    forall k | from <= k < to :: ops[k].Call?
  }

  /** There was a file to begin with, or some call before i has succeeded. */
  ghost predicate Kept(disk: Disk, me: string, ops: seq<Op>, i: nat)
    requires i <= |ops|
  {
    me in disk.files || exists j :: 0 <= j < i && Succeeds(disk, me, ops, j)
  }

  /** The record is no younger than any call from i on. */
  ghost predicate Lasts(r: Record, ops: seq<Op>, i: nat) {
    forall k | i <= k < |ops| && ops[k].Call? :: r.createdAt <= ops[k].world.now
  }

  /** Memory and file after the first i ops. */
  ghost predicate Sound(disk: Disk, me: string, ops: seq<Op>, i: nat)
    requires i <= |ops|
  {
    var s := Life(disk, me, ops[..i]);
    && (me in s.maps.forward <==> InProcess(disk, me, ops, i))
    && (me in s.disk.files <==> Kept(disk, me, ops, i))
    && (me in s.disk.files ==> exists r :: Held(s, me, r) && Lasts(r, ops, i))
    && (me in s.maps.forward ==>
          var r := s.maps.forward[me];
          me in s.disk.files && r.instanceID == me && Clean(r.codexID) && 0 < r.createdAt && Lasts(r, ops, i))
  }

  lemma {:induction false} NoRestartNext(ops: seq<Op>, from: nat, to: nat)
    requires from <= to < |ops|
    ensures NoRestart(ops, from, to + 1) <==> NoRestart(ops, from, to) && ops[to].Call?
  {
  }

  lemma {:induction false} InProcessSince(disk: Disk, me: string, ops: seq<Op>, i: nat)
    requires i < |ops| && InProcess(disk, me, ops, i + 1)
    ensures ops[i].Call? && (Succeeds(disk, me, ops, i) || InProcess(disk, me, ops, i))
  {
    var j :| 0 <= j < i + 1 && Succeeds(disk, me, ops, j) && NoRestart(ops, j + 1, i + 1);
    if j < i {
      NoRestartNext(ops, j + 1, i);
    }
  }

  lemma {:induction false} InProcessStill(disk: Disk, me: string, ops: seq<Op>, i: nat)
    requires i < |ops| && ops[i].Call? && (Succeeds(disk, me, ops, i) || InProcess(disk, me, ops, i))
    ensures InProcess(disk, me, ops, i + 1)
  {
    if Succeeds(disk, me, ops, i) {
      assert NoRestart(ops, i + 1, i + 1);
    } else {
      var j :| 0 <= j < i && Succeeds(disk, me, ops, j) && NoRestart(ops, j + 1, i);
      NoRestartNext(ops, j + 1, i);
    }
  }

  lemma {:induction false} InProcessNext(disk: Disk, me: string, ops: seq<Op>, i: nat)
    requires i < |ops|
    ensures InProcess(disk, me, ops, i + 1) <==> ops[i].Call? && (Succeeds(disk, me, ops, i) || InProcess(disk, me, ops, i))
  {
    if InProcess(disk, me, ops, i + 1) {
      InProcessSince(disk, me, ops, i);
    } else if ops[i].Call? && (Succeeds(disk, me, ops, i) || InProcess(disk, me, ops, i)) {
      InProcessStill(disk, me, ops, i);
    }
  }

  lemma {:induction false} KeptNext(disk: Disk, me: string, ops: seq<Op>, i: nat)
    requires i < |ops|
    ensures Kept(disk, me, ops, i + 1) <==> Succeeds(disk, me, ops, i) || Kept(disk, me, ops, i)
  {
  }

  lemma {:induction false} LifeNext(disk: Disk, me: string, ops: seq<Op>, i: nat)
    requires i < |ops|
    ensures Life(disk, me, ops[..i + 1]) == Step(Life(disk, me, ops[..i]), me, ops[i])
    ensures Succeeds(disk, me, ops, i) <==> ops[i].Call? && Ensure(Life(disk, me, ops[..i]), me, ops[i].world).1.Got?
  {
    assert ops[..i + 1][..i] == ops[..i];
  }

  /** What a call that meets no fault does to memory and file: nothing unless it succeeds. */
  lemma {:induction false} FairCall(s: State, me: string, w: World)
    requires CleanName(me) && w.fault.NoFault? && w.now > 0 && (w.startedID.Some? ==> Clean(w.startedID.value))
    requires me in s.maps.forward ==> Storable(s.maps.forward[me], me, w.now)
    requires me in s.disk.files ==> exists r :: Held(s, me, r) && r.createdAt <= w.now
    ensures
      var (s', outcome) := Ensure(s, me, w);
      && (outcome.Got? <==> me in s.maps.forward || (!w.readFails && if me in s.disk.files then w.resumes else w.startedID.Some?))
      && (!outcome.Got? ==> s'.maps == s.maps && s'.disk == s.disk)
      && (outcome.Got? ==>
            && me in s'.maps.forward && me in s'.disk.files
            && var r := s'.maps.forward[me];
            && Held(s', me, r) && r.codexID == outcome.codexID && r.lastUsedAt == w.now
            && r.createdAt == if me in s.maps.forward then s.maps.forward[me].createdAt
                              else if me in s.disk.files then s.disk.files[me].record.createdAt else w.now)
  {
    CleanIsTrimmed(me);
    if me in s.maps.forward {
      CleanIsTrimmed(s.maps.forward[me].codexID);
    } else if me in s.disk.files {
      var r :| Held(s, me, r) && r.createdAt <= w.now;
      CleanIsTrimmed(r.codexID);
    } else if w.startedID.Some? {
      CleanIsTrimmed(w.startedID.value);
    }
  }

  lemma {:induction false} SoundNext(disk: Disk, me: string, ops: seq<Op>, i: nat)
    requires i < |ops| && Fair(disk, me, ops) && Sound(disk, me, ops, i)
    ensures Sound(disk, me, ops, i + 1)
  {
    var s := Life(disk, me, ops[..i]);
    LifeNext(disk, me, ops, i);
    InProcessNext(disk, me, ops, i);
    KeptNext(disk, me, ops, i);
    if ops[i].Call? {
      FairCall(s, me, ops[i].world);
      var s' := Life(disk, me, ops[..i + 1]);
      if Succeeds(disk, me, ops, i) {
        assert Held(s', me, s'.maps.forward[me]) && Lasts(s'.maps.forward[me], ops, i + 1);
      } else if me in s.disk.files {
        var r :| Held(s, me, r) && Lasts(r, ops, i);
        assert Held(s', me, r) && Lasts(r, ops, i + 1);
      }
    } else if me in s.disk.files {
      var r :| Held(s, me, r) && Lasts(r, ops, i);
      assert Held(Life(disk, me, ops[..i + 1]), me, r) && Lasts(r, ops, i + 1);
    }
  }

  lemma {:induction false} AlwaysSound(disk: Disk, me: string, ops: seq<Op>, i: nat)
    requires i <= |ops| && Fair(disk, me, ops)
    ensures Sound(disk, me, ops, i)
  {
    if i == 0 {
      assert ops[..0] == [];
      if me in disk.files {
        var r :| Held(State(EMPTY, disk, []), me, r) && Lasts(r, ops, 0);
        assert Held(Life(disk, me, ops[..0]), me, r) && Lasts(r, ops, 0);
      }
    } else {
      AlwaysSound(disk, me, ops, i - 1);
      SoundNext(disk, me, ops, i - 1);
    }
  }

  /** Which calls succeed over a whole life, from the ops and their outcomes alone: with nothing
      failing to be saved, clean ids and a clock that does not fall back, a call succeeds
      exactly when one has succeeded since the process started, or else the file can be read
      and codex resumes the thread kept there or, none being kept, starts one. */
  lemma {:induction false} SucceedsExactlyWhenMet(disk: Disk, me: string, ops: seq<Op>, i: nat)
    requires Fair(disk, me, ops) && i < |ops| && ops[i].Call?
    ensures
      var w := ops[i].world;
      Succeeds(disk, me, ops, i) <==>
        InProcess(disk, me, ops, i) || (!w.readFails && if Kept(disk, me, ops, i) then w.resumes else w.startedID.Some?)
  {
    AlwaysSound(disk, me, ops, i);
    LifeNext(disk, me, ops, i);
    FairCall(Life(disk, me, ops[..i]), me, ops[i].world);
  }
}
