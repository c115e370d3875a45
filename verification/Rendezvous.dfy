// The tracker's methods, split at the unlock and interleaved.

module Rendezvous {
  // internal/codexbridge/turn_tracker.go:30-98.

  import opened Options
  import opened Turns
  import opened TurnTracker
  import Bridge

  /** A channel's whole life: what was ever sent on it, how much was received, how often
      it was closed. turnID is the turn it was registered for. */
  datatype Life = Life(turnID: string, sent: seq<TurnResult>, received: nat, closes: nat)

  /** A goroutine past the unlock with a result to send and a channel to close. */
  datatype Delivery = Delivery(ch: nat, result: TurnResult, sent: bool)

  datatype State = State(table: Table, channels: seq<Life>, threads: map<nat, Delivery>)

  datatype Step =
    | Register(thread: nat, turnID: string)
    | Cancel(turnID: string)
    | Notify(thread: nat, result: TurnResult)
    | NotifyActive(thread: nat, result: TurnResult)
    | Send(thread: nat)
    | Close(thread: nat)
    | Receive(ch: nat)

  const INIT := State(EMPTY, [], map[])

  predicate Enabled(s: State, step: Step) {
    match step
    case Register(thread, _) => thread !in s.threads
    case Cancel(_) => true
    case Notify(thread, _) => thread !in s.threads
    case NotifyActive(thread, _) => thread !in s.threads
    case Send(thread) => thread in s.threads && !s.threads[thread].sent && s.threads[thread].ch < |s.channels|
    case Close(thread) => thread in s.threads && s.threads[thread].sent && s.threads[thread].ch < |s.channels|
    case Receive(ch) => ch < |s.channels| && s.channels[ch].received < |s.channels[ch].sent|
  }

  /** The goroutine has something to deliver once it has let go of the lock. */
  function Owing(s: State, thread: nat, ch: nat, result: TurnResult): State {
    s.(threads := s.threads[thread := Delivery(ch, result, false)])
  }

  function Apply(s: State, step: Step): State
    requires Enabled(s, step)
  {
    match step
    case Register(thread, turnID) =>
      var ch := |s.channels|;
      var (table, result) := Registered(s.table, turnID, ch);
      var s' := s.(table := table, channels := s.channels + [Life(turnID, [], 0, 0)]);
      if result.Some? then Owing(s', thread, ch, result.value) else s'
    case Cancel(turnID) => s.(table := Cancelled(s.table, turnID))
    case Notify(thread, result) =>
      var (table, ch) := Notified(s.table, result);
      if ch.Some? then Owing(s.(table := table), thread, ch.value, result) else s.(table := table)
    case NotifyActive(thread, result) =>
      var (table, ch) := NotifiedActive(s.table);
      if ch.Some? then Owing(s.(table := table), thread, ch.value, Addressed(result, s.table.active))
      else s.(table := table)
    case Send(thread) =>
      var d := s.threads[thread];
      var life := s.channels[d.ch];
      s.(channels := s.channels[d.ch := life.(sent := life.sent + [d.result])],
         threads := s.threads[thread := d.(sent := true)])
    case Close(thread) =>
      var d := s.threads[thread];
      var life := s.channels[d.ch];
      s.(channels := s.channels[d.ch := life.(closes := life.closes + 1)], threads := s.threads - {thread})
    case Receive(ch) =>
      s.(channels := s.channels[ch := s.channels[ch].(received := s.channels[ch].received + 1)])
  }

  ghost predicate Possible(steps: seq<Step>)
    decreases |steps|, 0
  {
    steps == [] || (var before := steps[..|steps| - 1]; Possible(before) && Enabled(After(before), steps[|steps| - 1]))
  }

  ghost function After(steps: seq<Step>): State
    requires Possible(steps)
    decreases |steps|, 1
  {
    if steps == [] then INIT else Apply(After(steps[..|steps| - 1]), steps[|steps| - 1])
  }

  /** A channel nobody has been promised a result on yet, or ever will be again. */
  predicate Untouched(life: Life) {
    life.sent == [] && life.received == 0 && life.closes == 0
  }

  ghost predicate ChannelsSound(s: State) {
    forall ch | 0 <= ch < |s.channels| ::
      var life := s.channels[ch];
      && |life.sent| <= 1 && life.received <= |life.sent| && life.closes <= |life.sent|
      && forall result | result in life.sent :: result.turnID == life.turnID
  }

  ghost predicate WaitersSound(s: State) {
    forall turnID | turnID in s.table.waiters ::
      var ch := s.table.waiters[turnID];
      ch < |s.channels| && s.channels[ch].turnID == turnID && Untouched(s.channels[ch])
  }

  ghost predicate ThreadsSound(s: State) {
    && (forall thread | thread in s.threads ::
          var d := s.threads[thread];
          && d.ch < |s.channels|
          && d.result.turnID == s.channels[d.ch].turnID
          && s.channels[d.ch].closes == 0
          && s.channels[d.ch].sent == (if d.sent then [d.result] else [])
          && forall turnID | turnID in s.table.waiters :: s.table.waiters[turnID] != d.ch)
    && forall a, b | a in s.threads && b in s.threads && a != b :: s.threads[a].ch != s.threads[b].ch
  }

  ghost predicate Invariant(s: State) {
    Sound(s.table) && ChannelsSound(s) && WaitersSound(s) && ThreadsSound(s)
  }

  /** A goroutine may come to owe a delivery on a channel no one else will use. */
  lemma {:induction false} OwingKeeps(s: State, thread: nat, ch: nat, result: TurnResult)
    requires Invariant(s) && thread !in s.threads
    requires ch < |s.channels| && Untouched(s.channels[ch]) && s.channels[ch].turnID == result.turnID
    requires forall turnID | turnID in s.table.waiters :: s.table.waiters[turnID] != ch
    requires forall other | other in s.threads :: s.threads[other].ch != ch
    ensures Invariant(Owing(s, thread, ch, result))
  {
    assert ThreadsSound(Owing(s, thread, ch, result));
  }

  lemma {:induction false} TableShrinks(s: State, table: Table)
    requires Invariant(s) && Sound(table)
    requires forall id | id in table.waiters :: id in s.table.waiters && table.waiters[id] == s.table.waiters[id]
    ensures Invariant(s.(table := table))
  {
  }

  lemma {:induction false} ChannelMade(s: State, turnID: string, table: Table)
    requires Invariant(s) && Sound(table)
    requires forall id | id in table.waiters ::
      if id == turnID then table.waiters[id] == |s.channels| else id in s.table.waiters && table.waiters[id] == s.table.waiters[id]
    ensures Invariant(s.(table := table, channels := s.channels + [Life(turnID, [], 0, 0)]))
  {
    var s' := s.(table := table, channels := s.channels + [Life(turnID, [], 0, 0)]);
    assert ChannelsSound(s');
    assert WaitersSound(s');
    assert ThreadsSound(s') by {
      forall thread | thread in s'.threads ensures s'.channels[s'.threads[thread].ch] == s.channels[s.threads[thread].ch] {}
    }
  }

  lemma {:induction false} RegisterKeeps(s: State, thread: nat, turnID: string)
    requires Invariant(s) && Enabled(s, Register(thread, turnID))
    ensures Invariant(Apply(s, Register(thread, turnID)))
  {
    var ch := |s.channels|;
    var (table, result) := Registered(s.table, turnID, ch);
    RegisteredSound(s, turnID);
    ChannelMade(s, turnID, table);
    if result.Some? {
      OwingKeeps(s.(table := table, channels := s.channels + [Life(turnID, [], 0, 0)]), thread, ch, result.value);
    }
  }

  lemma {:induction false} RegisteredSound(s: State, turnID: string)
    requires Invariant(s)
    ensures Sound(Registered(s.table, turnID, |s.channels|).0)
  {
    assert forall id | id in s.table.waiters :: s.table.waiters[id] < |s.channels|;
  }

  lemma {:induction false} CancelKeeps(s: State, turnID: string)
    requires Invariant(s)
    ensures Invariant(Apply(s, Cancel(turnID)))
  {
    TableShrinks(s, Cancelled(s.table, turnID));
  }

  lemma {:induction false} NotifyKeeps(s: State, thread: nat, result: TurnResult)
    requires Invariant(s) && Enabled(s, Notify(thread, result))
    ensures Invariant(Apply(s, Notify(thread, result)))
  {
    var (table, ch) := Notified(s.table, result);
    TableShrinks(s, table);
    if ch.Some? {
      OwingKeeps(s.(table := table), thread, ch.value, result);
    }
  }

  lemma {:induction false} NotifyActiveKeeps(s: State, thread: nat, result: TurnResult)
    requires Invariant(s) && Enabled(s, NotifyActive(thread, result))
    ensures Invariant(Apply(s, NotifyActive(thread, result)))
  {
    var (table, ch) := NotifiedActive(s.table);
    TableShrinks(s, table);
    if ch.Some? {
      OwingKeeps(s.(table := table), thread, ch.value, Addressed(result, s.table.active));
    }
  }

  lemma {:induction false} SendKeeps(s: State, thread: nat)
    requires Invariant(s) && Enabled(s, Send(thread))
    ensures Invariant(Apply(s, Send(thread)))
  {
  }

  lemma {:induction false} CloseKeeps(s: State, thread: nat)
    requires Invariant(s) && Enabled(s, Close(thread))
    ensures Invariant(Apply(s, Close(thread)))
  {
  }

  lemma {:induction false} ReceiveKeeps(s: State, ch: nat)
    requires Invariant(s) && Enabled(s, Receive(ch))
    ensures Invariant(Apply(s, Receive(ch)))
  {
  }

  lemma {:induction false} StepKeeps(s: State, step: Step)
    requires Invariant(s) && Enabled(s, step)
    ensures Invariant(Apply(s, step))
  {
    match step
    case Register(thread, turnID) => RegisterKeeps(s, thread, turnID);
    case Cancel(turnID) => CancelKeeps(s, turnID);
    case Notify(thread, result) => NotifyKeeps(s, thread, result);
    case NotifyActive(thread, result) => NotifyActiveKeeps(s, thread, result);
    case Send(thread) => SendKeeps(s, thread);
    case Close(thread) => CloseKeeps(s, thread);
    case Receive(ch) => ReceiveKeeps(s, ch);
  }

  lemma {:induction false} AlwaysInvariant(steps: seq<Step>)
    requires Possible(steps)
    ensures Invariant(After(steps))
  {
    if steps != [] {
      AlwaysInvariant(steps[..|steps| - 1]);
      StepKeeps(After(steps[..|steps| - 1]), steps[|steps| - 1]);
    }
  }

  /** The channel discipline, in every interleaving: a channel gets at most one value and
      only one meant for its turn, it is closed at most once and only after that value, no
      send comes after the close or has to wait for room, and a goroutine that owes a
      delivery can always make it. */
  lemma {:induction false} ChannelDiscipline(steps: seq<Step>)
    requires Possible(steps)
    ensures
      var s := After(steps);
      && (forall ch | 0 <= ch < |s.channels| ::
            var life := s.channels[ch];
            life.closes <= |life.sent| <= 1 && forall result | result in life.sent :: result.turnID == life.turnID)
      && (forall thread | thread in s.threads ::
            var ch := s.threads[thread].ch;
            && (Enabled(s, Send(thread)) || Enabled(s, Close(thread)))
            && s.channels[ch].closes == 0
            && (Enabled(s, Send(thread)) ==> s.channels[ch].sent == [] && s.channels[ch].received == 0))
  {
    AlwaysInvariant(steps);
  }

  /** NotifyActive never finds an active turn without a waiter: it delivers exactly when a
      turn is active. */
  lemma {:induction false} ActiveTurnHasWaiter(steps: seq<Step>)
    requires Possible(steps)
    ensures
      var t := After(steps).table;
      && t.waiters.Keys !! t.pending.Keys
      && (t.active != "" ==> t.active in t.waiters)
      && (NotifiedActive(t).1.Some? <==> t.active != "")
  {
    AlwaysInvariant(steps);
  }

  /** How often steps register turnID, and how often they notify it. */
  function Registers(steps: seq<Step>, turnID: string): nat {
    if steps == [] then 0 else
      var last := steps[|steps| - 1];
      Registers(steps[..|steps| - 1], turnID) + if last.Register? && last.turnID == turnID then 1 else 0
  }

  function Notifies(steps: seq<Step>, turnID: string): seq<TurnResult> {
    if steps == [] then [] else
      var last := steps[|steps| - 1];
      Notifies(steps[..|steps| - 1], turnID) +
      if last.Notify? && last.result.turnID == turnID then [last.result] else []
  }

  /** Nothing cancels turnID, and no error without a turn id lands on it. */
  ghost predicate Undisturbed(steps: seq<Step>, turnID: string)
    requires Possible(steps)
    decreases |steps|
  {
    steps == [] ||
    (var before, last := steps[..|steps| - 1], steps[|steps| - 1];
     && Undisturbed(before, turnID)
     && (last.Cancel? ==> last.turnID != turnID)
     && (last.NotifyActive? ==> After(before).table.active != turnID))
  }

  ghost predicate NoChannel(s: State, turnID: string) {
    forall ch | 0 <= ch < |s.channels| :: s.channels[ch].turnID != turnID
  }

  ghost predicate OneChannel(s: State, turnID: string, ch: nat) {
    && ch < |s.channels|
    && forall other | 0 <= other < |s.channels| :: s.channels[other].turnID == turnID <==> other == ch
  }

  /** The result is on its way to ch, or has been sent there and the channel closed. */
  ghost predicate Delivered(s: State, ch: nat, result: TurnResult)
    requires ch < |s.channels|
  {
    || (s.channels[ch].sent == [result] && s.channels[ch].closes == 1)
    || exists thread :: thread in s.threads && s.threads[thread].ch == ch && s.threads[thread].result == result
  }

  /** Where a turn registered and notified at most once each stands. */
  ghost predicate Meeting(s: State, turnID: string, registers: nat, notifies: seq<TurnResult>) {
    && registers <= 1 && |notifies| <= 1
    && (turnID in s.table.waiters <==> registers == 1 && notifies == [])
    && (turnID in s.table.pending <==> registers == 0 && notifies != [])
    && (registers == 0 ==> NoChannel(s, turnID))
    && (registers == 1 && notifies == [] ==> OneChannel(s, turnID, s.table.waiters[turnID]))
    && (registers == 0 && notifies != [] ==> s.table.pending[turnID] == notifies[0])
    && (registers == 1 && notifies != [] ==> exists ch: nat :: OneChannel(s, turnID, ch) && Delivered(s, ch, notifies[0]))
  }

  /** A step about other turns leaves what the table says of turnID, and makes no channel for it. */
  ghost predicate About(s: State, step: Step, turnID: string) {
    match step
    case Register(_, id) => id == turnID
    case Cancel(id) => id == turnID
    case Notify(_, result) => result.turnID == turnID
    case NotifyActive(_, _) => s.table.active == turnID
    case _ => false
  }

  lemma {:induction false} TableKept(s: State, step: Step, turnID: string)
    requires Sound(s.table) && Enabled(s, step) && !About(s, step, turnID)
    ensures
      var t, t' := s.table, Apply(s, step).table;
      && (turnID in t.waiters <==> turnID in t'.waiters)
      && (turnID in t.pending <==> turnID in t'.pending)
      && (turnID in t.waiters ==> t'.waiters[turnID] == t.waiters[turnID])
      && (turnID in t.pending ==> t'.pending[turnID] == t.pending[turnID])
  {
  }

  lemma {:induction false} OthersKept(s: State, step: Step, turnID: string)
    requires Enabled(s, step) && !About(s, step, turnID)
    ensures
      var s' := Apply(s, step);
      && |s.channels| <= |s'.channels|
      && (forall ch | 0 <= ch < |s.channels| :: s'.channels[ch].turnID == s.channels[ch].turnID)
      && (forall ch | |s.channels| <= ch < |s'.channels| :: s'.channels[ch].turnID != turnID)
  {
  }

  lemma {:induction false} MeetingKept(s: State, step: Step, turnID: string, registers: nat, notifies: seq<TurnResult>)
    requires Invariant(s) && Enabled(s, step)
    requires Meeting(s, turnID, registers, notifies)
    requires !About(s, step, turnID)
    ensures Meeting(Apply(s, step), turnID, registers, notifies)
  {
    TableKept(s, step, turnID);
    OthersKept(s, step, turnID);
    var s' := Apply(s, step);
    if registers == 1 && notifies != [] {
      var ch: nat :| OneChannel(s, turnID, ch) && Delivered(s, ch, notifies[0]);
      DeliveryKept(s, step, ch, notifies[0]);
      assert OneChannel(s', turnID, ch);
    } else if registers == 1 {
      assert OneChannel(s', turnID, s.table.waiters[turnID]);
    } else {
      assert NoChannel(s', turnID);
    }
  }

  lemma {:induction false} DeliveryKept(s: State, step: Step, ch: nat, result: TurnResult)
    requires Invariant(s) && Enabled(s, step)
    requires ch < |s.channels| && Delivered(s, ch, result)
    ensures ch < |Apply(s, step).channels| && Delivered(Apply(s, step), ch, result)
  {
    var s' := Apply(s, step);
    if !(s.channels[ch].sent == [result] && s.channels[ch].closes == 1) {
      var thread :| thread in s.threads && s.threads[thread].ch == ch && s.threads[thread].result == result;
      if step == Close(thread) {
        assert s'.channels[ch].sent == [result] && s'.channels[ch].closes == 1;
      } else {
        assert thread in s'.threads && s'.threads[thread].ch == ch && s'.threads[thread].result == result;
      }
    }
  }

  lemma {:induction false} RegisterMeets(s: State, step: Step, notifies: seq<TurnResult>)
    requires Invariant(s) && Enabled(s, step) && step.Register?
    requires Meeting(s, step.turnID, 0, notifies)
    ensures Meeting(Apply(s, step), step.turnID, 1, notifies)
  {
    var s' := Apply(s, step);
    assert OneChannel(s', step.turnID, |s.channels|);
    if notifies != [] {
      assert step.thread in s'.threads && s'.threads[step.thread] == Delivery(|s.channels|, notifies[0], false);
      assert Delivered(s', |s.channels|, notifies[0]);
    }
  }

  lemma {:induction false} NotifyMeets(s: State, step: Step, registers: nat)
    requires Invariant(s) && Enabled(s, step) && step.Notify?
    requires Meeting(s, step.result.turnID, registers, [])
    ensures Meeting(Apply(s, step), step.result.turnID, registers, [step.result])
  {
    var s' := Apply(s, step);
    if registers == 1 {
      var ch := s.table.waiters[step.result.turnID];
      assert OneChannel(s', step.result.turnID, ch);
      assert step.thread in s'.threads && s'.threads[step.thread] == Delivery(ch, step.result, false);
      assert Delivered(s', ch, step.result);
    }
  }

  lemma {:induction false} AlwaysMeeting(steps: seq<Step>, turnID: string)
    requires Possible(steps) && Undisturbed(steps, turnID)
    requires Registers(steps, turnID) <= 1 && |Notifies(steps, turnID)| <= 1
    ensures Meeting(After(steps), turnID, Registers(steps, turnID), Notifies(steps, turnID))
  {
    if steps != [] {
      var before, step := steps[..|steps| - 1], steps[|steps| - 1];
      AlwaysMeeting(before, turnID);
      AlwaysInvariant(before);
      if step.Register? && step.turnID == turnID {
        RegisterMeets(After(before), step, Notifies(before, turnID));
      } else if step.Notify? && step.result.turnID == turnID {
        assert Notifies(steps, turnID) == [step.result];
        NotifyMeets(After(before), step, Registers(before, turnID));
      } else {
        MeetingKept(After(before), step, turnID, Registers(before, turnID), Notifies(before, turnID));
      }
    }
  }

  /** The rendezvous: one Register and one Notify of a turn, in either order and with
      anything else in between, end with that turn's only channel holding exactly that
      result and closed, once the goroutines have finished. */
  lemma {:induction false} RegisterMeetsNotify(steps: seq<Step>, turnID: string, result: TurnResult)
    requires Possible(steps) && Undisturbed(steps, turnID)
    requires Registers(steps, turnID) == 1 && Notifies(steps, turnID) == [result]
    requires After(steps).threads == map[]
    ensures exists ch: nat ::
      && OneChannel(After(steps), turnID, ch)
      && After(steps).channels[ch].sent == [result]
      && After(steps).channels[ch].closes == 1
  {
    AlwaysMeeting(steps, turnID);
  }

  ghost predicate AllGivenUp(s: State) {
    && (forall id | id in s.table.pending :: GivenUp(s.table.pending[id]))
    && (forall thread | thread in s.threads :: GivenUp(s.threads[thread].result))
    && (forall ch, result | 0 <= ch < |s.channels| && result in s.channels[ch].sent :: GivenUp(result))
  }

  /** A notification is the bridge's: of a completed turn, or of an error it passes on to the
      error's turn or to the active one. */
  ghost predicate FromBridge(step: Step) {
    match step
    case Notify(_, result) =>
      || (exists threadID, turnID, answer :: result == Bridge.CompletedResult(threadID, turnID, answer))
      || exists threadID, turnID, message, willRetry, details ::
           Bridge.ErrorOutcome(threadID, turnID, message, willRetry, details) == Bridge.ToTurn(result)
    case NotifyActive(_, result) =>
      exists threadID, turnID, message, willRetry, details ::
        Bridge.ErrorOutcome(threadID, turnID, message, willRetry, details) == Bridge.ToActive(result)
    case _ => true
  }

  lemma {:induction false} BridgeGivesUp(step: Step)
    requires FromBridge(step)
    ensures step.Notify? || step.NotifyActive? ==> GivenUp(step.result)
  {
    if step.Notify? {
      if threadID, turnID, answer :| step.result == Bridge.CompletedResult(threadID, turnID, answer) {
        Bridge.BridgeResultsGivenUp(threadID, turnID, answer, "", false, None);
      } else {
        var threadID, turnID, message, willRetry, details :|
          Bridge.ErrorOutcome(threadID, turnID, message, willRetry, details) == Bridge.ToTurn(step.result);
        Bridge.BridgeResultsGivenUp(threadID, turnID, None, message, willRetry, details);
      }
    } else if step.NotifyActive? {
      var threadID, turnID, message, willRetry, details :|
        Bridge.ErrorOutcome(threadID, turnID, message, willRetry, details) == Bridge.ToActive(step.result);
      Bridge.BridgeResultsGivenUp(threadID, turnID, None, message, willRetry, details);
    }
  }

  /** The bridge being the only notifier, no handler ever receives a result that says codex
      will retry, in any interleaving. */
  lemma {:induction false} WillRetryNeverReachesHandler(steps: seq<Step>)
    requires Possible(steps)
    requires forall i | 0 <= i < |steps| :: FromBridge(steps[i])
    ensures AllGivenUp(After(steps))
  {
    if steps != [] {
      WillRetryNeverReachesHandler(steps[..|steps| - 1]);
      BridgeGivesUp(steps[|steps| - 1]);
      AllGivenUpKept(After(steps[..|steps| - 1]), steps[|steps| - 1]);
    }
  }

  lemma {:induction false} AllGivenUpKept(s: State, step: Step)
    requires AllGivenUp(s) && Enabled(s, step)
    requires step.Notify? || step.NotifyActive? ==> GivenUp(step.result)
    ensures AllGivenUp(Apply(s, step))
  {
  }
}
