// What the tracker holds, from the steps taken alone.

module TurnHistory {
  // internal/codexbridge/turn_tracker.go:30-98, in any interleaving; and where an error that
  // names no turn ends up.

  import opened Options
  import opened Turns
  import opened TurnTracker
  import opened Rendezvous

  /** How many channels were handed out. */
  function Made(steps: seq<Step>): nat {
    if steps == [] then 0 else Made(steps[..|steps| - 1]) + if steps[|steps| - 1].Register? then 1 else 0
  }

  /** The channel somebody waits for the turn on: that of the last Register that found no kept
      result, until the turn is cancelled, notified, or ended as the active one. */
  ghost function WaitsOn(steps: seq<Step>, turnID: string): Option<nat>
    decreases |steps|, 0
  {
    if steps == [] then None
    else
      var init := steps[..|steps| - 1];
      match steps[|steps| - 1]
      case Register(_, id) => if id == turnID && Kept(init, id).None? then Some(Made(init)) else WaitsOn(init, turnID)
      case Cancel(id) => if id == turnID then None else WaitsOn(init, turnID)
      case Notify(_, result) => if result.turnID == turnID then None else WaitsOn(init, turnID)
      case NotifyActive(_, _) => if IsActive(init, turnID) then None else WaitsOn(init, turnID)
      case _ => WaitsOn(init, turnID)
  }

  /** The result kept for a turn nobody waited for when it was notified: the latest, until the
      turn is registered or cancelled. */
  ghost function Kept(steps: seq<Step>, turnID: string): Option<TurnResult>
    decreases |steps|, 0
  {
    if steps == [] then None
    else
      var init := steps[..|steps| - 1];
      match steps[|steps| - 1]
      case Register(_, id) => if id == turnID then None else Kept(init, turnID)
      case Cancel(id) => if id == turnID then None else Kept(init, turnID)
      case Notify(_, result) => if result.turnID == turnID && WaitsOn(init, turnID).None? then Some(result) else Kept(init, turnID)
      case _ => Kept(init, turnID)
  }

  /** Step i registered the turn and found no kept result. */
  ghost predicate Activates(steps: seq<Step>, i: nat, turnID: string)
    requires i < |steps|
    decreases |steps[..i]|, 1
  {
    steps[i].Register? && steps[i].turnID == turnID && Kept(steps[..i], turnID).None?
  }

  /** Step j made some turn active, or ended this one. */
  ghost predicate Deactivates(steps: seq<Step>, j: nat, turnID: string)
    requires j < |steps|
    decreases |steps[..j]|, 1
  {
    match steps[j]
    case Register(_, id) => Kept(steps[..j], id).None?
    case Cancel(id) => id == turnID
    case Notify(_, result) => result.turnID == turnID
    case NotifyActive(_, _) => true
    case _ => false
  }

  /** Registering makes the turn active until something deactivates it. */
  ghost predicate IsActive(steps: seq<Step>, turnID: string)
    decreases |steps|, 2
  {
    steps != [] && turnID != "" &&
    var n := |steps| - 1;
    Activates(steps, n, turnID) || (IsActive(steps[..n], turnID) && !Deactivates(steps, n, turnID))
  }

  ghost predicate LastActivated(steps: seq<Step>, i: nat, turnID: string) {
    && i < |steps| && Activates(steps, i, turnID)
    && forall j: nat | i < j < |steps| :: !Deactivates(steps, j, turnID)
  }

  /** That is, the last Register that found no kept result was this turn's, and nothing has
      ended the turn since. */
  lemma {:induction false} ActiveMeansLastActivated(steps: seq<Step>, turnID: string)
    requires turnID != ""
    ensures IsActive(steps, turnID) <==> exists i: nat :: LastActivated(steps, i, turnID)
  {
    if steps != [] {
      var init, n := steps[..|steps| - 1], |steps| - 1;
      ActiveMeansLastActivated(init, turnID);
      assert forall i: nat | i < n :: init[..i] == steps[..i];
      assert forall j: nat | j < n :: Deactivates(init, j, turnID) == Deactivates(steps, j, turnID);
      assert forall j: nat | j < n :: Activates(init, j, turnID) == Activates(steps, j, turnID);
      if Activates(steps, n, turnID) {
        assert LastActivated(steps, n, turnID);
      }
      if i: nat :| LastActivated(init, i, turnID) && !Deactivates(steps, n, turnID) {
        assert LastActivated(steps, i, turnID);
      }
      if i: nat :| LastActivated(steps, i, turnID) && i < n {
        assert LastActivated(init, i, turnID);
      }
    }
  }

  /** What the table says of one turn. */
  ghost predicate Agrees(s: State, steps: seq<Step>, turnID: string) {
    && (turnID in s.table.waiters <==> WaitsOn(steps, turnID).Some?)
    && (turnID in s.table.waiters ==> s.table.waiters[turnID] == WaitsOn(steps, turnID).value)
    && (turnID in s.table.pending <==> Kept(steps, turnID).Some?)
    && (turnID in s.table.pending ==> s.table.pending[turnID] == Kept(steps, turnID).value)
    && (turnID != "" ==> (s.table.active == turnID <==> IsActive(steps, turnID)))
    && |s.channels| == Made(steps)
  }

  /** The table says of every turn what the steps say. */
  lemma {:induction false} TableFollows(steps: seq<Step>, turnID: string)
    requires Possible(steps)
    ensures Agrees(After(steps), steps, turnID)
  {
    if steps != [] {
      var init, step := steps[..|steps| - 1], steps[|steps| - 1];
      AlwaysInvariant(init);
      TableFollows(init, turnID);
      if step.Register? {
        TableFollows(init, step.turnID);
        RegisterAgrees(After(init), steps, turnID);
      } else if step.Notify? || step.NotifyActive? {
        NotifyAgrees(After(init), steps, turnID);
      } else {
        RestAgrees(After(init), steps, turnID);
      }
    }
  }

  lemma {:induction false} RegisterAgrees(s: State, steps: seq<Step>, turnID: string)
    requires steps != [] && steps[|steps| - 1].Register? && Invariant(s) && Enabled(s, steps[|steps| - 1])
    requires Agrees(s, steps[..|steps| - 1], turnID) && Agrees(s, steps[..|steps| - 1], steps[|steps| - 1].turnID)
    ensures Agrees(Apply(s, steps[|steps| - 1]), steps, turnID)
  {
  }

  lemma {:induction false} NotifyAgrees(s: State, steps: seq<Step>, turnID: string)
    requires steps != [] && Invariant(s) && Enabled(s, steps[|steps| - 1])
    requires steps[|steps| - 1].Notify? || steps[|steps| - 1].NotifyActive?
    requires Agrees(s, steps[..|steps| - 1], turnID)
    ensures Agrees(Apply(s, steps[|steps| - 1]), steps, turnID)
  {
  }

  lemma {:induction false} RestAgrees(s: State, steps: seq<Step>, turnID: string)
    requires steps != [] && Invariant(s) && Enabled(s, steps[|steps| - 1])
    requires !steps[|steps| - 1].Register? && !steps[|steps| - 1].Notify? && !steps[|steps| - 1].NotifyActive?
    requires Agrees(s, steps[..|steps| - 1], turnID)
    ensures Agrees(Apply(s, steps[|steps| - 1]), steps, turnID)
  {
  }

  /** The active turn, exactly. */
  lemma {:induction false} ActiveExactlyWhenLastRegistered(steps: seq<Step>, turnID: string)
    requires Possible(steps) && turnID != ""
    ensures After(steps).table.active == turnID <==> IsActive(steps, turnID)
    ensures After(steps).table.active == turnID <==> exists i: nat :: LastActivated(steps, i, turnID)
    ensures IsActive(steps, turnID) ==> WaitsOn(steps, turnID).Some?
  {
    TableFollows(steps, turnID);
    ActiveMeansLastActivated(steps, turnID);
    AlwaysInvariant(steps);
  }

  /** What an active turn's handler is to receive of an error that named no turn. */
  ghost predicate ToldTo(result: TurnResult, turnID: string, received: TurnResult) {
    && received.turnID == turnID && received.threadID == result.threadID && received.message == result.message
    && (result.err.None? ==> received.err.None?)
    && (result.err.Some? && result.err.value.MissingAgentMessage? ==> received.err == result.err)
    && (result.err.Some? && result.err.value.Notification? ==>
          var e := result.err.value;
          received.err == Some(Notification(e.threadID, turnID, e.message, e.willRetry, e.details)))
  }

  /** An error that names no turn reaches the active turn's handler, whatever else goes on: once
      the goroutines have finished, the channel its Register handed out holds the error,
      addressed to the turn, and is closed. */
  lemma {:induction false} ErrorReachesActiveTurn(steps: seq<Step>, thread: nat, result: TurnResult, more: seq<Step>, turnID: string)
    requires Possible(steps + [NotifyActive(thread, result)] + more) && Possible(steps)
    requires IsActive(steps, turnID)
    requires After(steps + [NotifyActive(thread, result)] + more).threads == map[]
    ensures WaitsOn(steps, turnID).Some?
    ensures
      var s, ch := After(steps + [NotifyActive(thread, result)] + more), WaitsOn(steps, turnID).value;
      && ch < |s.channels| && s.channels[ch].turnID == turnID && s.channels[ch].closes == 1
      && |s.channels[ch].sent| == 1 && ToldTo(result, turnID, s.channels[ch].sent[0])
  {
    var told := steps + [NotifyActive(thread, result)];
    ActiveExactlyWhenLastRegistered(steps, turnID);
    TableFollows(steps, turnID);
    AlwaysInvariant(steps);
    PossiblePrefix(told, more);
    assert told[..|told| - 1] == steps && told[|told| - 1] == NotifyActive(thread, result);
    var s, ch := After(steps), WaitsOn(steps, turnID).value;
    var received := Addressed(result, turnID);
    assert After(told) == Apply(s, NotifyActive(thread, result));
    assert After(told).threads[thread] == Delivery(ch, received, false);
    StaysDelivered(told, more, ch, received);
  }

  lemma {:induction false} PossiblePrefix(steps: seq<Step>, more: seq<Step>)
    requires Possible(steps + more)
    ensures Possible(steps)
    decreases |more|
  {
    if more == [] {
      assert steps + more == steps;
    } else {
      assert (steps + more)[..|steps| + |more| - 1] == steps + more[..|more| - 1];
      PossiblePrefix(steps, more[..|more| - 1]);
    }
  }

  lemma {:induction false} StaysDelivered(steps: seq<Step>, more: seq<Step>, ch: nat, result: TurnResult)
    requires Possible(steps) && Possible(steps + more)
    requires ch < |After(steps).channels| && Delivered(After(steps), ch, result)
    ensures ch < |After(steps + more).channels| && Delivered(After(steps + more), ch, result)
    ensures After(steps + more).channels[ch].turnID == After(steps).channels[ch].turnID
    decreases |more|
  {
    if more == [] {
      assert steps + more == steps;
    } else {
      var init, last := more[..|more| - 1], more[|more| - 1];
      assert (steps + more)[..|steps| + |more| - 1] == steps + init;
      StaysDelivered(steps, init, ch, result);
      AlwaysInvariant(steps + init);
      DeliveryKept(After(steps + init), last, ch, result);
    }
  }

  /** How often something was received on a channel. */
  function Receives(steps: seq<Step>, ch: nat): nat {
    if steps == [] then 0 else Receives(steps[..|steps| - 1], ch) + if steps[|steps| - 1] == Receive(ch) then 1 else 0
  }

  lemma {:induction false} ReceivesStep(s: State, step: Step, ch: nat)
    requires Enabled(s, step) && ch < |Apply(s, step).channels|
    ensures
      var received := if ch < |s.channels| then s.channels[ch].received else 0;
      Apply(s, step).channels[ch].received == received + if step == Receive(ch) then 1 else 0
  {
  }

  /** A channel's result is received at most once, and only after it was sent. */
  lemma {:induction false} ReceivedOnce(steps: seq<Step>, ch: nat)
    requires Possible(steps)
    ensures ch < |After(steps).channels| ==>
      After(steps).channels[ch].received == Receives(steps, ch) <= |After(steps).channels[ch].sent| <= 1
    ensures ch >= |After(steps).channels| ==> Receives(steps, ch) == 0
  {
    AlwaysInvariant(steps);
    if steps != [] {
      ReceivedOnce(steps[..|steps| - 1], ch);
      if ch < |After(steps).channels| {
        ReceivesStep(After(steps[..|steps| - 1]), steps[|steps| - 1], ch);
      }
    }
  }
}
