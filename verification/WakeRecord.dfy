// What is outstanding, pending and slept in a run, from its steps alone.

module WakeRecord {
  // internal/daemon/daemon.go:554-614, internal/daemon/keepalive.go,
  // internal/subscriber/subscriber.go.

  import opened Clocks
  import opened WakeProtocol
  import WakeHistory

  /** The items that have arrived and have not been acked. */
  function Outstanding(inbox: set<Item>, steps: seq<Step>): set<Item> {
    if steps == [] then inbox
    else
      var before := Outstanding(inbox, steps[..|steps| - 1]);
      match steps[|steps| - 1]
      case Arrive(item) => before + {item}
      case ItemAcked(item) => before - {item}
      case _ => before
  }

  function Arrivals(inbox: set<Item>, steps: seq<Step>): set<Item> {
    if steps == [] then inbox
    else Arrivals(inbox, steps[..|steps| - 1]) + if steps[|steps| - 1].Arrive? then {steps[|steps| - 1].item} else {}
  }

  predicate Subscribed(steps: seq<Step>) {
    steps != [] && (steps[|steps| - 1].SubscribeOk? || Subscribed(steps[..|steps| - 1]))
  }

  /** The items a read of the inbox has covered, and those that arrived once there was a stream. */
  function Promised(inbox: set<Item>, steps: seq<Step>): set<Item> {
    if steps == [] then {}
    else
      var init := steps[..|steps| - 1];
      match steps[|steps| - 1]
      case Arrive(item) => Promised(inbox, init) + if Subscribed(init) then {item} else {}
      case FetchInbox => Promised(inbox, init) + Outstanding(inbox, init)
      case _ => Promised(inbox, init)
  }

  /** What the last read of the inbox found and has not been acked since. */
  function ToDo(inbox: set<Item>, steps: seq<Step>): set<Item> {
    if steps == [] then {}
    else
      var init := steps[..|steps| - 1];
      match steps[|steps| - 1]
      case FetchInbox => Outstanding(inbox, init)
      case ItemAcked(item) => ToDo(inbox, init) - {item}
      case _ => ToDo(inbox, init)
  }

  /** The subscriber has signalled since Run last took its token: an item's creation, or a stream
      opened that was not the first. */
  predicate WakePending(steps: seq<Step>) {
    steps != [] &&
    var init := steps[..|steps| - 1];
    match steps[|steps| - 1]
    case SignalRecv => true
    case SignalOpen => WakePending(init) || WakeHistory.OpenedBefore(init)
    case TakeWake => false
    case _ => WakePending(init)
  }

  /** The keepalive loop has asked for a read since Run last took its token. */
  predicate AskPending(steps: seq<Step>) {
    steps != [] &&
    match steps[|steps| - 1]
    case KeepAsk => true
    case TakeWakeSync => false
    case _ => AskPending(steps[..|steps| - 1])
  }

  /** The runner has signalled since the keepalive loop last took it. */
  predicate SignalPending(steps: seq<Step>) {
    steps != [] &&
    match steps[|steps| - 1]
    case RunnerSignal => true
    case KeepSignal => false
    case _ => SignalPending(steps[..|steps| - 1])
  }

  /** A sync has failed since the last one that was retried or went through. */
  predicate RetryPending(steps: seq<Step>) {
    steps != [] &&
    match steps[|steps| - 1]
    case SyncFail(terminal) => !terminal || RetryPending(steps[..|steps| - 1])
    case SyncDone => false
    case TakeRetry => false
    case _ => RetryPending(steps[..|steps| - 1])
  }

  function Slept(steps: seq<Step>): int {
    if steps == [] then 0
    else Slept(steps[..|steps| - 1]) + if steps[|steps| - 1].Freeze? then steps[|steps| - 1].length else 0
  }

  function Ran(steps: seq<Step>): int {
    if steps == [] then 0
    else Ran(steps[..|steps| - 1]) + if steps[|steps| - 1].Elapse? then steps[|steps| - 1].length else 0
  }

  /** The last thing Run did. */
  function LastOfRun(steps: seq<Step>): (last: Step)
    ensures last == Chatter || RunStep(last)
  {
    if steps == [] then Chatter
    else if RunStep(steps[|steps| - 1]) then steps[|steps| - 1]
    else LastOfRun(steps[..|steps| - 1])
  }

  /** Where Run stands after that. */
  ghost predicate RunStands(run: Runner, last: Step, todo: set<Item>) {
    match last
    case Chatter => run.phase.Starting?
    case FetchInbox => run.phase == Syncing(todo)
    case ItemAcked(_) => run.phase == Syncing(todo)
    case SyncDone => run.phase.Waiting?
    case SyncFail(terminal) => if terminal then run.phase.Stopped? else run.phase.Waiting?
    case _ => run.phase.Taken?
  }

  // ---- One step ----

  predicate ItemsChange(s: State, step: Step, s': State) {
    && s'.unacked == (match step case Arrive(item) => s.unacked + {item} case ItemAcked(item) => s.unacked - {item} case _ => s.unacked)
    && s'.known == (if step.Arrive? then s.known + {step.item} else s.known)
    && s'.tracked ==
         (match step
          case Arrive(item) => if s.sub.stream.Unopened? then s.tracked else s.tracked + {item}
          case FetchInbox => s.tracked + s.unacked
          case _ => s.tracked)
  }

  predicate TokensChange(s: State, step: Step, s': State) {
    && s'.wake == (match step case SignalRecv => true case SignalOpen => s.wake || s.sub.reopened case TakeWake => false case _ => s.wake)
    && s'.wakeSync == (match step case KeepAsk => true case TakeWakeSync => false case _ => s.wakeSync)
    && s'.signal == (match step case RunnerSignal => true case KeepSignal => false case _ => s.signal)
  }

  predicate ClockChange(s: State, step: Step, s': State) {
    && s'.clock.wall == s.clock.wall + (match step case Freeze(n, _) => n case Elapse(n) => n case _ => 0)
    && s'.clock.mono == s.clock.mono + if step.Elapse? then step.length else 0
  }

  lemma {:induction false} WorldChange(s: State, step: Step)
    requires Enabled(s, step) && WorldStep(step)
    ensures var s' := ApplyWorld(s, step); ItemsChange(s, step, s') && TokensChange(s, step, s') && ClockChange(s, step, s')
  {
  }

  lemma {:induction false} SubChange(s: State, step: Step)
    requires Enabled(s, step) && SubStep(step)
    ensures var s' := ApplySub(s, step); ItemsChange(s, step, s') && TokensChange(s, step, s') && ClockChange(s, step, s')
  {
  }

  lemma {:induction false} RunChange(s: State, step: Step)
    requires Enabled(s, step) && RunStep(step)
    ensures var s' := ApplyRun(s, step); ItemsChange(s, step, s') && TokensChange(s, step, s') && ClockChange(s, step, s')
  {
  }

  lemma {:induction false} KeepChange(s: State, step: Step)
    requires Enabled(s, step) && !WorldStep(step) && !SubStep(step) && !RunStep(step)
    ensures var s' := ApplyKeep(s, step); ItemsChange(s, step, s') && TokensChange(s, step, s') && ClockChange(s, step, s')
  {
  }

  lemma {:induction false} StepChanges(s: State, step: Step)
    requires Enabled(s, step)
    ensures var s' := Apply(s, step); ItemsChange(s, step, s') && TokensChange(s, step, s') && ClockChange(s, step, s')
  {
    if WorldStep(step) {
      WorldChange(s, step);
    } else if SubStep(step) {
      SubChange(s, step);
    } else if RunStep(step) {
      RunChange(s, step);
    } else {
      KeepChange(s, step);
    }
  }

  lemma {:induction false} StreamStep(s: State, step: Step)
    requires Enabled(s, step)
    ensures Apply(s, step).sub.stream.Unopened? ==> s.sub.stream.Unopened? && !step.SubscribeOk?
    ensures s.sub.stream.Unopened? && !step.SubscribeOk? && !step.RecvFail? ==> Apply(s, step).sub.stream.Unopened?
  {
    if !SubStep(step) { WakeHistory.OthersLeave(s, step); }
  }

  lemma {:induction false} RunnerStep(s: State, step: Step, last: Step, todo: set<Item>)
    requires Enabled(s, step) && RunStands(s.run, last, todo) && (last == Chatter || RunStep(last))
    ensures
      var todo' := match step case FetchInbox => s.unacked case ItemAcked(item) => todo - {item} case _ => todo;
      RunStands(Apply(s, step).run, if RunStep(step) then step else last, todo')
    ensures Apply(s, step).run.retry ==
      match step
      case SyncFail(terminal) => !terminal || s.run.retry
      case SyncDone => false
      case TakeRetry => false
      case _ => s.run.retry
  {
    if !RunStep(step) {
      OthersLeaveRun(s, step);
    }
  }

  // ---- Whole runs ----

  /** What the inbox owes, from the steps alone. */
  lemma {:induction false} ItemsFollow(inbox: set<Item>, at: Reading, steps: seq<Step>)
    requires Possible(Init(inbox, at), steps)
    ensures
      var s := After(Init(inbox, at), steps);
      && s.unacked == Outstanding(inbox, steps) && s.known == Arrivals(inbox, steps) && s.tracked == Promised(inbox, steps)
      && (s.sub.stream.Unopened? <==> !Subscribed(steps))
  {
    if steps != [] {
      var init, last := steps[..|steps| - 1], steps[|steps| - 1];
      AfterLast(Init(inbox, at), steps);
      ItemsFollow(inbox, at, init);
      var before := After(Init(inbox, at), init);
      InitInvariant(inbox, at);
      AlwaysInvariant(Init(inbox, at), init);
      StepChanges(before, last);
      StreamStep(before, last);
    }
  }

  /** Each token is pending exactly when it was left and has not been taken since: nothing else
      makes Run read, and no cause is forgotten. */
  lemma {:induction false} TokensFollow(inbox: set<Item>, at: Reading, steps: seq<Step>)
    requires Possible(Init(inbox, at), steps)
    ensures
      var s := After(Init(inbox, at), steps);
      (s.wake <==> WakePending(steps)) && (s.wakeSync <==> AskPending(steps)) && (s.signal <==> SignalPending(steps))
  {
    if steps != [] {
      var init, last := steps[..|steps| - 1], steps[|steps| - 1];
      AfterLast(Init(inbox, at), steps);
      TokensFollow(inbox, at, init);
      WakeHistory.ReopeningSignals(inbox, at, init);
      StepChanges(After(Init(inbox, at), init), last);
    }
  }

  /** Where Run stands, what its sync has left to do, and whether a retry is pending. */
  lemma {:induction false} RunFollows(inbox: set<Item>, at: Reading, steps: seq<Step>)
    requires Possible(Init(inbox, at), steps)
    ensures
      var run := After(Init(inbox, at), steps).run;
      (run.retry <==> RetryPending(steps)) && RunStands(run, LastOfRun(steps), ToDo(inbox, steps))
  {
    if steps != [] {
      var init, last := steps[..|steps| - 1], steps[|steps| - 1];
      AfterLast(Init(inbox, at), steps);
      RunFollows(inbox, at, init);
      ItemsFollow(inbox, at, init);
      RunnerStep(After(Init(inbox, at), init), last, LastOfRun(init), ToDo(inbox, init));
    }
  }

  /** The clocks: the wall clock has gone on through running and sleep, the monotonic one through
      running alone. */
  lemma {:induction false} ClocksFollow(inbox: set<Item>, at: Reading, steps: seq<Step>)
    requires Possible(Init(inbox, at), steps)
    ensures After(Init(inbox, at), steps).clock == Reading(at.wall + Ran(steps) + Slept(steps), at.mono + Ran(steps))
  {
    if steps != [] {
      var init := steps[..|steps| - 1];
      AfterLast(Init(inbox, at), steps);
      ClocksFollow(inbox, at, init);
      StepChanges(After(Init(inbox, at), init), steps[|steps| - 1]);
    }
  }

  /** What was announced on the stream since it opened, and how much of it was received. */
  function Told(steps: seq<Step>): seq<Notice> {
    if steps == [] then []
    else
      match steps[|steps| - 1]
      case SubscribeOk => []
      case Arrive(item) => Told(steps[..|steps| - 1]) + [Created(item)]
      case Chatter => Told(steps[..|steps| - 1]) + [Skipped]
      case _ => Told(steps[..|steps| - 1])
  }

  function ReceivedOf(steps: seq<Step>): nat {
    if steps == [] then 0
    else
      match steps[|steps| - 1]
      case SubscribeOk => 0
      case Recv => ReceivedOf(steps[..|steps| - 1]) + 1
      case _ => ReceivedOf(steps[..|steps| - 1])
  }

  /** A live stream holds all that was announced on it and not received yet; a lost one, a part
      of that from its start. */
  ghost predicate StreamHolds(stream: Stream, told: seq<Notice>, received: nat) {
    && (stream.Live? ==> received <= |told| && stream.queue == told[received..])
    && (stream.Dead? ==> received <= |told| && stream.queue <= told[received..])
  }

  lemma {:induction false} WorldHolds(s: State, step: Step, told: seq<Notice>, received: nat)
    requires Enabled(s, step) && WorldStep(step) && StreamHolds(s.sub.stream, told, received)
    ensures
      var told' := match step case Arrive(item) => told + [Created(item)] case Chatter => told + [Skipped] case _ => told;
      StreamHolds(ApplyWorld(s, step).sub.stream, told', received)
  {
  }

  lemma {:induction false} SubHolds(s: State, step: Step, told: seq<Notice>, received: nat)
    requires Enabled(s, step) && SubStep(step) && StreamHolds(s.sub.stream, told, received)
    ensures StreamHolds(ApplySub(s, step).sub.stream, if step.SubscribeOk? then [] else told,
                        match step case SubscribeOk => 0 case Recv => received + 1 case _ => received)
  {
  }

  /** What is still to be received, from the steps alone. */
  lemma {:induction false} StreamFollows(inbox: set<Item>, at: Reading, steps: seq<Step>)
    requires Possible(Init(inbox, at), steps)
    ensures StreamHolds(After(Init(inbox, at), steps).sub.stream, Told(steps), ReceivedOf(steps))
  {
    if steps != [] {
      var init, last := steps[..|steps| - 1], steps[|steps| - 1];
      AfterLast(Init(inbox, at), steps);
      StreamFollows(inbox, at, init);
      var before := After(Init(inbox, at), init);
      if WorldStep(last) {
        WorldHolds(before, last, Told(init), ReceivedOf(init));
      } else if SubStep(last) {
        SubHolds(before, last, Told(init), ReceivedOf(init));
      } else {
        WakeHistory.OthersLeave(before, last);
        StreamLeft(before, last);
      }
    }
  }

  lemma {:induction false} StreamLeft(s: State, step: Step)
    requires Enabled(s, step) && !WorldStep(step) && !SubStep(step)
    ensures Apply(s, step).sub.stream == s.sub.stream
  {
  }

  function Count(steps: seq<Step>, chosen: Step -> bool): nat {
    if steps == [] then 0 else Count(steps[..|steps| - 1], chosen) + if chosen(steps[|steps| - 1]) then 1 else 0
  }

  /** Run begins a read, and what gives it cause to. */
  const READS: Step -> bool := (step: Step) => step.InitialSync? || step.TakeWake? || step.TakeWakeSync? || step.TakeRetry?

  const CAUSES: Step -> bool :=
    (step: Step) => step.SignalOpen? || step.SignalRecv? || step.KeepAsk? || (step.SyncFail? && !step.terminal)

  function One(b: bool): nat {
    if b then 1 else 0
  }

  /** The reads a state has causes for. */
  function Pending(s: State): nat {
    One(s.wake) + One(s.wakeSync) + One(s.run.retry) + One(s.run.phase.Starting?)
  }

  lemma {:induction false} CauseStep(s: State, step: Step)
    requires Enabled(s, step)
    ensures One(READS(step)) + Pending(Apply(s, step)) <= Pending(s) + One(CAUSES(step))
  {
    StepChanges(s, step);
    if !RunStep(step) {
      OthersLeaveRun(s, step);
    }
  }

  lemma {:induction false} OthersLeaveRun(s: State, step: Step)
    requires Enabled(s, step) && !RunStep(step)
    ensures Apply(s, step).run == s.run
  {
  }

  /** Run does not spin: it begins at most one read for each cause it was given, and one to begin
      with. */
  lemma {:induction false} NoReadWithoutCause(inbox: set<Item>, at: Reading, steps: seq<Step>)
    requires Possible(Init(inbox, at), steps)
    ensures Count(steps, READS) + Pending(After(Init(inbox, at), steps)) <= 1 + Count(steps, CAUSES)
  {
    if steps != [] {
      var init, last := steps[..|steps| - 1], steps[|steps| - 1];
      AfterLast(Init(inbox, at), steps);
      NoReadWithoutCause(inbox, at, init);
      CauseStep(After(Init(inbox, at), init), last);
    }
  }
}
