// Subscriber.Run (internal/subscriber/subscriber.go) and Daemon.Run's inbox loop
// (internal/daemon/daemon.go) as loops over their own variables, under any schedule. A
// schedule is a run of the protocol: the other goroutines' steps are taken as they come, and
// the loop's own steps say what the outside answered where the loop waits for it. Each loop is
// proved to be where the protocol says it is, whatever the schedule.

module WakeLoops {
  import opened WakeProtocol
  import WakeHistory

  /** The states a schedule goes through. */
  ghost predicate Traces(schedule: seq<Step>, trace: seq<State>)
    decreases |schedule|
  {
    && |trace| == |schedule| + 1
    && (schedule != [] ==>
          && Enabled(trace[0], schedule[0]) && trace[1] == Apply(trace[0], schedule[0])
          && Traces(schedule[1..], trace[1..]))
  }

  lemma {:induction false} TraceOf(s: State, schedule: seq<Step>) returns (trace: seq<State>)
    requires Possible(s, schedule)
    ensures Traces(schedule, trace) && |trace| == |schedule| + 1 && trace[0] == s && trace[|schedule|] == After(s, schedule)
    decreases |schedule|
  {
    trace := [s];
    if schedule != [] {
      var rest := TraceOf(Apply(s, schedule[0]), schedule[1..]);
      trace := trace + rest;
      assert trace[1..] == rest;
    }
  }

  lemma {:induction false} TraceStep(schedule: seq<Step>, trace: seq<State>, i: nat)
    requires i < |schedule| && Traces(schedule, trace)
    ensures |trace| == |schedule| + 1 && Enabled(trace[i], schedule[i]) && trace[i + 1] == Apply(trace[i], schedule[i])
    decreases i
  {
    if i > 0 { TraceStep(schedule[1..], trace[1..], i - 1); }
  }

  /** What each place in the subscriber's loop can lead to. */
  ghost predicate SubMoves(s: State, step: Step, next: State) {
    match s.sub.phase
    case Unstarted => next == s.(sub := NewAttempt(s.sub))
    case Opening =>
      if step.SubscribeFail? then next == s.(sub := s.sub.(phase := BackingOff))
      else next == s.(sub := Subscribed(s.sub, s.clock.Drift()))
    case Opened => next == s.(wake := s.wake || s.sub.reopened, sub := s.sub.(phase := Receiving, reopened := true))
    case Receiving =>
      if step.RecvFail? then next == s.(sub := Broken(s.sub))
      else s.sub.stream.Open() && s.sub.stream.queue != [] && next == s.(sub := Received(s.sub))
    case Signalling => next == s.(wake := true, sub := s.sub.(phase := Receiving))
    case BackingOff => next == s.(sub := WaitedOut(s.sub))
  }

  lemma {:induction false} SubMove(schedule: seq<Step>, trace: seq<State>, i: nat)
    requires i < |schedule| && Traces(schedule, trace) && SubStep(schedule[i])
    ensures |trace| == |schedule| + 1 && SubMoves(trace[i], schedule[i], trace[i + 1])
  {
    TraceStep(schedule, trace, i);
  }

  /** What each place in Run's loop can lead to. */
  ghost predicate RunMoves(s: State, step: Step, next: State) {
    match s.run.phase
    case Starting => next == s.(run := s.run.(phase := Taken))
    case Waiting => step.TakeWakeSync? || step.TakeWake? || step.TakeRetry?
    case Stopped => false
    case _ =>
      || step.FetchInbox? || step.ItemAcked?
      || (step.SyncDone? && next == s.(run := SyncEnded(s.run, Done)))
      || (step.SyncFail? && next == s.(run := SyncEnded(s.run, if step.terminal then Terminal else Failed)))
  }

  lemma {:induction false} RunMove(schedule: seq<Step>, trace: seq<State>, i: nat)
    requires i < |schedule| && Traces(schedule, trace) && RunStep(schedule[i])
    ensures |trace| == |schedule| + 1 && RunMoves(trace[i], schedule[i], trace[i + 1])
  {
    TraceStep(schedule, trace, i);
  }

  class SubscriberLoop {
    // Where the loop stands, and its variables.
    var phase: SubPhase
    var backoff: int
    var reopened: bool
    // The attempt's context, ended by Resubscribe; its stream; the wake channel.
    var dropped: bool
    var stream: Stream
    var born: int
    var wake: bool
    // Everything else.
    var rest: State

    function View(): State
      reads this
    {
      rest.(wake := wake, sub := Subscriber(phase, stream, backoff, reopened, dropped, born))
    }

    constructor (s: State)
      ensures View() == s
    {
      rest, wake := s, s.wake;
      phase, stream, backoff := s.sub.phase, s.sub.stream, s.sub.backoff;
      reopened, dropped, born := s.sub.reopened, s.sub.dropped, s.sub.born;
    }

    /** A step of somebody else's. */
    method Others(step: Step)
      requires Enabled(View(), step) && !SubStep(step)
      modifies this`rest, this`wake, this`dropped, this`stream
      ensures View() == Apply(old(View()), step)
    {
      WakeHistory.OthersLeave(View(), step);
      var next := Apply(View(), step);
      rest, wake, dropped, stream := next, next.wake, next.sub.dropped, next.sub.stream;
    }

    /** The others act until the schedule has the loop go on. */
    method Await(schedule: seq<Step>, from: nat, ghost trace: seq<State>) returns (i: nat)
      requires from <= |schedule| && Traces(schedule, trace) && |trace| == |schedule| + 1
      requires View() == trace[from]
      modifies this`rest, this`wake, this`dropped, this`stream
      ensures from <= i <= |schedule| && View() == trace[i]
      ensures i < |schedule| ==> SubMoves(View(), schedule[i], trace[i + 1])
    {
      i := from;
      while i < |schedule| && !SubStep(schedule[i])
        invariant from <= i <= |schedule| && View() == trace[i]
      {
        TraceStep(schedule, trace, i);
        Others(schedule[i]);
        i := i + 1;
      }
      if i < |schedule| { SubMove(schedule, trace, i); }
    }

    method SignalWake()
      modifies this`wake
      ensures View() == old(View()).(wake := true)
    {
      if !wake {
        wake := true;
      }
    }

    /** A new attempt, with a context of its own. */
    method BeginAttempt()
      modifies this`phase, this`dropped
      ensures View() == old(View()).(sub := NewAttempt(old(View()).sub))
    {
      phase, dropped := Opening, false;
    }

    /** Subscribe failed. */
    method SubscribeFailed()
      modifies this`phase
      ensures View() == old(View()).(sub := old(View()).sub.(phase := BackingOff)) && phase.BackingOff?
    {
      phase := BackingOff;
    }

    /** Subscribe returned a stream. */
    method StreamOpened()
      modifies this`phase, this`stream, this`born, this`backoff
      ensures View() == old(View()).(sub := Subscribed(old(View()).sub, rest.clock.Drift())) && phase.Opened?
    {
      stream, born := Live([]), rest.clock.Drift();
      backoff := MIN_BACKOFF;
      phase := Opened;
    }

    /** The signal for what a stream that was down did not announce. */
    method SignalReopening()
      modifies this`phase, this`reopened, this`wake
      ensures
        var s := old(View());
        View() == s.(wake := s.wake || s.sub.reopened, sub := s.sub.(phase := Receiving, reopened := true))
    {
      if reopened {
        SignalWake();
      }
      reopened := true;
      phase := Receiving;
    }

    /** Recv returned an envelope; created says it is one to wake for. */
    method TakeNotice() returns (created: bool)
      requires stream.Open() && stream.queue != [] && phase.Receiving?
      modifies this`stream, this`phase
      ensures View() == old(View()).(sub := Received(old(View()).sub))
      ensures created <==> phase.Signalling?
      ensures !created ==> phase.Receiving?
    {
      var notice := stream.queue[0];
      stream := if stream.Live? then Live(stream.queue[1..]) else Dead(stream.queue[1..]);
      created := notice.Created?;
      if created {
        phase := Signalling;
      }
    }

    method SignalNotice()
      modifies this`phase, this`wake
      ensures View() == old(View()).(wake := true, sub := old(View()).sub.(phase := Receiving))
    {
      SignalWake();
      phase := Receiving;
    }

    /** Recv failed: the loop's own drop, or a failure to wait out. */
    method StreamFailed()
      modifies this`stream, this`phase, this`dropped
      ensures View() == old(View()).(sub := Broken(old(View()).sub))
      ensures phase.Opening? || phase.BackingOff?
    {
      stream := Down;
      if dropped {
        BeginAttempt();
      } else {
        phase := BackingOff;
      }
    }

    /** The wait is over; the next failure waits longer, unless this wait was cut short. */
    method WaitOut(schedule: seq<Step>, from: nat, ghost trace: seq<State>) returns (i: nat)
      requires from <= |schedule| && Traces(schedule, trace) && |trace| == |schedule| + 1
      requires View() == trace[from] && phase.BackingOff?
      modifies this
      ensures from <= i <= |schedule| && View() == trace[i]
      ensures i < |schedule| ==> from < i
      ensures phase.Opening? || i == |schedule|
    {
      i := Await(schedule, from, trace);
      if i < |schedule| {
        backoff := if dropped then MIN_BACKOFF else NextBackoff(backoff);
        BeginAttempt();
        i := i + 1;
      }
    }

    /** The receiving loop, up to the end of the attempt or of the schedule. */
    method ReceiveAll(schedule: seq<Step>, from: nat, ghost trace: seq<State>) returns (i: nat)
      requires from <= |schedule| && Traces(schedule, trace) && |trace| == |schedule| + 1
      requires View() == trace[from] && phase.Receiving?
      modifies this
      ensures from <= i <= |schedule| && View() == trace[i]
      ensures phase.Opening? || i == |schedule|
    {
      i := from;
      while true
        invariant from <= i <= |schedule| && View() == trace[i] && phase.Receiving?
        decreases |schedule| - i
      {
        i := Await(schedule, i, trace);
        if i == |schedule| {
          return;
        }
        if schedule[i].RecvFail? {
          StreamFailed();
          i := i + 1;
          if phase.BackingOff? {
            i := WaitOut(schedule, i, trace);
          }
          return;
        }
        var created := TakeNotice();
        i := i + 1;
        if created {
          i := Await(schedule, i, trace);
          if i == |schedule| {
            return;
          }
          SignalNotice();
          i := i + 1;
        }
      }
    }

    /** One attempt at a stream: its opening, what is received on it, its end. */
    method Attempt(schedule: seq<Step>, from: nat, ghost trace: seq<State>) returns (i: nat)
      requires from <= |schedule| && Traces(schedule, trace) && |trace| == |schedule| + 1
      requires View() == trace[from] && phase.Opening?
      modifies this
      ensures from <= i <= |schedule| && View() == trace[i]
      ensures i == |schedule| || (from < i && phase.Opening?)
    {
      i := Await(schedule, from, trace);
      if i == |schedule| {
        return;
      }
      if schedule[i].SubscribeFail? {
        SubscribeFailed();
        i := WaitOut(schedule, i + 1, trace);
        return;
      }
      StreamOpened();
      i := UseStream(schedule, i + 1, trace);
    }

    /** An attempt once it has its stream. */
    method UseStream(schedule: seq<Step>, from: nat, ghost trace: seq<State>) returns (i: nat)
      requires from <= |schedule| && Traces(schedule, trace) && |trace| == |schedule| + 1
      requires View() == trace[from] && phase.Opened?
      modifies this
      ensures from <= i <= |schedule| && View() == trace[i]
      ensures phase.Opening? || i == |schedule|
    {
      i := Await(schedule, from, trace);
      if i < |schedule| {
        SignalReopening();
        i := ReceiveAll(schedule, i + 1, trace);
      }
    }

    method Run(schedule: seq<Step>)
      requires phase.Unstarted? && backoff == MIN_BACKOFF && !reopened && Possible(View(), schedule)
      modifies this
      ensures View() == After(old(View()), schedule)
    {
      ghost var trace := TraceOf(View(), schedule);
      var i := Await(schedule, 0, trace);
      if i < |schedule| {
        BeginAttempt();
        i := i + 1;
      }
      while i < |schedule|
        invariant 0 <= i <= |schedule| && View() == trace[i]
        invariant i < |schedule| ==> phase.Opening?
        decreases |schedule| - i
      {
        i := Attempt(schedule, i, trace);
      }
    }
  }

  class InboxLoop {
    // Where the loop stands, and its variables: the retry timer and the backoff.
    var phase: RunPhase
    var retry: bool
    var backoff: int
    // The two channels it selects over besides the timer's.
    var wake: bool
    var wakeSync: bool
    // Everything else.
    var rest: State

    function View(): State
      reads this
    {
      rest.(wake := wake, wakeSync := wakeSync, run := Runner(phase, retry, backoff))
    }

    constructor (s: State)
      ensures View() == s
    {
      rest, wake, wakeSync := s, s.wake, s.wakeSync;
      phase, retry, backoff := s.run.phase, s.run.retry, s.run.backoff;
    }

    /** A step of somebody else's. */
    method Others(step: Step)
      requires Enabled(View(), step) && !RunStep(step)
      modifies this`rest, this`wake, this`wakeSync
      ensures View() == Apply(old(View()), step)
    {
      var next := Apply(View(), step);
      rest, wake, wakeSync := next, next.wake, next.wakeSync;
    }

    /** The others act until the schedule has the loop go on. */
    method Await(schedule: seq<Step>, from: nat, ghost trace: seq<State>) returns (i: nat)
      requires from <= |schedule| && Traces(schedule, trace) && |trace| == |schedule| + 1
      requires View() == trace[from]
      modifies this`rest, this`wake, this`wakeSync
      ensures from <= i <= |schedule| && View() == trace[i]
      ensures i < |schedule| ==> RunMoves(View(), schedule[i], trace[i + 1])
    {
      i := from;
      while i < |schedule| && !RunStep(schedule[i])
        invariant from <= i <= |schedule| && View() == trace[i]
      {
        TraceStep(schedule, trace, i);
        Others(schedule[i]);
        i := i + 1;
      }
      if i < |schedule| { RunMove(schedule, trace, i); }
    }

    method ClearRetry()
      modifies this`retry, this`backoff
      ensures !retry && backoff == MIN_BACKOFF
    {
      retry := false;
      backoff := MIN_BACKOFF;
    }

    method ScheduleFailureRetry() returns (delay: int)
      modifies this`retry, this`backoff
      ensures delay == old(backoff) && retry && backoff == NextBackoff(old(backoff))
    {
      delay := backoff;
      backoff := NextBackoff(backoff);
      retry := true;
    }

    /** What syncInbox makes of syncMessages' error, or of none. */
    method SyncReturned(outcome: SyncOutcome)
      modifies this`phase, this`retry, this`backoff
      ensures View() == old(View()).(run := SyncEnded(old(View()).run, outcome))
    {
      match outcome {
        case Done =>
          ClearRetry();
          phase := Waiting;
        case Failed =>
          var _ := ScheduleFailureRetry();
          phase := Waiting;
        case Terminal =>
          phase := Stopped;
      }
    }

    /** Something syncMessages does: read the inbox, have an item acked. */
    method SyncWorks(step: Step)
      requires Enabled(View(), step) && (step.FetchInbox? || step.ItemAcked?)
      modifies this`rest, this`phase
      ensures View() == Apply(old(View()), step) && phase.Syncing?
    {
      var next := Apply(View(), step);
      rest, phase := next, next.run.phase;
    }

    /** syncInbox: syncMessages works through the inbox and returns. */
    method SyncInbox(schedule: seq<Step>, from: nat, ghost trace: seq<State>) returns (i: nat)
      requires from <= |schedule| && Traces(schedule, trace) && |trace| == |schedule| + 1
      requires View() == trace[from] && (phase.Taken? || phase.Syncing?)
      modifies this
      ensures from <= i <= |schedule| && View() == trace[i]
      ensures i < |schedule| ==> from < i && (phase.Waiting? || phase.Stopped?)
    {
      i := Await(schedule, from, trace);
      while i < |schedule| && (schedule[i].FetchInbox? || schedule[i].ItemAcked?)
        invariant from <= i <= |schedule| && View() == trace[i] && (phase.Taken? || phase.Syncing?)
        invariant i < |schedule| ==> RunMoves(View(), schedule[i], trace[i + 1])
      {
        TraceStep(schedule, trace, i);
        SyncWorks(schedule[i]);
        i := Await(schedule, i + 1, trace);
      }
      if i < |schedule| {
        SyncReturned(if schedule[i].SyncDone? then Done else if schedule[i].terminal then Terminal else Failed);
        i := i + 1;
      }
    }

    /** The select: a token is taken, or the timer's. */
    method Select(step: Step)
      requires step.TakeWakeSync? || step.TakeWake? || step.TakeRetry?
      requires Enabled(View(), step)
      modifies this`phase, this`retry, this`wake, this`wakeSync
      ensures View() == Apply(old(View()), step) && phase.Taken?
    {
      match step {
        case TakeWakeSync => wakeSync := false;
        case TakeWake => wake := false;
        case TakeRetry => retry := false;
      }
      phase := Taken;
    }

    /** One turn of the loop: a select and the sync it leads to. */
    method Serve(schedule: seq<Step>, from: nat, ghost trace: seq<State>) returns (i: nat)
      requires from <= |schedule| && Traces(schedule, trace) && |trace| == |schedule| + 1
      requires View() == trace[from] && phase.Waiting?
      modifies this
      ensures from <= i <= |schedule| && View() == trace[i]
      ensures i < |schedule| ==> from < i && (phase.Waiting? || phase.Stopped?)
    {
      i := Await(schedule, from, trace);
      if i < |schedule| {
        TraceStep(schedule, trace, i);
        Select(schedule[i]);
        i := SyncInbox(schedule, i + 1, trace);
      }
    }

    /** failed says Run returned an error: a sync ended in a terminal one. */
    method Run(schedule: seq<Step>) returns (failed: bool)
      requires phase.Starting? && !retry && backoff == MIN_BACKOFF && Possible(View(), schedule)
      modifies this
      ensures View() == After(old(View()), schedule)
      ensures failed <==> phase.Stopped?
    {
      ghost var trace := TraceOf(View(), schedule);
      var i := Await(schedule, 0, trace);
      if i < |schedule| {
        phase := Taken;
        i := SyncInbox(schedule, i + 1, trace);
      }
      while i < |schedule| && !phase.Stopped?
        invariant 0 <= i <= |schedule| && View() == trace[i]
        invariant i < |schedule| ==> phase.Waiting? || phase.Stopped?
        decreases |schedule| - i
      {
        i := Serve(schedule, i, trace);
      }
      // Once Run has returned only the others act.
      i := Await(schedule, i, trace);
      failed := phase.Stopped?;
    }
  }
}
