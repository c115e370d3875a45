// What the loops of the wake protocol have done, from the steps of a run.

module WakeHistory {
  // internal/subscriber/subscriber.go:43-138, internal/daemon/daemon.go:554-587.

  import opened Clocks
  import opened WakeProtocol

  /** One step of a run, and where it leads. */
  lemma {:induction false} StepAt(s: State, steps: seq<Step>, i: nat)
    requires i < |steps| && Possible(s, steps)
    ensures Possible(s, steps[..i]) && Enabled(After(s, steps[..i]), steps[i])
    ensures Possible(s, steps[..i + 1]) && After(s, steps[..i + 1]) == Apply(After(s, steps[..i]), steps[i])
    decreases |steps|
  {
    AfterLast(s, steps);
    if i + 1 < |steps| {
      var init := steps[..|steps| - 1];
      assert init[..i] == steps[..i] && init[..i + 1] == steps[..i + 1];
      StepAt(s, init, i);
    } else {
      assert steps[..i + 1] == steps;
    }
  }

  predicate Begun(steps: seq<Step>) {
    steps != [] && (steps[|steps| - 1].SubBegin? || Begun(steps[..|steps| - 1]))
  }

  /** Resubscribe has ended the attempt under way. Attempts begin when the subscriber does, when
      a wait is over, and when a stream has failed; the last of these may still be waited out. */
  predicate Dropped(steps: seq<Step>) {
    steps != [] &&
    match steps[|steps| - 1]
    case KeepDrop => Begun(steps)
    case SubBegin => false
    case WaitOver => false
    case RecvFail => false
    case _ => Dropped(steps[..|steps| - 1])
  }

  /** Nobody else changes the subscriber but for its stream, save by dropping the attempt. */
  lemma {:induction false} OthersLeave(s: State, step: Step)
    requires Enabled(s, step) && !SubStep(step)
    ensures
      var sub, sub' := s.sub, Apply(s, step).sub;
      sub' == sub.(stream := sub'.stream, dropped := sub.dropped || (step.KeepDrop? && !sub.phase.Unstarted?))
  {
    if WorldStep(step) { WorldLeaves(s, step); }
  }

  lemma {:induction false} WorldLeaves(s: State, step: Step)
    requires Enabled(s, step) && WorldStep(step)
    ensures ApplyWorld(s, step).sub == s.sub.(stream := ApplyWorld(s, step).sub.stream)
  {
  }

  lemma {:induction false} DroppedStep(s: State, step: Step)
    requires Enabled(s, step)
    ensures
      var sub, sub' := s.sub, Apply(s, step).sub;
      && (sub'.phase.Unstarted? <==> sub.phase.Unstarted? && !step.SubBegin?)
      && sub'.dropped ==
           match step
           case KeepDrop => sub.dropped || !sub.phase.Unstarted?
           case SubBegin => false
           case WaitOver => false
           case RecvFail => false
           case _ => sub.dropped
  {
    if !SubStep(step) { OthersLeave(s, step); }
  }

  lemma {:induction false} DroppedIs(inbox: set<Item>, at: Reading, steps: seq<Step>)
    requires Possible(Init(inbox, at), steps)
    ensures
      var sub := After(Init(inbox, at), steps).sub;
      (sub.dropped <==> Dropped(steps)) && (sub.phase.Unstarted? <==> !Begun(steps)) && (Dropped(steps) ==> Begun(steps))
  {
    if steps != [] {
      var init := steps[..|steps| - 1];
      AfterLast(Init(inbox, at), steps);
      DroppedIs(inbox, at, init);
      DroppedStep(After(Init(inbox, at), init), steps[|steps| - 1]);
    }
  }

  // ---- Reopening ----

  function Waits(steps: seq<Step>): nat {
    if steps == [] then 0 else Waits(steps[..|steps| - 1]) + if steps[|steps| - 1].WaitOver? then 1 else 0
  }

  predicate Tries(step: Step) {
    step.SubscribeOk? || step.SubscribeFail?
  }

  /** How often the subscriber is to wait between a failure and its next try: once, but not at
      all where it was Resubscribe that ended the stream. */
  function WaitsOwed(before: seq<Step>, failure: Step): nat {
    if failure.RecvFail? && Dropped(before) then 0 else 1
  }

  lemma {:induction false} WaitingStep(s: State, step: Step)
    requires Enabled(s, step) && !Tries(step) && (s.sub.phase.Opening? || s.sub.phase.BackingOff?)
    ensures !step.RecvFail?
    ensures Apply(s, step).sub.phase == if step.WaitOver? then Opening else s.sub.phase
    ensures step.WaitOver? ==> s.sub.phase.BackingOff?
  {
  }

  lemma {:induction false} FailureStep(s: State, step: Step)
    requires Enabled(s, step) && (step.RecvFail? || step.SubscribeFail?)
    ensures Apply(s, step).sub.phase == if step.RecvFail? && s.sub.dropped then Opening else BackingOff
  {
  }

  /** Where the subscriber stands from a failure on, until it tries again. */
  lemma {:induction false} SinceFailure(inbox: set<Item>, at: Reading, steps: seq<Step>, i: nat, k: nat)
    requires Possible(Init(inbox, at), steps) && i < k <= |steps|
    requires steps[i].RecvFail? || steps[i].SubscribeFail?
    requires forall m | i < m < k :: !Tries(steps[m])
    ensures Possible(Init(inbox, at), steps[..k])
    ensures
      var waits, owed := Waits(steps[i + 1..k]), WaitsOwed(steps[..i], steps[i]);
      && waits <= owed
      && After(Init(inbox, at), steps[..k]).sub.phase == if waits == owed then Opening else BackingOff
    decreases k
  {
    StepAt(Init(inbox, at), steps, k - 1);
    var before := After(Init(inbox, at), steps[..k - 1]);
    if k == i + 1 {
      DroppedIs(inbox, at, steps[..i]);
      FailureStep(before, steps[i]);
      assert steps[i + 1..k] == [];
    } else {
      SinceFailure(inbox, at, steps, i, k - 1);
      WaitingStep(before, steps[k - 1]);
      assert steps[i + 1..k][..k - i - 2] == steps[i + 1..k - 1];
    }
  }

  /** A failure is waited out exactly once before the next try, and the end of a stream that
      Resubscribe dropped not at all. */
  lemma {:induction false} FailureIsWaitedOut(inbox: set<Item>, at: Reading, steps: seq<Step>, i: nat, j: nat)
    requires Possible(Init(inbox, at), steps) && i < j < |steps|
    requires steps[i].RecvFail? || steps[i].SubscribeFail?
    requires Tries(steps[j]) && forall m | i < m < j :: !Tries(steps[m])
    ensures Waits(steps[i + 1..j]) == if steps[i].RecvFail? && Dropped(steps[..i]) then 0 else 1
  {
    SinceFailure(inbox, at, steps, i, j);
    StepAt(Init(inbox, at), steps, j);
  }

  // ---- How long ----

  function Power(n: nat): nat {
    if n == 0 then 1 else 2 * Power(n - 1)
  }

  /** The first wait doubled n times, within the bound. */
  function Doubled(n: nat): int {
    if MIN_BACKOFF * Power(n) > MAX_BACKOFF then MAX_BACKOFF else MIN_BACKOFF * Power(n)
  }

  lemma {:induction false} DoubledNext(n: nat)
    ensures NextBackoff(Doubled(n)) == Doubled(n + 1) && Doubled(0) == MIN_BACKOFF
  {
    assert Power(n) >= 1 by { PowerPositive(n); }
    assert MIN_BACKOFF * Power(n + 1) == 2 * (MIN_BACKOFF * Power(n));
  }

  lemma {:induction false} PowerPositive(n: nat)
    ensures Power(n) >= 1
  {
    if n > 0 { PowerPositive(n - 1); }
  }

  /** The waits since the last stream was opened or a wait was cut short. */
  function WaitsSince(steps: seq<Step>): nat {
    if steps == [] then 0
    else
      var init := steps[..|steps| - 1];
      match steps[|steps| - 1]
      case SubscribeOk => 0
      case WaitOver => if Dropped(init) then 0 else WaitsSince(init) + 1
      case _ => WaitsSince(init)
  }

  lemma {:induction false} BackoffStep(s: State, step: Step)
    requires Enabled(s, step)
    ensures Apply(s, step).sub.backoff ==
      match step
      case SubscribeOk => MIN_BACKOFF
      case WaitOver => if s.sub.dropped then MIN_BACKOFF else NextBackoff(s.sub.backoff)
      case _ => s.sub.backoff
  {
    if !SubStep(step) { OthersLeave(s, step); }
  }

  /** The wait a failure earns: the first one doubled as often as it was waited before, since the
      last stream was opened or a wait was cut short, and thirty seconds at most. */
  lemma {:induction false} WaitsDouble(inbox: set<Item>, at: Reading, steps: seq<Step>)
    requires Possible(Init(inbox, at), steps)
    ensures After(Init(inbox, at), steps).sub.backoff == Doubled(WaitsSince(steps))
  {
    if steps == [] {
      DoubledNext(0);
    } else {
      var init := steps[..|steps| - 1];
      AfterLast(Init(inbox, at), steps);
      WaitsDouble(inbox, at, init);
      DroppedIs(inbox, at, init);
      BackoffStep(After(Init(inbox, at), init), steps[|steps| - 1]);
      DoubledNext(WaitsSince(init));
      DoubledNext(0);
    }
  }

  /** The syncs that have failed since one went through. */
  function FailuresSince(steps: seq<Step>): nat {
    if steps == [] then 0
    else
      var init := steps[..|steps| - 1];
      match steps[|steps| - 1]
      case SyncDone => 0
      case SyncFail(terminal) => FailuresSince(init) + if terminal then 0 else 1
      case _ => FailuresSince(init)
  }

  lemma {:induction false} RetryStep(s: State, step: Step)
    requires Enabled(s, step)
    ensures Apply(s, step).run.backoff ==
      match step
      case SyncDone => MIN_BACKOFF
      case SyncFail(terminal) => if terminal then s.run.backoff else NextBackoff(s.run.backoff)
      case _ => s.run.backoff
  {
  }

  /** The delay of the next retry, likewise. */
  lemma {:induction false} RetriesDouble(inbox: set<Item>, at: Reading, steps: seq<Step>)
    requires Possible(Init(inbox, at), steps)
    ensures After(Init(inbox, at), steps).run.backoff == Doubled(FailuresSince(steps))
  {
    if steps == [] {
      DoubledNext(0);
    } else {
      var init := steps[..|steps| - 1];
      AfterLast(Init(inbox, at), steps);
      RetriesDouble(inbox, at, init);
      RetryStep(After(Init(inbox, at), init), steps[|steps| - 1]);
      DoubledNext(FailuresSince(init));
      DoubledNext(0);
    }
  }

  // ---- What leaves a token ----

  lemma {:induction false} ReceivedStep(s: State, step: Step)
    requires Enabled(s, step)
    ensures step.Recv? ==> (Apply(s, step).sub.phase == if s.sub.stream.queue[0].Created? then Signalling else Receiving)
    ensures !SubStep(step) ==> Apply(s, step).sub.phase == s.sub.phase
    ensures step.SignalRecv? ==> Apply(s, step).wake
    ensures step.SignalRecv? <==> SubStep(step) && s.sub.phase.Signalling?
  {
    if !SubStep(step) { OthersLeave(s, step); }
  }

  lemma {:induction false} SinceReceived(inbox: set<Item>, at: Reading, steps: seq<Step>, i: nat, k: nat)
    requires Possible(Init(inbox, at), steps) && i < k <= |steps| && steps[i].Recv?
    requires forall m | i < m < k :: !SubStep(steps[m])
    ensures Possible(Init(inbox, at), steps[..i]) && Possible(Init(inbox, at), steps[..k])
    ensures var stream := After(Init(inbox, at), steps[..i]).sub.stream;
      stream.Open() && var queue := stream.queue;
      queue != [] && After(Init(inbox, at), steps[..k]).sub.phase == if queue[0].Created? then Signalling else Receiving
    decreases k
  {
    StepAt(Init(inbox, at), steps, i);
    StepAt(Init(inbox, at), steps, k - 1);
    ReceivedStep(After(Init(inbox, at), steps[..k - 1]), steps[k - 1]);
    if k > i + 1 {
      SinceReceived(inbox, at, steps, i, k - 1);
    }
  }

  /** What the subscriber does next after it received something: signal, and so leave a token,
      exactly when it was the creation of an item. */
  lemma {:induction false} SignalsWhatWasCreated(inbox: set<Item>, at: Reading, steps: seq<Step>, i: nat, j: nat)
    requires Possible(Init(inbox, at), steps) && i < j < |steps| && steps[i].Recv?
    requires SubStep(steps[j]) && forall m | i < m < j :: !SubStep(steps[m])
    ensures Possible(Init(inbox, at), steps[..i]) && Possible(Init(inbox, at), steps[..j + 1])
    ensures var stream := After(Init(inbox, at), steps[..i]).sub.stream;
      stream.Open() && var queue := stream.queue;
      && queue != []
      && (steps[j].SignalRecv? <==> queue[0].Created?)
      && (queue[0].Created? ==> After(Init(inbox, at), steps[..j + 1]).wake)
  {
    SinceReceived(inbox, at, steps, i, j);
    StepAt(Init(inbox, at), steps, j);
    ReceivedStep(After(Init(inbox, at), steps[..j]), steps[j]);
  }

  predicate OpenedBefore(steps: seq<Step>) {
    steps != [] && (steps[|steps| - 1].SignalOpen? || OpenedBefore(steps[..|steps| - 1]))
  }

  lemma {:induction false} OpenedStep(s: State, step: Step)
    requires Enabled(s, step)
    ensures Apply(s, step).sub.reopened == (s.sub.reopened || step.SignalOpen?)
    ensures step.SignalOpen? ==> Apply(s, step).wake == (s.wake || s.sub.reopened)
  {
    if !SubStep(step) { OthersLeave(s, step); }
  }

  /** A stream that opens leaves a token exactly when one was open before it. */
  lemma {:induction false} ReopeningSignals(inbox: set<Item>, at: Reading, steps: seq<Step>)
    requires Possible(Init(inbox, at), steps)
    ensures After(Init(inbox, at), steps).sub.reopened <==> OpenedBefore(steps)
    ensures steps != [] && steps[|steps| - 1].SignalOpen? ==>
      var init := steps[..|steps| - 1];
      && Possible(Init(inbox, at), init)
      && (After(Init(inbox, at), steps).wake <==> After(Init(inbox, at), init).wake || OpenedBefore(init))
  {
    if steps != [] {
      var init := steps[..|steps| - 1];
      AfterLast(Init(inbox, at), steps);
      ReopeningSignals(inbox, at, init);
      OpenedStep(After(Init(inbox, at), init), steps[|steps| - 1]);
    }
  }
}
