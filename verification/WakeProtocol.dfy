// How a message reaches the daemon: every process of it, interleaved.

module WakeProtocol {
  // The notification subscriber (internal/subscriber/subscriber.go), the inbox loop of
  // Daemon.Run (internal/daemon/daemon.go), the keepalive loop (internal/daemon/keepalive.go)
  // and the far side. A step is one atomic action of one of them; every interleaving is a
  // sequence of steps.

  import opened Clocks
  import Wake

  const MIN_BACKOFF: int := SECOND
  const MAX_BACKOFF: int := 30 * SECOND

  type Item = nat

  /** What the stream delivers: the creation of an item, or an envelope the
      subscriber skips. */
  datatype Notice = Created(item: Item) | Skipped

  /** Dead streams are the ones the far side has lost without the subscriber knowing;
      some of what they had queued may still be received. */
  datatype Stream =
    | Unopened
    | Live(queue: seq<Notice>)
    | Dead(queue: seq<Notice>)
    | Down
  {
    predicate Open() {
      Live? || Dead?
    }
  }

  /** Where Subscriber.Run stands. Opened is after Subscribe returned and before the
      reopening is signalled; Signalling is after Recv and before signalWake. */
  datatype SubPhase = Unstarted | Opening | Opened | Receiving | Signalling | BackingOff

  /** dropped says the attempt's context was ended by Resubscribe; born is the drift of
      the clocks when the stream was opened. */
  datatype Subscriber = Subscriber(
    phase: SubPhase, stream: Stream, backoff: int, reopened: bool, dropped: bool, born: int)

  /** Where Daemon.Run stands. Taken is after a token was taken and before the inbox is
      read; Syncing holds what the read covers and is not acked yet. */
  datatype RunPhase = Starting | Taken | Syncing(todo: set<Item>) | Waiting | Stopped

  /** retry says the retry timer is armed. */
  datatype Runner = Runner(phase: RunPhase, retry: bool, backoff: int)

  datatype KeepPhase = Unwatched | Idle | Confirming | Dropping | Asking

  /** since is the drift at which the watch took its first reading. */
  datatype Keeper = Keeper(phase: KeepPhase, watch: Wake.Watch, since: int)

  /** tracked holds the items the promise is made for: those an inbox read has covered
      and those that arrived once the first stream had opened. */
  datatype State = State(
    unacked: set<Item>, known: set<Item>, tracked: set<Item>,
    wake: bool, wakeSync: bool, signal: bool, clock: Reading,
    sub: Subscriber, run: Runner, keep: Keeper)

  datatype Step =
    // The far side and the clock
    | Arrive(item: Item)
    | Chatter
    | LoseStream(kept: nat)
    | Freeze(length: nat, kept: nat)
    | Elapse(length: nat)
    | RunnerSignal
    // Subscriber.Run
    | SubBegin
    | SubscribeOk
    | SubscribeFail
    | SignalOpen
    | Recv
    | SignalRecv
    | RecvFail
    | WaitOver
    // Daemon.Run
    | InitialSync
    | TakeWakeSync
    | TakeWake
    | TakeRetry
    | FetchInbox
    | ItemAcked(item: Item)
    | SyncDone
    | SyncFail(terminal: bool)
    // runKeepalive
    | KeepBegin
    | KeepSignal
    | KeepTick
    | KeepConfirm
    | KeepDrop
    | KeepAsk

  /** The next wait after a failure, of subscriber.nextBackoff and nextSyncRetryBackoff alike. */
  function NextBackoff(current: int): (next: int)
    ensures MIN_BACKOFF <= current ==> MIN_BACKOFF <= next <= MAX_BACKOFF
    ensures MIN_BACKOFF <= current <= MAX_BACKOFF ==> current <= next && (next == current <==> current == MAX_BACKOFF)
  {
    if current <= 0 then MIN_BACKOFF
    else if current * 2 > MAX_BACKOFF then MAX_BACKOFF
    else current * 2
  }

  function Init(inbox: set<Item>, at: Reading): State {
    State(inbox, inbox, {}, false, false, false, at,
          Subscriber(Unstarted, Unopened, MIN_BACKOFF, false, false, 0),
          Runner(Starting, false, MIN_BACKOFF),
          Keeper(Unwatched, Wake.NewWatch(at), 0))
  }

  predicate Enabled(s: State, step: Step) {
    match step
    case Arrive(item) => item !in s.known
    case Chatter => s.sub.stream.Live?
    case LoseStream(kept) => s.sub.stream.Live? && kept <= |s.sub.stream.queue|
    case Freeze(length, kept) =>
      SECOND <= length && (s.sub.stream.Live? ==> kept <= |s.sub.stream.queue|)
    case Elapse(length) => true
    case RunnerSignal => true
    case SubBegin => s.sub.phase.Unstarted?
    case SubscribeOk => s.sub.phase.Opening?
    case SubscribeFail => s.sub.phase.Opening?
    case SignalOpen => s.sub.phase.Opened?
    case Recv => s.sub.phase.Receiving? && s.sub.stream.Open() && s.sub.stream.queue != []
    case SignalRecv => s.sub.phase.Signalling?
    case RecvFail => s.sub.phase.Receiving?
    case WaitOver => s.sub.phase.BackingOff?
    case InitialSync => s.run.phase.Starting? && !s.sub.phase.Unstarted?
    case TakeWakeSync => s.run.phase.Waiting? && s.wakeSync
    case TakeWake => s.run.phase.Waiting? && s.wake
    case TakeRetry => s.run.phase.Waiting? && s.run.retry
    case FetchInbox => s.run.phase.Taken?
    case ItemAcked(item) => s.run.phase.Syncing? && item in s.unacked
    case SyncDone => s.run.phase == Syncing({})
    case SyncFail(terminal) => s.run.phase.Syncing? || s.run.phase.Taken?
    case KeepBegin => s.keep.phase.Unwatched?
    case KeepSignal => s.keep.phase.Idle? && s.signal
    case KeepTick => s.keep.phase.Idle?
    case KeepConfirm => s.keep.phase.Confirming?
    case KeepDrop => s.keep.phase.Dropping?
    case KeepAsk => s.keep.phase.Asking?
  }

  /** An item is created: it is announced on the stream if one is live. */
  function Arrived(s: State, item: Item): State {
    var s' := s.(unacked := s.unacked + {item}, known := s.known + {item});
    match s.sub.stream
    case Unopened => s'
    case Live(queue) =>
      s'.(tracked := s.tracked + {item}, sub := s.sub.(stream := Live(queue + [Created(item)])))
    case _ => s'.(tracked := s.tracked + {item})
  }

  function Lost(stream: Stream, kept: nat): Stream
    requires stream.Live? ==> kept <= |stream.queue|
  {
    if stream.Live? then Dead(stream.queue[..kept]) else stream
  }

  function ApplyWorld(s: State, step: Step): State
    requires Enabled(s, step)
  {
    match step
    case Arrive(item) => Arrived(s, item)
    case Chatter => s.(sub := s.sub.(stream := Live(s.sub.stream.queue + [Skipped])))
    case LoseStream(kept) => s.(sub := s.sub.(stream := Lost(s.sub.stream, kept)))
    case Freeze(length, kept) =>
      s.(clock := Advance(s.clock, Sleep(length)), sub := s.sub.(stream := Lost(s.sub.stream, kept)))
    case Elapse(length) => s.(clock := Advance(s.clock, Running(length)))
    case RunnerSignal => s.(signal := true)
    case _ => s
  }

  /** A fresh attempt, with a context of its own, on no stream yet. */
  function NewAttempt(sub: Subscriber): Subscriber {
    sub.(phase := Opening, dropped := false)
  }

  function Subscribed(sub: Subscriber, drift: int): Subscriber {
    sub.(phase := Opened, stream := Live([]), backoff := MIN_BACKOFF, born := drift)
  }

  function Received(sub: Subscriber): Subscriber
    requires sub.stream.Open() && sub.stream.queue != []
  {
    var notice, rest := sub.stream.queue[0], sub.stream.queue[1..];
    var stream := if sub.stream.Live? then Live(rest) else Dead(rest);
    sub.(stream := stream, phase := if notice.Created? then Signalling else Receiving)
  }

  /** Recv failed: the daemon's own drop reopens at once, a failure waits out a backoff first. */
  function Broken(sub: Subscriber): Subscriber {
    var down := sub.(stream := Down);
    if sub.dropped then NewAttempt(down) else down.(phase := BackingOff)
  }

  /** The wait is over: the next failure waits longer, unless Resubscribe cut this one short. */
  function WaitedOut(sub: Subscriber): Subscriber {
    NewAttempt(sub).(backoff := if sub.dropped then MIN_BACKOFF else NextBackoff(sub.backoff))
  }

  function ApplySub(s: State, step: Step): State
    requires Enabled(s, step)
  {
    match step
    case SubBegin => s.(sub := NewAttempt(s.sub))
    case SubscribeOk => s.(sub := Subscribed(s.sub, s.clock.Drift()))
    case SubscribeFail => s.(sub := s.sub.(phase := BackingOff))
    case SignalOpen => s.(wake := s.wake || s.sub.reopened, sub := s.sub.(phase := Receiving, reopened := true))
    case Recv => s.(sub := Received(s.sub))
    case SignalRecv => s.(wake := true, sub := s.sub.(phase := Receiving))
    case RecvFail => s.(sub := Broken(s.sub))
    case WaitOver => s.(sub := WaitedOut(s.sub))
    case _ => s
  }

  datatype SyncOutcome = Done | Failed | Terminal

  /** What Run does once a sync is over: clear the retry, schedule one, or give up. */
  function SyncEnded(run: Runner, outcome: SyncOutcome): Runner {
    match outcome
    case Done => Runner(Waiting, false, MIN_BACKOFF)
    case Failed => Runner(Waiting, true, NextBackoff(run.backoff))
    case Terminal => run.(phase := Stopped)
  }

  function ApplyRun(s: State, step: Step): State
    requires Enabled(s, step)
  {
    match step
    case InitialSync => s.(run := s.run.(phase := Taken))
    case TakeWakeSync => s.(wakeSync := false, run := s.run.(phase := Taken))
    case TakeWake => s.(wake := false, run := s.run.(phase := Taken))
    case TakeRetry => s.(run := s.run.(phase := Taken, retry := false))
    case FetchInbox => s.(tracked := s.tracked + s.unacked, run := s.run.(phase := Syncing(s.unacked)))
    case ItemAcked(item) =>
      s.(unacked := s.unacked - {item}, run := s.run.(phase := Syncing(s.run.phase.todo - {item})))
    case SyncDone => s.(run := SyncEnded(s.run, Done))
    case SyncFail(terminal) => s.(run := SyncEnded(s.run, if terminal then Terminal else Failed))
    case _ => s
  }

  /** A sign of a wake: dropped as a repeat, or acted on. */
  function Signed(k: Keeper, now: Reading): Keeper {
    k.(watch := Wake.Admitted(k.watch, now), phase := if Wake.Fresh(k.watch, now) then Dropping else Idle)
  }

  function ApplyKeep(s: State, step: Step): State
    requires Enabled(s, step)
  {
    match step
    case KeepBegin => s.(keep := Keeper(Idle, Wake.NewWatch(s.clock), s.clock.Drift()))
    case KeepSignal => s.(signal := false, keep := Signed(s.keep, s.clock))
    case KeepTick =>
      var jump := Wake.Jump(s.keep.watch.last, s.clock);
      s.(keep := s.keep.(watch := Wake.Ticked(s.keep.watch, s.clock),
                         phase := if jump >= Wake.WAKE_SLEEP_FLOOR then Confirming else Idle))
    case KeepConfirm => s.(keep := Signed(s.keep, s.clock))
    case KeepDrop =>
      // Before the first attempt there is nothing for Resubscribe to end.
      s.(keep := s.keep.(phase := Asking), sub := s.sub.(dropped := s.sub.dropped || !s.sub.phase.Unstarted?))
    case KeepAsk => s.(wakeSync := true, keep := s.keep.(phase := Idle))
    case _ => s
  }

  predicate WorldStep(step: Step) {
    step.Arrive? || step.Chatter? || step.LoseStream? || step.Freeze? || step.Elapse? || step.RunnerSignal?
  }

  predicate SubStep(step: Step) {
    step.SubBegin? || step.SubscribeOk? || step.SubscribeFail? || step.SignalOpen? || step.Recv? ||
    step.SignalRecv? || step.RecvFail? || step.WaitOver?
  }

  predicate RunStep(step: Step) {
    step.InitialSync? || step.TakeWakeSync? || step.TakeWake? || step.TakeRetry? || step.FetchInbox? ||
    step.ItemAcked? || step.SyncDone? || step.SyncFail?
  }

  function Apply(s: State, step: Step): State
    requires Enabled(s, step)
  {
    if WorldStep(step) then ApplyWorld(s, step)
    else if SubStep(step) then ApplySub(s, step)
    else if RunStep(step) then ApplyRun(s, step)
    else ApplyKeep(s, step)
  }

  /** steps can be taken one after the other from s. */
  predicate Possible(s: State, steps: seq<Step>)
    decreases |steps|
  {
    steps == [] || (Enabled(s, steps[0]) && Possible(Apply(s, steps[0]), steps[1..]))
  }

  function After(s: State, steps: seq<Step>): State
    requires Possible(s, steps)
    decreases |steps|
  {
    if steps == [] then s else After(Apply(s, steps[0]), steps[1..])
  }

  /** Something besides a retry is going to have the inbox read: a token is pending, the
      subscriber is about to leave one, the live stream still queues the item's notice, or
      the stream is not live and its reopening will signal. */
  predicate Announced(s: State, item: Item) {
    || s.wake
    || s.wakeSync
    || s.sub.phase.Signalling?
    || (s.sub.phase.Opened? && s.sub.reopened)
    || (s.sub.stream.Live? && Created(item) in s.sub.stream.queue)
    || s.sub.stream.Dead?
    || s.sub.stream.Down?
  }

  predicate Covered(s: State, item: Item) {
    s.run.retry || Announced(s, item)
  }

  ghost predicate NothingLost(s: State) {
    && s.tracked <= s.known
    && s.unacked <= s.known
    && (s.run.phase.Syncing? ==> s.run.phase.todo <= s.known)
    && (s.run.phase.Waiting? ==> forall item | item in s.tracked && item in s.unacked :: Covered(s, item))
    && (s.run.phase.Syncing? ==>
          forall item | item in s.tracked && item in s.unacked && item !in s.run.phase.todo :: Announced(s, item))
  }

  ghost predicate SubscriberSound(sub: Subscriber) {
    && MIN_BACKOFF <= sub.backoff <= MAX_BACKOFF
    && (sub.phase.Unstarted? ==> sub.stream.Unopened? && !sub.dropped)
    && (sub.phase.Opening? || sub.phase.BackingOff? ==> !sub.stream.Open())
    && (sub.phase.Opened? || sub.phase.Receiving? || sub.phase.Signalling? ==> sub.stream.Open())
    && (sub.phase.Receiving? || sub.phase.Signalling? || sub.stream.Down? ==> sub.reopened)
    && (sub.stream.Unopened? ==> !sub.reopened)
  }

  ghost predicate RunnerSound(run: Runner) {
    MIN_BACKOFF <= run.backoff <= MAX_BACKOFF
  }

  ghost predicate KeeperSound(keep: Keeper, clock: Reading) {
    keep.phase.Unwatched? ||
    (&& Follows(keep.watch.last, clock)
     && keep.since <= keep.watch.last.Drift()
     && (keep.watch.woken ==> Follows(keep.watch.handled, clock) && keep.since <= keep.watch.handled.Drift())
     && (keep.phase.Dropping? ==> keep.watch.woken)
     && (!keep.phase.Confirming? ==>
           keep.watch.last.Drift() == keep.since ||
           (keep.watch.woken && keep.watch.last.Drift() <= keep.watch.handled.Drift())))
  }

  /** No stream stays in use across a wake the keepalive loop has acted on, and none is dropped
      before it has. */
  ghost predicate NoStaleStream(s: State) {
    && (s.sub.dropped ==> !s.keep.phase.Unwatched? && s.keep.watch.woken)
    && (s.sub.stream.Open() ==> s.sub.born <= s.clock.Drift())
    && (s.sub.stream.Live? ==> s.sub.born == s.clock.Drift())
    && (!s.keep.phase.Unwatched? && s.keep.watch.woken && s.sub.stream.Open() && s.sub.born < s.keep.watch.handled.Drift() ==>
          s.sub.dropped || s.keep.phase.Dropping?)
  }

  ghost predicate Invariant(s: State) {
    NothingLost(s) && SubscriberSound(s.sub) && RunnerSound(s.run) && KeeperSound(s.keep, s.clock) && NoStaleStream(s)
  }

  lemma {:induction false} WorldKeeps(s: State, step: Step)
    requires Invariant(s) && Enabled(s, step) && WorldStep(step)
    ensures Invariant(Apply(s, step))
  {
    if step.Arrive? {
      ArrivalKeeps(s, step.item);
    } else if step.Freeze? {
      FreezeKeeps(s, step);
    }
  }

  lemma {:induction false} ArrivalKeeps(s: State, item: Item)
    requires Invariant(s) && item !in s.known
    ensures Invariant(Arrived(s, item))
  {
  }

  lemma {:induction false} FreezeKeeps(s: State, step: Step)
    requires Invariant(s) && Enabled(s, step) && step.Freeze?
    ensures Invariant(ApplyWorld(s, step))
  {
  }

  lemma {:induction false} SubKeeps(s: State, step: Step)
    requires Invariant(s) && Enabled(s, step) && SubStep(step)
    ensures Invariant(Apply(s, step))
  {
  }

  lemma {:induction false} RunKeeps(s: State, step: Step)
    requires Invariant(s) && Enabled(s, step) && RunStep(step)
    ensures Invariant(Apply(s, step))
  {
  }

  lemma {:induction false} KeepKeeps(s: State, step: Step)
    requires Invariant(s) && Enabled(s, step) && !WorldStep(step) && !SubStep(step) && !RunStep(step)
    ensures Invariant(Apply(s, step))
  {
    match step {
      case KeepSignal => SignedKeeps(s, s.(signal := false));
      case KeepConfirm => SignedKeeps(s, s);
      case KeepTick => TickKeeps(s);
      case _ => RestKeeps(s, step);
    }
  }

  lemma {:induction false} SignedKeeps(s: State, t: State)
    requires Invariant(s) && t == s.(signal := t.signal) && (s.keep.phase.Idle? || s.keep.phase.Confirming?)
    ensures Invariant(t.(keep := Signed(s.keep, s.clock)))
  {
    assert KeeperSound(Signed(s.keep, s.clock), s.clock);
  }

  lemma {:induction false} TickKeeps(s: State)
    requires Invariant(s) && s.keep.phase.Idle?
    ensures Invariant(ApplyKeep(s, KeepTick))
  {
    assert KeeperSound(ApplyKeep(s, KeepTick).keep, s.clock);
  }

  lemma {:induction false} RestKeeps(s: State, step: Step)
    requires Invariant(s) && Enabled(s, step) && (step.KeepBegin? || step.KeepDrop? || step.KeepAsk?)
    ensures Invariant(ApplyKeep(s, step))
  {
  }

  lemma {:induction false} AlwaysInvariant(s: State, steps: seq<Step>)
    requires Invariant(s) && Possible(s, steps)
    ensures Invariant(After(s, steps))
    decreases |steps|
  {
    if steps != [] {
      var step := steps[0];
      if WorldStep(step) { WorldKeeps(s, step); }
      else if SubStep(step) { SubKeeps(s, step); }
      else if RunStep(step) { RunKeeps(s, step); }
      else { KeepKeeps(s, step); }
      AlwaysInvariant(Apply(s, step), steps[1..]);
    }
  }

  lemma {:induction false} InitInvariant(inbox: set<Item>, at: Reading)
    ensures Invariant(Init(inbox, at))
  {
  }

  lemma {:induction false} AfterConcat(s: State, first: seq<Step>, second: seq<Step>)
    requires Possible(s, first) && Possible(After(s, first), second)
    ensures Possible(s, first + second) && After(s, first + second) == After(After(s, first), second)
    decreases |first|
  {
    if first == [] {
      assert first + second == second;
    } else {
      assert (first + second)[1..] == first[1..] + second;
      AfterConcat(Apply(s, first[0]), first[1..], second);
    }
  }

  /** The last of the steps, from where those before it lead. */
  lemma {:induction false} AfterLast(s: State, steps: seq<Step>)
    requires steps != [] && Possible(s, steps)
    ensures
      var init, last := steps[..|steps| - 1], steps[|steps| - 1];
      Possible(s, init) && Enabled(After(s, init), last) && After(s, steps) == Apply(After(s, init), last)
    decreases |steps|
  {
    if |steps| > 1 {
      assert steps[..|steps| - 1][1..] == steps[1..][..|steps| - 2];
      AfterLast(Apply(s, steps[0]), steps[1..]);
    }
  }

  /** How the last sync of a run ended. */
  predicate LastSyncFailed(steps: seq<Step>) {
    steps != [] &&
    match steps[|steps| - 1]
    case SyncDone => false
    case SyncFail(_) => true
    case _ => LastSyncFailed(steps[..|steps| - 1])
  }

  lemma {:induction false} RetryMeansFailed(inbox: set<Item>, at: Reading, steps: seq<Step>)
    requires Possible(Init(inbox, at), steps)
    ensures
      var run := After(Init(inbox, at), steps).run;
      run.phase.Waiting? ==> (run.retry <==> LastSyncFailed(steps))
  {
    if steps != [] {
      var before, last := steps[..|steps| - 1], steps[|steps| - 1];
      AfterLast(Init(inbox, at), steps);
      RetryMeansFailed(inbox, at, before);
      WaitingStep(After(Init(inbox, at), before), last);
    }
  }

  /** Only a sync's end, or somebody else's step, leaves Run waiting. */
  lemma {:induction false} WaitingStep(s: State, step: Step)
    requires Enabled(s, step)
    ensures var run := Apply(s, step).run;
      run.phase.Waiting? ==>
        if step.SyncDone? || step.SyncFail? then run.retry <==> step.SyncFail? else run == s.run
  {
  }

  /** No lost item: whatever the interleaving, whenever Run waits at its select every
      tracked item that is still unacked has a token, an armed retry, a queued notice or a
      reopening coming to it; and the retry is armed exactly when the last sync failed. */
  lemma {:induction false} NoLostItem(inbox: set<Item>, at: Reading, steps: seq<Step>)
    requires Possible(Init(inbox, at), steps)
    requires After(Init(inbox, at), steps).run.phase.Waiting?
    ensures
      var s := After(Init(inbox, at), steps);
      && (forall item | item in s.tracked && item in s.unacked :: Covered(s, item))
      && (s.run.retry <==> LastSyncFailed(steps))
      && MIN_BACKOFF <= s.run.backoff <= MAX_BACKOFF
      && MIN_BACKOFF <= s.sub.backoff <= MAX_BACKOFF
  {
    InitInvariant(inbox, at);
    AlwaysInvariant(Init(inbox, at), steps);
    RetryMeansFailed(inbox, at, steps);
  }

  /** A step the daemon takes by itself with nothing more going wrong: a call fails only where
      the attempt it belongs to was dropped, or its stream is already lost, and no sync fails. */
  predicate Sure(s: State, step: Step) {
    match step
    case SubscribeOk => !s.sub.dropped
    case SubscribeFail => s.sub.dropped
    case RecvFail => s.sub.stream.Dead? || s.sub.dropped
    case SyncFail(_) => false
    case _ => SubStep(step) || RunStep(step)
  }

  /** The steps, each sure where it is taken, bring the item into an inbox read. */
  ghost predicate WillRead(s: State, steps: seq<Step>, item: Item)
    decreases |steps|
  {
    if steps == [] then s.run.phase.Syncing? && item in s.run.phase.todo
    else Enabled(s, steps[0]) && Sure(s, steps[0]) && WillRead(Apply(s, steps[0]), steps[1..], item)
  }

  ghost predicate CanBeRead(s: State, item: Item) {
    exists steps :: WillRead(s, steps, item)
  }

  lemma {:induction false} ReadAfter(s: State, step: Step, rest: seq<Step>, item: Item) returns (steps: seq<Step>)
    requires Enabled(s, step) && Sure(s, step) && WillRead(Apply(s, step), rest, item)
    ensures WillRead(s, steps, item)
  {
    steps := [step] + rest;
    assert steps[1..] == rest;
  }

  /** With a token in hand, two steps of Run read the item. */
  lemma {:induction false} TokenRead(s: State, item: Item) returns (steps: seq<Step>)
    requires s.run.phase.Waiting? && item in s.unacked
    requires s.wake || s.wakeSync || s.run.retry
    ensures WillRead(s, steps, item)
  {
    var take := if s.wake then TakeWake else if s.wakeSync then TakeWakeSync else TakeRetry;
    var fetched := Apply(Apply(s, take), FetchInbox);
    assert WillRead(fetched, [], item);
    steps := ReadAfter(Apply(s, take), FetchInbox, [], item);
    steps := ReadAfter(s, take, steps, item);
  }

  lemma {:induction false} SignalRead(s: State, step: Step, item: Item) returns (steps: seq<Step>)
    requires s.run.phase.Waiting? && item in s.unacked
    requires SubStep(step) && Enabled(s, step) && Sure(s, step) && Apply(s, step).wake
    ensures WillRead(s, steps, item)
  {
    steps := TokenRead(Apply(s, step), item);
    steps := ReadAfter(s, step, steps, item);
  }

  /** Some item's notice is queued. */
  predicate Noticed(queue: seq<Notice>) {
    exists n :: 0 <= n < |queue| && queue[n].Created?
  }

  /** A queued notice is received and signalled, whatever stands before it in the queue. */
  lemma {:induction false} QueueRead(s: State, item: Item) returns (steps: seq<Step>)
    requires s.run.phase.Waiting? && item in s.unacked
    requires s.sub.phase.Receiving? && s.sub.stream.Live? && Noticed(s.sub.stream.queue)
    ensures WillRead(s, steps, item)
    decreases |s.sub.stream.queue|
  {
    var queue := s.sub.stream.queue;
    if queue[0].Created? {
      steps := SignalRead(Apply(s, Recv), SignalRecv, item);
    } else {
      var n :| 0 <= n < |queue| && queue[n].Created?;
      assert queue[1..][n - 1] == queue[n];
      steps := QueueRead(Apply(s, Recv), item);
    }
    steps := ReadAfter(s, Recv, steps, item);
  }

  /** A subscriber with no stream opens one and, since it had one before, signals. */
  lemma {:induction false} ReopenRead(s: State, item: Item) returns (steps: seq<Step>)
    requires s.run.phase.Waiting? && item in s.unacked
    requires s.sub.stream.Down? && s.sub.reopened && (s.sub.phase.Opening? || s.sub.phase.BackingOff?)
    ensures WillRead(s, steps, item)
    decreases if s.sub.phase.BackingOff? then 1 else if s.sub.dropped then 2 else 0
  {
    if s.sub.phase.BackingOff? {
      steps := ReopenRead(Apply(s, WaitOver), item);
      steps := ReadAfter(s, WaitOver, steps, item);
    } else if s.sub.dropped {
      steps := ReopenRead(Apply(s, SubscribeFail), item);
      steps := ReadAfter(s, SubscribeFail, steps, item);
    } else {
      steps := SignalRead(Apply(s, SubscribeOk), SignalOpen, item);
      steps := ReadAfter(s, SubscribeOk, steps, item);
    }
  }

  lemma {:induction false} ReceivingRead(s: State, item: Item) returns (steps: seq<Step>)
    requires SubscriberSound(s.sub) && s.run.phase.Waiting? && item in s.unacked
    requires s.sub.phase.Receiving?
    requires s.sub.stream.Dead? || s.sub.dropped || (s.sub.stream.Live? && Noticed(s.sub.stream.queue))
    ensures WillRead(s, steps, item)
  {
    if s.sub.stream.Dead? || s.sub.dropped {
      steps := ReopenRead(Apply(s, RecvFail), item);
      steps := ReadAfter(s, RecvFail, steps, item);
    } else {
      steps := QueueRead(s, item);
    }
  }

  /** Run will hear of something: it has a token, or the subscriber is about to leave one, has
      a notice queued, or has a stream that is lost, dropped or down and will be reopened. */
  predicate Heard(s: State) {
    || s.run.retry || s.wake || s.wakeSync
    || s.sub.phase.Signalling?
    || (s.sub.phase.Opened? && s.sub.reopened)
    || s.sub.stream.Dead? || s.sub.stream.Down?
    || (s.sub.stream.Live? && (s.sub.dropped || Noticed(s.sub.stream.queue)))
  }

  lemma {:induction false} HeardRead(s: State, item: Item) returns (steps: seq<Step>)
    requires SubscriberSound(s.sub) && s.run.phase.Waiting? && item in s.unacked && Heard(s)
    ensures WillRead(s, steps, item)
  {
    if s.wake || s.wakeSync || s.run.retry {
      steps := TokenRead(s, item);
    } else if s.sub.phase.Signalling? {
      steps := SignalRead(s, SignalRecv, item);
    } else if s.sub.phase.Opened? && s.sub.reopened {
      steps := SignalRead(s, SignalOpen, item);
    } else if s.sub.phase.Opened? {
      steps := ReceivingRead(Apply(s, SignalOpen), item);
      steps := ReadAfter(s, SignalOpen, steps, item);
    } else if s.sub.phase.Receiving? {
      steps := ReceivingRead(s, item);
    } else {
      steps := ReopenRead(s, item);
    }
  }

  /** What Covered is worth: from every reachable waiting state, steps of the subscriber and of
      Run, with nothing more going wrong, bring each tracked unacked item into an inbox read --
      no new message, no signal and no clock tick is needed. */
  lemma {:induction false} CoveredItemIsRead(inbox: set<Item>, at: Reading, steps: seq<Step>, item: Item) returns (more: seq<Step>)
    requires Possible(Init(inbox, at), steps)
    requires
      var s := After(Init(inbox, at), steps);
      s.run.phase.Waiting? && item in s.tracked && item in s.unacked
    ensures WillRead(After(Init(inbox, at), steps), more, item)
  {
    InitInvariant(inbox, at);
    AlwaysInvariant(Init(inbox, at), steps);
    var s := After(Init(inbox, at), steps);
    CoveredIsHeard(s, item);
    more := HeardRead(s, item);
  }

  lemma {:induction false} CoveredIsHeard(s: State, item: Item)
    requires Covered(s, item)
    ensures Heard(s)
  {
    if s.sub.stream.Live? && Created(item) in s.sub.stream.queue {
      var n :| 0 <= n < |s.sub.stream.queue| && s.sub.stream.queue[n] == Created(item);
      assert s.sub.stream.queue[n].Created?;
    }
  }

  /** Where Run will hear of nothing, sure steps leave it so. */
  lemma {:induction false} UnheardStays(s: State, step: Step)
    requires SubscriberSound(s.sub) && s.run.phase.Waiting? && !Heard(s)
    requires Enabled(s, step) && Sure(s, step)
    ensures var s' := Apply(s, step); SubscriberSound(s'.sub) && s'.run.phase.Waiting? && !Heard(s')
  {
    if step.Recv? {
      var queue, rest := s.sub.stream.queue, Apply(s, Recv).sub.stream.queue;
      assert forall n | 0 <= n < |rest| :: rest[n] == queue[n + 1];
    }
  }

  lemma {:induction false} UnheardIsNotRead(s: State, steps: seq<Step>, item: Item)
    requires SubscriberSound(s.sub) && s.run.phase.Waiting? && !Heard(s)
    ensures !WillRead(s, steps, item)
    decreases |steps|
  {
    if steps != [] && Enabled(s, steps[0]) && Sure(s, steps[0]) {
      UnheardStays(s, steps[0]);
      UnheardIsNotRead(Apply(s, steps[0]), steps[1..], item);
    }
  }

  /** And exactly when: an unacked item can be read with nothing more going wrong if and only if
      Run will hear of something. */
  lemma {:induction false} ReadExactlyWhenHeard(inbox: set<Item>, at: Reading, steps: seq<Step>, item: Item)
    requires Possible(Init(inbox, at), steps)
    requires var s := After(Init(inbox, at), steps); s.run.phase.Waiting? && item in s.unacked
    ensures
      var s := After(Init(inbox, at), steps);
      CanBeRead(s, item) <==> Heard(s)
  {
    InitInvariant(inbox, at);
    AlwaysInvariant(Init(inbox, at), steps);
    ReadIff(After(Init(inbox, at), steps), item);
  }

  lemma {:induction false} ReadIff(s: State, item: Item)
    requires SubscriberSound(s.sub) && s.run.phase.Waiting? && item in s.unacked
    ensures CanBeRead(s, item) <==> Heard(s)
  {
    if Heard(s) {
      var more := HeardRead(s, item);
    } else if CanBeRead(s, item) {
      var more :| WillRead(s, more, item);
      UnheardIsNotRead(s, more, item);
    }
  }

  /** Exactly which arrivals the daemon hears of while it waits, or handles what it read, with
      nothing pending: those that come once the first stream has been opened. An arrival
      before the inbox is read is in what is read. */
  lemma {:induction false} ArrivalHeardIff(inbox: set<Item>, at: Reading, steps: seq<Step>, item: Item)
    requires Possible(Init(inbox, at), steps)
    requires
      var s := After(Init(inbox, at), steps);
      !s.wake && !s.wakeSync && Enabled(s, Arrive(item))
    ensures
      var s := After(Init(inbox, at), steps);
      var s' := Apply(s, Arrive(item));
      && (s.run.phase.Waiting? && !s.run.retry ==> (Covered(s', item) <==> !s.sub.stream.Unopened?))
      && (s.run.phase.Syncing? ==> item !in s'.run.phase.todo && (Announced(s', item) <==> !s.sub.stream.Unopened?))
      && (s.run.phase.Taken? ==> item in Apply(s', FetchInbox).run.phase.todo)
  {
    InitInvariant(inbox, at);
    AlwaysInvariant(Init(inbox, at), steps);
  }

  /** Of the subscriber's and Run's own steps, only a broken stream is possible. */
  ghost predicate OnlyBreakageLeft(s: State) {
    forall step | (SubStep(step) || RunStep(step)) && Enabled(s, step) :: step.RecvFail?
  }

  /** The window between the initial read and the first stream: an item that arrives in it
      is announced to nobody. Run waits, the stream is healthy and silent, the only step left
      to the daemon is for that stream to break, and nothing else will have the item read. */
  lemma {:induction false} GapItemIsStranded(item: Item, at: Reading) returns (steps: seq<Step>)
    ensures Possible(Init({}, at), steps)
    ensures
      var s := After(Init({}, at), steps);
      && s.run.phase.Waiting? && item in s.unacked && !Covered(s, item)
      && s.sub.stream == Live([])
      && OnlyBreakageLeft(s)
      && !CanBeRead(s, item)
  {
    var init := Init({}, at);
    var waiting := EmptyInboxRead(at);
    steps := Then(init, waiting, Arrive(item));
    steps := Then(init, steps, SubscribeOk);
    steps := Then(init, steps, SignalOpen);
    var s := After(init, steps);
    NothingPending(s);
    ReadIff(s, item);
  }

  lemma {:induction false} EmptyInboxRead(at: Reading) returns (steps: seq<Step>)
    ensures Possible(Init({}, at), steps)
    ensures
      var init := Init({}, at);
      After(init, steps) == init.(sub := NewAttempt(init.sub), run := Runner(Waiting, false, MIN_BACKOFF))
  {
    var init := Init({}, at);
    steps := Then(init, [], SubBegin);
    steps := Then(init, steps, InitialSync);
    steps := Then(init, steps, FetchInbox);
    steps := Then(init, steps, SyncDone);
  }

  lemma {:induction false} NothingPending(s: State)
    requires s.run.phase.Waiting? && !s.wake && !s.wakeSync && !s.run.retry
    requires s.sub.phase.Receiving? && s.sub.stream == Live([])
    ensures OnlyBreakageLeft(s)
  {
  }

  lemma {:induction false} Then(s: State, steps: seq<Step>, step: Step) returns (more: seq<Step>)
    requires Possible(s, steps) && Enabled(After(s, steps), step)
    ensures more == steps + [step]
    ensures Possible(s, more) && After(s, more) == Apply(After(s, steps), step)
  {
    more := steps + [step];
    OneStep(After(s, steps), step);
    AfterConcat(s, steps, [step]);
  }

  lemma {:induction false} OneStep(s: State, step: Step)
    requires Enabled(s, step)
    ensures Possible(s, [step]) && After(s, [step]) == Apply(s, step)
  {
    var one, next := [step], Apply(s, step);
    assert one[0] == step && one[1..] == [];
    assert Possible(next, one[1..]) && After(next, one[1..]) == next;
  }

  /** A stream never outlives a sleep the watch has seen: once the keepalive loop is done with
      a tick, and some tick has seen a sleep since the watch began, a stream still in use that
      was opened before the last sleep seen has been dropped, so it is reopened without
      waiting for TCP to give up on it. */
  lemma {:induction false} SleptStreamIsDropped(inbox: set<Item>, at: Reading, steps: seq<Step>)
    requires Possible(Init(inbox, at), steps)
    ensures
      var s := After(Init(inbox, at), steps);
      && s.keep.phase.Idle? && s.sub.stream.Open()
      && s.keep.since < s.keep.watch.last.Drift() && s.sub.born < s.keep.watch.last.Drift() ==>
        s.sub.dropped && s.sub.stream.Dead?
  {
    InitInvariant(inbox, at);
    AlwaysInvariant(Init(inbox, at), steps);
  }

  /** The keepalive loop took a signal from the runner. */
  predicate SignalTaken(steps: seq<Step>) {
    exists i :: 0 <= i < |steps| && steps[i].KeepSignal?
  }

  /** What has told the loop of a wake: a tick that saw a sleep, or a signal. */
  ghost predicate Told(s: State, signalled: bool) {
    && (s.keep.phase.Unwatched? ==> !signalled)
    && (!s.keep.phase.Unwatched? ==> s.keep.since <= s.keep.watch.last.Drift())
    && (!s.keep.phase.Unwatched? && signalled ==> s.keep.watch.woken)
    && (!s.keep.phase.Unwatched? && s.keep.watch.woken ==> signalled || s.keep.since < s.keep.watch.last.Drift())
    && (s.keep.phase.Confirming? ==> s.keep.since < s.keep.watch.last.Drift())
  }

  lemma {:induction false} StepTells(s: State, step: Step, signalled: bool)
    requires KeeperSound(s.keep, s.clock) && Told(s, signalled) && Enabled(s, step)
    ensures Told(Apply(s, step), signalled || step.KeepSignal?)
  {
    if !WorldStep(step) && !SubStep(step) && !RunStep(step) {
      KeepTells(s, step, signalled);
    } else {
      assert Apply(s, step).keep == s.keep;
    }
  }

  lemma {:induction false} KeepTells(s: State, step: Step, signalled: bool)
    requires KeeperSound(s.keep, s.clock) && Told(s, signalled) && Enabled(s, step)
    requires !WorldStep(step) && !SubStep(step) && !RunStep(step)
    ensures Told(ApplyKeep(s, step), signalled || step.KeepSignal?)
  {
  }

  lemma {:induction false} AlwaysTold(inbox: set<Item>, at: Reading, steps: seq<Step>)
    requires Possible(Init(inbox, at), steps)
    ensures Told(After(Init(inbox, at), steps), SignalTaken(steps))
  {
    if steps != [] {
      var before, last := steps[..|steps| - 1], steps[|steps| - 1];
      AfterLast(Init(inbox, at), steps);
      AlwaysTold(inbox, at, before);
      InitInvariant(inbox, at);
      AlwaysInvariant(Init(inbox, at), before);
      StepTells(After(Init(inbox, at), before), last, SignalTaken(before));
      assert SignalTaken(steps) <==> SignalTaken(before) || last.KeepSignal? by {
        if i :| 0 <= i < |before| && before[i].KeepSignal? { assert steps[i].KeepSignal?; }
        if i :| 0 <= i < |steps| && steps[i].KeepSignal? { assert i < |before| ==> before[i].KeepSignal?; }
      }
    }
  }

  /** Exactly when: a stream opened before the last sleep seen has been dropped if and only if a
      tick has seen a sleep since the watch began or a signal has been taken. */
  lemma {:induction false} SleptStreamIsDroppedIff(inbox: set<Item>, at: Reading, steps: seq<Step>)
    requires Possible(Init(inbox, at), steps)
    ensures
      var s := After(Init(inbox, at), steps);
      s.keep.phase.Idle? && s.sub.stream.Open() && s.sub.born < s.keep.watch.last.Drift() ==>
        (s.sub.dropped <==> s.keep.since < s.keep.watch.last.Drift() || SignalTaken(steps))
  {
    InitInvariant(inbox, at);
    AlwaysInvariant(Init(inbox, at), steps);
    AlwaysTold(inbox, at, steps);
  }

  /** A signal is taken only if the runner sent one. */
  lemma {:induction false} SignalsAreSent(inbox: set<Item>, at: Reading, steps: seq<Step>)
    requires Possible(Init(inbox, at), steps) && forall step | step in steps :: !step.RunnerSignal?
    ensures !SignalTaken(steps) && !After(Init(inbox, at), steps).signal
  {
    if steps != [] {
      var before, last := steps[..|steps| - 1], steps[|steps| - 1];
      AfterLast(Init(inbox, at), steps);
      assert last in steps && forall step | step in before :: step in steps;
      SignalsAreSent(inbox, at, before);
      SignalKept(After(Init(inbox, at), before), last);
      assert forall i | 0 <= i < |steps| :: steps[i] == if i < |before| then before[i] else last;
    }
  }

  lemma {:induction false} SignalKept(s: State, step: Step)
    requires Enabled(s, step) && !s.signal && !step.RunnerSignal?
    ensures !Apply(s, step).signal && !step.KeepSignal?
  {
  }

  /** So with no signal from the runner it has if and only if a tick has seen a sleep since the
      watch began. */
  lemma {:induction false} ClockAloneDropsIff(inbox: set<Item>, at: Reading, steps: seq<Step>)
    requires Possible(Init(inbox, at), steps) && forall step | step in steps :: !step.RunnerSignal?
    ensures
      var s := After(Init(inbox, at), steps);
      s.keep.phase.Idle? && s.sub.stream.Open() && s.sub.born < s.keep.watch.last.Drift() ==>
        (s.sub.dropped <==> s.keep.since < s.keep.watch.last.Drift())
  {
    SignalsAreSent(inbox, at, steps);
    SleptStreamIsDroppedIff(inbox, at, steps);
  }

  /** A run on which it has not been: a sleep between the first stream and the watch's first
      reading is seen by no tick, and the dead stream stays in use. */
  lemma {:induction false} SleepBeforeWatchIsMissed(at: Reading) returns (steps: seq<Step>)
    ensures Possible(Init({}, at), steps)
    ensures
      var s := After(Init({}, at), steps);
      && s.keep.phase.Idle? && s.sub.stream == Dead([]) && s.sub.phase.Receiving?
      && s.sub.born < s.keep.watch.last.Drift() && !s.sub.dropped && !s.wakeSync && !s.wake
  {
    var init := Init({}, at);
    var first := FirstStream(at);
    var slept := Apply(After(init, first), Freeze(SECOND, 0));
    steps := Then(init, first, Freeze(SECOND, 0));
    steps := Then(init, steps, KeepBegin);
    UnseenSleep(slept);
    steps := Then(init, steps, KeepTick);
  }

  lemma {:induction false} UnseenSleep(s: State)
    requires s.keep.phase.Unwatched? && s.sub.stream == Dead([]) && s.sub.phase.Receiving?
    requires s.sub.born < s.clock.Drift() && !s.sub.dropped && !s.wakeSync && !s.wake
    ensures
      var s' := Apply(Apply(s, KeepBegin), KeepTick);
      && s'.keep.phase.Idle? && s'.keep.watch.last == s.clock
      && s'.sub == s.sub && !s'.wakeSync && !s'.wake
  {
  }

  lemma {:induction false} FirstStream(at: Reading) returns (steps: seq<Step>)
    ensures Possible(Init({}, at), steps)
    ensures var init := Init({}, at); After(init, steps) == Apply(Apply(Apply(init, SubBegin), SubscribeOk), SignalOpen)
  {
    var init := Init({}, at);
    steps := Then(init, [], SubBegin);
    steps := Then(init, steps, SubscribeOk);
    steps := Then(init, steps, SignalOpen);
  }
}
