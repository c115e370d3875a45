// The keepalive loop as the wake protocol steps it is the loop of Wake.dfy: the same signs at the
// same readings lead it to the same drops and asks (internal/daemon/keepalive.go:24-86).

module WakeKeeper {
  import opened Clocks
  import opened WakeProtocol
  import opened WakeRecord
  import Wake

  /** The clocks as a run leaves them. */
  function ClockAt(at: Reading, steps: seq<Step>): Reading {
    Reading(at.wall + Ran(steps) + Slept(steps), at.mono + Ran(steps))
  }

  /** The events once a step is taken, from those before it. */
  function EventsAfter(events: seq<Wake.Event>, step: Step, now: Reading): seq<Wake.Event> {
    match step
    case KeepSignal => events + [Wake.Signal(now)]
    case KeepTick => events + [Wake.Tick(now, now)]
    case KeepConfirm => if events != [] && events[|events| - 1].Tick? then events[|events| - 1 := Wake.Tick(events[|events| - 1].at, now)] else events
    case _ => events
  }

  /** The events the loop is woken by: a tick is read once, and once more if it has seen a sleep. */
  function Events(at: Reading, steps: seq<Step>): seq<Wake.Event> {
    if steps == [] then [] else
      var init := steps[..|steps| - 1];
      EventsAfter(Events(at, init), steps[|steps| - 1], ClockAt(at, init))
  }

  /** The reading the watch began with. */
  function Beginning(at: Reading, steps: seq<Step>): Reading {
    if steps == [] then at
    else if steps[|steps| - 1].KeepBegin? then ClockAt(at, steps[..|steps| - 1])
    else Beginning(at, steps[..|steps| - 1])
  }

  const DROPS: Step -> bool := (step: Step) => step.KeepDrop?
  const ASKS: Step -> bool := (step: Step) => step.KeepAsk?

  /** The loop of Wake.dfy after the run's events, with the last one taken only as far as its
      first reading while the second is due. */
  ghost predicate Matches(keep: Keeper, start: Reading, events: seq<Wake.Event>, drops: nat, asks: nat) {
    match keep.phase
    case Unwatched => events == [] && drops == 0 && asks == 0
    case Confirming =>
      && events != [] && events[|events| - 1].Tick?
      && (var k, seen := Wake.HandleAll(Wake.Start(start), events[..|events| - 1]), events[|events| - 1].at;
          && keep.watch == Wake.Ticked(k.watch, seen) && Wake.Jump(k.watch.last, seen) >= Wake.WAKE_SLEEP_FLOOR
          && Wake.Drops(k.actions) == drops == asks)
    case _ =>
      var k := Wake.HandleAll(Wake.Start(start), events);
      && keep.watch == k.watch
      && Wake.Drops(k.actions) == drops + (if keep.phase.Dropping? then 1 else 0)
      && Wake.Drops(k.actions) == asks + (if keep.phase.Dropping? || keep.phase.Asking? then 1 else 0)
  }

  lemma {:induction false} OneEvent(k: Wake.Keepalive, e: Wake.Event)
    requires Wake.ActedInFull(k.actions)
    ensures Wake.Drops(Wake.Handle(k, e).actions) == Wake.Drops(k.actions) + if Wake.IsWake(k, e) then 1 else 0
  {
    Wake.EventActs(k, e);
  }

  lemma {:induction false} LastEvent(start: Reading, events: seq<Wake.Event>, e: Wake.Event)
    ensures
      var k := Wake.HandleAll(Wake.Start(start), events);
      var k' := Wake.HandleAll(Wake.Start(start), events + [e]);
      k' == Wake.Handle(k, e) && Wake.Drops(k'.actions) == Wake.Drops(k.actions) + if Wake.IsWake(k, e) then 1 else 0
  {
    assert (events + [e])[..|events|] == events;
    Wake.WokenMeansAsked(start, events);
    OneEvent(Wake.HandleAll(Wake.Start(start), events), e);
  }

  lemma {:induction false} BeginMatches(s: State, start: Reading)
    requires s.keep.phase.Unwatched? && start == s.clock
    ensures Matches(Apply(s, KeepBegin).keep, start, [], 0, 0)
  {
    var first := Wake.Start(start);
    assert first.actions == [Wake.Touch] && first.actions[..0] == [];
  }

  lemma {:induction false} SignalMatches(s: State, start: Reading, events: seq<Wake.Event>, n: nat)
    requires s.keep.phase.Idle? && s.signal && Matches(s.keep, start, events, n, n)
    ensures Matches(Apply(s, KeepSignal).keep, start, events + [Wake.Signal(s.clock)], n, n)
  {
    LastEvent(start, events, Wake.Signal(s.clock));
  }

  lemma {:induction false} CalmTick(k: Wake.Keepalive, now: Reading)
    requires Wake.Jump(k.watch.last, now) < Wake.WAKE_SLEEP_FLOOR
    ensures Wake.Handle(k, Wake.Tick(now, now)).watch == Wake.Ticked(k.watch, now) && !Wake.IsWake(k, Wake.Tick(now, now))
  {
  }

  lemma {:induction false} CalmTickMatches(s: State, start: Reading, events: seq<Wake.Event>, n: nat)
    requires s.keep.phase.Idle? && Matches(s.keep, start, events, n, n)
    requires Wake.Jump(s.keep.watch.last, s.clock) < Wake.WAKE_SLEEP_FLOOR
    ensures Matches(Apply(s, KeepTick).keep, start, events + [Wake.Tick(s.clock, s.clock)], n, n)
  {
    CalmTick(Wake.HandleAll(Wake.Start(start), events), s.clock);
    LastEvent(start, events, Wake.Tick(s.clock, s.clock));
  }

  lemma {:induction false} SleptTickMatches(s: State, start: Reading, events: seq<Wake.Event>, n: nat)
    requires s.keep.phase.Idle? && Matches(s.keep, start, events, n, n)
    requires Wake.Jump(s.keep.watch.last, s.clock) >= Wake.WAKE_SLEEP_FLOOR
    ensures Matches(Apply(s, KeepTick).keep, start, events + [Wake.Tick(s.clock, s.clock)], n, n)
  {
    var e := Wake.Tick(s.clock, s.clock);
    assert (events + [e])[..|events + [e]| - 1] == events && (events + [e])[|events|] == e;
  }

  lemma {:induction false} TickMatches(s: State, start: Reading, events: seq<Wake.Event>, n: nat)
    requires s.keep.phase.Idle? && Matches(s.keep, start, events, n, n)
    ensures Matches(Apply(s, KeepTick).keep, start, events + [Wake.Tick(s.clock, s.clock)], n, n)
  {
    if Wake.Jump(s.keep.watch.last, s.clock) < Wake.WAKE_SLEEP_FLOOR {
      CalmTickMatches(s, start, events, n);
    } else {
      SleptTickMatches(s, start, events, n);
    }
  }

  /** The second reading of a tick decides. */
  lemma {:induction false} ConfirmedTick(k: Wake.Keepalive, seen: Reading, now: Reading)
    requires Wake.Jump(k.watch.last, seen) >= Wake.WAKE_SLEEP_FLOOR
    ensures Wake.Handle(k, Wake.Tick(seen, now)).watch == Wake.Admitted(Wake.Ticked(k.watch, seen), now)
    ensures Wake.IsWake(k, Wake.Tick(seen, now)) <==> Wake.Fresh(Wake.Ticked(k.watch, seen), now)
  {
  }

  lemma {:induction false} ConfirmMatches(s: State, start: Reading, events: seq<Wake.Event>, n: nat)
    requires s.keep.phase.Confirming? && Matches(s.keep, start, events, n, n)
    ensures Matches(Apply(s, KeepConfirm).keep, start, events[|events| - 1 := Wake.Tick(events[|events| - 1].at, s.clock)], n, n)
  {
    var before, seen := events[..|events| - 1], events[|events| - 1].at;
    ConfirmedTick(Wake.HandleAll(Wake.Start(start), before), seen, s.clock);
    LastEvent(start, before, Wake.Tick(seen, s.clock));
    assert events[|events| - 1 := Wake.Tick(seen, s.clock)] == before + [Wake.Tick(seen, s.clock)];
  }

  lemma {:induction false} OthersLeaveKeeper(s: State, step: Step)
    requires Enabled(s, step) && (WorldStep(step) || SubStep(step) || RunStep(step))
    ensures Apply(s, step).keep == s.keep
  {
  }

  lemma {:induction false} StepMatches(s: State, step: Step, start: Reading, events: seq<Wake.Event>, drops: nat, asks: nat)
    requires Enabled(s, step) && !WorldStep(step) && !SubStep(step) && !RunStep(step)
    requires Matches(s.keep, start, events, drops, asks)
    ensures
      Matches(Apply(s, step).keep, if step.KeepBegin? then s.clock else start, EventsAfter(events, step, s.clock),
              drops + if step.KeepDrop? then 1 else 0, asks + if step.KeepAsk? then 1 else 0)
  {
    match step {
      case KeepBegin => BeginMatches(s, s.clock);
      case KeepSignal => SignalMatches(s, start, events, drops);
      case KeepTick => TickMatches(s, start, events, drops);
      case KeepConfirm => ConfirmMatches(s, start, events, drops);
      case KeepDrop =>
      case KeepAsk =>
    }
  }

  lemma {:induction false} RunMatches(s: State, step: Step, at: Reading, steps: seq<Step>)
    requires Enabled(s, step) && s.clock == ClockAt(at, steps)
    requires Matches(s.keep, Beginning(at, steps), Events(at, steps), Count(steps, DROPS), Count(steps, ASKS))
    ensures
      var more := steps + [step];
      Matches(Apply(s, step).keep, Beginning(at, more), Events(at, more), Count(more, DROPS), Count(more, ASKS))
  {
    assert (steps + [step])[..|steps|] == steps;
    if WorldStep(step) || SubStep(step) || RunStep(step) {
      OthersLeaveKeeper(s, step);
    } else {
      StepMatches(s, step, Beginning(at, steps), Events(at, steps), Count(steps, DROPS), Count(steps, ASKS));
    }
  }

  /** Over every run of the protocol the keepalive loop holds the watch that the loop of Wake.dfy
      holds after the same events, and has dropped and asked as often, but for what it is about to
      do: a repeat of a wake already handled is not acted on again. */
  lemma {:induction false} KeeperIsTheLoop(inbox: set<Item>, at: Reading, steps: seq<Step>)
    requires Possible(Init(inbox, at), steps)
    ensures Matches(After(Init(inbox, at), steps).keep, Beginning(at, steps), Events(at, steps), Count(steps, DROPS), Count(steps, ASKS))
  {
    if steps != [] {
      var init, last := steps[..|steps| - 1], steps[|steps| - 1];
      AfterLast(Init(inbox, at), steps);
      KeeperIsTheLoop(inbox, at, init);
      ClocksFollow(inbox, at, init);
      RunMatches(After(Init(inbox, at), init), last, at, init);
      assert steps == init + [last];
    }
  }
}
