// The wake watch and the keepalive loop (internal/daemon/wake.go, keepalive.go).

module Wake {
  import opened Clocks

  const WAKE_SLEEP_FLOOR: int := SECOND

  /** The watch's fields as a value. */
  datatype Watch = Watch(last: Reading, handled: Reading, woken: bool)

  function NewWatch(at: Reading): Watch {
    // handled starts as the zero reading and is not looked at before woken is set.
    Watch(at, Reading(0, 0), false)
  }

  function Jump(from: Reading, to: Reading): int {
    (to.wall - from.wall) - (to.mono - from.mono)
  }

  function Abs(x: int): int {
    if x < 0 then -x else x
  }

  /** Whether a sign read at now is a wake of its own. */
  predicate Fresh(w: Watch, now: Reading) {
    !w.woken || Abs(Jump(w.handled, now)) >= WAKE_SLEEP_FLOOR
  }

  function Ticked(w: Watch, now: Reading): Watch {
    w.(last := now)
  }

  function Admitted(w: Watch, now: Reading): Watch {
    if Fresh(w, now) then w.(woken := true, handled := now) else w
  }

  class WakeWatch {
    var last: Reading
    var handled: Reading
    var woken: bool

    ghost function State(): Watch
      reads this
    {
      Watch(last, handled, woken)
    }

    constructor (at: Reading)
      ensures State() == NewWatch(at)
    {
      last := at;
      handled := Reading(0, 0);
      woken := false;
    }

    method Tick(now: Reading) returns (jump: int)
      modifies this`last
      ensures jump == now.Drift() - old(last).Drift()
      ensures State() == Ticked(old(State()), now)
    {
      jump := (now.wall - last.wall) - (now.mono - last.mono);
      last := now;
    }

    method Admit(now: Reading) returns (isNew: bool)
      modifies this`handled, this`woken
      ensures isNew == Fresh(old(State()), now)
      ensures
        var apart := (now.wall - old(handled.wall)) - (now.mono - old(handled.mono));
        isNew <==> !old(woken) || apart <= -SECOND || SECOND <= apart
      ensures State() == Admitted(old(State()), now)
    {
      if woken {
        var apart := (now.wall - handled.wall) - (now.mono - handled.mono);
        if -WAKE_SLEEP_FLOOR < apart < WAKE_SLEEP_FLOOR {
          return false;
        }
      }
      woken, handled := true, now;
      return true;
    }
  }

  /** What the keepalive loop can be woken by. A tick carries two looks at the
      clocks: its own and the one admit takes if the first calls for it, between
      which a sleep may fall. */
  datatype Event = Processing | Signal(at: Reading) | Tick(at: Reading, confirm: Reading)

  /** What the loop does to the rest of the daemon: drop the subscription's stream, ask for an
      inbox read, report the workload active. */
  datatype Action = Drop | Ask | Touch

  /** The loop's state: the watch, whether an inbox read is pending, what it has done so far. */
  datatype Keepalive = Keepalive(watch: Watch, wakeSync: bool, actions: seq<Action>)

  function Start(at: Reading): Keepalive {
    Keepalive(NewWatch(at), false, [Touch])
  }

  function Woken(k: Keepalive, now: Reading): Keepalive {
    if Fresh(k.watch, now)
    then Keepalive(Admitted(k.watch, now), true, k.actions + [Drop, Ask, Touch])
    else k
  }

  function Touched(k: Keepalive): Keepalive {
    k.(actions := k.actions + [Touch])
  }

  function Handle(k: Keepalive, e: Event): Keepalive {
    match e
    case Processing => Touched(k)
    case Signal(at) => Woken(k, at)
    case Tick(at, confirm) =>
      var ticked := k.(watch := Ticked(k.watch, at));
      Touched(if Jump(k.watch.last, at) >= WAKE_SLEEP_FLOOR then Woken(ticked, confirm) else ticked)
  }

  function HandleAll(k: Keepalive, events: seq<Event>): Keepalive {
    if events == [] then k else Handle(HandleAll(k, events[..|events| - 1]), events[|events| - 1])
  }

  class KeepaliveLoop {
    const watch: WakeWatch
    var wakeSync: bool
    var actions: seq<Action>

    ghost function State(): Keepalive
      reads this, watch
    {
      Keepalive(watch.State(), wakeSync, actions)
    }

    constructor (at: Reading)
      ensures State() == Start(at) && fresh(watch)
    {
      watch := new WakeWatch(at);
      wakeSync, actions := false, [Touch];
    }

    method NoteWake(now: Reading)
      modifies this, watch
      ensures State() == Woken(old(State()), now)
    {
      var isNew := watch.Admit(now);
      if !isNew {
        return;
      }
      actions := actions + [Drop];
      if !wakeSync {
        wakeSync := true;
      }
      actions := actions + [Ask];
      actions := actions + [Touch];
    }

    /** The select loop, over the events it is woken by in turn. */
    method Run(events: seq<Event>)
      modifies this, watch
      ensures State() == HandleAll(old(State()), events)
    {
      var i := 0;
      while i < |events|
        invariant 0 <= i <= |events|
        invariant State() == HandleAll(old(State()), events[..i])
      {
        assert events[..i + 1][..i] == events[..i];
        match events[i] {
          case Processing =>
            actions := actions + [Touch];
          case Signal(at) =>
            NoteWake(at);
          case Tick(at, confirm) =>
            var jump := watch.Tick(at);
            if jump >= WAKE_SLEEP_FLOOR {
              NoteWake(confirm);
            }
            actions := actions + [Touch];
        }
        i := i + 1;
      }
      assert events[..i] == events;
    }
  }

  /** The readings an event takes, in order. */
  function Readings(e: Event): seq<Reading> {
    match e
    case Processing => []
    case Signal(at) => [at]
    case Tick(at, confirm) => [at, confirm]
  }

  function AllReadings(events: seq<Event>): seq<Reading> {
    if events == [] then [] else AllReadings(events[..|events| - 1]) + Readings(events[|events| - 1])
  }

  /** The clock assumption: from start on, every reading follows the one before. */
  ghost predicate Plausible(start: Reading, events: seq<Event>) {
    var all := [start] + AllReadings(events);
    forall i | 0 <= i < |all| - 1 :: Follows(all[i], all[i + 1])
  }

  /** The last reading taken. */
  function Latest(start: Reading, events: seq<Event>): Reading {
    var all := [start] + AllReadings(events);
    all[|all| - 1]
  }

  lemma {:induction false} PlausiblePrefix(start: Reading, events: seq<Event>)
    requires events != [] && Plausible(start, events)
    ensures Plausible(start, events[..|events| - 1])
    ensures
      var before := Latest(start, events[..|events| - 1]);
      match events[|events| - 1]
      case Processing => Latest(start, events) == before
      case Signal(at) => Follows(before, at) && Latest(start, events) == at
      case Tick(at, confirm) => Follows(before, at) && Follows(at, confirm) && Latest(start, events) == confirm
  {
    var prefix := [start] + AllReadings(events[..|events| - 1]);
    var all := [start] + AllReadings(events);
    assert all == prefix + Readings(events[|events| - 1]);
    forall i | 0 <= i < |prefix| - 1 ensures Follows(prefix[i], prefix[i + 1]) {
      assert Follows(all[i], all[i + 1]);
    }
    assert Readings(events[|events| - 1]) != [] ==> Follows(all[|prefix| - 1], all[|prefix|]);
    assert |Readings(events[|events| - 1])| == 2 ==> Follows(all[|prefix|], all[|prefix| + 1]);
  }

  /** What every event keeps, with latest the last reading taken. */
  ghost predicate Certain(w: Watch, start: Reading, latest: Reading) {
    && Follows(start, w.last)
    && Follows(w.last, latest)
    && (w.woken ==> Follows(w.handled, latest) && start.Drift() <= w.handled.Drift())
    && (w.last.Drift() == start.Drift() || (w.woken && w.last.Drift() <= w.handled.Drift()))
  }

  lemma {:induction false} AlwaysCertain(start: Reading, events: seq<Event>)
    requires Plausible(start, events)
    ensures Certain(HandleAll(Start(start), events).watch, start, Latest(start, events))
  {
    if events != [] {
      PlausiblePrefix(start, events);
      AlwaysCertain(start, events[..|events| - 1]);
    }
  }

  /** The clock makes the wake certain: once a tick is processed, either no sleep
      has been seen since the loop began, or the last reading admitted was taken
      after the latest sleep this tick saw -- whatever signals came, were lost, or
      fell between the two clock reads. */
  lemma {:induction false} TickMakesWakeCertain(start: Reading, events: seq<Event>)
    requires events != [] && events[|events| - 1].Tick?
    requires Plausible(start, events)
    ensures
      var k := HandleAll(Start(start), events);
      var seen := events[|events| - 1].at;
      && start.Drift() <= seen.Drift()
      && (seen.Drift() != start.Drift() ==> k.watch.woken && seen.Drift() <= k.watch.handled.Drift() && k.wakeSync && Drops(k.actions) > 0)
  {
    AlwaysCertain(start, events);
    WokenMeansAsked(start, events);
  }

  /** How many wakes were acted on. */
  function Drops(actions: seq<Action>): nat {
    if actions == [] then 0
    else Drops(actions[..|actions| - 1]) + if actions[|actions| - 1].Drop? then 1 else 0
  }

  lemma {:induction false} DropsConcat(a: seq<Action>, b: seq<Action>)
    ensures Drops(a + b) == Drops(a) + Drops(b)
  {
    if b == [] {
      assert a + b == a;
    } else {
      assert (a + b)[..|a + b| - 1] == a + b[..|b| - 1];
      DropsConcat(a, b[..|b| - 1]);
    }
  }

  /** Each drop is followed at once by asking for a read and a touch, and a read is asked for
      at no other time. */
  ghost predicate ActedInFull(actions: seq<Action>) {
    && (forall i | 0 <= i < |actions| && actions[i].Drop? ::
          i + 2 < |actions| && actions[i + 1].Ask? && actions[i + 2].Touch?)
    && forall i | 0 <= i < |actions| && actions[i].Ask? :: i > 0 && actions[i - 1].Drop?
  }

  lemma {:induction false} MoreActions(a: seq<Action>)
    requires ActedInFull(a)
    ensures ActedInFull(a + [Touch]) && Drops(a + [Touch]) == Drops(a)
    ensures ActedInFull(a + [Drop, Ask, Touch]) && Drops(a + [Drop, Ask, Touch]) == Drops(a) + 1
  {
    DropsConcat(a, [Touch]);
    DropsConcat(a, [Drop, Ask, Touch]);
    assert [Drop, Ask, Touch][..2] == [Drop, Ask] && [Drop, Ask][..1] == [Drop];
  }

  /** Every wake acted on drops the stream, then asks for a read, then touches the workload;
      a read is pending exactly when there was one. */
  lemma {:induction false} WokenMeansAsked(start: Reading, events: seq<Event>)
    ensures
      var k := HandleAll(Start(start), events);
      && (k.watch.woken <==> Drops(k.actions) > 0)
      && (k.wakeSync <==> Drops(k.actions) > 0)
      && ActedInFull(k.actions) && k.actions[..1] == [Touch]
  {
    if events != [] {
      var prefix, e := events[..|events| - 1], events[|events| - 1];
      WokenMeansAsked(start, prefix);
      EventActs(HandleAll(Start(start), prefix), e);
    }
  }

  function Touches(actions: seq<Action>): nat {
    if actions == [] then 0
    else Touches(actions[..|actions| - 1]) + if actions[|actions| - 1].Touch? then 1 else 0
  }

  lemma {:induction false} TouchesConcat(a: seq<Action>, b: seq<Action>)
    ensures Touches(a + b) == Touches(a) + Touches(b)
  {
    if b == [] {
      assert a + b == a;
    } else {
      assert (a + b)[..|a + b| - 1] == a + b[..|b| - 1];
      TouchesConcat(a, b[..|b| - 1]);
    }
  }

  /** The events that say the workload is at work or the clock has ticked. */
  function Beats(events: seq<Event>): nat {
    if events == [] then 0
    else Beats(events[..|events| - 1]) + if events[|events| - 1].Signal? then 0 else 1
  }

  lemma {:induction false} MoreTouches(a: seq<Action>)
    ensures Touches(a + [Touch]) == Touches(a) + 1 && Drops(a + [Touch]) == Drops(a)
    ensures Touches(a + [Drop, Ask, Touch]) == Touches(a) + 1 && Drops(a + [Drop, Ask, Touch]) == Drops(a) + 1
  {
    TouchesConcat(a, [Touch]);
    DropsConcat(a, [Touch]);
    TouchesConcat(a, [Drop, Ask, Touch]);
    DropsConcat(a, [Drop, Ask, Touch]);
    assert [Drop, Ask, Touch][..2] == [Drop, Ask] && [Drop, Ask][..1] == [Drop];
  }

  lemma {:induction false} EventTouches(k: Keepalive, e: Event)
    ensures Touches(Handle(k, e).actions) - Drops(Handle(k, e).actions) ==
      Touches(k.actions) - Drops(k.actions) + if e.Signal? then 0 else 1
  {
    MoreTouches(k.actions);
    match e {
      case Processing =>
      case Signal(at) =>
      case Tick(at, confirm) =>
        var ticked := k.(watch := Ticked(k.watch, at));
        MoreTouches(ticked.actions);
        MoreTouches(Woken(ticked, confirm).actions);
    }
  }

  /** The workload is touched once to begin with, once for each tick and each start of
      processing, and once for each wake acted on. */
  lemma {:induction false} TouchesCounted(start: Reading, events: seq<Event>)
    ensures
      var actions := HandleAll(Start(start), events).actions;
      Touches(actions) == 1 + Beats(events) + Drops(actions)
  {
    if events == [] {
      assert [Touch][..0] == [];
    } else {
      var prefix, e := events[..|events| - 1], events[|events| - 1];
      TouchesCounted(start, prefix);
      EventTouches(HandleAll(Start(start), prefix), e);
    }
  }

  /** The event is a sign of a wake, and of one not acted on yet. */
  predicate IsWake(k: Keepalive, e: Event) {
    match e
    case Processing => false
    case Signal(at) => Fresh(k.watch, at)
    case Tick(at, confirm) => Jump(k.watch.last, at) >= WAKE_SLEEP_FLOOR && Fresh(k.watch, confirm)
  }

  /** From k to k', acting on one wake or on none. */
  ghost predicate Acts(k: Keepalive, k': Keepalive, wake: bool) {
    && ActedInFull(k'.actions) && k.actions <= k'.actions
    && Drops(k'.actions) == Drops(k.actions) + (if wake then 1 else 0)
    && k'.wakeSync == (k.wakeSync || wake)
    && k'.watch.woken == (k.watch.woken || wake)
  }

  lemma {:induction false} EventActs(k: Keepalive, e: Event)
    requires ActedInFull(k.actions)
    ensures Acts(k, Handle(k, e), IsWake(k, e))
  {
    match e {
      case Processing =>
        TouchActs(k, k, false);
      case Signal(at) =>
        WokenActs(k, at);
      case Tick(at, confirm) =>
        var ticked := k.(watch := Ticked(k.watch, at));
        if Jump(k.watch.last, at) >= WAKE_SLEEP_FLOOR {
          WokenActs(ticked, confirm);
          TouchActs(k, Woken(ticked, confirm), Fresh(k.watch, confirm));
        } else {
          TouchActs(k, ticked, false);
        }
    }
  }

  lemma {:induction false} TouchActs(k: Keepalive, k': Keepalive, wake: bool)
    requires Acts(k, k', wake)
    ensures Acts(k, Touched(k'), wake)
  {
    MoreActions(k'.actions);
  }

  lemma {:induction false} WokenActs(k: Keepalive, now: Reading)
    requires ActedInFull(k.actions)
    ensures Acts(k, Woken(k, now), Fresh(k.watch, now))
  {
    MoreActions(k.actions);
  }

  /** The drift at which an event shows a sign of a wake: the reading offered to admit. */
  function Signs(w: Watch, e: Event): set<int> {
    match e
    case Processing => {}
    case Signal(at) => {at.Drift()}
    case Tick(at, confirm) => if Jump(w.last, at) >= WAKE_SLEEP_FLOOR then {confirm.Drift()} else {}
  }

  /** The drifts at which signs of a wake were seen. */
  function SignDrifts(start: Reading, events: seq<Event>): set<int> {
    if events == [] then {} else
      var prefix := events[..|events| - 1];
      SignDrifts(start, prefix) + Signs(HandleAll(Start(start), prefix).watch, events[|events| - 1])
  }

  /** Wakes are counted exactly: the signs admitted over any run number the distinct
      values of wall minus monotonic at which signs were seen, so repeats of one wake
      fold however late they come and two wakes never fold however close. */
  lemma {:induction false} WakesCountedExactly(start: Reading, events: seq<Event>)
    requires Plausible(start, events)
    ensures
      var k := HandleAll(Start(start), events);
      && Drops(k.actions) == |SignDrifts(start, events)|
      && Counted(k.watch, SignDrifts(start, events))
  {
    if events != [] {
      var prefix, e := events[..|events| - 1], events[|events| - 1];
      PlausiblePrefix(start, events);
      WakesCountedExactly(start, prefix);
      AlwaysCertain(start, prefix);
      WokenMeansAsked(start, prefix);
      var before := HandleAll(Start(start), prefix);
      EventActs(before, e);
      SignIsCounted(before, e, Latest(start, prefix), SignDrifts(start, prefix));
    }
  }

  lemma {:induction false} SignIsCounted(k: Keepalive, e: Event, latest: Reading, seen: set<int>)
    requires Follows(k.watch.last, latest)
    requires Counted(k.watch, seen) && (k.watch.woken ==> Follows(k.watch.handled, latest))
    requires e.Signal? ==> Follows(latest, e.at)
    requires e.Tick? ==> Follows(latest, e.at) && Follows(e.at, e.confirm)
    ensures
      var w, all := Handle(k, e).watch, seen + Signs(k.watch, e);
      |all| == |seen| + (if IsWake(k, e) then 1 else 0) && Counted(w, all)
  {
    match e {
      case Processing =>
        assert seen + Signs(k.watch, e) == seen;
      case Signal(at) =>
        FreshIsNewDrift(k.watch, at, seen);
        assert Handle(k, e).watch == Admitted(k.watch, at);
      case Tick(at, confirm) =>
        if Jump(k.watch.last, at) < WAKE_SLEEP_FLOOR {
          assert seen + Signs(k.watch, e) == seen;
        } else {
          FreshIsNewDrift(Ticked(k.watch, at), confirm, seen);
          assert Handle(k, e).watch == Admitted(Ticked(k.watch, at), confirm);
        }
    }
  }

  /** The last wake acted on is the latest of the drifts seen. */
  ghost predicate Counted(w: Watch, seen: set<int>) {
    && (w.woken ==> w.handled.Drift() in seen)
    && forall d | d in seen :: w.woken && d <= w.handled.Drift()
  }

  /** A reading offered to admit is acted on exactly when its drift is a new one. */
  lemma {:induction false} FreshIsNewDrift(w: Watch, now: Reading, seen: set<int>)
    requires Counted(w, seen) && (w.woken ==> Follows(w.handled, now))
    ensures Fresh(w, now) <==> now.Drift() !in seen
    ensures |seen + {now.Drift()}| == if Fresh(w, now) then |seen| + 1 else |seen|
    ensures Counted(Admitted(w, now), seen + {now.Drift()})
  {
    if now.Drift() in seen {
      assert seen + {now.Drift()} == seen;
    }
  }
}
