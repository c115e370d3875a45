// The guest's two clocks and what is assumed of them (internal/daemon/wake.go:7-27): together they
// tell a sleep, which only the wall clock counts. Time is counted in nanoseconds.

module Clocks {
  const SECOND: int := 1_000_000_000

  /** The guest's two clocks read at one instant. Only the wall clock counts the time the
      guest is frozen for, because it is set right when the guest resumes. */
  datatype Reading = Reading(wall: int, mono: int) {

    /** How far the wall clock stands ahead of the monotonic one. */
    function Drift(): int {
      wall - mono
    }
  }

  /** What the two clocks do: advance together, or the wall clock alone by the length of a
      sleep. */
  datatype ClockStep = Running(elapsed: nat) | Sleep(length: nat)

  function Advance(at: Reading, step: ClockStep): Reading {
    match step
    case Running(elapsed) => Reading(at.wall + elapsed, at.mono + elapsed)
    case Sleep(length) => Reading(at.wall + length, at.mono)
  }

  function AdvanceAll(at: Reading, steps: seq<ClockStep>): Reading
    decreases |steps|
  {
    if steps == [] then at else AdvanceAll(Advance(at, steps[0]), steps[1..])
  }

  /** The assumption about the guest: no sleep is shorter than a second. */
  ghost predicate Realistic(steps: seq<ClockStep>) {
    forall i | 0 <= i < |steps| :: steps[i].Sleep? ==> SECOND <= steps[i].length
  }

  /** later can be read after earlier: no sleep in between, or at least a second of it. */
  predicate Follows(earlier: Reading, later: Reading) {
    later.Drift() == earlier.Drift() || earlier.Drift() + SECOND <= later.Drift()
  }

  lemma {:induction false} ReadingsFollow(at: Reading, steps: seq<ClockStep>)
    requires Realistic(steps)
    ensures Follows(at, AdvanceAll(at, steps))
    ensures AdvanceAll(at, steps).Drift() == at.Drift() <==> forall i | 0 <= i < |steps| :: steps[i].Running?
    decreases |steps|
  {
    if steps != [] {
      var next := Advance(at, steps[0]);
      assert Follows(at, next);
      ReadingsFollow(next, steps[1..]);
      assert forall i | 0 <= i < |steps[1..]| :: steps[1..][i] == steps[i + 1];
      if AdvanceAll(at, steps).Drift() == at.Drift() {
        forall i | 0 <= i < |steps| ensures steps[i].Running? {
          if i > 0 { assert steps[i] == steps[1..][i - 1]; }
        }
      }
    }
  }
}
