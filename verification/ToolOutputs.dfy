// Which tool outputs reach the call they belong to.

module ToolOutputs {
  // A waiting call is held by a pointer into its step's slice
  // (internal/transcript/claude.go:136-137, codex.go:228), and a later append to that slice may
  // leave the pointer behind.

  import opened Transcript
  import opened Builder

  /** A call's place in the turns. */
  datatype Slot = Slot(turn: nat, step: nat, index: nat)

  function SlotOf(r: Ref): Slot {
    Slot(r.turn, r.step, r.index)
  }

  function CallsAt(s: State, turn: nat, step: nat): Calls
    requires turn < |s.turns| && step < |s.turns[turn].steps|
  {
    s.turns[turn].steps[step].calls
  }

  predicate Valid(s: State, slot: Slot) {
    && slot.turn < |s.turns| && slot.step < |s.turns[slot.turn].steps|
    && slot.index < |CallsAt(s, slot.turn, slot.step).View()|
  }

  /** The call as the turns show it. */
  function CallAt(s: State, slot: Slot): ToolCall
    requires Valid(s, slot)
  {
    CallsAt(s, slot.turn, slot.step).View()[slot.index]
  }

  /** No append after element index, up to n elements in all, allocated a new array. */
  ghost predicate Stays(moves: Growth, index: nat, n: nat) {
    forall k: nat | index < k < n :: !moves(k)
  }

  /** A waiting call's pointer: it reaches the array the turns show exactly when no append
      since has moved it. */
  ghost predicate Placed(moves: Growth, s: State, id: string, r: Ref) {
    && InRange(s, r) && Valid(s, SlotOf(r))
    && Pointee(s, r).callID == id
    && var calls := CallsAt(s, r.turn, r.step);
       (r.block == |calls.arrays| - 1 <==> Stays(moves, r.index, |calls.View()|))
  }

  ghost predicate WellPlaced(moves: Growth, s: State) {
    && (forall id | id in s.pending :: Placed(moves, s, id, s.pending[id]))
    && forall a, b | a in s.pending && b in s.pending && a != b :: SlotOf(s.pending[a]) != SlotOf(s.pending[b])
  }

  /** The atom is the result the call in slot waits for. */
  predicate Answers(s: State, atom: Atom, slot: Slot) {
    atom.Result? && atom.callID in s.pending && SlotOf(s.pending[atom.callID]) == slot
  }

  lemma {:induction false} WriteKeepsSlot(s: State, r: Ref, call: ToolCall, slot: Slot)
    requires InRange(s, r) && Valid(s, slot) && SlotOf(r) != slot
    ensures Valid(Write(s, r, call), slot) && CallAt(Write(s, r, call), slot) == CallAt(s, slot)
  {
  }

  /** Whatever is not its answer leaves a call alone. */
  lemma {:induction false} SlotKept(moves: Growth, s: State, atom: Atom, slot: Slot)
    requires Valid(s, slot) && !Answers(s, atom, slot)
    ensures Valid(Apply(moves, s, atom), slot) && CallAt(Apply(moves, s, atom), slot) == CallAt(s, slot)
  {
    if atom.Result? && atom.callID in s.pending && InRange(s, s.pending[atom.callID]) {
      var r := s.pending[atom.callID];
      WriteKeepsSlot(s, r, Answered(Pointee(s, r), atom.output, atom.at, atom.failed), slot);
    } else if atom.Call? && HasStep(s) {
      AppendKeepsSlot(moves, s, NewCall(atom.callID, atom.name, atom.server, atom.at, atom.arguments), slot);
    } else if !atom.Call? && !atom.Result? {
      OthersKeepCalls(moves, s, atom);
    }
  }

  lemma {:induction false} AppendKeepsSlot(moves: Growth, s: State, call: ToolCall, slot: Slot)
    requires HasStep(s) && Valid(s, slot)
    ensures Valid(Called(moves, s, call), slot) && CallAt(Called(moves, s, call), slot) == CallAt(s, slot)
  {
    var calls := CurrentStep(s).calls;
    assert AppendCall(moves, calls, call).View() == calls.View() + [call];
  }

  /** An answer reaches its call exactly when the pointer still points at what is shown. */
  lemma {:induction false} AnswerHits(moves: Growth, s: State, atom: Atom, slot: Slot)
    requires WellPlaced(moves, s) && Valid(s, slot) && Answers(s, atom, slot)
    ensures
      var s' := Apply(moves, s, atom);
      && Valid(s', slot) && atom.callID !in s'.pending
      && CallAt(s', slot) ==
           if Stays(moves, slot.index, |CallsAt(s, slot.turn, slot.step).View()|)
           then Answered(CallAt(s, slot), atom.output, atom.at, atom.failed)
           else CallAt(s, slot)
  {
    var r := s.pending[atom.callID];
    assert Placed(moves, s, atom.callID, r);
    WriteShows(s, r, Answered(Pointee(s, r), atom.output, atom.at, atom.failed));
  }

  /** A write shows exactly when the pointer is into the array the step shows. */
  lemma {:induction false} WriteShows(s: State, r: Ref, call: ToolCall)
    requires InRange(s, r) && Valid(s, SlotOf(r))
    ensures Valid(Write(s, r, call), SlotOf(r))
    ensures var shown := r.block == |CallsAt(s, r.turn, r.step).arrays| - 1;
      && CallAt(Write(s, r, call), SlotOf(r)) == (if shown then call else CallAt(s, SlotOf(r)))
      && (shown ==> Pointee(s, r) == CallAt(s, SlotOf(r)))
  {
  }

  lemma {:induction false} PlacedKept(moves: Growth, s: State, s': State, id: string, r: Ref)
    requires Placed(moves, s, id, r)
    requires r.turn < |s'.turns| && r.step < |s'.turns[r.turn].steps|
    requires s'.turns[r.turn].steps[r.step].calls == CallsAt(s, r.turn, r.step)
    ensures Placed(moves, s', id, r)
  {
  }

  /** The turns there were have kept their steps' calls. */
  ghost predicate CallsKept(s: State, s': State) {
    && |s.turns| <= |s'.turns|
    && forall t | 0 <= t < |s.turns| ::
         && |s.turns[t].steps| <= |s'.turns[t].steps|
         && forall j | 0 <= j < |s.turns[t].steps| :: s'.turns[t].steps[j].calls == s.turns[t].steps[j].calls
  }

  lemma {:induction false} OthersKeepCalls(moves: Growth, s: State, atom: Atom)
    requires !atom.Call? && !atom.Result?
    ensures CallsKept(s, Apply(moves, s, atom)) && Apply(moves, s, atom).pending == s.pending
  {
    match atom {
      case Note(_, _, _, _) =>
      case OpenTurn(_, _, _, _, _) =>
      case AddInput(_, _) => TurnAtomKeepsCalls(moves, s, atom);
      case SetUsage(_) => TurnAtomKeepsCalls(moves, s, atom);
      case OpenStep(_, _, _) => OpeningKeepsCalls(moves, s, atom);
      case OpenOnlyStep(_, _) => OpeningKeepsCalls(moves, s, atom);
      case _ =>
        if HasStep(s) {
          UpdatedKeepsCalls(s, atom);
        }
    }
  }

  lemma {:induction false} TurnAtomKeepsCalls(moves: Growth, s: State, atom: Atom)
    requires atom.AddInput? || atom.SetUsage?
    ensures CallsKept(s, Apply(moves, s, atom)) && Apply(moves, s, atom).pending == s.pending
  {
  }

  lemma {:induction false} OpeningKeepsCalls(moves: Growth, s: State, atom: Atom)
    requires atom.OpenStep? || atom.OpenOnlyStep?
    ensures CallsKept(s, Apply(moves, s, atom)) && Apply(moves, s, atom).pending == s.pending
  {
  }

  lemma {:induction false} UpdatedKeepsCalls(s: State, atom: Atom)
    requires HasStep(s)
    ensures CallsKept(s, Updated(s, atom)) && Updated(s, atom).pending == s.pending
  {
    var turn, turn' := Current(s), Current(Updated(s, atom));
    assert |turn'.steps| == |turn.steps| && forall j | 0 <= j < |turn.steps| :: turn'.steps[j].calls == turn.steps[j].calls;
    assert Updated(s, atom).turns == s.turns[|s.turns| - 1 := turn'];
  }

  /** A new call waits in a slot of its own. */
  lemma {:induction false} CallTakesSlot(moves: Growth, s: State, atom: Atom)
    requires atom.Call? && HasStep(s)
    ensures
      var s' := Apply(moves, s, atom);
      var slot := Slot(|s.turns| - 1, s.cursor, |CurrentStep(s).calls.View()|);
      && HasStep(s') && CurrentStep(s').calls ==
           AppendCall(moves, CurrentStep(s).calls, NewCall(atom.callID, atom.name, atom.server, atom.at, atom.arguments))
      && atom.callID in s'.pending && SlotOf(s'.pending[atom.callID]) == slot && Valid(s', slot)
      && CallAt(s', slot) == NewCall(atom.callID, atom.name, atom.server, atom.at, atom.arguments)
      && Placed(moves, s', atom.callID, s'.pending[atom.callID])
  {
    var calls := CurrentStep(s).calls;
    var call := NewCall(atom.callID, atom.name, atom.server, atom.at, atom.arguments);
    assert AppendCall(moves, calls, call).View() == calls.View() + [call];
  }

  lemma {:induction false} CallPlaces(moves: Growth, s: State, atom: Atom)
    requires WellPlaced(moves, s) && atom.Call? && HasStep(s)
    ensures WellPlaced(moves, Apply(moves, s, atom))
  {
    var s' := Apply(moves, s, atom);
    CallTakesSlot(moves, s, atom);
    forall id | id in s'.pending && id != atom.callID
      ensures Placed(moves, s', id, s'.pending[id]) && SlotOf(s'.pending[id]) != SlotOf(s'.pending[atom.callID])
    {
      OthersStayPlaced(moves, s, atom, id);
    }
  }

  lemma {:induction false} OthersStayPlaced(moves: Growth, s: State, atom: Atom, id: string)
    requires atom.Call? && HasStep(s) && id != atom.callID && id in s.pending && Placed(moves, s, id, s.pending[id])
    ensures
      var s' := Apply(moves, s, atom);
      && id in s'.pending && s'.pending[id] == s.pending[id] && Placed(moves, s', id, s.pending[id])
      && SlotOf(s.pending[id]) != Slot(|s.turns| - 1, s.cursor, |CurrentStep(s).calls.View()|)
  {
    var s', r := Apply(moves, s, atom), s.pending[id];
    if r.turn == |s.turns| - 1 && r.step == s.cursor {
      AppendPlaces(moves, s, s', id, r, NewCall(atom.callID, atom.name, atom.server, atom.at, atom.arguments));
    } else {
      PlacedKept(moves, s, s', id, r);
    }
  }

  lemma {:induction false} AppendPlaces(moves: Growth, s: State, s': State, id: string, r: Ref, call: ToolCall)
    requires Placed(moves, s, id, r)
    requires r.turn < |s'.turns| && r.step < |s'.turns[r.turn].steps|
    requires s'.turns[r.turn].steps[r.step].calls == AppendCall(moves, CallsAt(s, r.turn, r.step), call)
    ensures Placed(moves, s', id, r)
  {
    var n := |CallsAt(s, r.turn, r.step).View()|;
    assert Stays(moves, r.index, n + 1) <==> Stays(moves, r.index, n) && !moves(n);
  }

  lemma {:induction false} ResultPlaces(moves: Growth, s: State, atom: Atom)
    requires WellPlaced(moves, s) && atom.Result?
    ensures WellPlaced(moves, Apply(moves, s, atom))
  {
    if atom.callID in s.pending && InRange(s, s.pending[atom.callID]) {
      var s' := Apply(moves, s, atom);
      var w := s.pending[atom.callID];
      forall id | id in s'.pending ensures Placed(moves, s', id, s'.pending[id]) {
        assert Placed(moves, s, id, s.pending[id]);
        WrittenPlaces(moves, s, w, Answered(Pointee(s, w), atom.output, atom.at, atom.failed), s', id, s.pending[id]);
      }
    }
  }

  lemma {:induction false} WrittenPlaces(moves: Growth, s: State, w: Ref, call: ToolCall, s': State, id: string, r: Ref)
    requires InRange(s, w) && call.callID == Pointee(s, w).callID
    requires s'.turns == Write(s, w, call).turns
    requires Placed(moves, s, id, r)
    ensures Placed(moves, s', id, r)
  {
  }

  lemma {:induction false} AtomPlaces(moves: Growth, s: State, atom: Atom)
    requires WellPlaced(moves, s)
    ensures WellPlaced(moves, Apply(moves, s, atom))
  {
    if atom.Result? {
      ResultPlaces(moves, s, atom);
    } else if atom.Call? {
      if HasStep(s) {
        CallPlaces(moves, s, atom);
      }
    } else {
      OthersKeepCalls(moves, s, atom);
      forall id | id in s.pending ensures Placed(moves, Apply(moves, s, atom), id, s.pending[id]) {
        PlacedKept(moves, s, Apply(moves, s, atom), id, s.pending[id]);
      }
    }
  }

  lemma {:induction false} AlwaysWellPlaced(moves: Growth, atoms: seq<Atom>)
    ensures WellPlaced(moves, ApplyAll(moves, START, atoms))
  {
    if atoms != [] {
      AlwaysWellPlaced(moves, atoms[..|atoms| - 1]);
      AtomPlaces(moves, ApplyAll(moves, START, atoms[..|atoms| - 1]), atoms[|atoms| - 1]);
    }
  }

  /** Neither a result for the id nor another call under it. */
  predicate Unrelated(atoms: seq<Atom>, id: string) {
    forall atom | atom in atoms :: !((atom.Call? || atom.Result?) && atom.callID == id)
  }

  /** The call in slot is waiting under id and stands as call. */
  ghost predicate Waiting(moves: Growth, s: State, id: string, slot: Slot, call: ToolCall) {
    WellPlaced(moves, s) && id in s.pending && SlotOf(s.pending[id]) == slot && Valid(s, slot) && CallAt(s, slot) == call
  }

  /** Nothing waits for the call in slot any more, and it stands as call. */
  ghost predicate Settled(moves: Growth, s: State, slot: Slot, call: ToolCall) {
    && WellPlaced(moves, s) && Valid(s, slot) && CallAt(s, slot) == call
    && forall id | id in s.pending :: SlotOf(s.pending[id]) != slot
  }

  lemma {:induction false} WaitingKept(moves: Growth, s: State, atom: Atom, id: string, slot: Slot, call: ToolCall)
    requires Waiting(moves, s, id, slot, call)
    requires !((atom.Call? || atom.Result?) && atom.callID == id)
    ensures Waiting(moves, Apply(moves, s, atom), id, slot, call)
  {
    AtomPlaces(moves, s, atom);
    SlotKept(moves, s, atom, slot);
    PendingKept(moves, s, atom, id);
  }

  lemma {:induction false} PendingKept(moves: Growth, s: State, atom: Atom, id: string)
    requires id in s.pending && !((atom.Call? || atom.Result?) && atom.callID == id)
    ensures id in Apply(moves, s, atom).pending && Apply(moves, s, atom).pending[id] == s.pending[id]
  {
    if !atom.Call? && !atom.Result? {
      OthersKeepCalls(moves, s, atom);
    }
  }

  lemma {:induction false} SettledKept(moves: Growth, s: State, atom: Atom, slot: Slot, call: ToolCall)
    requires Settled(moves, s, slot, call)
    ensures Settled(moves, Apply(moves, s, atom), slot, call)
  {
    AtomPlaces(moves, s, atom);
    SlotKept(moves, s, atom, slot);
    UnclaimedKept(moves, s, atom, slot);
  }

  lemma {:induction false} UnclaimedKept(moves: Growth, s: State, atom: Atom, slot: Slot)
    requires Valid(s, slot)
    requires forall id | id in s.pending :: SlotOf(s.pending[id]) != slot
    ensures forall id | id in Apply(moves, s, atom).pending :: SlotOf(Apply(moves, s, atom).pending[id]) != slot
  {
    if !atom.Call? && !atom.Result? {
      OthersKeepCalls(moves, s, atom);
    }
  }

  /** A waiting call waits on, untouched, until its result comes. */
  lemma {:induction false} WaitsOn(moves: Growth, s: State, atoms: seq<Atom>, id: string, slot: Slot, call: ToolCall)
    requires Waiting(moves, s, id, slot, call) && Unrelated(atoms, id)
    ensures Waiting(moves, ApplyAll(moves, s, atoms), id, slot, call)
  {
    if atoms != [] {
      assert atoms[|atoms| - 1] in atoms;
      WaitsOn(moves, s, atoms[..|atoms| - 1], id, slot, call);
      WaitingKept(moves, ApplyAll(moves, s, atoms[..|atoms| - 1]), atoms[|atoms| - 1], id, slot, call);
    }
  }

  /** A call nothing waits for any more never changes again. */
  lemma {:induction false} StaysSettled(moves: Growth, s: State, atoms: seq<Atom>, slot: Slot, call: ToolCall)
    requires Settled(moves, s, slot, call)
    ensures Settled(moves, ApplyAll(moves, s, atoms), slot, call)
  {
    if atoms != [] {
      StaysSettled(moves, s, atoms[..|atoms| - 1], slot, call);
      SettledKept(moves, ApplyAll(moves, s, atoms[..|atoms| - 1]), atoms[|atoms| - 1], slot, call);
    }
  }

  /** The state right after a call was read, and where the call stands in it. */
  function SlotOfCall(moves: Growth, before: seq<Atom>): Slot
    requires HasStep(ApplyAll(moves, START, before))
  {
    var s := ApplyAll(moves, START, before);
    Slot(|s.turns| - 1, s.cursor, |CurrentStep(s).calls.View()|)
  }

  /** The call as it was read, with nothing of a result. */
  predicate AsOpened(shown: ToolCall, call: Atom)
    requires call.Call?
  {
    && shown.callID == call.callID && shown.name == call.name && shown.server == call.server
    && shown.startedAt == call.at && shown.arguments == call.arguments
    && shown.endedAt == ZERO_TIME && shown.output == Absent && shown.error == ""
  }

  /** The call as it was read, with the result's output, its time as the end, and as the error
      the output's text if the result says the call failed. */
  predicate AsAnswered(shown: ToolCall, call: Atom, result: Atom)
    requires call.Call? && result.Result?
  {
    && shown.callID == call.callID && shown.name == call.name && shown.server == call.server
    && shown.startedAt == call.at && shown.arguments == call.arguments
    && shown.endedAt == result.at && shown.output == result.output
    && shown.error ==
         if !result.failed then ""
         else match result.output
              case Absent => ""
              case Plain(text) => text
              case Structured(json) => json
  }

  /** How many calls the step holds when the result comes. */
  function CallsByThen(moves: Growth, atoms: seq<Atom>, slot: Slot): nat {
    var s := ApplyAll(moves, START, atoms);
    if Valid(s, slot) then |CallsAt(s, slot.turn, slot.step).View()| else 0
  }

  /** Tool outputs reach their call: with a call id used once, the call's final form is
      decided by the first result for it alone -- it has the output, the end time and the
      error exactly when no call appended to its step in between made Go move the slice, and
      is left as it was opened otherwise, whatever else the transcript holds before, between
      and after, later turns included. In particular a result that comes before the step's
      next call always reaches its call. */
  lemma {:induction false} OutputReachesItsCall(moves: Growth, before: seq<Atom>, call: Atom, between: seq<Atom>, result: Atom, after: seq<Atom>)
    requires HasStep(ApplyAll(moves, START, before))
    requires call.Call? && result.Result? && result.callID == call.callID
    requires Unrelated(between, call.callID)
    requires forall atom | atom in after :: atom.Call? ==> atom.callID != call.callID
    ensures
      var slot := SlotOfCall(moves, before);
      var final := ApplyAll(moves, START, before + [call] + between + [result] + after);
      var n := CallsByThen(moves, before + [call] + between, slot);
      && Valid(final, slot)
      && slot.index < n
      && (if Stays(moves, slot.index, n) then AsAnswered(CallAt(final, slot), call, result) else AsOpened(CallAt(final, slot), call))
      && (n == slot.index + 1 ==> Stays(moves, slot.index, n))
  {
    var slot := SlotOfCall(moves, before);
    var unanswered := NewCall(call.callID, call.name, call.server, call.at, call.arguments);
    WaitsFrom(moves, before, call, between);
    var s2 := ApplyAll(moves, START, before + [call] + between);
    var s3 := ApplyAll(moves, START, before + [call] + between + [result]);
    ApplyLast(moves, START, before + [call] + between, result);
    AnswerHits(moves, s2, result, slot);
    AtomPlaces(moves, s2, result);
    var n := CallsByThen(moves, before + [call] + between, slot);
    var settled := if Stays(moves, slot.index, n) then Answered(unanswered, result.output, result.at, result.failed) else unanswered;
    AnswerSettles(moves, s2, result, slot, unanswered, settled);
    StaysSettled(moves, s3, after, slot, settled);
    ApplyAllConcat(moves, START, before + [call] + between + [result], after);
  }

  lemma {:induction false} AnswerSettles(moves: Growth, s: State, result: Atom, slot: Slot, call: ToolCall, settled: ToolCall)
    requires result.Result? && Waiting(moves, s, result.callID, slot, call)
    requires
      var s' := Apply(moves, s, result);
      WellPlaced(moves, s') && Valid(s', slot) && CallAt(s', slot) == settled
    ensures Settled(moves, Apply(moves, s, result), slot, settled)
  {
  }

  /** From the moment it is read, a call waits. */
  lemma {:induction false} WaitsFrom(moves: Growth, before: seq<Atom>, call: Atom, between: seq<Atom>)
    requires HasStep(ApplyAll(moves, START, before)) && call.Call?
    requires Unrelated(between, call.callID)
    ensures Waiting(moves, ApplyAll(moves, START, before + [call] + between), call.callID, SlotOfCall(moves, before),
                    NewCall(call.callID, call.name, call.server, call.at, call.arguments))
  {
    var s := ApplyAll(moves, START, before);
    AlwaysWellPlaced(moves, before);
    CallPlaces(moves, s, call);
    CallTakesSlot(moves, s, call);
    ApplyLast(moves, START, before, call);
    WaitsOn(moves, Apply(moves, s, call), between, call.callID, SlotOfCall(moves, before),
            NewCall(call.callID, call.name, call.server, call.at, call.arguments));
    ApplyAllConcat(moves, START, before + [call], between);
  }

  lemma {:induction false} ApplyLast(moves: Growth, s: State, atoms: seq<Atom>, atom: Atom)
    ensures ApplyAll(moves, s, atoms + [atom]) == Apply(moves, ApplyAll(moves, s, atoms), atom)
  {
    assert (atoms + [atom])[..|atoms|] == atoms;
  }

  /** A call without a result stays open. */
  lemma {:induction false} UnansweredStaysOpen(moves: Growth, before: seq<Atom>, call: Atom, after: seq<Atom>)
    requires HasStep(ApplyAll(moves, START, before)) && call.Call?
    requires Unrelated(after, call.callID)
    ensures
      var slot := SlotOfCall(moves, before);
      var final := ApplyAll(moves, START, before + [call] + after);
      Valid(final, slot) && AsOpened(CallAt(final, slot), call)
  {
    WaitsFrom(moves, before, call, after);
  }

  /** atoms[i] is a call with no result, nor another call under its id, from there on. */
  ghost predicate NoResult(atoms: seq<Atom>, i: nat) {
    i < |atoms| && atoms[i].Call? && Unrelated(atoms[i + 1..], atoms[i].callID)
  }

  /** In the final turns the call stands as it was opened, with no output and no end. */
  ghost predicate LeftOpen(moves: Growth, atoms: seq<Atom>, i: nat)
    requires NoResult(atoms, i) && HasStep(ApplyAll(moves, START, atoms[..i]))
  {
    var call := atoms[i];
    var slot := SlotOfCall(moves, atoms[..i]);
    var final := ApplyAll(moves, START, atoms);
    Valid(final, slot) && AsOpened(CallAt(final, slot), call)
  }

  lemma {:induction false} NoResultLeavesOpen(moves: Growth, atoms: seq<Atom>, i: nat)
    requires NoResult(atoms, i) && HasStep(ApplyAll(moves, START, atoms[..i]))
    ensures LeftOpen(moves, atoms, i)
  {
    assert atoms == atoms[..i] + [atoms[i]] + atoms[i + 1..];
    UnansweredStaysOpen(moves, atoms[..i], atoms[i], atoms[i + 1..]);
  }

  /** atoms[i] is a call whose id no other call uses from there on, and atoms[k] is the first
      result for it. */
  ghost predicate FirstResult(atoms: seq<Atom>, i: nat, k: nat) {
    && i < k < |atoms|
    && atoms[i].Call? && atoms[k].Result? && atoms[k].callID == atoms[i].callID
    && Unrelated(atoms[i + 1..k], atoms[i].callID)
    && forall m | k < m < |atoms| :: atoms[m].Call? ==> atoms[m].callID != atoms[i].callID
  }

  /** In the final turns the call has the result exactly when no call added to its step in
      between moved the slice, and stands as it was opened otherwise. */
  ghost predicate Decided(moves: Growth, atoms: seq<Atom>, i: nat, k: nat)
    requires FirstResult(atoms, i, k) && HasStep(ApplyAll(moves, START, atoms[..i]))
  {
    var call, result := atoms[i], atoms[k];
    var slot := SlotOfCall(moves, atoms[..i]);
    var n := CallsByThen(moves, atoms[..k], slot);
    var final := ApplyAll(moves, START, atoms);
    && Valid(final, slot) && slot.index < n
    && (if Stays(moves, slot.index, n) then AsAnswered(CallAt(final, slot), call, result) else AsOpened(CallAt(final, slot), call))
    && (n == slot.index + 1 ==> Stays(moves, slot.index, n))
  }

  lemma {:induction false} ResultsDecide(moves: Growth, atoms: seq<Atom>, i: nat, k: nat)
    requires FirstResult(atoms, i, k) && HasStep(ApplyAll(moves, START, atoms[..i]))
    ensures Decided(moves, atoms, i, k)
  {
    assert atoms[..k] == atoms[..i] + [atoms[i]] + atoms[i + 1..k];
    assert atoms == atoms[..i] + [atoms[i]] + atoms[i + 1..k] + [atoms[k]] + atoms[k + 1..];
    forall atom | atom in atoms[k + 1..] && atom.Call? ensures atom.callID != atoms[i].callID {
      var m :| 0 <= m < |atoms[k + 1..]| && atoms[k + 1..][m] == atom;
      assert atoms[k + 1 + m] == atom;
    }
    OutputReachesItsCall(moves, atoms[..i], atoms[i], atoms[i + 1..k], atoms[k], atoms[k + 1..]);
  }
}
