// How the parsers build turns: the mutations a transcript line makes to the turn in flight, its steps,
// the calls waiting for a result and the conversation so far (internal/transcript/claude.go and
// codex.go). Each line is a run of these atoms, which both parsers share.

module Builder {
  import opened Options
  import opened Transcript

  /** A pointer into a step's tool calls: which step, which of the arrays append has used for
      it, and the element. */
  datatype Ref = Ref(turn: nat, step: nat, block: nat, index: nat)

  /** The turn in flight is the last one; cursor is the step the current line writes to. */
  datatype State = State(turns: seq<Turn>, cursor: nat, pending: map<string, Ref>, shown: Shown)

  const START := State([], 0, map[], Shown([], 0))

  datatype Atom =
    | Note(role: string, text: string, json: Value, at: int)
    | OpenTurn(id: string, sessionID: string, at: int, model: string, input: string)
    | AddInput(text: string, at: int)
    | OpenStep(id: string, at: int, model: string)
    | OpenOnlyStep(at: int, model: string)
    | Say(text: string)
    | Reason(text: string)
    | Call(callID: string, name: string, server: string, at: int, arguments: Value)
    | Result(callID: string, output: Value, at: int, failed: bool)
    | Close(at: int)
    | Report(usage: Option<Usage>, model: string)
    | SetUsage(counts: Usage)

  /** Go's append to a slice holding n elements allocates a new array when moves(n), and
      always for the first element. */
  type Growth = nat -> bool

  function AppendCall(moves: Growth, calls: Calls, call: ToolCall): Calls {
    var grown := calls.View() + [call];
    if calls.arrays == [] || moves(|calls.View()|) then Calls(calls.arrays + [grown])
    else Calls(calls.arrays[|calls.arrays| - 1 := grown])
  }

  predicate HasTurn(s: State) {
    s.turns != []
  }

  predicate HasStep(s: State) {
    s.turns != [] && s.cursor < |s.turns[|s.turns| - 1].steps|
  }

  function Current(s: State): Turn
    requires HasTurn(s)
  {
    s.turns[|s.turns| - 1]
  }

  function SetCurrent(s: State, turn: Turn): State
    requires HasTurn(s)
  {
    s.(turns := s.turns[|s.turns| - 1 := turn])
  }

  function CurrentStep(s: State): Step
    requires HasStep(s)
  {
    Current(s).steps[s.cursor]
  }

  function WithStep(turn: Turn, i: nat, step: Step): Turn
    requires i < |turn.steps|
  {
    turn.(steps := turn.steps[i := step])
  }

  /** Where a turn's first step with this id stands, or past the end. */
  function FindStep(steps: seq<Step>, id: string): (i: nat)
    ensures i <= |steps|
    ensures i < |steps| ==> steps[i].id == id
    ensures forall k | 0 <= k < i :: steps[k].id != id
  {
    if steps == [] then 0
    else if steps[0].id == id then 0
    else 1 + FindStep(steps[1..], id)
  }

  function NewStep(s: State, id: string, at: int, model: string): State
    requires HasTurn(s)
  {
    var turn := Current(s);
    var step := Step(id, at, at, model, "", "", Snapshot(s.shown), Calls([]), None);
    SetCurrent(s, turn.(steps := turn.steps + [step])).(cursor := |turn.steps|, shown := AfterSnapshot(s.shown))
  }

  predicate InRange(s: State, r: Ref) {
    && r.turn < |s.turns| && r.step < |s.turns[r.turn].steps|
    && r.block < |s.turns[r.turn].steps[r.step].calls.arrays|
    && r.index < |s.turns[r.turn].steps[r.step].calls.arrays[r.block]|
  }

  function Pointee(s: State, r: Ref): ToolCall
    requires InRange(s, r)
  {
    s.turns[r.turn].steps[r.step].calls.arrays[r.block][r.index]
  }

  /** A write through a pointer. */
  function Write(s: State, r: Ref, call: ToolCall): State
    requires InRange(s, r)
  {
    var turn := s.turns[r.turn];
    var step := turn.steps[r.step];
    var arrays := step.calls.arrays[r.block := step.calls.arrays[r.block][r.index := call]];
    s.(turns := s.turns[r.turn := WithStep(turn, r.step, step.(calls := Calls(arrays)))])
  }

  function Answered(call: ToolCall, output: Value, at: int, failed: bool): ToolCall {
    call.(endedAt := at, output := output, error := if failed then TextOf(output) else call.error)
  }

  function Noted(s: State, role: string, text: string, json: Value, at: int): State {
    s.(shown := Add(s.shown, ContextItem(role, text, json, false, at)))
  }

  function NewCall(callID: string, name: string, server: string, at: int, arguments: Value): ToolCall {
    ToolCall(callID, name, server, at, ZERO_TIME, arguments, Absent, "")
  }

  function Called(moves: Growth, s: State, call: ToolCall): State
    requires HasStep(s)
  {
    var turn, step := Current(s), CurrentStep(s);
    var calls := AppendCall(moves, step.calls, call);
    var r := Ref(|s.turns| - 1, s.cursor, |calls.arrays| - 1, |step.calls.View()|);
    SetCurrent(s, WithStep(turn, s.cursor, step.(calls := calls))).(pending := s.pending[call.callID := r])
  }

  function Resulted(s: State, callID: string, output: Value, at: int, failed: bool): State {
    if callID !in s.pending || !InRange(s, s.pending[callID]) then s
    else
      var r := s.pending[callID];
      var written := Write(s, r, Answered(Pointee(s, r), output, at, failed));
      Noted(written, "tool", "", output, at).(pending := s.pending - {callID})
  }

  /** Updates of the current step, of the current turn, or of both. */
  function Updated(s: State, atom: Atom): State
    requires HasStep(s)
  {
    var turn, step := Current(s), CurrentStep(s);
    match atom
    case Say(text) =>
      var spoken := WithStep(turn, s.cursor, step.(text := JoinText(step.text, text)));
      SetCurrent(s, spoken.(finalOutput := JoinText(turn.finalOutput, text)))
    case Reason(text) =>
      SetCurrent(s, WithStep(turn, s.cursor, step.(reasoning := JoinText(step.reasoning, text))))
    case Close(at) =>
      SetCurrent(s, WithStep(turn, s.cursor, step.(endedAt := at)).(endedAt := at))
    case Report(usage, model) =>
      var reported := step.(usage := MaxUsage(step.usage, usage));
      SetCurrent(s, WithStep(turn, s.cursor, reported).(
        usage := MaxUsage(turn.usage, reported.usage), model := if turn.model == "" then model else turn.model))
    case _ => s
  }

  function Apply(moves: Growth, s: State, atom: Atom): State {
    match atom
    case Note(role, text, json, at) => Noted(s, role, text, json, at)
    case OpenTurn(id, sessionID, at, model, input) =>
      s.(turns := s.turns + [Turn(id, sessionID, at, ZERO_TIME, model, input, "", [], None, "")])
    case AddInput(text, at) =>
      if !HasTurn(s) then s
      else SetCurrent(s, Current(s).(userInput := JoinText(Current(s).userInput, text), endedAt := at))
    case OpenStep(id, at, model) =>
      if !HasTurn(s) then s
      else
        var i := FindStep(Current(s).steps, id);
        if i < |Current(s).steps| then s.(cursor := i) else NewStep(s, id, at, model)
    case OpenOnlyStep(at, model) =>
      if !HasTurn(s) then s
      else if Current(s).steps == [] then NewStep(s, Current(s).id + "@step", at, model)
      else s.(cursor := |Current(s).steps| - 1)
    case Call(callID, name, server, at, arguments) =>
      if HasStep(s) then Called(moves, s, NewCall(callID, name, server, at, arguments)) else s
    case Result(callID, output, at, failed) => Resulted(s, callID, output, at, failed)
    case SetUsage(counts) =>
      if !HasTurn(s) then s
      else
        var turn := Current(s).(usage := Some(counts));
        SetCurrent(s, if turn.steps == [] then turn
                      else WithStep(turn, |turn.steps| - 1, turn.steps[|turn.steps| - 1].(usage := Some(counts))))
    case _ => if HasStep(s) then Updated(s, atom) else s
  }

  function ApplyAll(moves: Growth, s: State, atoms: seq<Atom>): State {
    if atoms == [] then s
    else Apply(moves, ApplyAll(moves, s, atoms[..|atoms| - 1]), atoms[|atoms| - 1])
  }

  lemma {:induction false} ApplyOne(moves: Growth, s: State, atom: Atom)
    ensures ApplyAll(moves, s, [atom]) == Apply(moves, s, atom)
  {
    var one := [atom];
    assert one[..|one| - 1] == [];
  }

  lemma {:induction false} ApplyTwo(moves: Growth, s: State, first: Atom, second: Atom)
    ensures ApplyAll(moves, s, [first, second]) == Apply(moves, Apply(moves, s, first), second)
  {
    var two := [first, second];
    assert two[..|two| - 1] == [first];
    ApplyOne(moves, s, first);
  }

  lemma {:induction false} ApplyAllConcat(moves: Growth, s: State, a: seq<Atom>, b: seq<Atom>)
    ensures ApplyAll(moves, s, a + b) == ApplyAll(moves, ApplyAll(moves, s, a), b)
    decreases |b|
  {
    if b == [] {
      assert a + b == a;
    } else {
      assert (a + b)[..|a + b| - 1] == a + b[..|b| - 1];
      ApplyAllConcat(moves, s, a, b[..|b| - 1]);
    }
  }

  lemma {:induction false} SplitAt(before: seq<Atom>, line: seq<Atom>, i: nat)
    requires i < |before| + |line|
    ensures
      var all := before + line;
      if i < |before| then all[i] == before[i] && all[..i] == before[..i]
      else all[i] == line[i - |before|] && all[..i] == before + line[..i - |before|]
  {
  }

  /** The parser's variables: the turns closed so far, the one in flight, the waiting calls
      and the conversation. */
  class Assembly {
    const moves: Growth
    const seen: History
    var turns: seq<Turn>
    var open: bool
    var current: Turn
    var cursor: nat
    var pending: map<string, Ref>

    ghost function View(): State
      reads this, seen
    {
      State(turns + (if open then [current] else []), cursor, pending, seen.State())
    }

    constructor (moves: Growth)
      ensures View() == START && this.moves == moves && fresh(seen)
    {
      this.moves := moves;
      seen := new History();
      turns, open, cursor, pending := [], false, 0, map[];
      current := Turn("", "", 0, 0, "", "", "", [], None, "");
    }

    method AddNote(role: string, text: string, json: Value, at: int)
      modifies seen
      ensures View() == Apply(moves, old(View()), Note(role, text, json, at))
    {
      seen.AddItem(ContextItem(role, text, json, false, at));
    }

    method CloseAndOpen(id: string, sessionID: string, at: int, model: string, input: string)
      modifies this
      ensures View() == Apply(moves, old(View()), OpenTurn(id, sessionID, at, model, input)) && open
    {
      if open {
        turns := turns + [current];
      }
      current := Turn(id, sessionID, at, ZERO_TIME, model, input, "", [], None, "");
      open := true;
    }

    method AddToInput(text: string, at: int)
      requires open
      modifies this`current
      ensures View() == Apply(moves, old(View()), AddInput(text, at))
    {
      current := current.(userInput := JoinText(current.userInput, text), endedAt := at);
    }

    method AppendStep(id: string, at: int, model: string)
      requires open
      modifies this, seen
      ensures View() == NewStep(old(View()), id, at, model)
      ensures open && cursor < |current.steps|
    {
      var context := seen.TakeSnapshot();
      current := current.(steps := current.steps + [Step(id, at, at, model, "", "", context, Calls([]), None)]);
      cursor := |current.steps| - 1;
    }

    method StepByID(id: string, at: int, model: string)
      requires open
      modifies this, seen
      ensures View() == Apply(moves, old(View()), OpenStep(id, at, model))
      ensures open && cursor < |current.steps|
    {
      var i := 0;
      while i < |current.steps|
        invariant 0 <= i <= |current.steps|
        invariant View() == old(View()) && open
        invariant FindStep(current.steps, id) == i + FindStep(current.steps[i..], id)
      {
        if current.steps[i].id == id {
          cursor := i;
          return;
        }
        i := i + 1;
      }
      AppendStep(id, at, model);
    }

    method OnlyStep(at: int, model: string)
      requires open
      modifies this, seen
      ensures View() == Apply(moves, old(View()), OpenOnlyStep(at, model))
      ensures open && cursor < |current.steps|
    {
      if |current.steps| == 0 {
        AppendStep(current.id + "@step", at, model);
      } else {
        cursor := |current.steps| - 1;
      }
    }

    method AddText(text: string)
      requires open && cursor < |current.steps|
      modifies this`current
      ensures View() == Apply(moves, old(View()), Say(text))
      ensures |current.steps| == old(|current.steps|)
    {
      var step := current.steps[cursor];
      step := step.(text := JoinText(step.text, text));
      current := current.(steps := current.steps[cursor := step], finalOutput := JoinText(current.finalOutput, text));
    }

    method AddReasoning(text: string)
      requires open && cursor < |current.steps|
      modifies this`current
      ensures View() == Apply(moves, old(View()), Reason(text))
      ensures |current.steps| == old(|current.steps|)
    {
      var step := current.steps[cursor];
      step := step.(reasoning := JoinText(step.reasoning, text));
      current := current.(steps := current.steps[cursor := step]);
    }

    method EndStep(at: int)
      requires open && cursor < |current.steps|
      modifies this`current
      ensures View() == Apply(moves, old(View()), Close(at))
      ensures |current.steps| == old(|current.steps|)
    {
      var step := current.steps[cursor];
      step := step.(endedAt := at);
      current := current.(steps := current.steps[cursor := step], endedAt := at);
    }

    method RaiseUsage(usage: Option<Usage>, model: string)
      requires open && cursor < |current.steps|
      modifies this`current
      ensures View() == Apply(moves, old(View()), Report(usage, model))
      ensures |current.steps| == old(|current.steps|)
    {
      var step := current.steps[cursor];
      step := step.(usage := MaxUsage(step.usage, usage));
      current := current.(steps := current.steps[cursor := step], usage := MaxUsage(current.usage, step.usage));
      if current.model == "" {
        current := current.(model := model);
      }
    }

    method AppendToolCall(callID: string, name: string, server: string, at: int, arguments: Value)
      requires open && cursor < |current.steps|
      modifies this`current, this`pending
      ensures View() == Apply(moves, old(View()), Call(callID, name, server, at, arguments))
      ensures |current.steps| == old(|current.steps|)
    {
      var step := current.steps[cursor];
      var held := step.calls.View();
      var call := ToolCall(callID, name, server, at, ZERO_TIME, arguments, Absent, "");
      var arrays := step.calls.arrays;
      if arrays == [] || moves(|held|) {
        arrays := arrays + [held + [call]];
      } else {
        arrays := arrays[|arrays| - 1 := held + [call]];
      }
      current := current.(steps := current.steps[cursor := step.(calls := Calls(arrays))]);
      pending := pending[callID := Ref(|turns|, cursor, |arrays| - 1, |held|)];
    }

    method ApplyResult(callID: string, output: Value, at: int, failed: bool)
      modifies this, seen
      ensures View() == Apply(moves, old(View()), Result(callID, output, at, failed))
      ensures open == old(open) && |current.steps| == old(|current.steps|) && cursor == old(cursor)
    {
      if callID !in pending || !InRange(State(turns + if open then [current] else [], cursor, pending, Shown([], 0)), pending[callID]) {
        return;
      }
      var r := pending[callID];
      var turn := if r.turn < |turns| then turns[r.turn] else current;
      var step := turn.steps[r.step];
      var call := step.calls.arrays[r.block][r.index];
      call := call.(endedAt := at, output := output);
      if failed {
        call := call.(error := TextOf(output));
      }
      var arrays := step.calls.arrays[r.block := step.calls.arrays[r.block][r.index := call]];
      turn := turn.(steps := turn.steps[r.step := step.(calls := Calls(arrays))]);
      if r.turn < |turns| {
        turns := turns[r.turn := turn];
      } else {
        current := turn;
      }
      seen.AddItem(ContextItem("tool", "", output, false, at));
      pending := pending - {callID};
    }

    method OverwriteUsage(counts: Usage)
      requires open
      modifies this`current
      ensures View() == Apply(moves, old(View()), SetUsage(counts))
    {
      current := current.(usage := Some(counts));
      var n := |current.steps|;
      if n > 0 {
        current := current.(steps := current.steps[n - 1 := current.steps[n - 1].(usage := Some(counts))]);
      }
    }
  }

  // ---- Growth: what is there stays where it is ----

  ghost predicate CallsExtend(a: seq<ToolCall>, b: seq<ToolCall>) {
    |a| <= |b| && forall k | 0 <= k < |a| :: a[k].callID == b[k].callID
  }

  ghost predicate TurnExtends(a: Turn, b: Turn) {
    && a.id == b.id
    && |a.steps| <= |b.steps|
    && forall j | 0 <= j < |a.steps| ::
         a.steps[j].id == b.steps[j].id && CallsExtend(a.steps[j].calls.View(), b.steps[j].calls.View())
  }

  /** Same steps, and the same calls in each. */
  ghost predicate SameShape(a: Turn, b: Turn) {
    && TurnExtends(a, b)
    && |a.steps| == |b.steps|
    && forall j | 0 <= j < |a.steps| :: |a.steps[j].calls.View()| == |b.steps[j].calls.View()|
  }

  /** Turns, steps and calls keep their positions and ids, and only the last turn may have
      gained any. */
  ghost predicate Extends(a: seq<Turn>, b: seq<Turn>) {
    && |a| <= |b|
    && (forall i | 0 <= i < |a| :: TurnExtends(a[i], b[i]))
    && (forall i | 0 <= i < |a| - 1 :: SameShape(a[i], b[i]))
  }

  lemma {:induction false} ExtendsTransitive(a: seq<Turn>, b: seq<Turn>, c: seq<Turn>)
    requires Extends(a, b) && Extends(b, c)
    ensures Extends(a, c)
  {
    forall i | 0 <= i < |a| ensures TurnExtends(a[i], c[i]) {
      assert TurnExtends(a[i], b[i]) && TurnExtends(b[i], c[i]);
    }
    forall i | 0 <= i < |a| - 1 ensures SameShape(a[i], c[i]) {
      assert SameShape(a[i], b[i]) && SameShape(b[i], c[i]);
    }
  }

  lemma {:induction false} WriteExtends(s: State, r: Ref, call: ToolCall)
    requires InRange(s, r) && call.callID == Pointee(s, r).callID
    ensures Extends(s.turns, Write(s, r, call).turns)
  {
    var turn, turn' := s.turns[r.turn], Write(s, r, call).turns[r.turn];
    assert SameShape(turn, turn') by {
      assert CallsExtend(turn.steps[r.step].calls.View(), turn'.steps[r.step].calls.View());
    }
  }

  lemma {:induction false} CurrentExtends(s: State, turn: Turn)
    requires HasTurn(s) && TurnExtends(Current(s), turn)
    ensures Extends(s.turns, SetCurrent(s, turn).turns)
  {
  }

  /** A turn that keeps its id, its steps' ids and their calls, with perhaps more steps. */
  lemma {:induction false} KeptExtends(a: Turn, b: Turn)
    requires a.id == b.id && |a.steps| <= |b.steps|
    requires forall j | 0 <= j < |a.steps| :: a.steps[j].id == b.steps[j].id && a.steps[j].calls == b.steps[j].calls
    ensures TurnExtends(a, b)
  {
  }

  lemma {:induction false} CalledExtends(moves: Growth, s: State, call: ToolCall)
    requires HasStep(s)
    ensures Extends(s.turns, Called(moves, s, call).turns)
  {
    var s' := Called(moves, s, call);
    var calls := CurrentStep(s).calls;
    assert AppendCall(moves, calls, call).View() == calls.View() + [call];
    assert CallsExtend(calls.View(), CurrentStep(s').calls.View());
    assert TurnExtends(Current(s), Current(s'));
    CurrentExtends(s, Current(s'));
  }

  lemma {:induction false} UpdatedExtends(s: State, atom: Atom)
    requires HasStep(s)
    ensures Extends(s.turns, Updated(s, atom).turns)
  {
    var s' := Updated(s, atom);
    KeptExtends(Current(s), Current(s'));
    CurrentExtends(s, Current(s'));
  }

  lemma {:induction false} AtomExtends(moves: Growth, s: State, atom: Atom)
    ensures Extends(s.turns, Apply(moves, s, atom).turns)
  {
    match atom {
      case Result(callID, output, at, failed) =>
        if callID in s.pending && InRange(s, s.pending[callID]) {
          var r := s.pending[callID];
          WriteExtends(s, r, Answered(Pointee(s, r), output, at, failed));
        }
      case Call(callID, name, server, at, arguments) =>
        if HasStep(s) {
          CalledExtends(moves, s, NewCall(callID, name, server, at, arguments));
        }
      case Note(_, _, _, _) =>
      case OpenTurn(_, _, _, _, _) =>
      case AddInput(_, _) => TurnAtomExtends(moves, s, atom);
      case SetUsage(_) => TurnAtomExtends(moves, s, atom);
      case OpenStep(_, _, _) => OpenedExtends(moves, s, atom);
      case OpenOnlyStep(_, _) => OpenedExtends(moves, s, atom);
      case _ =>
        if HasStep(s) {
          UpdatedExtends(s, atom);
        }
    }
  }

  lemma {:induction false} TurnAtomExtends(moves: Growth, s: State, atom: Atom)
    requires atom.AddInput? || atom.SetUsage?
    ensures Extends(s.turns, Apply(moves, s, atom).turns)
  {
    CurrentKept(s, Apply(moves, s, atom));
  }

  lemma {:induction false} OpenedExtends(moves: Growth, s: State, atom: Atom)
    requires atom.OpenStep? || atom.OpenOnlyStep?
    ensures Extends(s.turns, Apply(moves, s, atom).turns)
  {
    CurrentKept(s, Apply(moves, s, atom));
  }

  lemma {:induction false} CurrentKept(s: State, s': State)
    requires HasTurn(s) ==> HasTurn(s') && s'.turns == SetCurrent(s, Current(s')).turns
    requires !HasTurn(s) ==> s'.turns == s.turns
    requires HasTurn(s) ==> Current(s).id == Current(s').id && |Current(s).steps| <= |Current(s').steps|
    requires HasTurn(s) ==> forall j | 0 <= j < |Current(s).steps| ::
      Current(s).steps[j].id == Current(s').steps[j].id && Current(s).steps[j].calls == Current(s').steps[j].calls
    ensures Extends(s.turns, s'.turns)
  {
    if HasTurn(s) {
      KeptExtends(Current(s), Current(s'));
      CurrentExtends(s, Current(s'));
    }
  }

  lemma {:induction false} AtomsExtend(moves: Growth, s: State, atoms: seq<Atom>)
    ensures Extends(s.turns, ApplyAll(moves, s, atoms).turns)
  {
    if atoms != [] {
      AtomsExtend(moves, s, atoms[..|atoms| - 1]);
      var before := ApplyAll(moves, s, atoms[..|atoms| - 1]);
      AtomExtends(moves, before, atoms[|atoms| - 1]);
      ExtendsTransitive(s.turns, before.turns, ApplyAll(moves, s, atoms).turns);
    }
  }

  lemma {:induction false} MoreAtomsExtend(moves: Growth, a: seq<Atom>, b: seq<Atom>)
    requires a <= b
    ensures Extends(ApplyAll(moves, START, a).turns, ApplyAll(moves, START, b).turns)
  {
    assert b == a + b[|a|..];
    ApplyAllConcat(moves, START, a, b[|a|..]);
    AtomsExtend(moves, ApplyAll(moves, START, a), b[|a|..]);
  }

  // ---- Context: the conversation is partitioned among the steps ----

  function StepContexts(turn: Turn): seq<seq<ContextItem>> {
    seq(|turn.steps|, i requires 0 <= i < |turn.steps| => turn.steps[i].context)
  }

  /** The contexts of all steps, in order. */
  function Contexts(turns: seq<Turn>): seq<seq<ContextItem>> {
    if turns == [] then [] else Contexts(turns[..|turns| - 1]) + StepContexts(turns[|turns| - 1])
  }

  lemma {:induction false} SameContexts(a: seq<Turn>, b: seq<Turn>)
    requires |a| == |b| && forall i | 0 <= i < |a| :: StepContexts(a[i]) == StepContexts(b[i])
    ensures Contexts(a) == Contexts(b)
  {
    if a != [] {
      SameContexts(a[..|a| - 1], b[..|b| - 1]);
    }
  }

  lemma {:induction false} NewStepContexts(s: State, id: string, at: int, model: string)
    requires HasTurn(s)
    ensures Contexts(NewStep(s, id, at, model).turns) == Contexts(s.turns) + [Snapshot(s.shown)]
  {
    var s' := NewStep(s, id, at, model);
    assert s'.turns[..|s'.turns| - 1] == s.turns[..|s.turns| - 1];
    assert StepContexts(Current(s')) == StepContexts(Current(s)) + [Snapshot(s.shown)];
  }

  predicate OpensStep(s: State, atom: Atom) {
    HasTurn(s) &&
    ((atom.OpenStep? && FindStep(Current(s).steps, atom.id) == |Current(s).steps|)
     || (atom.OpenOnlyStep? && Current(s).steps == []))
  }

  lemma {:induction false} CurrentContexts(s: State, turn: Turn)
    requires HasTurn(s) && StepContexts(turn) == StepContexts(Current(s))
    ensures Contexts(SetCurrent(s, turn).turns) == Contexts(s.turns)
  {
    SameContexts(s.turns, SetCurrent(s, turn).turns);
  }

  lemma {:induction false} WriteContexts(s: State, r: Ref, call: ToolCall)
    requires InRange(s, r)
    ensures Contexts(Write(s, r, call).turns) == Contexts(s.turns)
  {
    assert StepContexts(Write(s, r, call).turns[r.turn]) == StepContexts(s.turns[r.turn]);
    SameContexts(s.turns, Write(s, r, call).turns);
  }

  lemma {:induction false} UpdatedContexts(moves: Growth, s: State, atom: Atom)
    requires HasStep(s)
    ensures Contexts(Updated(s, atom).turns) == Contexts(s.turns)
    ensures atom.Call? ==> Contexts(Apply(moves, s, atom).turns) == Contexts(s.turns)
  {
    assert StepContexts(Current(Updated(s, atom))) == StepContexts(Current(s));
    CurrentContexts(s, Current(Updated(s, atom)));
    if atom.Call? {
      assert StepContexts(Current(Apply(moves, s, atom))) == StepContexts(Current(s));
      CurrentContexts(s, Current(Apply(moves, s, atom)));
    }
  }

  lemma {:induction false} OpenTurnContexts(moves: Growth, s: State, atom: Atom)
    requires atom.OpenTurn?
    ensures Contexts(Apply(moves, s, atom).turns) == Contexts(s.turns)
  {
    var s' := Apply(moves, s, atom);
    assert s'.turns[..|s'.turns| - 1] == s.turns;
    assert StepContexts(Current(s')) == [];
  }

  lemma {:induction false} TurnAtomContexts(moves: Growth, s: State, atom: Atom)
    requires atom.AddInput? || atom.SetUsage?
    ensures Contexts(Apply(moves, s, atom).turns) == Contexts(s.turns)
  {
    if HasTurn(s) {
      CurrentContexts(s, Current(Apply(moves, s, atom)));
    }
  }

  lemma {:induction false} OtherContexts(moves: Growth, s: State, atom: Atom)
    requires !OpensStep(s, atom)
    ensures Contexts(Apply(moves, s, atom).turns) == Contexts(s.turns)
  {
    match atom {
      case OpenTurn(_, _, _, _, _) => OpenTurnContexts(moves, s, atom);
      case Result(callID, output, at, failed) =>
        if callID in s.pending && InRange(s, s.pending[callID]) {
          var r := s.pending[callID];
          WriteContexts(s, r, Answered(Pointee(s, r), output, at, failed));
        }
      case AddInput(_, _) => TurnAtomContexts(moves, s, atom);
      case SetUsage(_) => TurnAtomContexts(moves, s, atom);
      case Note(_, _, _, _) =>
      case OpenStep(_, _, _) =>
      case OpenOnlyStep(_, _) =>
      case _ =>
        if HasStep(s) { UpdatedContexts(moves, s, atom); }
    }
  }

  lemma {:induction false} AtomPartitions(moves: Growth, s: State, atom: Atom)
    requires Partitioned(Contexts(s.turns), s.shown)
    ensures Partitioned(Contexts(Apply(moves, s, atom).turns), Apply(moves, s, atom).shown)
  {
    if OpensStep(s, atom) {
      NewStepContexts(s, if atom.OpenStep? then atom.id else Current(s).id + "@step", atom.at, atom.model);
      SnapshotPartitions(Contexts(s.turns), s.shown);
    } else {
      OtherContexts(moves, s, atom);
      var item := ShownNext(moves, s, atom);
      AddPartitions(Contexts(s.turns), s.shown, item);
    }
  }

  /** What an atom that opens no step adds to the conversation, if anything. */
  lemma {:induction false} ShownNext(moves: Growth, s: State, atom: Atom) returns (item: ContextItem)
    requires !OpensStep(s, atom)
    ensures !item.isNew && Apply(moves, s, atom).shown in {s.shown, Add(s.shown, item)}
  {
    item := ContextItem("", "", Absent, false, 0);
    match atom {
      case Note(role, text, json, at) => item := ContextItem(role, text, json, false, at);
      case Result(_, output, at, _) => item := ContextItem("tool", "", output, false, at);
      case Call(_, _, _, _, _) =>
      case OpenTurn(_, _, _, _, _) =>
      case AddInput(_, _) =>
      case OpenStep(_, _, _) =>
      case OpenOnlyStep(_, _) =>
      case SetUsage(_) =>
      case _ =>
        if HasStep(s) { assert Updated(s, atom).shown == s.shown; }
    }
  }

  /** Context is partitioned, over any run of atoms: each step's context continues the one of
      the step before, and what the steps flag new, put together in order, is exactly the last
      step's context, so each item is new exactly once. */
  lemma {:induction false} ContextIsPartitioned(moves: Growth, atoms: seq<Atom>)
    ensures
      var s := ApplyAll(moves, START, atoms);
      var contexts := Contexts(s.turns);
      && Partitioned(contexts, s.shown)
      && (contexts != [] ==> AllFresh(contexts) == Unmarked(contexts[|contexts| - 1]))
  {
    if atoms != [] {
      ContextIsPartitioned(moves, atoms[..|atoms| - 1]);
      AtomPartitions(moves, ApplyAll(moves, START, atoms[..|atoms| - 1]), atoms[|atoms| - 1]);
    }
  }
}
