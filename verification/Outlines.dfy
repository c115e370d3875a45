// What the turns say apart from their tool calls: the atoms that leave it alone, and what those that say
// something or end a step make of the turn in flight. What the turns of either parser say is read off
// this, line by line.

module Outlines {
  import opened Options
  import opened Transcript
  import opened Builder

  /** The same turn up to the tool calls of its steps. */
  ghost predicate SameOutline(a: Turn, b: Turn) {
    && a.(steps := []) == b.(steps := []) && |a.steps| == |b.steps|
    && forall j | 0 <= j < |a.steps| :: a.steps[j].(calls := Calls([])) == b.steps[j].(calls := Calls([]))
  }

  ghost predicate Kept(s: State, s': State) {
    && |s.turns| == |s'.turns| && s.cursor == s'.cursor
    && forall t | 0 <= t < |s.turns| :: SameOutline(s.turns[t], s'.turns[t])
  }

  lemma {:induction false} KeptTransitive(a: State, b: State, c: State)
    requires Kept(a, b) && Kept(b, c)
    ensures Kept(a, c)
  {
    forall t | 0 <= t < |a.turns| ensures SameOutline(a.turns[t], c.turns[t]) {
      assert SameOutline(a.turns[t], b.turns[t]) && SameOutline(b.turns[t], c.turns[t]);
    }
  }

  /** Atoms that touch nothing but calls and the conversation. */
  predicate Silent(atom: Atom) {
    atom.Note? || atom.Call? || atom.Result?
  }

  lemma {:induction false} SilentKeeps(moves: Growth, s: State, atom: Atom)
    requires Silent(atom)
    ensures Kept(s, Apply(moves, s, atom))
  {
    match atom {
      case Note(_, _, _, _) =>
      case Call(callID, name, server, at, arguments) =>
        if HasStep(s) {
          CalledKeeps(moves, s, NewCall(callID, name, server, at, arguments));
        }
      case Result(callID, output, at, failed) =>
        if callID in s.pending && InRange(s, s.pending[callID]) {
          var r := s.pending[callID];
          WriteKeeps(s, r, Answered(Pointee(s, r), output, at, failed));
        }
    }
  }

  lemma {:induction false} CalledKeeps(moves: Growth, s: State, call: ToolCall)
    requires HasStep(s)
    ensures Kept(s, Called(moves, s, call))
  {
    assert SameOutline(Current(s), Current(Called(moves, s, call)));
  }

  lemma {:induction false} WriteKeeps(s: State, r: Ref, call: ToolCall)
    requires InRange(s, r)
    ensures Kept(s, Write(s, r, call))
  {
    assert SameOutline(s.turns[r.turn], Write(s, r, call).turns[r.turn]);
  }

  lemma {:induction false} SilentAllKeep(moves: Growth, s: State, atoms: seq<Atom>)
    requires forall atom | atom in atoms :: Silent(atom)
    ensures Kept(s, ApplyAll(moves, s, atoms))
  {
    if atoms != [] {
      assert atoms[|atoms| - 1] in atoms;
      SilentAllKeep(moves, s, atoms[..|atoms| - 1]);
      SilentKeeps(moves, ApplyAll(moves, s, atoms[..|atoms| - 1]), atoms[|atoms| - 1]);
      KeptTransitive(s, ApplyAll(moves, s, atoms[..|atoms| - 1]), ApplyAll(moves, s, atoms));
    }
  }

  lemma {:induction false} KeptHas(s: State, s': State)
    requires Kept(s, s')
    ensures HasTurn(s) ==> HasTurn(s') && SameOutline(Current(s), Current(s'))
    ensures HasStep(s) ==> HasStep(s')
  {
    if HasTurn(s) {
      assert SameOutline(s.turns[|s.turns| - 1], s'.turns[|s.turns| - 1]);
    }
  }

  /** The open turn alone has changed, to turn up to its calls. */
  ghost predicate BecomesTurn(s: State, s': State, turn: Turn) {
    && HasTurn(s) && |s.turns| == |s'.turns|
    && (forall t | 0 <= t < |s.turns| - 1 :: SameOutline(s.turns[t], s'.turns[t]))
    && SameOutline(turn, s'.turns[|s.turns| - 1])
  }

  /** A turn with more said in step i. */
  function Worded(turn: Turn, i: nat, text: string, thought: string): Turn
    requires i < |turn.steps|
  {
    var step := turn.steps[i];
    WithStep(turn, i, step.(text := step.text + text, reasoning := step.reasoning + thought)).(finalOutput := turn.finalOutput + text)
  }

  /** And with its end and its step's moved. */
  function Ended(turn: Turn, i: nat, at: int): Turn
    requires i < |turn.steps|
  {
    WithStep(turn, i, turn.steps[i].(endedAt := at)).(endedAt := at)
  }

  lemma {:induction false} SayingWords(moves: Growth, s: State, text: string)
    requires HasStep(s)
    ensures BecomesTurn(s, Apply(moves, s, Say(text)), Worded(Current(s), s.cursor, text, ""))
    ensures BecomesTurn(s, Apply(moves, s, Reason(text)), Worded(Current(s), s.cursor, "", text))
    ensures Apply(moves, s, Say(text)).cursor == s.cursor == Apply(moves, s, Reason(text)).cursor
  {
    assert Current(s).finalOutput + "" == Current(s).finalOutput;
    assert CurrentStep(s).text + "" == CurrentStep(s).text && CurrentStep(s).reasoning + "" == CurrentStep(s).reasoning;
  }

  lemma {:induction false} ClosingEnds(moves: Growth, s: State, at: int)
    requires HasStep(s)
    ensures BecomesTurn(s, Apply(moves, s, Close(at)), Ended(Current(s), s.cursor, at)) && Apply(moves, s, Close(at)).cursor == s.cursor
  {
  }

  lemma {:induction false} ThenKept(s: State, s': State, s'': State, turn: Turn)
    requires BecomesTurn(s, s', turn) && Kept(s', s'')
    ensures BecomesTurn(s, s'', turn)
  {
    forall t | 0 <= t < |s.turns| - 1 ensures SameOutline(s.turns[t], s''.turns[t]) {
      assert SameOutline(s.turns[t], s'.turns[t]) && SameOutline(s'.turns[t], s''.turns[t]);
    }
    assert SameOutline(s'.turns[|s.turns| - 1], s''.turns[|s.turns| - 1]);
  }

  /** What is said after a turn became another is said of that. */
  lemma {:induction false} ThenWords(s: State, s': State, s'': State, turn: Turn, i: nat, text: string, thought: string)
    requires BecomesTurn(s, s', turn) && i < |turn.steps|
    requires i < |Current(s').steps| && BecomesTurn(s', s'', Worded(Current(s'), i, text, thought))
    ensures BecomesTurn(s, s'', Worded(turn, i, text, thought))
  {
    ThenOthers(s, s', s'', turn, Worded(Current(s'), i, text, thought));
    assert SameOutline(Worded(turn, i, text, thought), Worded(Current(s'), i, text, thought));
  }

  lemma {:induction false} ThenEnds(s: State, s': State, s'': State, turn: Turn, i: nat, at: int)
    requires BecomesTurn(s, s', turn) && i < |turn.steps|
    requires i < |Current(s').steps| && BecomesTurn(s', s'', Ended(Current(s'), i, at))
    ensures BecomesTurn(s, s'', Ended(turn, i, at))
  {
    ThenOthers(s, s', s'', turn, Ended(Current(s'), i, at));
    assert SameOutline(Ended(turn, i, at), Ended(Current(s'), i, at));
  }

  lemma {:induction false} ThenOthers(s: State, s': State, s'': State, turn: Turn, later: Turn)
    requires BecomesTurn(s, s', turn) && BecomesTurn(s', s'', later)
    ensures BecomesTurn(s, s'', Current(s'')) && SameOutline(later, Current(s''))
  {
    forall t | 0 <= t < |s.turns| - 1 ensures SameOutline(s.turns[t], s''.turns[t]) {
      assert SameOutline(s.turns[t], s'.turns[t]) && SameOutline(s'.turns[t], s''.turns[t]);
    }
  }

  lemma {:induction false} WordsAddUp(turn: Turn, i: nat, a: string, b: string, c: string, d: string)
    requires i < |turn.steps|
    ensures Worded(Worded(turn, i, a, b), i, c, d) == Worded(turn, i, a + c, b + d)
    ensures Worded(turn, i, "", "") == turn
  {
    var step := turn.steps[i];
    assert step.text + a + c == step.text + (a + c) && step.reasoning + b + d == step.reasoning + (b + d);
    assert turn.finalOutput + a + c == turn.finalOutput + (a + c);
    assert step.text + "" == step.text && step.reasoning + "" == step.reasoning && turn.finalOutput + "" == turn.finalOutput;
    assert Worded(Worded(turn, i, a, b), i, c, d).steps == Worded(turn, i, a + c, b + d).steps;
    assert turn.steps[i := step] == turn.steps;
  }

  lemma {:induction false} Unchanged(s: State)
    ensures Kept(s, s) && (HasTurn(s) ==> BecomesTurn(s, s, Current(s)))
  {
  }
}
