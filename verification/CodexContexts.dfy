// What each step of a codex rollout was shown, from its lines alone: everything said before the step's
// first line, in order (internal/transcript/codex.go). What is said are the session's instructions,
// messages, thoughts, calls and the outputs of calls that wait for one.

module CodexContexts {
  import opened Options
  import opened Transcript
  import opened Builder
  import opened Outlines
  import opened Talks
  import opened Codex
  import opened CodexTurns

  /** What is said in the lines: the session's instructions, the messages of anyone but the model,
      and, within a turn, the model's messages, thoughts and calls and the outputs of calls that
      wait for one. */
  function Heard(delimited: bool, lines: seq<Line>): Talk {
    if lines == [] then SILENCE else
      var init, last := lines[..|lines| - 1], lines[|lines| - 1];
      LineHeard(Heard(delimited, init), Starts(delimited, init) != [], last)
  }

  function LineHeard(talk: Talk, open: bool, line: Line): Talk {
    if line.SessionMeta? && line.instructions != "" then WithItem(talk, "system", line.instructions, Absent, line.at)
    else if !line.ResponseItem? then talk
    else if line.item.Message? && line.item.role != "assistant" then WithItem(talk, line.item.role, line.item.text, Absent, line.at)
    else if !open then talk
    else
      match line.item
      case Message(_, text) => WithItem(talk, "assistant", text, Absent, line.at)
      case Reasoning(text) => WithItem(talk, "assistant", text, Absent, line.at)
      case ToolCallItem(callID, name, tool, _, arguments) =>
        WithCall(talk, callID, if name != "" then name else tool, arguments, line.at)
      case ToolOutput(callID, output, _) => WithResult(talk, callID, output, line.at)
      case OtherItem => talk
  }

  lemma {:induction false} ItemTells(moves: Growth, s: State, talk: Talk, line: Line)
    requires Tells(moves, s, talk) && HasStep(s) && Output(line)
    ensures Tells(moves, ApplyAll(moves, s, ItemAtoms(line.item, line.at)), LineHeard(talk, true, line))
  {
    var atoms := ItemAtoms(line.item, line.at);
    match line.item {
      case Message(_, text) => WordTells(moves, s, talk, Say(text), "assistant", text, line.at);
      case Reasoning(text) => WordTells(moves, s, talk, Reason(text), "assistant", text, line.at);
      case ToolCallItem(_, _, _, _, _) =>
        ApplyTwo(moves, s, atoms[0], atoms[1]);
        CallTells(moves, s, talk, atoms[0]);
      case ToolOutput(_, _, _) =>
        ApplyOne(moves, s, atoms[0]);
        ResultTells(moves, s, talk, atoms[0]);
      case OtherItem =>
    }
  }

  lemma {:induction false} OutputTells(moves: Growth, s: State, talk: Talk, line: Line, model: string)
    requires Tells(moves, s, talk) && HasTurn(s) && |Current(s).steps| <= 1 && Output(line)
    ensures Tells(moves, ApplyAll(moves, s, [OpenOnlyStep(line.at, model)] + ItemAtoms(line.item, line.at) + [Close(line.at)]),
                  LineHeard(talk, true, line))
  {
    var opening, item := OpenOnlyStep(line.at, model), ItemAtoms(line.item, line.at);
    var begun := Apply(moves, s, opening);
    var spoken := ApplyAll(moves, begun, item);
    OtherTells(moves, s, talk, opening);
    ItemTells(moves, begun, talk, line);
    OtherTells(moves, spoken, LineHeard(talk, true, line), Close(line.at));
    ApplyOne(moves, s, opening);
    ApplyAllConcat(moves, s, [opening], item);
    ApplyAllConcat(moves, s, [opening] + item, [Close(line.at)]);
    ApplyOne(moves, spoken, Close(line.at));
  }

  lemma {:induction false} NotesTell(moves: Growth, s: State, talk: Talk, notes: seq<Atom>)
    requires Tells(moves, s, talk) && |notes| <= 1 && (notes != [] ==> notes[0].Note?)
    ensures Tells(moves, ApplyAll(moves, s, notes),
                  if notes == [] then talk else WithItem(talk, notes[0].role, notes[0].text, notes[0].json, notes[0].at))
  {
    if notes != [] {
      assert notes == [notes[0]];
      ApplyOne(moves, s, notes[0]);
      NoteTells(moves, s, talk, notes[0].role, notes[0].text, notes[0].json, notes[0].at);
    }
  }

  lemma {:induction false} SilenceTells(moves: Growth, s: State, talk: Talk, quiet: seq<Atom>)
    requires Tells(moves, s, talk) && |quiet| <= 1
    requires quiet != [] ==> quiet[0].OpenTurn? || quiet[0].AddInput? || quiet[0].SetUsage?
    ensures Tells(moves, ApplyAll(moves, s, quiet), talk)
  {
    if quiet != [] {
      assert quiet == [quiet[0]];
      ApplyOne(moves, s, quiet[0]);
      OtherTells(moves, s, talk, quiet[0]);
    }
  }

  /** A note, if any, and then an atom, if any, that says nothing. */
  lemma {:induction false} QuietTells(moves: Growth, s: State, talk: Talk, notes: seq<Atom>, quiet: seq<Atom>)
    requires Tells(moves, s, talk) && |notes| <= 1 && |quiet| <= 1 && (notes != [] ==> notes[0].Note?)
    requires quiet != [] ==> quiet[0].OpenTurn? || quiet[0].AddInput? || quiet[0].SetUsage?
    ensures Tells(moves, ApplyAll(moves, s, notes + quiet),
                  if notes == [] then talk else WithItem(talk, notes[0].role, notes[0].text, notes[0].json, notes[0].at))
  {
    ApplyAllConcat(moves, s, notes, quiet);
    NotesTell(moves, s, talk, notes);
    SilenceTells(moves, ApplyAll(moves, s, notes),
                 if notes == [] then talk else WithItem(talk, notes[0].role, notes[0].text, notes[0].json, notes[0].at), quiet);
  }

  lemma {:induction false} LineTells(moves: Growth, s: State, talk: Talk, delimited: bool, scan: Scan, line: Line)
    requires Tells(moves, s, talk) && (scan.open ==> HasTurn(s) && |Current(s).steps| <= 1)
    ensures Tells(moves, ApplyAll(moves, s, LineAtoms(delimited, scan, line)), LineHeard(talk, scan.open, line))
  {
    var atoms := LineAtoms(delimited, scan, line);
    if line.ResponseItem? && line.item.Message? && line.item.role != "assistant" {
      assert atoms == atoms[..1] + atoms[1..];
      QuietTells(moves, s, talk, atoms[..1], atoms[1..]);
    } else if line.ResponseItem? {
      if scan.open {
        OutputTells(moves, s, talk, line, scan.model);
      }
    } else if line.SessionMeta? {
      assert atoms + [] == atoms;
      QuietTells(moves, s, talk, atoms, []);
    } else {
      assert [] + atoms == atoms;
      QuietTells(moves, s, talk, [], atoms);
    }
  }

  /** The parser's conversation is what the lines say. */
  lemma {:induction false} LinesTell(moves: Growth, delimited: bool, lines: seq<Line>)
    ensures Tells(moves, ApplyAll(moves, START, AtomsOf(delimited, lines)), Heard(delimited, lines))
  {
    if lines != [] {
      var init, last := lines[..|lines| - 1], lines[|lines| - 1];
      var s := ApplyAll(moves, START, AtomsOf(delimited, init));
      LinesTell(moves, delimited, init);
      NextLine(moves, delimited, lines);
      ScanFollows(delimited, init);
      LinesRead(moves, delimited, init);
      if HasTurn(s) {
        StepsRead(s.turns, init, Starts(delimited, init), |s.turns| - 1);
      }
      LineTells(moves, s, Heard(delimited, init), delimited, ScanOf(delimited, init), last);
    }
  }

  lemma {:induction false} StepsRead(turns: seq<Turn>, lines: seq<Line>, starts: seq<nat>, t: nat)
    requires ReadAt(turns, lines, starts) && t < |turns|
    ensures starts[t] < EndAt(starts, |lines|, t) <= |lines| && |turns[t].steps| <= 1
    ensures
      var own := lines[starts[t] + 1..EndAt(starts, |lines|, t)];
      turns[t].steps == [] <==> FirstOutput(own) == |own|
  {
    assert ReadFrom(turns[t], lines, starts[t], EndAt(starts, |lines|, t));
  }

  // ---- What each turn's step was shown ----

  /** The step of the turn opened by line p, with lines up to q its own, was shown all that was
      said before its first line. */
  ghost predicate TurnShown(turn: Turn, delimited: bool, lines: seq<Line>, p: nat, q: nat) {
    p < q <= |lines| &&
    (turn.steps != [] ==>
       var f := FirstOutput(lines[p + 1..q]);
       p + 1 + f < q && Unmarked(turn.steps[0].context) == Heard(delimited, lines[..p + 1 + f]).items)
  }

  ghost predicate ShownAt(turns: seq<Turn>, delimited: bool, lines: seq<Line>, starts: seq<nat>) {
    && |turns| == |starts|
    && forall t | 0 <= t < |turns| :: TurnShown(turns[t], delimited, lines, starts[t], EndAt(starts, |lines|, t))
  }

  ghost predicate AllShown(turns: seq<Turn>, delimited: bool, lines: seq<Line>) {
    ShownAt(turns, delimited, lines, Starts(delimited, lines))
  }

  lemma {:induction false} StillShown(turn: Turn, turn': Turn, delimited: bool, init: seq<Line>, line: Line, p: nat, q: nat)
    requires TurnShown(turn, delimited, init, p, q) && SameOutline(turn, turn')
    ensures TurnShown(turn', delimited, init + [line], p, q)
  {
    SlicesKept(init, line, p, q);
    if turn.steps != [] {
      assert turn.steps[0].(calls := Calls([])) == turn'.steps[0].(calls := Calls([]));
      var f := FirstOutput(init[p + 1..q]);
      assert (init + [line])[..p + 1 + f] == init[..p + 1 + f];
    }
  }

  /** The open turn with one more line: its step keeps its context, or begins with the line. */
  lemma {:induction false} ShownOn(turn: Turn, turn': Turn, delimited: bool, init: seq<Line>, line: Line, p: nat)
    requires TurnShown(turn, delimited, init, p, |init|) && (turn.steps == [] <==> FirstOutput(init[p + 1..]) == |init[p + 1..]|)
    requires turn.steps != [] ==> turn'.steps != [] && turn'.steps[0].context == turn.steps[0].context
    requires turn.steps == [] && turn'.steps != [] ==> Output(line) && Unmarked(turn'.steps[0].context) == Heard(delimited, init).items
    ensures TurnShown(turn', delimited, init + [line], p, |init| + 1)
  {
    var own, f := init[p + 1..], FirstOutput(init[p + 1..]);
    SlicesKept(init, line, p, |init|);
    assert init[p + 1..|init|] == own;
    OneMore(own, line);
    if turn.steps != [] {
      assert (init + [line])[..p + 1 + f] == init[..p + 1 + f];
    } else {
      assert (init + [line])[..|init|] == init;
    }
  }

  lemma {:induction false} OthersStillShown(turns: seq<Turn>, turns': seq<Turn>, delimited: bool, init: seq<Line>, line: Line, starts: seq<nat>)
    requires ShownAt(turns, delimited, init, starts) && OthersSame(turns, turns')
    ensures forall t | 0 <= t < |starts| - 1 :: TurnShown(turns'[t], delimited, init + [line], starts[t], starts[t + 1])
  {
    forall t | 0 <= t < |starts| - 1 ensures TurnShown(turns'[t], delimited, init + [line], starts[t], starts[t + 1]) {
      assert TurnShown(turns[t], delimited, init, starts[t], EndAt(starts, |init|, t));
      StillShown(turns[t], turns'[t], delimited, init, line, starts[t], starts[t + 1]);
    }
  }

  lemma {:induction false} JoinShown(turns: seq<Turn>, delimited: bool, lines: seq<Line>, starts: seq<nat>)
    requires |turns| == |starts| > 0
    requires forall t | 0 <= t < |starts| - 1 :: TurnShown(turns[t], delimited, lines, starts[t], starts[t + 1])
    requires TurnShown(turns[|starts| - 1], delimited, lines, starts[|starts| - 1], |lines|)
    ensures ShownAt(turns, delimited, lines, starts)
  {
  }

  lemma {:induction false} SnapshotHeard(moves: Growth, delimited: bool, lines: seq<Line>)
    ensures Unmarked(Snapshot(ApplyAll(moves, START, AtomsOf(delimited, lines)).shown)) == Heard(delimited, lines).items
  {
    LinesTell(moves, delimited, lines);
    ContextIsPartitioned(moves, AtomsOf(delimited, lines));
    SnapshotIsTalk(moves, ApplyAll(moves, START, AtomsOf(delimited, lines)), Heard(delimited, lines));
  }

  /** The open turn, once a line that opens none is read into it. */
  lemma {:induction false} OpenTurnShown(moves: Growth, s: State, delimited: bool, init: seq<Line>, line: Line, p: nat, n: nat, turn: Turn)
    requires !Opens(delimited, init, line) && ScanOf(delimited, init).open && |s.turns| == n + 1
    requires turn == s.turns[n] && |turn.steps| <= 1 && TurnShown(turn, delimited, init, p, |init|)
    requires turn.steps == [] <==> FirstOutput(init[p + 1..|init|]) == |init[p + 1..|init|]|
    requires Unmarked(Snapshot(s.shown)) == Heard(delimited, init).items
    ensures
      var turns := ApplyAll(moves, s, LineAtoms(delimited, ScanOf(delimited, init), line)).turns;
      OthersSame(s.turns, turns) && TurnShown(turns[n], delimited, init + [line], p, |init| + 1)
  {
    var turn' := LastTaken(moves, s, delimited, init, line, n);
    LastShown(turn, turn', delimited, init, line, p, Snapshot(s.shown));
  }

  lemma {:induction false} LastTaken(moves: Growth, s: State, delimited: bool, init: seq<Line>, line: Line, n: nat) returns (turn': Turn)
    requires !Opens(delimited, init, line) && ScanOf(delimited, init).open && |s.turns| == n + 1 && |s.turns[n].steps| <= 1
    ensures
      var turns := ApplyAll(moves, s, LineAtoms(delimited, ScanOf(delimited, init), line)).turns;
      OthersSame(s.turns, turns) && turn' == turns[n]
    ensures Output(line) ==> TookOutput(s.turns[n], line, LastModel(init), Snapshot(s.shown), turn')
    ensures !Output(line) ==> TookOther(s.turns[n], line, turn')
  {
    LineTaken(moves, s, delimited, init, line);
    turn' := ApplyAll(moves, s, LineAtoms(delimited, ScanOf(delimited, init), line)).turns[n];
  }

  lemma {:induction false} AllShownAgain(turns: seq<Turn>, turns': seq<Turn>, delimited: bool, init: seq<Line>, line: Line, starts: seq<nat>)
    requires ShownAt(turns, delimited, init, starts) && OthersSame(turns, turns') && starts != []
    requires TurnShown(turns'[|starts| - 1], delimited, init + [line], starts[|starts| - 1], |init| + 1)
    ensures ShownAt(turns', delimited, init + [line], starts)
  {
    OthersStillShown(turns, turns', delimited, init, line, starts);
    JoinShown(turns', delimited, init + [line], starts);
  }

  lemma {:induction false} LastWasShown(turns: seq<Turn>, delimited: bool, init: seq<Line>, starts: seq<nat>)
    requires ShownAt(turns, delimited, init, starts) && starts != []
    ensures TurnShown(turns[|starts| - 1], delimited, init, starts[|starts| - 1], |init|)
  {
    assert EndAt(starts, |init|, |starts| - 1) == |init|;
  }

  lemma {:induction false} OpenShown(moves: Growth, s: State, delimited: bool, init: seq<Line>, line: Line, starts: seq<nat>)
    requires !Opens(delimited, init, line) && ScanOf(delimited, init).open && starts != []
    requires ReadAt(s.turns, init, starts) && ShownAt(s.turns, delimited, init, starts)
    requires Unmarked(Snapshot(s.shown)) == Heard(delimited, init).items
    ensures ShownAt(ApplyAll(moves, s, LineAtoms(delimited, ScanOf(delimited, init), line)).turns, delimited, init + [line], starts)
  {
    var n := |starts| - 1;
    StepsRead(s.turns, init, starts, n);
    LastWasShown(s.turns, delimited, init, starts);
    OpenTurnShown(moves, s, delimited, init, line, starts[n], n, s.turns[n]);
    AllShownAgain(s.turns, ApplyAll(moves, s, LineAtoms(delimited, ScanOf(delimited, init), line)).turns, delimited, init, line, starts);
  }

  lemma {:induction false} LastShown(turn: Turn, turn': Turn, delimited: bool, init: seq<Line>, line: Line, p: nat, context: seq<ContextItem>)
    requires TurnShown(turn, delimited, init, p, |init|) && |turn.steps| <= 1
    requires turn.steps == [] <==> FirstOutput(init[p + 1..|init|]) == |init[p + 1..|init|]|
    requires Output(line) ==> TookOutput(turn, line, LastModel(init), context, turn')
    requires !Output(line) ==> TookOther(turn, line, turn')
    requires Unmarked(context) == Heard(delimited, init).items
    ensures TurnShown(turn', delimited, init + [line], p, |init| + 1)
  {
    assert init[p + 1..|init|] == init[p + 1..];
    ShownOn(turn, turn', delimited, init, line, p);
  }

  lemma {:induction false} OpeningShown(turns: seq<Turn>, turn: Turn, delimited: bool, init: seq<Line>, line: Line, starts: seq<nat>)
    requires ShownAt(turns, delimited, init, starts) && turn.steps == []
    ensures ShownAt(turns + [turn], delimited, init + [line], starts + [|init|])
  {
    var starts', n := starts + [|init|], |init|;
    forall t | 0 <= t < |turns| ensures TurnShown(turns[t], delimited, init + [line], starts[t], EndAt(starts', n + 1, t)) {
      SameOutlineSelf(turns[t]);
      StillShown(turns[t], turns[t], delimited, init, line, starts[t], EndAt(starts, n, t));
    }
  }

  lemma {:induction false} OpeningLineShown(moves: Growth, s: State, delimited: bool, init: seq<Line>, line: Line, starts: seq<nat>)
    requires Opens(delimited, init, line) && ShownAt(s.turns, delimited, init, starts)
    ensures ShownAt(ApplyAll(moves, s, LineAtoms(delimited, ScanOf(delimited, init), line)).turns, delimited, init + [line], starts + [|init|])
  {
    var turns := ApplyAll(moves, s, LineAtoms(delimited, ScanOf(delimited, init), line)).turns;
    NewTurn(moves, s, delimited, init, line);
    assert turns == s.turns + [turns[|s.turns|]];
    OpeningShown(s.turns, turns[|s.turns|], delimited, init, line, starts);
  }

  lemma {:induction false} LineShown(moves: Growth, s: State, delimited: bool, init: seq<Line>, line: Line)
    requires AllShown(s.turns, delimited, init) && ReadAt(s.turns, init, Starts(delimited, init))
    requires Unmarked(Snapshot(s.shown)) == Heard(delimited, init).items
    ensures AllShown(ApplyAll(moves, s, LineAtoms(delimited, ScanOf(delimited, init), line)).turns, delimited, init + [line])
  {
    var starts := Starts(delimited, init);
    StartsNext(delimited, init, line);
    ScanFollows(delimited, init);
    if Opens(delimited, init, line) {
      OpeningLineShown(moves, s, delimited, init, line, starts);
    } else if starts != [] {
      OpenShown(moves, s, delimited, init, line, starts);
    } else {
      NothingOpen(moves, s, delimited, init, line);
    }
  }

  lemma {:induction false} LinesShown(moves: Growth, delimited: bool, lines: seq<Line>)
    ensures AllShown(ApplyAll(moves, START, AtomsOf(delimited, lines)).turns, delimited, lines)
  {
    if lines != [] {
      var init, line := lines[..|lines| - 1], lines[|lines| - 1];
      assert lines == init + [line];
      LinesShown(moves, delimited, init);
      NextLine(moves, delimited, lines);
      LinesRead(moves, delimited, init);
      SnapshotHeard(moves, delimited, init);
      LineShown(moves, ApplyAll(moves, START, AtomsOf(delimited, init)), delimited, init, line);
    }
  }

  /** The context of a turn's step is the conversation up to the first thing the model says in
      the turn, as the lines say it. */
  lemma {:induction false} StepsAreShownTheTalk(moves: Growth, lines: seq<Line>)
    ensures AllShown(Parse(moves, lines), HasTurnIDs(lines), lines)
  {
    LinesShown(moves, HasTurnIDs(lines), lines);
  }
}
