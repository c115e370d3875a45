// Tool outputs again, from the lines of a codex rollout alone: which line is the call, which its output,
// and what the turns show of the two. An output reaches its call or not as the slice that holds the call
// has stayed or moved (internal/transcript/codex.go:216-241).

module CodexResults {
  import opened Options
  import opened Transcript
  import opened Builder
  import opened ToolOutputs
  import opened Pieces
  import opened Codex
  import opened CodexTurns

  predicate IsCall(line: Line, id: string) {
    line.ResponseItem? && line.item.ToolCallItem? && line.item.callID == id
  }

  predicate IsOutput(line: Line, id: string) {
    line.ResponseItem? && line.item.ToolOutput? && line.item.callID == id
  }

  /** Line l, within a turn, is a call, line m the first output for it, and no line after l
      calls under its id again. */
  predicate FirstOutputFor(delimited: bool, lines: seq<Line>, l: nat, m: nat, id: string) {
    && l < m < |lines| && IsCall(lines[l], id) && IsOutput(lines[m], id)
    && Starts(delimited, lines[..l]) != []
    && (forall p | l < p < m :: !IsOutput(lines[p], id))
    && forall p | l < p < |lines| :: !IsCall(lines[p], id)
  }

  // ---- Where a line's atoms stand ----

  function LineAt(delimited: bool, lines: seq<Line>, i: nat): seq<Atom>
    requires i < |lines|
  {
    LineAtoms(delimited, ScanOf(delimited, lines[..i]), lines[i])
  }

  function LinePieces(delimited: bool, lines: seq<Line>): seq<seq<Atom>> {
    seq(|lines|, i requires 0 <= i < |lines| => LineAt(delimited, lines, i))
  }

  lemma {:induction false} PiecesOfPrefix(delimited: bool, lines: seq<Line>, n: nat)
    requires n <= |lines|
    ensures LinePieces(delimited, lines[..n]) == LinePieces(delimited, lines)[..n]
  {
    forall i | 0 <= i < n ensures LineAt(delimited, lines[..n], i) == LineAt(delimited, lines, i) {
      assert lines[..n][..i] == lines[..i];
    }
  }

  lemma {:induction false} LastPiece(delimited: bool, lines: seq<Line>)
    requires lines != []
    ensures AtomsOf(delimited, lines) == AtomsOf(delimited, lines[..|lines| - 1]) + LineAt(delimited, lines, |lines| - 1)
  {
  }

  lemma {:induction false} InPieces(delimited: bool, lines: seq<Line>)
    ensures AtomsOf(delimited, lines) == Flat(LinePieces(delimited, lines))
  {
    if lines != [] {
      var n := |lines| - 1;
      InPieces(delimited, lines[..n]);
      PiecesOfPrefix(delimited, lines, n);
      LastPiece(delimited, lines);
      FlatAt(LinePieces(delimited, lines), n);
      assert LinePieces(delimited, lines)[..n + 1] == LinePieces(delimited, lines);
    }
  }

  lemma {:induction false} LinesAround(delimited: bool, lines: seq<Line>, l: nat, m: nat)
    requires l < m <= |lines|
    ensures AtomsOf(delimited, lines[..m]) ==
      AtomsOf(delimited, lines[..l]) + LineAt(delimited, lines, l) + Flat(LinePieces(delimited, lines)[l + 1..m])
  {
    var pieces := LinePieces(delimited, lines)[..m];
    InPieces(delimited, lines[..l]);
    PiecesOfPrefix(delimited, lines, l);
    InPieces(delimited, lines[..m]);
    PiecesOfPrefix(delimited, lines, m);
    FlatAt(pieces, l);
    assert pieces[..l] == LinePieces(delimited, lines)[..l] && pieces[l + 1..] == LinePieces(delimited, lines)[l + 1..m];
  }

  // ---- The call's atoms and the output's ----

  function CallOf(line: Line): Atom
    requires line.ResponseItem? && line.item.ToolCallItem?
  {
    var item := line.item;
    Call(item.callID, if item.name != "" then item.name else item.tool, item.server, line.at, item.arguments)
  }

  function ResultOf(line: Line): Atom
    requires line.ResponseItem? && line.item.ToolOutput?
  {
    Result(line.item.callID, line.item.output, line.at, line.item.success == Some(false))
  }

  function StepOf(delimited: bool, lines: seq<Line>, i: nat): Atom
    requires i < |lines| && lines[i].ResponseItem?
  {
    OpenOnlyStep(lines[i].at, ScanOf(delimited, lines[..i]).model)
  }

  lemma {:induction false} CallInLine(delimited: bool, lines: seq<Line>, l: nat, id: string)
    requires l < |lines| && IsCall(lines[l], id) && Starts(delimited, lines[..l]) != []
    ensures LineAt(delimited, lines, l) ==
      [StepOf(delimited, lines, l)] + [CallOf(lines[l])] + [Note("assistant", CallOf(lines[l]).name, lines[l].item.arguments, lines[l].at), Close(lines[l].at)]
  {
    ScanFollows(delimited, lines[..l]);
  }

  lemma {:induction false} OutputInLine(delimited: bool, lines: seq<Line>, m: nat, id: string)
    requires m < |lines| && IsOutput(lines[m], id) && Starts(delimited, lines[..m]) != []
    ensures LineAt(delimited, lines, m) == [StepOf(delimited, lines, m)] + [ResultOf(lines[m])] + [Close(lines[m].at)]
  {
    ScanFollows(delimited, lines[..m]);
  }

  lemma {:induction false} StartsStay(delimited: bool, lines: seq<Line>, l: nat, m: nat)
    requires l <= m <= |lines|
    ensures Starts(delimited, lines[..l]) <= Starts(delimited, lines[..m])
    decreases m
  {
    if l < m {
      StartsStay(delimited, lines, l, m - 1);
      assert lines[..m][..m - 1] == lines[..m - 1];
    }
  }

  /** What happens before the call, between it and its output, and after that. */
  function BeforeCall(delimited: bool, lines: seq<Line>, l: nat): seq<Atom>
    requires l < |lines| && lines[l].ResponseItem?
  {
    AtomsOf(delimited, lines[..l]) + [StepOf(delimited, lines, l)]
  }

  function RestOfLine(line: Line): seq<Atom>
    requires line.ResponseItem? && line.item.ToolCallItem?
  {
    [Note("assistant", CallOf(line).name, line.item.arguments, line.at), Close(line.at)]
  }

  function Between(delimited: bool, lines: seq<Line>, l: nat, m: nat): seq<Atom>
    requires l < m < |lines| && lines[l].ResponseItem? && lines[l].item.ToolCallItem? && lines[m].ResponseItem?
  {
    RestOfLine(lines[l]) + Flat(LinePieces(delimited, lines)[l + 1..m]) + [StepOf(delimited, lines, m)]
  }

  function Afterwards(delimited: bool, lines: seq<Line>, m: nat): seq<Atom>
    requires m < |lines| && lines[m].ResponseItem?
  {
    [Close(lines[m].at)] + Flat(LinePieces(delimited, lines)[m + 1..|lines|])
  }

  lemma {:induction false} UpToOutput(delimited: bool, lines: seq<Line>, l: nat, m: nat, id: string)
    requires FirstOutputFor(delimited, lines, l, m, id)
    ensures BeforeCall(delimited, lines, l) + [CallOf(lines[l])] + Between(delimited, lines, l, m) ==
      AtomsOf(delimited, lines[..m]) + [StepOf(delimited, lines, m)]
    ensures BeforeCall(delimited, lines, l) <= AtomsOf(delimited, lines[..m])
  {
    LinesAround(delimited, lines, l, m);
    CallInLine(delimited, lines, l, id);
    CallAround(AtomsOf(delimited, lines[..m]), AtomsOf(delimited, lines[..l]), LineAt(delimited, lines, l),
               Flat(LinePieces(delimited, lines)[l + 1..m]),
               [StepOf(delimited, lines, l)], CallOf(lines[l]), RestOfLine(lines[l]), [StepOf(delimited, lines, m)]);
  }

  lemma {:induction false} WholeRun(delimited: bool, lines: seq<Line>, l: nat, m: nat, id: string)
    requires FirstOutputFor(delimited, lines, l, m, id)
    ensures AtomsOf(delimited, lines) ==
      BeforeCall(delimited, lines, l) + [CallOf(lines[l])] + Between(delimited, lines, l, m) + [ResultOf(lines[m])] + Afterwards(delimited, lines, m)
  {
    UpToOutput(delimited, lines, l, m, id);
    StartsStay(delimited, lines, l, m);
    OutputInLine(delimited, lines, m, id);
    LinesAround(delimited, lines, m, |lines|);
    assert lines[..|lines|] == lines;
    Inside(AtomsOf(delimited, lines), AtomsOf(delimited, lines[..m]), LineAt(delimited, lines, m),
           Flat(LinePieces(delimited, lines)[m + 1..|lines|]),
           [StepOf(delimited, lines, m)], ResultOf(lines[m]), [Close(lines[m].at)]);
  }

  // ---- Which atoms concern the call ----

  lemma {:induction false} LineApart(delimited: bool, scan: Scan, line: Line, id: string)
    ensures !IsCall(line, id) && !IsOutput(line, id) ==> forall atom | atom in LineAtoms(delimited, scan, line) :: Other(id)(atom)
    ensures !IsCall(line, id) ==> forall atom | atom in LineAtoms(delimited, scan, line) :: NotCalled(id)(atom)
  {
  }

  lemma {:induction false} LinesHold(delimited: bool, lines: seq<Line>, p: nat, q: nat, holds: Atom -> bool)
    requires p <= q <= |lines|
    requires forall i, atom | p <= i < q && atom in LineAt(delimited, lines, i) :: holds(atom)
    ensures forall atom | atom in Flat(LinePieces(delimited, lines)[p..q]) :: holds(atom)
  {
    var pieces := LinePieces(delimited, lines)[p..q];
    assert forall i | 0 <= i < |pieces| :: pieces[i] == LineAt(delimited, lines, p + i);
    FlatHolds(pieces, holds);
  }

  lemma {:induction false} NothingBetween(delimited: bool, lines: seq<Line>, l: nat, m: nat, id: string)
    requires FirstOutputFor(delimited, lines, l, m, id)
    ensures Unrelated(Between(delimited, lines, l, m), id)
  {
    forall i, atom | l + 1 <= i < m && atom in LineAt(delimited, lines, i) ensures Other(id)(atom) {
      LineApart(delimited, ScanOf(delimited, lines[..i]), lines[i], id);
    }
    LinesHold(delimited, lines, l + 1, m, Other(id));
    AllHold(RestOfLine(lines[l]), Flat(LinePieces(delimited, lines)[l + 1..m]), [StepOf(delimited, lines, m)], Other(id));
  }

  lemma {:induction false} NoCallAfter(delimited: bool, lines: seq<Line>, l: nat, m: nat, id: string)
    requires FirstOutputFor(delimited, lines, l, m, id)
    ensures forall atom | atom in Afterwards(delimited, lines, m) :: NotCalled(id)(atom)
  {
    forall i, atom | m + 1 <= i < |lines| && atom in LineAt(delimited, lines, i) ensures NotCalled(id)(atom) {
      LineApart(delimited, ScanOf(delimited, lines[..i]), lines[i], id);
    }
    LinesHold(delimited, lines, m + 1, |lines|, NotCalled(id));
    AllHold([], [Close(lines[m].at)], Flat(LinePieces(delimited, lines)[m + 1..|lines|]), NotCalled(id));
  }

  // ---- The step the call is in ----

  lemma {:induction false} OneStep(moves: Growth, delimited: bool, lines: seq<Line>, turn: nat)
    requires turn < |ApplyAll(moves, START, AtomsOf(delimited, lines)).turns|
    ensures |ApplyAll(moves, START, AtomsOf(delimited, lines)).turns[turn].steps| <= 1
  {
    LinesRead(moves, delimited, lines);
    var starts := Starts(delimited, lines);
    assert ReadFrom(ApplyAll(moves, START, AtomsOf(delimited, lines)).turns[turn], lines, starts[turn], EndAt(starts, |lines|, turn));
  }

  lemma {:induction false} OpeningHasStep(moves: Growth, s: State, opening: Atom)
    requires HasTurn(s) && |Current(s).steps| <= 1 && opening.OpenOnlyStep?
    ensures
      var s' := Apply(moves, s, opening);
      HasStep(s') && |s'.turns| == |s.turns| && s'.cursor == 0
  {
  }

  lemma {:induction false} CallsStep(moves: Growth, delimited: bool, lines: seq<Line>, l: nat, id: string)
    requires l < |lines| && IsCall(lines[l], id) && Starts(delimited, lines[..l]) != []
    ensures
      var s := ApplyAll(moves, START, BeforeCall(delimited, lines, l));
      HasStep(s) && |s.turns| == |Starts(delimited, lines[..l])| && s.cursor == 0
    ensures
      var slot := SlotOfCall(moves, BeforeCall(delimited, lines, l));
      slot.turn == |Starts(delimited, lines[..l])| - 1 && slot.step == 0
  {
    var s := ApplyAll(moves, START, AtomsOf(delimited, lines[..l]));
    LinesRead(moves, delimited, lines[..l]);
    OneStep(moves, delimited, lines[..l], |s.turns| - 1);
    OpeningHasStep(moves, s, StepOf(delimited, lines, l));
    ApplyLast(moves, START, AtomsOf(delimited, lines[..l]), StepOf(delimited, lines, l));
  }

  /** What the turns show of a call and, where it reached it, its output: n is how many calls
      the step held when the output came. */
  ghost predicate Shows(moves: Growth, turns: seq<Turn>, turn: nat, index: nat, n: nat, call: Line, output: Line)
    requires call.ResponseItem? && call.item.ToolCallItem? && output.ResponseItem? && output.item.ToolOutput?
  {
    && turn < |turns| && |turns[turn].steps| == 1 && index < n <= |turns[turn].steps[0].calls.View()|
    && var shown := turns[turn].steps[0].calls.View()[index];
    && shown.callID == call.item.callID && shown.name == (if call.item.name != "" then call.item.name else call.item.tool)
    && shown.server == call.item.server && shown.startedAt == call.at && shown.arguments == call.item.arguments
    && if Stays(moves, index, n) then
         && shown.endedAt == output.at && shown.output == output.item.output
         && shown.error == if output.item.success == Some(false) then TextOf(output.item.output) else ""
       else shown.endedAt == ZERO_TIME && shown.output == Absent && shown.error == ""
  }

  lemma {:induction false} OpeningKeepsCount(moves: Growth, atoms: seq<Atom>, opening: Atom, slot: Slot)
    requires opening.OpenOnlyStep?
    requires
      var turns := ApplyAll(moves, START, atoms).turns;
      slot.turn < |turns| && slot.step < |turns[slot.turn].steps|
    ensures
      var n := CallsByThen(moves, atoms + [opening], slot);
      n > 0 ==> n == |CallsAt(ApplyAll(moves, START, atoms), slot.turn, slot.step).View()|
  {
    OthersKeepCalls(moves, ApplyAll(moves, START, atoms), opening);
    ApplyLast(moves, START, atoms, opening);
  }

  lemma {:induction false} SlotGrows(a: seq<Turn>, b: seq<Turn>, turn: nat, step: nat)
    requires Extends(a, b) && turn < |a| && step < |a[turn].steps|
    ensures turn < |b| && step < |b[turn].steps| && |a[turn].steps[step].calls.View()| <= |b[turn].steps[step].calls.View()|
  {
    assert TurnExtends(a[turn], b[turn]);
    assert CallsExtend(a[turn].steps[step].calls.View(), b[turn].steps[step].calls.View());
  }

  /** How many calls a turn's step holds once the first m lines are read. */
  function HeldBy(moves: Growth, delimited: bool, lines: seq<Line>, m: nat, turn: nat): nat
    requires m <= |lines|
  {
    var turns := ApplyAll(moves, START, AtomsOf(delimited, lines[..m])).turns;
    if turn < |turns| && turns[turn].steps != [] then |turns[turn].steps[0].calls.View()| else 0
  }

  lemma {:induction false} CallsThen(moves: Growth, delimited: bool, lines: seq<Line>, l: nat, m: nat, id: string, slot: Slot)
    requires FirstOutputFor(delimited, lines, l, m, id)
    requires HasStep(ApplyAll(moves, START, BeforeCall(delimited, lines, l))) && slot == SlotOfCall(moves, BeforeCall(delimited, lines, l))
    requires slot.step == 0
    ensures
      var n := CallsByThen(moves, BeforeCall(delimited, lines, l) + [CallOf(lines[l])] + Between(delimited, lines, l, m), slot);
      n > 0 ==> n == HeldBy(moves, delimited, lines, m, slot.turn)
    ensures HeldInSlot(ApplyAll(moves, START, AtomsOf(delimited, lines[..m])), slot, HeldBy(moves, delimited, lines, m, slot.turn))
  {
    var before, so := BeforeCall(delimited, lines, l), AtomsOf(delimited, lines[..m]);
    UpToOutput(delimited, lines, l, m, id);
    MoreAtomsExtend(moves, before, so);
    SlotGrows(ApplyAll(moves, START, before).turns, ApplyAll(moves, START, so).turns, slot.turn, slot.step);
    OpeningKeepsCount(moves, so, StepOf(delimited, lines, m), slot);
  }

  ghost predicate HeldInSlot(s: State, slot: Slot, n: nat) {
    slot.turn < |s.turns| && slot.step < |s.turns[slot.turn].steps| && n == |CallsAt(s, slot.turn, slot.step).View()|
  }

  /** What is held stays held. */
  lemma {:induction false} StillHeld(moves: Growth, delimited: bool, lines: seq<Line>, m: nat, slot: Slot, n: nat)
    requires m <= |lines| && HeldInSlot(ApplyAll(moves, START, AtomsOf(delimited, lines[..m])), slot, n)
    ensures
      var final := ApplyAll(moves, START, AtomsOf(delimited, lines));
      && slot.turn < |final.turns| && |final.turns[slot.turn].steps| == 1 && slot.step == 0
      && n <= |CallsAt(final, slot.turn, slot.step).View()|
  {
    GrownAtoms(delimited, lines[..m], lines);
    MoreAtomsExtend(moves, AtomsOf(delimited, lines[..m]), AtomsOf(delimited, lines));
    SlotGrows(ApplyAll(moves, START, AtomsOf(delimited, lines[..m])).turns, ApplyAll(moves, START, AtomsOf(delimited, lines)).turns, slot.turn, slot.step);
    OneStep(moves, delimited, lines, slot.turn);
  }

  ghost predicate Reached(moves: Growth, final: State, slot: Slot, n: nat, call: Atom, result: Atom)
    requires call.Call? && result.Result?
  {
    && Valid(final, slot) && slot.index < n
    && if Stays(moves, slot.index, n) then AsAnswered(CallAt(final, slot), call, result) else AsOpened(CallAt(final, slot), call)
  }

  lemma {:induction false} CallReached(moves: Growth, delimited: bool, lines: seq<Line>, l: nat, m: nat, id: string, slot: Slot)
    requires FirstOutputFor(delimited, lines, l, m, id)
    requires HasStep(ApplyAll(moves, START, BeforeCall(delimited, lines, l))) && slot == SlotOfCall(moves, BeforeCall(delimited, lines, l))
    ensures
      var n := CallsByThen(moves, BeforeCall(delimited, lines, l) + [CallOf(lines[l])] + Between(delimited, lines, l, m), slot);
      Reached(moves, ApplyAll(moves, START, AtomsOf(delimited, lines)), slot, n, CallOf(lines[l]), ResultOf(lines[m]))
  {
    var before, between, after := BeforeCall(delimited, lines, l), Between(delimited, lines, l, m), Afterwards(delimited, lines, m);
    WholeRun(delimited, lines, l, m, id);
    NothingBetween(delimited, lines, l, m, id);
    NoCallAfter(delimited, lines, l, m, id);
    OutputReachesItsCall(moves, before, CallOf(lines[l]), between, ResultOf(lines[m]), after);
  }

  lemma {:induction false} ReachedShows(moves: Growth, final: State, slot: Slot, n: nat, call: Line, output: Line)
    requires call.ResponseItem? && call.item.ToolCallItem? && output.ResponseItem? && output.item.ToolOutput?
    requires Reached(moves, final, slot, n, CallOf(call), ResultOf(output))
    requires |final.turns[slot.turn].steps| == 1 && n <= |CallsAt(final, slot.turn, slot.step).View()|
    ensures Shows(moves, final.turns, slot.turn, slot.index, n, call, output)
  {
  }

  lemma {:induction false} ShownInSlot(moves: Growth, delimited: bool, lines: seq<Line>, l: nat, m: nat, id: string, slot: Slot)
    requires FirstOutputFor(delimited, lines, l, m, id) && slot.step == 0
    requires HasStep(ApplyAll(moves, START, BeforeCall(delimited, lines, l))) && slot == SlotOfCall(moves, BeforeCall(delimited, lines, l))
    ensures Shows(moves, ApplyAll(moves, START, AtomsOf(delimited, lines)).turns, slot.turn, slot.index,
                  HeldBy(moves, delimited, lines, m, slot.turn), lines[l], lines[m])
  {
    CallReached(moves, delimited, lines, l, m, id, slot);
    CallsThen(moves, delimited, lines, l, m, id, slot);
    var n := HeldBy(moves, delimited, lines, m, slot.turn);
    StillHeld(moves, delimited, lines, m, slot, n);
    ReachedShows(moves, ApplyAll(moves, START, AtomsOf(delimited, lines)), slot, n, lines[l], lines[m]);
  }

  /** Read from the lines of a rollout alone: the turn in flight shows a call with the first
      output that names it, that line's time and, where the line says it did not succeed, the
      error -- exactly when no call added to the step before that line moved the step's slice. */
  lemma {:induction false} OutputReachesItsLine(moves: Growth, lines: seq<Line>, l: nat, m: nat, id: string) returns (index: nat)
    requires FirstOutputFor(HasTurnIDs(lines), lines, l, m, id)
    ensures |Starts(HasTurnIDs(lines), lines[..l])| > 0
    ensures
      var turn := |Starts(HasTurnIDs(lines), lines[..l])| - 1;
      Shows(moves, Parse(moves, lines), turn, index, HeldBy(moves, HasTurnIDs(lines), lines, m, turn), lines[l], lines[m])
  {
    CallsStep(moves, HasTurnIDs(lines), lines, l, id);
    var slot := SlotOfCall(moves, BeforeCall(HasTurnIDs(lines), lines, l));
    index := slot.index;
    ShownInSlot(moves, HasTurnIDs(lines), lines, l, m, id, slot);
  }
}
