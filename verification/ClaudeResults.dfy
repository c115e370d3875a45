// Tool outputs again, from the lines of a Claude transcript alone: which block of which line is the
// call, which is its result, and what the turns show of the two. A result reaches its call or not as the
// slice that holds the call has stayed or moved (internal/transcript/claude.go:129-188).

module ClaudeResults {
  import opened Options
  import opened Transcript
  import opened Builder
  import opened Outlines
  import opened Pieces
  import opened ToolOutputs
  import opened Claude
  import opened ClaudeUsage
  import opened ClaudeTurns

  /** Block b of line l, within a turn, asks for a tool. */
  predicate Asking(lines: seq<Line>, l: nat, b: nat) {
    && l < |lines| && lines[l].AssistantLine? && b < |BlocksOf(lines[l])| && BlocksOf(lines[l])[b].ToolUse?
    && PromptCount(lines[..l]) > 0
  }

  /** Block c of line m is a tool's result. */
  predicate Answering(lines: seq<Line>, m: nat, c: nat) {
    m < |lines| && lines[m].UserLine? && c < |BlocksOf(lines[m])| && BlocksOf(lines[m])[c].ToolResult?
  }

  predicate NoUse(blocks: seq<Block>, id: string) {
    forall b | b in blocks :: b.ToolUse? ==> b.id != id
  }

  predicate NoAnswer(blocks: seq<Block>, id: string) {
    forall b | b in blocks :: b.ToolResult? ==> b.useID != id
  }

  /** Neither asks for nor answers the call under id. */
  predicate Apart(line: Line, id: string) {
    (line.AssistantLine? ==> NoUse(BlocksOf(line), id)) && (line.UserLine? ==> NoAnswer(BlocksOf(line), id))
  }

  /** Block c of line m is the first answer to the call of block b of line l, whose id no block
      after it uses again. */
  ghost predicate FirstAnswer(lines: seq<Line>, l: nat, b: nat, m: nat, c: nat) {
    && l < m && Asking(lines, l, b) && Answering(lines, m, c)
    && var id := BlocksOf(lines[l])[b].id;
    && BlocksOf(lines[m])[c].useID == id
    && NoUse(BlocksOf(lines[l])[b + 1..], id) && NoAnswer(BlocksOf(lines[m])[..c], id)
    && (forall p | l < p < m :: Apart(lines[p], id))
    && forall p | m < p < |lines| :: lines[p].AssistantLine? ==> NoUse(BlocksOf(lines[p]), id)
  }

  // ---- Where a line's atoms stand ----

  function LineAt(lines: seq<Line>, i: nat): seq<Atom>
    requires i < |lines|
  {
    LineAtoms(Opened(lines[..i]), lines[i])
  }

  function LinePieces(lines: seq<Line>): seq<seq<Atom>> {
    seq(|lines|, i requires 0 <= i < |lines| => LineAt(lines, i))
  }

  lemma {:induction false} PiecesOfPrefix(lines: seq<Line>, n: nat)
    requires n <= |lines|
    ensures LinePieces(lines[..n]) == LinePieces(lines)[..n]
  {
    forall i | 0 <= i < n ensures LineAt(lines[..n], i) == LineAt(lines, i) {
      assert lines[..n][..i] == lines[..i];
    }
  }

  lemma {:induction false} LastPiece(lines: seq<Line>)
    requires lines != []
    ensures AtomsOf(lines) == AtomsOf(lines[..|lines| - 1]) + LineAt(lines, |lines| - 1)
  {
  }

  lemma {:induction false} InPieces(lines: seq<Line>)
    ensures AtomsOf(lines) == Flat(LinePieces(lines))
  {
    if lines != [] {
      var n := |lines| - 1;
      InPieces(lines[..n]);
      PiecesOfPrefix(lines, n);
      LastPiece(lines);
      FlatAt(LinePieces(lines), n);
      assert LinePieces(lines)[..n + 1] == LinePieces(lines);
    }
  }

  lemma {:induction false} PrefixPieces(lines: seq<Line>, n: nat)
    requires n <= |lines|
    ensures AtomsOf(lines[..n]) == Flat(LinePieces(lines)[..n])
  {
    InPieces(lines[..n]);
    PiecesOfPrefix(lines, n);
  }

  function OutputPieces(blocks: seq<Block>, at: int): seq<seq<Atom>> {
    seq(|blocks|, i requires 0 <= i < |blocks| => OutputAtoms(blocks[i], at))
  }

  function ResultPieces(blocks: seq<Block>, at: int): seq<seq<Atom>> {
    seq(|blocks|, i requires 0 <= i < |blocks| => ResultAtoms(blocks[i], at))
  }

  lemma {:induction false} BlocksInPieces(blocks: seq<Block>, at: int)
    ensures AllOutput(blocks, at) == Flat(OutputPieces(blocks, at))
    ensures AllResults(blocks, at) == Flat(ResultPieces(blocks, at))
  {
    if blocks != [] {
      var init := blocks[..|blocks| - 1];
      BlocksInPieces(init, at);
      assert OutputPieces(blocks, at)[..|blocks| - 1] == OutputPieces(init, at);
      assert ResultPieces(blocks, at)[..|blocks| - 1] == ResultPieces(init, at);
    }
  }

  // ---- Which atoms concern a call ----

  lemma {:induction false} OutputApart(blocks: seq<Block>, at: int, id: string)
    requires NoUse(blocks, id)
    ensures forall atom | atom in AllOutput(blocks, at) :: Other(id)(atom)
  {
    BlocksInPieces(blocks, at);
    FlatHolds(OutputPieces(blocks, at), Other(id));
  }

  lemma {:induction false} ResultsApart(blocks: seq<Block>, at: int, id: string)
    ensures forall atom | atom in AllResults(blocks, at) :: atom.Result?
    ensures NoAnswer(blocks, id) ==> forall atom | atom in AllResults(blocks, at) :: Other(id)(atom)
  {
    BlocksInPieces(blocks, at);
    FlatHolds(ResultPieces(blocks, at), (atom: Atom) => atom.Result?);
    if NoAnswer(blocks, id) {
      FlatHolds(ResultPieces(blocks, at), Other(id));
    }
  }

  lemma {:induction false} LineApart(open: bool, line: Line, id: string)
    ensures Apart(line, id) ==> forall atom | atom in LineAtoms(open, line) :: Other(id)(atom)
    ensures (line.AssistantLine? ==> NoUse(BlocksOf(line), id)) ==> forall atom | atom in LineAtoms(open, line) :: NotCalled(id)(atom)
  {
    if line.AssistantLine? && NoUse(BlocksOf(line), id) {
      OutputApart(BlocksOf(line), line.at, id);
    }
    if line.UserLine? {
      ResultsApart(BlocksOf(line), line.at, id);
    }
  }

  // ---- The call's atoms and the result's ----

  function CallOf(lines: seq<Line>, l: nat, b: nat): Atom
    requires Asking(lines, l, b)
  {
    var block := BlocksOf(lines[l])[b];
    Call(block.id, block.name, "", lines[l].at, block.input)
  }

  function ResultOf(lines: seq<Line>, m: nat, c: nat): Atom
    requires Answering(lines, m, c)
  {
    var block := BlocksOf(lines[m])[c];
    Result(block.useID, block.content, lines[m].at, block.isError)
  }

  /** The call's line up to the call, and from it on. */
  function LineBefore(line: Line, b: nat): seq<Atom>
    requires line.AssistantLine? && b < |BlocksOf(line)|
  {
    [OpenStep(StepID(line), line.at, line.model)] + AllOutput(BlocksOf(line)[..b], line.at)
  }

  function LineAfter(line: Line, b: nat): seq<Atom>
    requires line.AssistantLine? && b < |BlocksOf(line)| && BlocksOf(line)[b].ToolUse?
  {
    [Note("assistant", BlocksOf(line)[b].name, BlocksOf(line)[b].input, line.at)]
    + (AllOutput(BlocksOf(line)[b + 1..], line.at) + [Close(line.at), Report(line.usage, line.model)])
  }

  lemma {:induction false} PiecesCut(blocks: seq<Block>, b: nat, at: int)
    requires b < |blocks|
    ensures OutputPieces(blocks, at)[..b] == OutputPieces(blocks[..b], at)
    ensures OutputPieces(blocks, at)[b + 1..] == OutputPieces(blocks[b + 1..], at)
    ensures ResultPieces(blocks, at)[..b] == ResultPieces(blocks[..b], at)
    ensures ResultPieces(blocks, at)[b + 1..] == ResultPieces(blocks[b + 1..], at)
  {
  }

  lemma {:induction false} OutputStands(blocks: seq<Block>, b: nat, at: int)
    requires b < |blocks|
    ensures AllOutput(blocks, at) == AllOutput(blocks[..b], at) + OutputAtoms(blocks[b], at) + AllOutput(blocks[b + 1..], at)
  {
    BlocksInPieces(blocks, at);
    BlocksInPieces(blocks[..b], at);
    BlocksInPieces(blocks[b + 1..], at);
    PiecesCut(blocks, b, at);
    FlatAt(OutputPieces(blocks, at), b);
  }

  lemma {:induction false} ResultStands(blocks: seq<Block>, c: nat, at: int)
    requires c < |blocks|
    ensures AllResults(blocks, at) == AllResults(blocks[..c], at) + ResultAtoms(blocks[c], at) + AllResults(blocks[c + 1..], at)
  {
    BlocksInPieces(blocks, at);
    BlocksInPieces(blocks[..c], at);
    BlocksInPieces(blocks[c + 1..], at);
    PiecesCut(blocks, c, at);
    FlatAt(ResultPieces(blocks, at), c);
  }

  lemma {:induction false} CallInLine(lines: seq<Line>, l: nat, b: nat)
    requires Asking(lines, l, b)
    ensures LineAt(lines, l) == LineBefore(lines[l], b) + [CallOf(lines, l, b)] + LineAfter(lines[l], b)
  {
    var line, blocks := lines[l], BlocksOf(lines[l]);
    OpenedCount(lines[..l]);
    OutputStands(blocks, b, line.at);
    Around([OpenStep(StepID(line), line.at, line.model)], AllOutput(blocks[..b], line.at), CallOf(lines, l, b),
           Note("assistant", blocks[b].name, blocks[b].input, line.at), AllOutput(blocks[b + 1..], line.at),
           [Close(line.at), Report(line.usage, line.model)]);
  }

  lemma {:induction false} Around(open: seq<Atom>, before: seq<Atom>, call: Atom, note: Atom, after: seq<Atom>, close: seq<Atom>)
    ensures open + ((before + [call, note] + after) + close) == (open + before) + [call] + ([note] + (after + close))
  {
  }

  lemma {:induction false} AnswerInLine(lines: seq<Line>, m: nat, c: nat)
    requires Answering(lines, m, c)
    ensures
      var blocks, at := BlocksOf(lines[m]), lines[m].at;
      LineAt(lines, m) == AllResults(blocks[..c], at) + [ResultOf(lines, m, c)] + AllResults(blocks[c + 1..], at)
  {
    var blocks := BlocksOf(lines[m]);
    JoinedSame(blocks);
    assert blocks[c] in blocks;
    ResultStands(blocks, c, lines[m].at);
  }

  /** What happens before the call, between it and its first answer, and after that. */
  function BeforeCall(lines: seq<Line>, l: nat, b: nat): seq<Atom>
    requires Asking(lines, l, b)
  {
    AtomsOf(lines[..l]) + LineBefore(lines[l], b)
  }

  function Between(lines: seq<Line>, l: nat, b: nat, m: nat, c: nat): seq<Atom>
    requires l < m && Asking(lines, l, b) && Answering(lines, m, c)
  {
    LineAfter(lines[l], b) + Flat(LinePieces(lines)[l + 1..m]) + AllResults(BlocksOf(lines[m])[..c], lines[m].at)
  }

  function Afterwards(lines: seq<Line>, m: nat, c: nat): seq<Atom>
    requires Answering(lines, m, c)
  {
    AllResults(BlocksOf(lines[m])[c + 1..], lines[m].at) + Flat(LinePieces(lines)[m + 1..])
  }

  lemma {:induction false} LinesAround(lines: seq<Line>, l: nat, m: nat)
    requires l < m <= |lines|
    ensures AtomsOf(lines[..m]) == AtomsOf(lines[..l]) + LineAt(lines, l) + Flat(LinePieces(lines)[l + 1..m])
  {
    var pieces := LinePieces(lines)[..m];
    PrefixPieces(lines, l);
    PrefixPieces(lines, m);
    FlatAt(pieces, l);
    assert pieces[..l] == LinePieces(lines)[..l] && pieces[l + 1..] == LinePieces(lines)[l + 1..m];
  }

  lemma {:induction false} UpToAnswer(lines: seq<Line>, l: nat, b: nat, m: nat, c: nat)
    requires l < m && Asking(lines, l, b) && Answering(lines, m, c)
    ensures BeforeCall(lines, l, b) + [CallOf(lines, l, b)] + Between(lines, l, b, m, c) ==
      AtomsOf(lines[..m]) + AllResults(BlocksOf(lines[m])[..c], lines[m].at)
    ensures BeforeCall(lines, l, b) <= AtomsOf(lines[..m])
  {
    LinesAround(lines, l, m);
    CallInLine(lines, l, b);
    CallAround(AtomsOf(lines[..m]), AtomsOf(lines[..l]), LineAt(lines, l), Flat(LinePieces(lines)[l + 1..m]),
               LineBefore(lines[l], b), CallOf(lines, l, b), LineAfter(lines[l], b), AllResults(BlocksOf(lines[m])[..c], lines[m].at));
  }

  lemma {:induction false} WholeRun(lines: seq<Line>, l: nat, b: nat, m: nat, c: nat)
    requires l < m && Asking(lines, l, b) && Answering(lines, m, c)
    ensures AtomsOf(lines) ==
      BeforeCall(lines, l, b) + [CallOf(lines, l, b)] + Between(lines, l, b, m, c) + [ResultOf(lines, m, c)] + Afterwards(lines, m, c)
  {
    UpToAnswer(lines, l, b, m, c);
    AnswerInLine(lines, m, c);
    InPieces(lines);
    PrefixPieces(lines, m);
    FlatAt(LinePieces(lines), m);
    Inside(AtomsOf(lines), AtomsOf(lines[..m]), LineAt(lines, m), Flat(LinePieces(lines)[m + 1..]),
           AllResults(BlocksOf(lines[m])[..c], lines[m].at), ResultOf(lines, m, c), AllResults(BlocksOf(lines[m])[c + 1..], lines[m].at));
  }

  lemma {:induction false} LinesHold(lines: seq<Line>, p: nat, q: nat, holds: Atom -> bool)
    requires p <= q <= |lines|
    requires forall i, atom | p <= i < q && atom in LineAt(lines, i) :: holds(atom)
    ensures forall atom | atom in Flat(LinePieces(lines)[p..q]) :: holds(atom)
  {
    var pieces := LinePieces(lines)[p..q];
    assert forall i | 0 <= i < |pieces| :: pieces[i] == LineAt(lines, p + i);
    FlatHolds(pieces, holds);
  }

  lemma {:induction false} NothingBetween(lines: seq<Line>, l: nat, b: nat, m: nat, c: nat)
    requires FirstAnswer(lines, l, b, m, c)
    ensures Unrelated(Between(lines, l, b, m, c), BlocksOf(lines[l])[b].id)
  {
    var id, mine, theirs := BlocksOf(lines[l])[b].id, LineAfter(lines[l], b), AllResults(BlocksOf(lines[m])[..c], lines[m].at);
    OutputApart(BlocksOf(lines[l])[b + 1..], lines[l].at, id);
    ResultsApart(BlocksOf(lines[m])[..c], lines[m].at, id);
    forall i, atom | l + 1 <= i < m && atom in LineAt(lines, i) ensures Other(id)(atom) {
      LineApart(Opened(lines[..i]), lines[i], id);
    }
    LinesHold(lines, l + 1, m, Other(id));
    AllHold(mine, Flat(LinePieces(lines)[l + 1..m]), theirs, Other(id));
  }

  lemma {:induction false} NoCallAfter(lines: seq<Line>, l: nat, b: nat, m: nat, c: nat)
    requires FirstAnswer(lines, l, b, m, c)
    ensures forall atom | atom in Afterwards(lines, m, c) :: NotCalled(BlocksOf(lines[l])[b].id)(atom)
  {
    var id, theirs := BlocksOf(lines[l])[b].id, AllResults(BlocksOf(lines[m])[c + 1..], lines[m].at);
    ResultsApart(BlocksOf(lines[m])[c + 1..], lines[m].at, id);
    forall i, atom | m + 1 <= i < |lines| && atom in LineAt(lines, i) ensures NotCalled(id)(atom) {
      LineApart(Opened(lines[..i]), lines[i], id);
    }
    LinesHold(lines, m + 1, |lines|, NotCalled(id));
    var later := LinePieces(lines)[m + 1..];
    assert later == LinePieces(lines)[m + 1..|lines|];
    AllHold(theirs, Flat(later), [], NotCalled(id));
    assert theirs + Flat(later) + [] == theirs + Flat(later);
  }

  // ---- The step the call is in ----

  /** A call is read into the open turn's step for its message. */
  lemma {:induction false} CallsStep(moves: Growth, lines: seq<Line>, l: nat, b: nat)
    requires Asking(lines, l, b)
    ensures
      var s := ApplyAll(moves, START, BeforeCall(lines, l, b));
      && HasStep(s) && |s.turns| == PromptCount(lines[..l]) && CurrentStep(s).id == IDOf(lines[l])
  {
    var line, before := lines[l], ApplyAll(moves, START, AtomsOf(lines[..l]));
    var opening := OpenStep(StepID(line), line.at, line.model);
    var begun := Apply(moves, before, opening);
    TurnsAreRead(moves, lines[..l]);
    OpensFor(moves, before, line);
    BlocksSpeak(moves, begun, BlocksOf(line)[..b], line.at);
    ApplyOne(moves, before, opening);
    ApplyAllConcat(moves, START, AtomsOf(lines[..l]), LineBefore(line, b));
    ApplyAllConcat(moves, before, [opening], AllOutput(BlocksOf(line)[..b], line.at));
    StepStays(begun, ApplyAll(moves, begun, AllOutput(BlocksOf(line)[..b], line.at)),
              Joined(BlocksOf(line)[..b], SAID), Joined(BlocksOf(line)[..b], THOUGHT));
  }

  lemma {:induction false} StepStays(s: State, s': State, said: string, thought: string)
    requires HasStep(s) && HasStep(s') && s.cursor == s'.cursor
    requires BecomesTurn(s, s', Worded(Current(s), s.cursor, said, thought))
    ensures CurrentStep(s').id == CurrentStep(s).id
  {
    assert Worded(Current(s), s.cursor, said, thought).steps[s.cursor].(calls := Calls([])) == CurrentStep(s').(calls := Calls([]));
  }

  lemma {:induction false} ResultsKeepCounts(moves: Growth, s: State, atoms: seq<Atom>, turn: nat, step: nat)
    requires forall atom | atom in atoms :: atom.Result?
    requires turn < |s.turns| && step < |s.turns[turn].steps|
    ensures
      var s' := ApplyAll(moves, s, atoms);
      && turn < |s'.turns| && step < |s'.turns[turn].steps|
      && |CallsAt(s', turn, step).View()| == |CallsAt(s, turn, step).View()|
  {
    if atoms != [] {
      assert atoms[|atoms| - 1] in atoms;
      ResultsKeepCounts(moves, s, atoms[..|atoms| - 1], turn, step);
      ResultKeepsCount(moves, ApplyAll(moves, s, atoms[..|atoms| - 1]), atoms[|atoms| - 1], turn, step);
    }
  }

  lemma {:induction false} ResultKeepsCount(moves: Growth, s: State, atom: Atom, turn: nat, step: nat)
    requires atom.Result? && turn < |s.turns| && step < |s.turns[turn].steps|
    ensures
      var s' := Apply(moves, s, atom);
      && turn < |s'.turns| && step < |s'.turns[turn].steps|
      && |CallsAt(s', turn, step).View()| == |CallsAt(s, turn, step).View()|
  {
  }

  /** What the turns show in a slot of a call and, where it reached it, its answer: n is how
      many calls the step held when the answer came. */
  ghost predicate Shows(moves: Growth, turns: seq<Turn>, slot: Slot, n: nat, lines: seq<Line>, l: nat, b: nat, m: nat, c: nat)
    requires Asking(lines, l, b) && Answering(lines, m, c)
  {
    && slot.turn == PromptCount(lines[..l]) - 1 < |turns| && slot.step < |turns[slot.turn].steps|
    && var step := turns[slot.turn].steps[slot.step];
    && step.id == IDOf(lines[l]) && slot.index < n <= |step.calls.View()|
    && var shown, use, answer := step.calls.View()[slot.index], BlocksOf(lines[l])[b], BlocksOf(lines[m])[c];
    && shown.callID == use.id && shown.name == use.name && shown.server == ""
    && shown.startedAt == lines[l].at && shown.arguments == use.input
    && if Stays(moves, slot.index, n) then
         && shown.endedAt == lines[m].at && shown.output == answer.content
         && shown.error == if answer.isError then TextOf(answer.content) else ""
       else shown.endedAt == ZERO_TIME && shown.output == Absent && shown.error == ""
  }

  /** Read from the lines of a transcript alone: the turn of the prompt before it shows a call,
      in the step of its message, with the content of the first tool_result block that names
      it, that line's time and, where the block says so, the error -- exactly when no call
      added to the step before that line moved the step's slice. */
  lemma {:induction false} ResultReachesItsUse(moves: Growth, lines: seq<Line>, l: nat, b: nat, m: nat, c: nat) returns (slot: Slot)
    requires FirstAnswer(lines, l, b, m, c)
    ensures
      var held := Parse(moves, lines[..m]);
      && slot.turn < |held| && slot.step < |held[slot.turn].steps|
      && Shows(moves, Parse(moves, lines), slot, |held[slot.turn].steps[slot.step].calls.View()|, lines, l, b, m, c)
  {
    var before, call, between := BeforeCall(lines, l, b), CallOf(lines, l, b), Between(lines, l, b, m, c);
    CallsStep(moves, lines, l, b);
    slot := SlotOfCall(moves, before);
    WholeRun(lines, l, b, m, c);
    UpToAnswer(lines, l, b, m, c);
    GrownAtoms(lines[..m], lines);
    NothingBetween(lines, l, b, m, c);
    NoCallAfter(lines, l, b, m, c);
    OutputReachesItsCall(moves, before, call, between, ResultOf(lines, m, c), Afterwards(lines, m, c));
    CallsThen(moves, lines, l, b, m, c);
    MoreAtomsExtend(moves, before, AtomsOf(lines));
    MoreAtomsExtend(moves, AtomsOf(lines[..m]), AtomsOf(lines));
  }

  /** The calls the step held when the answer's line was reached. */
  lemma {:induction false} CallsThen(moves: Growth, lines: seq<Line>, l: nat, b: nat, m: nat, c: nat)
    requires l < m && Asking(lines, l, b) && Answering(lines, m, c)
    requires HasStep(ApplyAll(moves, START, BeforeCall(lines, l, b)))
    ensures
      var slot := SlotOfCall(moves, BeforeCall(lines, l, b));
      var held := Parse(moves, lines[..m]);
      && slot.turn < |held| && slot.step < |held[slot.turn].steps|
      && (CallsByThen(moves, BeforeCall(lines, l, b) + [CallOf(lines, l, b)] + Between(lines, l, b, m, c), slot) > 0 ==>
            CallsByThen(moves, BeforeCall(lines, l, b) + [CallOf(lines, l, b)] + Between(lines, l, b, m, c), slot)
              == |held[slot.turn].steps[slot.step].calls.View()|)
  {
    var before := BeforeCall(lines, l, b);
    var slot, s := SlotOfCall(moves, before), ApplyAll(moves, START, AtomsOf(lines[..m]));
    UpToAnswer(lines, l, b, m, c);
    MoreAtomsExtend(moves, before, AtomsOf(lines[..m]));
    var answers := AllResults(BlocksOf(lines[m])[..c], lines[m].at);
    ResultsApart(BlocksOf(lines[m])[..c], lines[m].at, "");
    ResultsKeepCounts(moves, s, answers, slot.turn, slot.step);
    ApplyAllConcat(moves, START, AtomsOf(lines[..m]), answers);
  }
}
