// What the turns of a Claude transcript say, from its lines alone.

module ClaudeTurns {
  // (internal/transcript/claude.go) One turn per prompt, one step per message id, each with the
  // texts of its own lines.

  import opened Options
  import opened Transcript
  import opened Builder
  import opened Outlines
  import opened Claude
  import opened ClaudeUsage

  // ---- The lines of a turn and what they say ----

  type Part = Block -> string

  const SAID: Part := (block: Block) => if block.Text? then block.text else ""

  const THOUGHT: Part := (block: Block) => if block.Thinking? then block.text else ""

  /** The blocks of a line; none where its content does not decode as a list. */
  function BlocksOf(line: Line): seq<Block> {
    if (line.AssistantLine? || line.UserLine?) && line.content.BlockList? then line.content.blocks else []
  }

  predicate Decodes(line: Line) {
    line.AssistantLine? && (line.content.BlockList? || line.content.Null?)
  }

  function Joined(blocks: seq<Block>, part: Part): string {
    if blocks == [] then "" else Joined(blocks[..|blocks| - 1], part) + part(blocks[|blocks| - 1])
  }

  /** The parts of all the lines' blocks, in order. */
  function Gathered(own: seq<Line>, part: Part): string {
    if own == [] then "" else Gathered(own[..|own| - 1], part) + Joined(BlocksOf(own[|own| - 1]), part)
  }

  /** The message a line belongs to. */
  function IDOf(line: Line): string {
    if !line.AssistantLine? then "" else if line.messageID != "" then line.messageID else line.requestID
  }

  /** The line carries a prompt: a bare string, null, or text and no tool result. */
  ghost predicate Asks(line: Line, text: string) {
    && line.UserLine?
    && match line.content
       case Bare(bare) => text == bare
       case Null => text == ""
       case BlockList(blocks) => (forall b | b in blocks :: !b.ToolResult?) && text != "" && text == Joined(blocks, SAID)
       case Undecodable => false
  }

  /** The assistant lines between prompt number t and the next one. */
  function OwnLines(lines: seq<Line>, t: nat): seq<Line> {
    if lines == [] then [] else
      var init, last := lines[..|lines| - 1], lines[|lines| - 1];
      OwnLines(init, t) + if last.AssistantLine? && PromptCount(init) == t + 1 then [last] else []
  }

  /** Prompt number t. */
  function PromptLine(lines: seq<Line>, t: nat): Line
    requires t < PromptCount(lines)
  {
    var init, last := lines[..|lines| - 1], lines[|lines| - 1];
    if t < PromptCount(init) then PromptLine(init, t) else last
  }

  /** The lines of one message. */
  function Under(own: seq<Line>, id: string): seq<Line> {
    if own == [] then [] else Under(own[..|own| - 1], id) + if IDOf(own[|own| - 1]) == id then [own[|own| - 1]] else []
  }

  /** The messages in the order they first appear. */
  function Messages(own: seq<Line>): seq<string> {
    if own == [] then [] else
      var before, id := Messages(own[..|own| - 1]), IDOf(own[|own| - 1]);
      before + if id in before then [] else [id]
  }

  /** The time of the last line that decodes. */
  function EndOf(own: seq<Line>, otherwise: int): int {
    if own == [] then otherwise
    else if Decodes(own[|own| - 1]) then own[|own| - 1].at
    else EndOf(own[..|own| - 1], otherwise)
  }

  /** The first model a line that decodes names. */
  function ModelOf(own: seq<Line>): string {
    if own == [] then "" else
      var before, last := ModelOf(own[..|own| - 1]), own[|own| - 1];
      if before == "" && Decodes(last) then last.model else before
  }

  /** A step starts with its message's first line, ends with its last that decodes, and says
      what its lines' blocks say. */
  ghost predicate StepReads(step: Step, mine: seq<Line>) {
    && mine != [] && mine[0].AssistantLine?
    && step.startedAt == mine[0].at && step.model == mine[0].model && step.endedAt == EndOf(mine, mine[0].at)
    && step.text == Gathered(mine, SAID) && step.reasoning == Gathered(mine, THOUGHT)
  }

  ghost predicate StepsRead(steps: seq<Step>, own: seq<Line>) {
    && |steps| == |Messages(own)|
    && forall j | 0 <= j < |steps| :: steps[j].id == Messages(own)[j] && StepReads(steps[j], Under(own, steps[j].id))
  }

  ghost predicate TurnReads(turn: Turn, prompt: Line, own: seq<Line>) {
    && prompt.UserLine? && Asks(prompt, turn.userInput)
    && turn.id == prompt.uuid && turn.sessionID == prompt.sessionID && turn.startedAt == prompt.at && turn.parentID == ""
    && turn.finalOutput == Gathered(own, SAID) && turn.endedAt == EndOf(own, ZERO_TIME) && turn.model == ModelOf(own)
    && StepsRead(turn.steps, own)
  }

  ghost predicate AllRead(turns: seq<Turn>, lines: seq<Line>) {
    && |turns| == PromptCount(lines)
    && forall t | 0 <= t < |turns| :: TurnReads(turns[t], PromptLine(lines, t), OwnLines(lines, t))
  }

  // ---- Prompts ----

  lemma {:induction false} JoinedSame(blocks: seq<Block>)
    ensures JoinedText(blocks) == Joined(blocks, SAID)
    ensures HasResult(blocks) <==> exists b | b in blocks :: b.ToolResult?
  {
    if blocks != [] {
      var init, last := blocks[..|blocks| - 1], blocks[|blocks| - 1];
      JoinedSame(init);
      assert Joined(init, SAID) + "" == Joined(init, SAID);
      assert blocks == init + [last];
    }
  }

  /** Which lines open a turn, and with what input. */
  lemma {:induction false} PromptAsks(line: Line)
    ensures IsPrompt(line) <==> exists text :: Asks(line, text)
    ensures IsPrompt(line) ==> Asks(line, Prompt(line.content).value)
  {
    if line.UserLine? && line.content.BlockList? {
      JoinedSame(line.content.blocks);
    }
    if IsPrompt(line) {
      assert Asks(line, Prompt(line.content).value);
    }
  }

  // ---- Lines speak ----

  lemma {:induction false} BlockSpeaks(moves: Growth, s: State, block: Block, at: int)
    requires HasStep(s)
    ensures
      var s' := ApplyAll(moves, s, OutputAtoms(block, at));
      s'.cursor == s.cursor && BecomesTurn(s, s', Worded(Current(s), s.cursor, SAID(block), THOUGHT(block)))
  {
    match block {
      case Text(text) =>
        ApplyTwo(moves, s, Say(text), Note("assistant", text, Absent, at));
        SayingWords(moves, s, text);
        SilentKeeps(moves, Apply(moves, s, Say(text)), Note("assistant", text, Absent, at));
        ThenKept(s, Apply(moves, s, Say(text)), ApplyAll(moves, s, OutputAtoms(block, at)), Worded(Current(s), s.cursor, text, ""));
      case Thinking(text) =>
        ApplyTwo(moves, s, Reason(text), Note("assistant", text, Absent, at));
        SayingWords(moves, s, text);
        SilentKeeps(moves, Apply(moves, s, Reason(text)), Note("assistant", text, Absent, at));
        ThenKept(s, Apply(moves, s, Reason(text)), ApplyAll(moves, s, OutputAtoms(block, at)), Worded(Current(s), s.cursor, "", text));
      case _ =>
        SilentAllKeep(moves, s, OutputAtoms(block, at));
        WordsAddUp(Current(s), s.cursor, "", "", "", "");
        Unchanged(s);
        ThenKept(s, s, ApplyAll(moves, s, OutputAtoms(block, at)), Current(s));
    }
  }

  lemma {:induction false} BlocksSpeak(moves: Growth, s: State, blocks: seq<Block>, at: int)
    requires HasStep(s)
    ensures
      var s' := ApplyAll(moves, s, AllOutput(blocks, at));
      && HasStep(s') && s'.cursor == s.cursor
      && BecomesTurn(s, s', Worded(Current(s), s.cursor, Joined(blocks, SAID), Joined(blocks, THOUGHT)))
  {
    WordsAddUp(Current(s), s.cursor, "", "", "", "");
    Unchanged(s);
    if blocks != [] {
      var init, last := blocks[..|blocks| - 1], blocks[|blocks| - 1];
      var s' := ApplyAll(moves, s, AllOutput(init, at));
      BlocksSpeak(moves, s, init, at);
      BlockSpeaks(moves, s', last, at);
      ApplyAllConcat(moves, s, AllOutput(init, at), OutputAtoms(last, at));
      var said, thought := Joined(init, SAID), Joined(init, THOUGHT);
      ThenWords(s, s', ApplyAll(moves, s, AllOutput(blocks, at)), Worded(Current(s), s.cursor, said, thought), s.cursor,
                SAID(last), THOUGHT(last));
      WordsAddUp(Current(s), s.cursor, said, thought, SAID(last), THOUGHT(last));
    }
  }

  // ---- A turn takes in a line ----

  lemma {:induction false} MessagesDistinct(own: seq<Line>)
    ensures forall i, j | 0 <= i < j < |Messages(own)| :: Messages(own)[i] != Messages(own)[j]
    ensures forall id :: id in Messages(own) <==> Under(own, id) != []
  {
    if own != [] {
      var init := own[..|own| - 1];
      MessagesDistinct(init);
      forall id ensures id in Messages(own) <==> Under(own, id) != [] {
        assert id in Messages(init) <==> Under(init, id) != [];
      }
    }
  }

  lemma {:induction false} OneMore(own: seq<Line>, line: Line)
    ensures
      var more := own + [line];
      && (forall id :: Under(more, id) == if IDOf(line) == id then Under(own, id) + [line] else Under(own, id))
      && Messages(more) == Messages(own) + (if IDOf(line) in Messages(own) then [] else [IDOf(line)])
      && (forall otherwise :: EndOf(more, otherwise) == if Decodes(line) then line.at else EndOf(own, otherwise))
      && (forall part :: Gathered(more, part) == Gathered(own, part) + Joined(BlocksOf(line), part))
      && ModelOf(more) == if ModelOf(own) == "" && Decodes(line) then line.model else ModelOf(own)
  {
    assert (own + [line])[..|own|] == own;
    forall id ensures Under(own + [line], id) == if IDOf(line) == id then Under(own, id) + [line] else Under(own, id) {
      assert Under(own, id) + [] == Under(own, id);
    }
  }

  /** A turn with the step of a line open. */
  ghost predicate OpenFor(turn: Turn, begun: Turn, i: nat, line: Line)
    requires line.AssistantLine?
  {
    && i < |begun.steps| && begun.(steps := []) == turn.(steps := [])
    && if i < |turn.steps| then begun.steps == turn.steps && turn.steps[i].id == IDOf(line)
       else
         var step := begun.steps[i];
         && i == |turn.steps| && begun.steps == turn.steps + [step]
         && (forall k | 0 <= k < i :: turn.steps[k].id != IDOf(line))
         && step.id == IDOf(line) && step.startedAt == line.at && step.endedAt == line.at && step.model == line.model
         && step.text == "" && step.reasoning == ""
  }

  /** The open step, and the turn's own fields, after a line. */
  ghost predicate TookIn(begun: Turn, i: nat, line: Line, after: Turn)
    requires line.AssistantLine? && i < |begun.steps|
  {
    var said, thought := Joined(BlocksOf(line), SAID), Joined(BlocksOf(line), THOUGHT);
    && after.(finalOutput := "", steps := [], endedAt := 0, model := "", usage := None)
         == begun.(finalOutput := "", steps := [], endedAt := 0, model := "", usage := None)
    && after.finalOutput == begun.finalOutput + said
    && after.endedAt == (if Decodes(line) then line.at else begun.endedAt)
    && after.model == (if begun.model == "" && Decodes(line) then line.model else begun.model)
    && |after.steps| == |begun.steps|
    && (forall k | 0 <= k < |after.steps| && k != i :: after.steps[k].(calls := Calls([])) == begun.steps[k].(calls := Calls([])))
    && after.steps[i].id == begun.steps[i].id && after.steps[i].startedAt == begun.steps[i].startedAt
    && after.steps[i].model == begun.steps[i].model && after.steps[i].context == begun.steps[i].context
    && after.steps[i].endedAt == (if Decodes(line) then line.at else begun.steps[i].endedAt)
    && after.steps[i].text == begun.steps[i].text + said && after.steps[i].reasoning == begun.steps[i].reasoning + thought
  }

  lemma {:induction false} StepTakesIn(step: Step, after: Step, mine: seq<Line>, line: Line)
    requires line.AssistantLine?
    requires if mine == [] then step.startedAt == line.at && step.endedAt == line.at && step.model == line.model && step.text == "" && step.reasoning == ""
             else StepReads(step, mine)
    requires after.startedAt == step.startedAt && after.model == step.model
    requires after.endedAt == if Decodes(line) then line.at else step.endedAt
    requires after.text == step.text + Joined(BlocksOf(line), SAID) && after.reasoning == step.reasoning + Joined(BlocksOf(line), THOUGHT)
    ensures StepReads(after, mine + [line])
  {
    OneMore(mine, line);
  }

  lemma {:induction false} StepsTakeIn(turn: Turn, begun: Turn, i: nat, own: seq<Line>, line: Line, after: Turn)
    requires StepsRead(turn.steps, own) && line.AssistantLine?
    requires OpenFor(turn, begun, i, line) && TookIn(begun, i, line, after)
    ensures StepsRead(after.steps, own + [line])
  {
    var more := own + [line];
    OneMore(own, line);
    MessagesDistinct(own);
    if i == |turn.steps| {
      forall k | 0 <= k < |Messages(own)| ensures Messages(own)[k] != IDOf(line) {
        assert turn.steps[k].id == Messages(own)[k];
      }
    }
    assert i < |turn.steps| ==> Messages(own)[i] == IDOf(line);
    forall j | 0 <= j < |after.steps|
      ensures after.steps[j].id == Messages(more)[j] && StepReads(after.steps[j], Under(more, after.steps[j].id))
    {
      if j == i {
        StepTakesIn(begun.steps[i], after.steps[i], Under(own, IDOf(line)), line);
      } else {
        assert turn.steps[j].id == Messages(own)[j] && StepReads(turn.steps[j], Under(own, turn.steps[j].id));
        assert after.steps[j].(calls := Calls([])) == turn.steps[j].(calls := Calls([]));
        assert after.steps[j].id != IDOf(line);
      }
    }
  }

  lemma {:induction false} TurnTakesIn(turn: Turn, begun: Turn, i: nat, prompt: Line, own: seq<Line>, line: Line, after: Turn)
    requires TurnReads(turn, prompt, own) && line.AssistantLine?
    requires OpenFor(turn, begun, i, line) && TookIn(begun, i, line, after)
    ensures TurnReads(after, prompt, own + [line])
  {
    OneMore(own, line);
    StepsTakeIn(turn, begun, i, own, line, after);
  }

  lemma {:induction false} SameOutlineReads(a: Turn, b: Turn, prompt: Line, own: seq<Line>)
    requires SameOutline(a, b) && TurnReads(a, prompt, own)
    ensures TurnReads(b, prompt, own)
  {
    forall j | 0 <= j < |b.steps| ensures b.steps[j].id == Messages(own)[j] && StepReads(b.steps[j], Under(own, b.steps[j].id)) {
      assert a.steps[j].(calls := Calls([])) == b.steps[j].(calls := Calls([]));
      assert a.steps[j].id == Messages(own)[j] && StepReads(a.steps[j], Under(own, a.steps[j].id));
    }
  }

  // ---- An assistant line is taken in ----

  lemma {:induction false} OpensFor(moves: Growth, s: State, line: Line)
    requires HasTurn(s) && line.AssistantLine?
    ensures
      var s' := Apply(moves, s, OpenStep(StepID(line), line.at, line.model));
      && HasStep(s') && |s'.turns| == |s.turns| && s'.turns[..|s.turns| - 1] == s.turns[..|s.turns| - 1]
      && OpenFor(Current(s), Current(s'), s'.cursor, line)
  {
  }

  /** The open turn has taken the line in; the others are as they were. */
  ghost predicate TurnTook(s: State, s': State, line: Line)
    requires HasStep(s) && line.AssistantLine?
  {
    && |s'.turns| == |s.turns|
    && (forall t | 0 <= t < |s.turns| - 1 :: SameOutline(s.turns[t], s'.turns[t]))
    && TookIn(Current(s), s.cursor, line, Current(s'))
  }

  lemma {:induction false} ReportTakes(moves: Growth, s: State, written: State, line: Line)
    requires HasStep(s) && Decodes(line) && HasStep(written) && written.cursor == s.cursor
    requires
      var said, thought := Joined(BlocksOf(line), SAID), Joined(BlocksOf(line), THOUGHT);
      BecomesTurn(s, written, Ended(Worded(Current(s), s.cursor, said, thought), s.cursor, line.at))
    ensures TurnTook(s, Apply(moves, written, Report(line.usage, line.model)), line)
  {
    var said, thought := Joined(BlocksOf(line), SAID), Joined(BlocksOf(line), THOUGHT);
    var i := s.cursor;
    var after, to := Current(Apply(moves, written, Report(line.usage, line.model))), Ended(Worded(Current(s), i, said, thought), i, line.at);
    assert SameOutline(to, Current(written));
    assert to.steps[i].(calls := Calls([])) == Current(written).steps[i].(calls := Calls([]));
    forall k | 0 <= k < |after.steps| && k != i
      ensures after.steps[k].(calls := Calls([])) == Current(s).steps[k].(calls := Calls([]))
    {
      assert to.steps[k].(calls := Calls([])) == Current(written).steps[k].(calls := Calls([]));
    }
  }

  lemma {:induction false} DecodedTaken(moves: Growth, s: State, line: Line)
    requires HasTurn(s) && Decodes(line)
    ensures
      var begun := Apply(moves, s, OpenStep(StepID(line), line.at, line.model));
      HasStep(begun) && TurnTook(begun, ApplyAll(moves, s, AssistantAtoms(line)), line)
  {
    var begun := Apply(moves, s, OpenStep(StepID(line), line.at, line.model));
    OpensFor(moves, s, line);
    var blocks := Blocks(line.content).value;
    var spoken := ApplyAll(moves, begun, AllOutput(blocks, line.at));
    BlocksSpeak(moves, begun, blocks, line.at);
    assert BlocksOf(line) == blocks;
    var written := Apply(moves, spoken, Close(line.at));
    ClosingEnds(moves, spoken, line.at);
    ThenEnds(begun, spoken, written, Worded(Current(begun), begun.cursor, Joined(blocks, SAID), Joined(blocks, THOUGHT)), begun.cursor, line.at);
    ReportTakes(moves, begun, written, line);
    DecodedRun(moves, s, line);
    ApplyAllConcat(moves, begun, AllOutput(blocks, line.at), [Close(line.at)]);
    ApplyOne(moves, spoken, Close(line.at));
  }

  lemma {:induction false} AssistantTook(moves: Growth, s: State, line: Line) returns (begun: State)
    requires HasTurn(s) && line.AssistantLine?
    ensures begun == Apply(moves, s, OpenStep(StepID(line), line.at, line.model)) && HasStep(begun)
    ensures OpenFor(Current(s), Current(begun), begun.cursor, line)
    ensures
      var s' := ApplyAll(moves, s, AssistantAtoms(line));
      && |s'.turns| == |s.turns| && (forall t | 0 <= t < |s.turns| - 1 :: SameOutline(s.turns[t], s'.turns[t]))
      && TookIn(Current(begun), begun.cursor, line, Current(s'))
  {
    var opening := OpenStep(StepID(line), line.at, line.model);
    begun := Apply(moves, s, opening);
    var s' := ApplyAll(moves, s, AssistantAtoms(line));
    OpensFor(moves, s, line);
    if Decodes(line) {
      DecodedTaken(moves, s, line);
    } else {
      ApplyOne(moves, s, opening);
      Unchanged(begun);
      assert BlocksOf(line) == [];
    }
    forall t | 0 <= t < |s.turns| - 1 ensures SameOutline(s.turns[t], s'.turns[t]) {
      assert begun.turns[..|s.turns| - 1][t] == s.turns[..|s.turns| - 1][t];
    }
  }

  lemma {:induction false} AssistantTaken(moves: Growth, s: State, line: Line, prompt: Line, own: seq<Line>)
    requires HasTurn(s) && line.AssistantLine? && TurnReads(Current(s), prompt, own)
    ensures
      var s' := ApplyAll(moves, s, AssistantAtoms(line));
      && |s'.turns| == |s.turns| && (forall t | 0 <= t < |s.turns| - 1 :: SameOutline(s.turns[t], s'.turns[t]))
      && TurnReads(Current(s'), prompt, own + [line])
  {
    var begun := AssistantTook(moves, s, line);
    TurnTakesIn(Current(s), Current(begun), begun.cursor, prompt, own, line, Current(ApplyAll(moves, s, AssistantAtoms(line))));
  }

  // ---- The whole transcript ----

  lemma {:induction false} LineOwned(init: seq<Line>, line: Line, t: nat)
    ensures PromptCount(init + [line]) == PromptCount(init) + if IsPrompt(line) then 1 else 0
    ensures OwnLines(init + [line], t) ==
      if line.AssistantLine? && PromptCount(init) == t + 1 then OwnLines(init, t) + [line] else OwnLines(init, t)
    ensures t < PromptCount(init) ==> PromptLine(init + [line], t) == PromptLine(init, t)
    ensures IsPrompt(line) ==> PromptLine(init + [line], PromptCount(init)) == line
    ensures PromptCount(init) <= t ==> OwnLines(init, t) == []
  {
    assert (init + [line])[..|init|] == init && OwnLines(init, t) + [] == OwnLines(init, t);
    if init != [] && PromptCount(init) <= t {
      LineOwned(init[..|init| - 1], init[|init| - 1], t);
      assert init[..|init| - 1] + [init[|init| - 1]] == init;
    }
  }

  lemma {:induction false} StillRead(turn: Turn, turn': Turn, init: seq<Line>, line: Line, t: nat)
    requires t < PromptCount(init) && TurnReads(turn, PromptLine(init, t), OwnLines(init, t)) && SameOutline(turn, turn')
    requires !(line.AssistantLine? && PromptCount(init) == t + 1)
    ensures t < PromptCount(init + [line])
    ensures TurnReads(turn', PromptLine(init + [line], t), OwnLines(init + [line], t))
  {
    LineOwned(init, line, t);
    SameOutlineReads(turn, turn', PromptLine(init, t), OwnLines(init, t));
  }

  lemma {:induction false} OthersRead(moves: Growth, s: State, s': State, init: seq<Line>, line: Line)
    requires AllRead(s.turns, init) && Kept(s, s') && !IsPrompt(line)
    requires line.AssistantLine? ==> s.turns == []
    ensures AllRead(s'.turns, init + [line])
  {
    LineOwned(init, line, 0);
    forall t | 0 <= t < |s'.turns| ensures TurnReads(s'.turns[t], PromptLine(init + [line], t), OwnLines(init + [line], t)) {
      StillRead(s.turns[t], s'.turns[t], init, line, t);
    }
  }

  lemma {:induction false} PromptReads(moves: Growth, s: State, init: seq<Line>, line: Line)
    requires AllRead(s.turns, init) && IsPrompt(line)
    ensures AllRead(ApplyAll(moves, s, LineAtoms(Opened(init), line)).turns, init + [line])
  {
    var text := Prompt(line.content).value;
    ApplyTwo(moves, s, Note("user", text, Absent, line.at), OpenTurn(line.uuid, line.sessionID, line.at, "", text));
    var turns := ApplyAll(moves, s, LineAtoms(Opened(init), line)).turns;
    PromptAsks(line);
    LineOwned(init, line, PromptCount(init));
    forall t | 0 <= t < |turns| ensures TurnReads(turns[t], PromptLine(init + [line], t), OwnLines(init + [line], t)) {
      LineOwned(init, line, t);
    }
  }

  lemma {:induction false} AnswerReads(moves: Growth, s: State, init: seq<Line>, line: Line)
    requires AllRead(s.turns, init) && line.AssistantLine? && HasTurn(s)
    ensures AllRead(ApplyAll(moves, s, AssistantAtoms(line)).turns, init + [line])
  {
    var n := |s.turns| - 1;
    var s' := ApplyAll(moves, s, AssistantAtoms(line));
    AssistantTaken(moves, s, line, PromptLine(init, n), OwnLines(init, n));
    LastRead(s.turns, s'.turns, init, line);
  }

  lemma {:induction false} LastRead(turns: seq<Turn>, turns': seq<Turn>, init: seq<Line>, line: Line)
    requires AllRead(turns, init) && line.AssistantLine? && turns != [] && |turns'| == |turns|
    requires forall t | 0 <= t < |turns| - 1 :: SameOutline(turns[t], turns'[t])
    requires TurnReads(turns'[|turns| - 1], PromptLine(init, |turns| - 1), OwnLines(init, |turns| - 1) + [line])
    ensures AllRead(turns', init + [line])
  {
    var n := |turns| - 1;
    LineOwned(init, line, n);
    assert TurnReads(turns'[n], PromptLine(init + [line], n), OwnLines(init + [line], n));
    forall t | 0 <= t < n ensures TurnReads(turns'[t], PromptLine(init + [line], t), OwnLines(init + [line], t)) {
      StillRead(turns[t], turns'[t], init, line, t);
    }
  }

  lemma {:induction false} ResultsSilent(blocks: seq<Block>, at: int)
    ensures forall atom | atom in AllResults(blocks, at) :: Silent(atom)
  {
    if blocks != [] {
      ResultsSilent(blocks[..|blocks| - 1], at);
    }
  }

  /** A transcript has one turn per prompt, opened by it, with one step per message id in the
      order of their first lines; every step's text and reasoning are its own lines' blocks of
      that kind joined in order, the turn's output all of its text, and the times and models
      those of the lines that set them. */
  lemma {:induction false} TurnsAreRead(moves: Growth, lines: seq<Line>)
    ensures AllRead(Parse(moves, lines), lines)
  {
    if lines != [] {
      var init, last := lines[..|lines| - 1], lines[|lines| - 1];
      var s := ApplyAll(moves, START, AtomsOf(init));
      TurnsAreRead(moves, init);
      ParseNext(moves, lines);
      OpenedCount(init);
      assert lines == init + [last];
      if IsPrompt(last) {
        PromptReads(moves, s, init, last);
      } else if last.AssistantLine? && Opened(init) {
        AnswerReads(moves, s, init, last);
      } else {
        if last.UserLine? && Blocks(last.content).Some? {
          ResultsSilent(Blocks(last.content).value, last.at);
        }
        SilentAllKeep(moves, s, LineAtoms(Opened(init), last));
        OthersRead(moves, s, ApplyAll(moves, s, LineAtoms(Opened(init), last)), init, last);
      }
    }
  }
}
