// What each step of a Claude transcript was shown, from its lines alone: everything said before the
// step's first line, in order (internal/transcript/claude.go). What is said are prompts, texts, thoughts,
// calls and the results of calls that wait for one.

module ClaudeContexts {
  import opened Options
  import opened Transcript
  import opened Builder
  import opened Outlines
  import opened Talks
  import opened Claude
  import opened ClaudeUsage
  import opened ClaudeTurns

  function BlockHeard(talk: Talk, block: Block, at: int, answers: bool): Talk {
    match block
    case Text(text) => if answers then talk else WithItem(talk, "assistant", text, Absent, at)
    case Thinking(text) => if answers then talk else WithItem(talk, "assistant", text, Absent, at)
    case ToolUse(id, name, input) => if answers then talk else WithCall(talk, id, name, input, at)
    case ToolResult(useID, content, _) => if answers then WithResult(talk, useID, content, at) else talk
    case OtherBlock => talk
  }

  function BlocksHeard(talk: Talk, blocks: seq<Block>, at: int, answers: bool): Talk {
    if blocks == [] then talk
    else BlockHeard(BlocksHeard(talk, blocks[..|blocks| - 1], at, answers), blocks[|blocks| - 1], at, answers)
  }

  /** What is said in the lines: prompts, the texts, thoughts and calls of answers within a turn,
      and the results of calls that wait for one. */
  function Heard(lines: seq<Line>): Talk {
    if lines == [] then SILENCE else
      var init, last := lines[..|lines| - 1], lines[|lines| - 1];
      var before := Heard(init);
      if IsPrompt(last) then WithItem(before, "user", Prompt(last.content).value, Absent, last.at)
      else if last.UserLine? || (last.AssistantLine? && PromptCount(init) > 0) then
        BlocksHeard(before, BlocksOf(last), last.at, last.UserLine?)
      else before
  }

  lemma {:induction false} BlockTells(moves: Growth, s: State, talk: Talk, block: Block, at: int)
    requires Tells(moves, s, talk)
    ensures HasStep(s) ==> Tells(moves, ApplyAll(moves, s, OutputAtoms(block, at)), BlockHeard(talk, block, at, false))
    ensures Tells(moves, ApplyAll(moves, s, ResultAtoms(block, at)), BlockHeard(talk, block, at, true))
  {
    match block {
      case Text(text) => WordTells(moves, s, talk, Say(text), "assistant", text, at);
      case Thinking(text) => WordTells(moves, s, talk, Reason(text), "assistant", text, at);
      case ToolUse(id, name, input) =>
        if HasStep(s) {
          ApplyTwo(moves, s, Call(id, name, "", at, input), Note("assistant", name, input, at));
          CallTells(moves, s, talk, Call(id, name, "", at, input));
        }
      case ToolResult(useID, content, isError) =>
        ApplyOne(moves, s, Result(useID, content, at, isError));
        ResultTells(moves, s, talk, Result(useID, content, at, isError));
      case OtherBlock =>
    }
  }

  lemma {:induction false} OutputTells(moves: Growth, s: State, talk: Talk, blocks: seq<Block>, at: int)
    requires Tells(moves, s, talk) && HasStep(s)
    ensures Tells(moves, ApplyAll(moves, s, AllOutput(blocks, at)), BlocksHeard(talk, blocks, at, false))
  {
    if blocks != [] {
      var init, last := blocks[..|blocks| - 1], blocks[|blocks| - 1];
      OutputTells(moves, s, talk, init, at);
      BlocksSpeak(moves, s, init, at);
      ApplyAllConcat(moves, s, AllOutput(init, at), OutputAtoms(last, at));
      BlockTells(moves, ApplyAll(moves, s, AllOutput(init, at)), BlocksHeard(talk, init, at, false), last, at);
    }
  }

  lemma {:induction false} ResultsTell(moves: Growth, s: State, talk: Talk, blocks: seq<Block>, at: int)
    requires Tells(moves, s, talk)
    ensures Tells(moves, ApplyAll(moves, s, AllResults(blocks, at)), BlocksHeard(talk, blocks, at, true))
  {
    if blocks != [] {
      var init, last := blocks[..|blocks| - 1], blocks[|blocks| - 1];
      ResultsTell(moves, s, talk, init, at);
      ApplyAllConcat(moves, s, AllResults(init, at), ResultAtoms(last, at));
      BlockTells(moves, ApplyAll(moves, s, AllResults(init, at)), BlocksHeard(talk, init, at, true), last, at);
    }
  }

  lemma {:induction false} AnswerTells(moves: Growth, s: State, talk: Talk, line: Line)
    requires Tells(moves, s, talk) && HasTurn(s) && line.AssistantLine?
    ensures Tells(moves, ApplyAll(moves, s, AssistantAtoms(line)), BlocksHeard(talk, BlocksOf(line), line.at, false))
  {
    var opening := OpenStep(StepID(line), line.at, line.model);
    var begun := Apply(moves, s, opening);
    OtherTells(moves, s, talk, opening);
    if Blocks(line.content).None? {
      ApplyOne(moves, s, opening);
    } else {
      var spoken := ApplyAll(moves, begun, AllOutput(BlocksOf(line), line.at));
      OpensFor(moves, s, line);
      OutputTells(moves, begun, talk, BlocksOf(line), line.at);
      DecodedRun(moves, s, line);
      ApplyAllConcat(moves, begun, AllOutput(BlocksOf(line), line.at), [Close(line.at)]);
      ApplyOne(moves, spoken, Close(line.at));
      OtherTells(moves, spoken, BlocksHeard(talk, BlocksOf(line), line.at, false), Close(line.at));
      OtherTells(moves, Apply(moves, spoken, Close(line.at)), BlocksHeard(talk, BlocksOf(line), line.at, false), Report(line.usage, line.model));
    }
  }

  lemma {:induction false} PromptTells(moves: Growth, s: State, talk: Talk, line: Line)
    requires Tells(moves, s, talk) && IsPrompt(line)
    ensures
      var text := Prompt(line.content).value;
      var atoms := [Note("user", text, Absent, line.at), OpenTurn(line.uuid, line.sessionID, line.at, "", text)];
      Tells(moves, ApplyAll(moves, s, atoms), WithItem(talk, "user", text, Absent, line.at))
  {
    var text := Prompt(line.content).value;
    var note, opening := Note("user", text, Absent, line.at), OpenTurn(line.uuid, line.sessionID, line.at, "", text);
    ApplyTwo(moves, s, note, opening);
    NoteTells(moves, s, talk, "user", text, Absent, line.at);
    OtherTells(moves, Apply(moves, s, note), WithItem(talk, "user", text, Absent, line.at), opening);
  }

  /** The parser's conversation is what the lines say. */
  lemma {:induction false} LinesTell(moves: Growth, lines: seq<Line>)
    ensures Tells(moves, ApplyAll(moves, START, AtomsOf(lines)), Heard(lines))
  {
    if lines != [] {
      var init, last := lines[..|lines| - 1], lines[|lines| - 1];
      var s := ApplyAll(moves, START, AtomsOf(init));
      LinesTell(moves, init);
      ParseNext(moves, lines);
      OpenedCount(init);
      if IsPrompt(last) {
        PromptTells(moves, s, Heard(init), last);
      } else if last.UserLine? {
        ResultsTell(moves, s, Heard(init), BlocksOf(last), last.at);
        BlockListOnly(last);
      } else if last.AssistantLine? && PromptCount(init) > 0 {
        TurnsAreRead(moves, init);
        AnswerTells(moves, s, Heard(init), last);
      }
    }
  }

  lemma {:induction false} BlockListOnly(line: Line)
    requires line.UserLine? && !IsPrompt(line)
    ensures ContentResults(line.content, line.at) == AllResults(BlocksOf(line), line.at)
  {
  }

  // ---- What each step was shown ----

  /** Where the first line of a message of turn t stands, or past the end. */
  function FirstLine(lines: seq<Line>, t: nat, id: string): (n: nat)
    ensures n <= |lines|
  {
    if lines == [] then 0 else
      var init, last := lines[..|lines| - 1], lines[|lines| - 1];
      if FirstLine(init, t, id) < |init| then FirstLine(init, t, id)
      else if last.AssistantLine? && PromptCount(init) == t + 1 && IDOf(last) == id then |init|
      else |lines|
  }

  lemma {:induction false} FirstLineNext(init: seq<Line>, line: Line, t: nat, id: string)
    ensures FirstLine(init, t, id) < |init| ==>
      FirstLine(init + [line], t, id) == FirstLine(init, t, id)
      && (init + [line])[..FirstLine(init, t, id)] == init[..FirstLine(init, t, id)]
    ensures FirstLine(init, t, id) == |init| && line.AssistantLine? && PromptCount(init) == t + 1 && IDOf(line) == id ==>
      FirstLine(init + [line], t, id) == |init| && (init + [line])[..|init|] == init
  {
    assert (init + [line])[..|init|] == init;
  }

  lemma {:induction false} NoFirstLineNext(init: seq<Line>, line: Line, t: nat, id: string)
    requires FirstLine(init, t, id) == |init| <==> Under(OwnLines(init, t), id) == []
    ensures FirstLine(init + [line], t, id) == |init| + 1 <==> Under(OwnLines(init + [line], t), id) == []
  {
    FirstLineNext(init, line, t, id);
    assert (init + [line])[..|init|] == init;
    LineOwned(init, line, t);
    if line.AssistantLine? && PromptCount(init) == t + 1 {
      OneMore(OwnLines(init, t), line);
    }
  }

  lemma {:induction false} NoFirstLine(lines: seq<Line>, t: nat, id: string)
    ensures FirstLine(lines, t, id) == |lines| <==> Under(OwnLines(lines, t), id) == []
  {
    if lines != [] {
      var init, last := lines[..|lines| - 1], lines[|lines| - 1];
      assert lines == init + [last];
      NoFirstLine(init, t, id);
      NoFirstLineNext(init, last, t, id);
    }
  }

  /** The step was shown all that was said before the first line of its message. */
  ghost predicate StepShown(step: Step, lines: seq<Line>, t: nat) {
    && FirstLine(lines, t, step.id) < |lines|
    && Unmarked(step.context) == Heard(lines[..FirstLine(lines, t, step.id)]).items
  }

  ghost predicate TurnShown(turn: Turn, lines: seq<Line>, t: nat) {
    forall j | 0 <= j < |turn.steps| :: StepShown(turn.steps[j], lines, t)
  }

  lemma {:induction false} StepStillShown(step: Step, step': Step, init: seq<Line>, line: Line, t: nat)
    requires StepShown(step, init, t) && step'.id == step.id && step'.context == step.context
    ensures StepShown(step', init + [line], t)
  {
    FirstLineNext(init, line, t, step.id);
  }

  lemma {:induction false} TurnStillShown(turn: Turn, turn': Turn, init: seq<Line>, line: Line, t: nat)
    requires TurnShown(turn, init, t) && SameOutline(turn, turn')
    ensures TurnShown(turn', init + [line], t)
  {
    forall j | 0 <= j < |turn'.steps| ensures StepShown(turn'.steps[j], init + [line], t) {
      assert turn.steps[j].(calls := Calls([])) == turn'.steps[j].(calls := Calls([]));
      StepStillShown(turn.steps[j], turn'.steps[j], init, line, t);
    }
  }

  /** The step a line begins is shown what was said so far. */
  lemma {:induction false} BeginsShown(moves: Growth, s: State, line: Line, talk: Talk)
    requires line.AssistantLine? && HasTurn(s) && Unmarked(Snapshot(s.shown)) == talk.items
    ensures
      var begun := Apply(moves, s, OpenStep(StepID(line), line.at, line.model));
      && HasStep(begun) && (begun.cursor == |Current(s).steps| ==> Unmarked(CurrentStep(begun).context) == talk.items)
  {
  }

  lemma {:induction false} SnapshotHeard(moves: Growth, lines: seq<Line>)
    ensures Unmarked(Snapshot(ApplyAll(moves, START, AtomsOf(lines)).shown)) == Heard(lines).items
  {
    var s := ApplyAll(moves, START, AtomsOf(lines));
    LinesTell(moves, lines);
    ContextIsPartitioned(moves, AtomsOf(lines));
    SnapshotIsTalk(moves, s, Heard(lines));
  }

  lemma {:induction false} LastTurnShown(turn: Turn, begun: Turn, i: nat, init: seq<Line>, line: Line, t: nat, after: Turn)
    requires TurnShown(turn, init, t) && line.AssistantLine? && PromptCount(init) == t + 1
    requires StepsRead(turn.steps, OwnLines(init, t))
    requires OpenFor(turn, begun, i, line) && TookIn(begun, i, line, after)
    requires i == |turn.steps| ==> Unmarked(begun.steps[i].context) == Heard(init).items
    ensures TurnShown(after, init + [line], t)
  {
    forall j | 0 <= j < |after.steps| ensures StepShown(after.steps[j], init + [line], t) {
      if j < |turn.steps| {
        assert j != i ==> after.steps[j].(calls := Calls([])) == turn.steps[j].(calls := Calls([]));
        StepStillShown(turn.steps[j], after.steps[j], init, line, t);
      } else {
        NewMessage(turn, OwnLines(init, t), IDOf(line));
        NoFirstLine(init, t, IDOf(line));
        FirstLineNext(init, line, t, IDOf(line));
      }
    }
  }

  lemma {:induction false} NewMessage(turn: Turn, own: seq<Line>, id: string)
    requires StepsRead(turn.steps, own) && forall k | 0 <= k < |turn.steps| :: turn.steps[k].id != id
    ensures Under(own, id) == []
  {
    MessagesDistinct(own);
    forall k | 0 <= k < |Messages(own)| ensures Messages(own)[k] != id {
      assert turn.steps[k].id == Messages(own)[k];
    }
  }

  ghost predicate AllShown(turns: seq<Turn>, lines: seq<Line>) {
    forall t | 0 <= t < |turns| :: TurnShown(turns[t], lines, t)
  }

  lemma {:induction false} LastAnswerShown(moves: Growth, s: State, init: seq<Line>, line: Line, n: nat)
    requires line.AssistantLine? && |s.turns| == n + 1 == PromptCount(init) && TurnShown(Current(s), init, n)
    requires StepsRead(Current(s).steps, OwnLines(init, n)) && Unmarked(Snapshot(s.shown)) == Heard(init).items
    ensures
      var turns := ApplyAll(moves, s, AssistantAtoms(line)).turns;
      && |turns| == n + 1 && (forall t | 0 <= t < n :: SameOutline(s.turns[t], turns[t]))
      && TurnShown(turns[n], init + [line], n)
  {
    var begun := AssistantTook(moves, s, line);
    BeginsShown(moves, s, line, Heard(init));
    LastTurnShown(Current(s), Current(begun), begun.cursor, init, line, n, ApplyAll(moves, s, AssistantAtoms(line)).turns[n]);
  }

  lemma {:induction false} AnswerShown(moves: Growth, s: State, init: seq<Line>, line: Line, n: nat)
    requires line.AssistantLine? && |s.turns| == n + 1 == PromptCount(init) && AllShown(s.turns, init)
    requires StepsRead(Current(s).steps, OwnLines(init, n)) && Unmarked(Snapshot(s.shown)) == Heard(init).items
    ensures AllShown(ApplyAll(moves, s, AssistantAtoms(line)).turns, init + [line])
  {
    assert TurnShown(s.turns[n], init, n);
    LastAnswerShown(moves, s, init, line, n);
    AllShownAgain(s.turns, ApplyAll(moves, s, AssistantAtoms(line)).turns, init, line, n);
  }

  lemma {:induction false} AllShownAgain(turns: seq<Turn>, turns': seq<Turn>, init: seq<Line>, line: Line, n: nat)
    requires AllShown(turns, init) && |turns'| == |turns| == n + 1
    requires forall t | 0 <= t < n :: SameOutline(turns[t], turns'[t])
    requires TurnShown(turns'[n], init + [line], n)
    ensures AllShown(turns', init + [line])
  {
    forall t | 0 <= t < n ensures TurnShown(turns'[t], init + [line], t) {
      TurnStillShown(turns[t], turns'[t], init, line, t);
    }
  }

  lemma {:induction false} OthersShown(s: State, s': State, init: seq<Line>, line: Line)
    requires AllShown(s.turns, init) && Kept(s, s')
    ensures AllShown(s'.turns, init + [line])
  {
    forall t | 0 <= t < |s'.turns| ensures TurnShown(s'.turns[t], init + [line], t) {
      TurnStillShown(s.turns[t], s'.turns[t], init, line, t);
    }
  }

  lemma {:induction false} PromptShown(moves: Growth, s: State, init: seq<Line>, line: Line)
    requires AllShown(s.turns, init) && IsPrompt(line)
    ensures AllShown(ApplyAll(moves, s, LineAtoms(Opened(init), line)).turns, init + [line])
  {
    var text := Prompt(line.content).value;
    var note, opening := Note("user", text, Absent, line.at), OpenTurn(line.uuid, line.sessionID, line.at, "", text);
    ApplyTwo(moves, s, note, opening);
    var noted := Apply(moves, s, note);
    SilentKeeps(moves, s, note);
    OthersShown(s, noted, init, line);
  }

  lemma {:induction false} AnsweredShown(moves: Growth, init: seq<Line>, line: Line)
    requires line.AssistantLine? && PromptCount(init) > 0 && AllShown(Parse(moves, init), init)
    ensures AllShown(ApplyAll(moves, ApplyAll(moves, START, AtomsOf(init)), AssistantAtoms(line)).turns, init + [line])
  {
    var s, n := ApplyAll(moves, START, AtomsOf(init)), PromptCount(init) - 1;
    TurnsAreRead(moves, init);
    assert TurnReads(s.turns[n], PromptLine(init, n), OwnLines(init, n));
    SnapshotHeard(moves, init);
    AnswerShown(moves, s, init, line, n);
  }

  lemma {:induction false} OtherLineKeeps(moves: Growth, s: State, open: bool, line: Line)
    requires !IsPrompt(line) && !(line.AssistantLine? && open)
    ensures Kept(s, ApplyAll(moves, s, LineAtoms(open, line)))
  {
    if line.UserLine? && Blocks(line.content).Some? {
      ResultsSilent(Blocks(line.content).value, line.at);
    }
    SilentAllKeep(moves, s, LineAtoms(open, line));
  }

  lemma {:induction false} LineShown(moves: Growth, init: seq<Line>, line: Line)
    requires AllShown(Parse(moves, init), init)
    ensures AllShown(ApplyAll(moves, ApplyAll(moves, START, AtomsOf(init)), LineAtoms(Opened(init), line)).turns, init + [line])
  {
    var s := ApplyAll(moves, START, AtomsOf(init));
    OpenedCount(init);
    if IsPrompt(line) {
      PromptShown(moves, s, init, line);
    } else if line.AssistantLine? && Opened(init) {
      AnsweredShown(moves, init, line);
    } else {
      OtherLineKeeps(moves, s, Opened(init), line);
      OthersShown(s, ApplyAll(moves, s, LineAtoms(Opened(init), line)), init, line);
    }
  }

  /** Each step's context is the conversation up to its message's first line: everything said
      before, in order, as the lines say it. */
  lemma {:induction false} StepsAreShownTheTalk(moves: Growth, lines: seq<Line>)
    ensures AllShown(Parse(moves, lines), lines)
  {
    if lines != [] {
      var init, last := lines[..|lines| - 1], lines[|lines| - 1];
      assert lines == init + [last];
      StepsAreShownTheTalk(moves, init);
      ParseNext(moves, lines);
      LineShown(moves, init, last);
    }
  }
}
