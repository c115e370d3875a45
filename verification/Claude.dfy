// Claude Code's transcript (internal/transcript/claude.go), line by line as decoded.

module Claude {
  import opened Options
  import opened Transcript
  import opened Builder

  datatype Block =
    | Text(text: string)
    | Thinking(text: string)
    | ToolUse(id: string, name: string, input: Value)
    | ToolResult(useID: string, content: Value, isError: bool)
    | OtherBlock

  /** A message's content: a bare string, JSON null, a block list, or neither. */
  datatype Content = Bare(text: string) | Null | BlockList(blocks: seq<Block>) | Undecodable

  /** Garbage is a line that does not parse: it is skipped. */
  datatype Line =
    | Garbage
    | UserLine(at: int, sessionID: string, uuid: string, content: Content)
    | AssistantLine(at: int, messageID: string, requestID: string, model: string, content: Content, usage: Option<Usage>)
    | OtherLine

  function HasResult(blocks: seq<Block>): bool {
    blocks != [] && (blocks[|blocks| - 1].ToolResult? || HasResult(blocks[..|blocks| - 1]))
  }

  function JoinedText(blocks: seq<Block>): string {
    if blocks == [] then "" else
      var before, last := JoinedText(blocks[..|blocks| - 1]), blocks[|blocks| - 1];
      if last.Text? then JoinText(before, last.text) else before
  }

  /** The prompt a user line carries, if it opens a turn. */
  function Prompt(content: Content): Option<string> {
    match content
    case Bare(text) => Some(text)
    case Null => Some("")
    case BlockList(blocks) => if HasResult(blocks) || JoinedText(blocks) == "" then None else Some(JoinedText(blocks))
    case Undecodable => None
  }

  /** The content read as a list of blocks. */
  function Blocks(content: Content): Option<seq<Block>> {
    match content
    case Null => Some([])
    case BlockList(blocks) => Some(blocks)
    case _ => None
  }

  function StepID(line: Line): string
    requires line.AssistantLine?
  {
    if line.messageID == "" then line.requestID else line.messageID
  }

  function OutputAtoms(block: Block, at: int): seq<Atom> {
    match block
    case Text(text) => [Say(text), Note("assistant", text, Absent, at)]
    case Thinking(text) => [Reason(text), Note("assistant", text, Absent, at)]
    case ToolUse(id, name, input) => [Call(id, name, "", at, input), Note("assistant", name, input, at)]
    case _ => []
  }

  function ResultAtoms(block: Block, at: int): seq<Atom> {
    if block.ToolResult? then [Result(block.useID, block.content, at, block.isError)] else []
  }

  function AllOutput(blocks: seq<Block>, at: int): seq<Atom> {
    if blocks == [] then [] else AllOutput(blocks[..|blocks| - 1], at) + OutputAtoms(blocks[|blocks| - 1], at)
  }

  function AllResults(blocks: seq<Block>, at: int): seq<Atom> {
    if blocks == [] then [] else AllResults(blocks[..|blocks| - 1], at) + ResultAtoms(blocks[|blocks| - 1], at)
  }

  /** What an assistant line does to the turn in flight. */
  function AssistantAtoms(line: Line): seq<Atom>
    requires line.AssistantLine?
  {
    var opening := [OpenStep(StepID(line), line.at, line.model)];
    match Blocks(line.content)
    case None => opening
    case Some(blocks) => opening + (AllOutput(blocks, line.at) + [Close(line.at), Report(line.usage, line.model)])
  }

  /** What a user line that is no prompt does. */
  function ContentResults(content: Content, at: int): seq<Atom> {
    match Blocks(content)
    case None => []
    case Some(blocks) => AllResults(blocks, at)
  }

  /** What a line does, given whether a turn is open. */
  function LineAtoms(open: bool, line: Line): seq<Atom> {
    if line.UserLine? then
      match Prompt(line.content)
      case Some(text) =>
        [Note("user", text, Absent, line.at), OpenTurn(line.uuid, line.sessionID, line.at, "", text)]
      case None => ContentResults(line.content, line.at)
    else if line.AssistantLine? && open then AssistantAtoms(line)
    else []
  }

  predicate IsPrompt(line: Line) {
    line.UserLine? && Prompt(line.content).Some?
  }

  predicate Opened(lines: seq<Line>) {
    exists i :: 0 <= i < |lines| && IsPrompt(lines[i])
  }

  /** What a whole transcript does. */
  function AtomsOf(lines: seq<Line>): seq<Atom> {
    if lines == [] then [] else
      AtomsOf(lines[..|lines| - 1]) + LineAtoms(Opened(lines[..|lines| - 1]), lines[|lines| - 1])
  }

  function Parse(moves: Growth, lines: seq<Line>): seq<Turn> {
    ApplyAll(moves, START, AtomsOf(lines)).turns
  }

  lemma {:induction false} ParseNext(moves: Growth, lines: seq<Line>)
    requires lines != []
    ensures ApplyAll(moves, START, AtomsOf(lines)) ==
      ApplyAll(moves, ApplyAll(moves, START, AtomsOf(lines[..|lines| - 1])),
               LineAtoms(Opened(lines[..|lines| - 1]), lines[|lines| - 1]))
  {
    ApplyAllConcat(moves, START, AtomsOf(lines[..|lines| - 1]), LineAtoms(Opened(lines[..|lines| - 1]), lines[|lines| - 1]));
  }

  lemma {:induction false} OpenedNext(lines: seq<Line>, i: nat)
    requires i < |lines|
    ensures Opened(lines[..i + 1]) <==> Opened(lines[..i]) || IsPrompt(lines[i])
  {
    if Opened(lines[..i]) {
      var k :| 0 <= k < i && IsPrompt(lines[..i][k]);
      assert IsPrompt(lines[..i + 1][k]);
    }
    if IsPrompt(lines[i]) {
      assert IsPrompt(lines[..i + 1][i]);
    }
  }

  method ClaudeText(content: Content) returns (prompt: Option<string>)
    ensures prompt == Prompt(content)
  {
    match content {
      case Bare(text) => return Some(text);
      case Null => return Some("");
      case Undecodable => return None;
      case BlockList(blocks) =>
        var joined := "";
        var i := 0;
        while i < |blocks|
          invariant 0 <= i <= |blocks|
          invariant joined == JoinedText(blocks[..i])
          invariant !HasResult(blocks[..i])
        {
          assert blocks[..i + 1][..i] == blocks[..i];
          if blocks[i].ToolResult? {
            ResultShows(blocks, i);
            return None;
          }
          if blocks[i].Text? {
            joined := JoinText(joined, blocks[i].text);
          }
          i := i + 1;
        }
        assert blocks[..i] == blocks;
        return if joined == "" then None else Some(joined);
    }
  }

  lemma {:induction false} ResultShows(blocks: seq<Block>, i: nat)
    requires i < |blocks| && blocks[i].ToolResult?
    ensures HasResult(blocks)
    decreases |blocks|
  {
    if i < |blocks| - 1 {
      ResultShows(blocks[..|blocks| - 1], i);
    }
  }

  method AppendAssistant(a: Assembly, line: Line)
    requires line.AssistantLine? && a.open
    modifies a, a.seen
    ensures a.View() == ApplyAll(a.moves, old(a.View()), AssistantAtoms(line)) && a.open
  {
    var at := line.at;
    ghost var s := a.View();
    ghost var opening := OpenStep(StepID(line), at, line.model);
    a.StepByID(StepID(line), at, line.model);
    ApplyOne(a.moves, s, opening);
    if Blocks(line.content).None? {
      return;
    }
    var blocks := Blocks(line.content).value;
    ghost var begun := a.View();
    AppendBlocks(a, blocks, at);
    ghost var filled := a.View();
    a.EndStep(at);
    a.RaiseUsage(line.usage, line.model);
    ApplyTwo(a.moves, filled, Close(at), Report(line.usage, line.model));
    ApplyAllConcat(a.moves, begun, AllOutput(blocks, at), [Close(at), Report(line.usage, line.model)]);
    ApplyAllConcat(a.moves, s, [opening], AllOutput(blocks, at) + [Close(at), Report(line.usage, line.model)]);
  }

  method AppendBlocks(a: Assembly, blocks: seq<Block>, at: int)
    requires a.open && a.cursor < |a.current.steps|
    modifies a, a.seen
    ensures a.open && a.cursor < |a.current.steps|
    ensures a.View() == ApplyAll(a.moves, old(a.View()), AllOutput(blocks, at))
  {
    ghost var s := a.View();
    var i := 0;
    while i < |blocks|
      invariant 0 <= i <= |blocks| && a.open && a.cursor < |a.current.steps|
      invariant a.View() == ApplyAll(a.moves, s, AllOutput(blocks[..i], at))
    {
      assert blocks[..i + 1][..i] == blocks[..i];
      ApplyAllConcat(a.moves, s, AllOutput(blocks[..i], at), OutputAtoms(blocks[i], at));
      AppendBlock(a, blocks[i], at);
      i := i + 1;
    }
    assert blocks[..i] == blocks;
  }

  method AppendBlock(a: Assembly, block: Block, at: int)
    requires a.open && a.cursor < |a.current.steps|
    modifies a, a.seen
    ensures a.open && a.cursor < |a.current.steps|
    ensures a.View() == ApplyAll(a.moves, old(a.View()), OutputAtoms(block, at))
  {
    ghost var s := a.View();
    match block {
      case Text(text) =>
        a.AddText(text);
        a.AddNote("assistant", text, Absent, at);
        ApplyTwo(a.moves, s, Say(text), Note("assistant", text, Absent, at));
      case Thinking(text) =>
        a.AddReasoning(text);
        a.AddNote("assistant", text, Absent, at);
        ApplyTwo(a.moves, s, Reason(text), Note("assistant", text, Absent, at));
      case ToolUse(id, name, input) =>
        a.AppendToolCall(id, name, "", at, input);
        a.AddNote("assistant", name, input, at);
        ApplyTwo(a.moves, s, Call(id, name, "", at, input), Note("assistant", name, input, at));
      case _ =>
    }
  }

  method ApplyToolResults(a: Assembly, content: Content, at: int)
    modifies a, a.seen
    ensures a.View() == ApplyAll(a.moves, old(a.View()), ContentResults(content, at))
    ensures a.open == old(a.open)
  {
    if Blocks(content).None? {
      return;
    }
    var blocks := Blocks(content).value;
    ghost var s := a.View();
    var i := 0;
    while i < |blocks|
      invariant 0 <= i <= |blocks| && a.open == old(a.open)
      invariant a.View() == ApplyAll(a.moves, s, AllResults(blocks[..i], at))
    {
      assert blocks[..i + 1][..i] == blocks[..i];
      if blocks[i].ToolResult? {
        a.ApplyResult(blocks[i].useID, blocks[i].content, at, blocks[i].isError);
        ghost var atom := Result(blocks[i].useID, blocks[i].content, at, blocks[i].isError);
        ApplyOne(a.moves, ApplyAll(a.moves, s, AllResults(blocks[..i], at)), atom);
        ApplyAllConcat(a.moves, s, AllResults(blocks[..i], at), [atom]);
      } else {
        assert AllResults(blocks[..i + 1], at) == AllResults(blocks[..i], at);
      }
      i := i + 1;
    }
    assert blocks[..i] == blocks;
  }

  method HandleLine(a: Assembly, line: Line)
    modifies a, a.seen
    ensures a.View() == ApplyAll(a.moves, old(a.View()), LineAtoms(old(a.open), line))
    ensures a.open == (old(a.open) || IsPrompt(line))
  {
    ghost var s := a.View();
    match line {
      case UserLine(at, sessionID, uuid, content) =>
        var prompt := ClaudeText(content);
        if prompt.Some? {
          a.AddNote("user", prompt.value, Absent, at);
          a.CloseAndOpen(uuid, sessionID, at, "", prompt.value);
          ApplyTwo(a.moves, s, Note("user", prompt.value, Absent, at), OpenTurn(uuid, sessionID, at, "", prompt.value));
        } else {
          ApplyToolResults(a, content, at);
        }
      case AssistantLine(_, _, _, _, _, _) =>
        if a.open {
          AppendAssistant(a, line);
        }
      case _ =>
    }
  }

  /** The scan over a transcript's lines. */
  method ParseClaude(moves: Growth, lines: seq<Line>) returns (turns: seq<Turn>)
    ensures turns == Parse(moves, lines)
  {
    var a := new Assembly(moves);
    var i := 0;
    while i < |lines|
      invariant 0 <= i <= |lines| && a.moves == moves && fresh(a) && fresh(a.seen)
      invariant a.open == Opened(lines[..i])
      invariant a.View() == ApplyAll(moves, START, AtomsOf(lines[..i]))
    {
      assert lines[..i + 1][..i] == lines[..i];
      ParseNext(moves, lines[..i + 1]);
      OpenedNext(lines, i);
      HandleLine(a, lines[i]);
      i := i + 1;
    }
    assert lines[..i] == lines;
    turns := if a.open then a.turns + [a.current] else a.turns;
  }

  lemma {:induction false} AtomsConcat(a: seq<Line>, b: seq<Line>)
    ensures AtomsOf(a) <= AtomsOf(a + b)
    decreases |b|
  {
    if b == [] {
      assert a + b == a;
    } else {
      assert (a + b)[..|a + b| - 1] == a + b[..|b| - 1];
      AtomsConcat(a, b[..|b| - 1]);
    }
  }

  /** How a transcript may have grown when it is read again: lines were added, and the last
      one seen may have been half written, when it did not parse. */
  ghost predicate Grown(earlier: seq<Line>, later: seq<Line>) {
    earlier <= later || (earlier != [] && earlier[|earlier| - 1].Garbage? && earlier[..|earlier| - 1] <= later)
  }

  /** Stability under growth: what was read before is read again at the same positions, under
      the same ids, and only the last turn may have gained steps or calls. */
  lemma {:induction false} StableUnderGrowth(moves: Growth, earlier: seq<Line>, later: seq<Line>)
    requires Grown(earlier, later)
    ensures Extends(Parse(moves, earlier), Parse(moves, later))
  {
    GrownAtoms(earlier, later);
    MoreAtomsExtend(moves, AtomsOf(earlier), AtomsOf(later));
  }

  /** A line that does not parse adds nothing. */
  lemma {:induction false} TornAddsNothing(lines: seq<Line>)
    requires lines != [] && lines[|lines| - 1].Garbage?
    ensures AtomsOf(lines) == AtomsOf(lines[..|lines| - 1])
  {
    assert AtomsOf(lines[..|lines| - 1]) + [] == AtomsOf(lines[..|lines| - 1]);
  }

  lemma {:induction false} GrownAtoms(earlier: seq<Line>, later: seq<Line>)
    requires Grown(earlier, later)
    ensures AtomsOf(earlier) <= AtomsOf(later)
  {
    var whole := if earlier <= later then earlier else earlier[..|earlier| - 1];
    if whole != earlier { TornAddsNothing(earlier); }
    assert later == whole + later[|whole|..];
    AtomsConcat(whole, later[|whole|..]);
  }
}
