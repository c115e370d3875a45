// Tool outputs in a Claude transcript: which reach their call, and the ordinary transcript
// in which one does not.

module ClaudeOutputs {
  import opened Options
  import opened Transcript
  import opened Builder
  import opened ToolOutputs
  import opened Claude
  import opened ClaudeUsage

  lemma {:induction false} NeutralKeepsStep(moves: Growth, s: State, atoms: seq<Atom>)
    requires HasStep(s) && Neutral(atoms)
    ensures HasStep(ApplyAll(moves, s, atoms))
  {
    NeutralAllKeep(moves, s, atoms);
    LedgersShape(s, ApplyAll(moves, s, atoms));
  }

  /** A call is read with its step open: no call of a transcript is lost. */
  lemma {:induction false} CallsHaveStep(moves: Growth, lines: seq<Line>, i: nat)
    requires i < |AtomsOf(lines)| && AtomsOf(lines)[i].Call?
    ensures HasStep(ApplyAll(moves, START, AtomsOf(lines)[..i]))
  {
    var init, last := lines[..|lines| - 1], lines[|lines| - 1];
    var before, line := AtomsOf(init), LineAtoms(Opened(init), last);
    SplitAt(before, line, i);
    if i < |before| {
      CallsHaveStep(moves, init, i);
    } else {
      var m := i - |before|;
      ApplyAllConcat(moves, START, before, line[..m]);
      UsageIsMaximum(moves, init);
      OpenedCount(init);
      LineCallsHaveStep(moves, ApplyAll(moves, START, before), Opened(init), last, m);
    }
  }

  lemma {:induction false} LineCallsHaveStep(moves: Growth, s: State, open: bool, line: Line, m: nat)
    requires open ==> HasTurn(s)
    requires m < |LineAtoms(open, line)| && LineAtoms(open, line)[m].Call?
    ensures HasStep(ApplyAll(moves, s, LineAtoms(open, line)[..m]))
  {
    if line.UserLine? && Blocks(line.content).Some? {
      ResultsOnly(Blocks(line.content).value, line.at);
    }
    assert LineAtoms(open, line)[m] in LineAtoms(open, line);
    assert line.AssistantLine? && open && Blocks(line.content).Some?;
    var output := AllOutput(Blocks(line.content).value, line.at);
    var opening := OpenStep(StepID(line), line.at, line.model);
    var atoms := AssistantAtoms(line);
    assert atoms == [opening] + output + [Close(line.at), Report(line.usage, line.model)];
    assert 1 <= m <= |output| && atoms[..m] == [opening] + output[..m - 1];
    ApplyAllConcat(moves, s, [opening], output[..m - 1]);
    ApplyOne(moves, s, opening);
    OpeningStep(moves, s, StepID(line), line.at, line.model);
    OutputNeutral(Blocks(line.content).value, line.at);
    NeutralKeepsStep(moves, Apply(moves, s, opening), output[..m - 1]);
  }

  lemma {:induction false} ResultsOnly(blocks: seq<Block>, at: int)
    ensures forall atom | atom in AllResults(blocks, at) :: atom.Result?
  {
    if blocks != [] {
      ResultsOnly(blocks[..|blocks| - 1], at);
    }
  }

  /** In any transcript that uses a call id once, the final turns show the call with its
      first result's output, end time and error exactly when no call added to its step before
      that result made Go move the step's slice, and still open otherwise -- whether or not
      the turn was closed or the step list grew in between. */
  lemma {:induction false} TranscriptOutputReachesItsCall(moves: Growth, lines: seq<Line>, i: nat, k: nat)
    requires FirstResult(AtomsOf(lines), i, k)
    ensures HasStep(ApplyAll(moves, START, AtomsOf(lines)[..i])) && Decided(moves, AtomsOf(lines), i, k)
    ensures Parse(moves, lines) == ApplyAll(moves, START, AtomsOf(lines)).turns
  {
    CallsHaveStep(moves, lines, i);
    ResultsDecide(moves, AtomsOf(lines), i, k);
  }

  /** In any transcript a call that gets no result, and whose id is not used again, stays open. */
  lemma {:induction false} TranscriptCallStaysOpen(moves: Growth, lines: seq<Line>, i: nat)
    requires NoResult(AtomsOf(lines), i)
    ensures HasStep(ApplyAll(moves, START, AtomsOf(lines)[..i])) && LeftOpen(moves, AtomsOf(lines), i)
    ensures Parse(moves, lines) == ApplyAll(moves, START, AtomsOf(lines)).turns
  {
    CallsHaveStep(moves, lines, i);
    NoResultLeavesOpen(moves, AtomsOf(lines), i);
  }

  /** One message asking for two tools, answered together, as Claude does it in parallel. */
  function ParallelCalls(first: string, second: string, output: Value): seq<Line> {
    [UserLine(1, "session", "turn", Bare("prompt")),
     AssistantLine(2, "message", "", "model", BlockList([ToolUse(first, "tool", Absent), ToolUse(second, "tool", Absent)]), None),
     UserLine(3, "session", "", BlockList([ToolResult(first, output, false), ToolResult(second, output, false)]))]
  }

  lemma {:induction false} AtomsSnoc(lines: seq<Line>, line: Line)
    ensures AtomsOf(lines + [line]) == AtomsOf(lines) + LineAtoms(Opened(lines), line)
  {
    assert (lines + [line])[..|lines|] == lines;
  }

  lemma {:induction false} BlockPair(a: Block, b: Block, at: int)
    ensures AllOutput([a, b], at) == OutputAtoms(a, at) + OutputAtoms(b, at)
    ensures AllResults([a, b], at) == ResultAtoms(a, at) + ResultAtoms(b, at)
    ensures HasResult([a, b]) == (a.ToolResult? || b.ToolResult?)
  {
    var pair, one := [a, b], [a];
    assert pair[..|pair| - 1] == one && one[..|one| - 1] == [];
    assert AllOutput(one, at) == OutputAtoms(a, at) && AllResults(one, at) == ResultAtoms(a, at);
    assert HasResult(one) == a.ToolResult?;
  }

  /** What comes before the first call of ParallelCalls, and between it and its result. */
  function OpeningAtoms(): seq<Atom> {
    [Note("user", "prompt", Absent, 1), OpenTurn("turn", "session", 1, "", "prompt"), OpenStep("message", 2, "model")]
  }

  function BetweenAtoms(second: string): seq<Atom> {
    [Note("assistant", "tool", Absent, 2), Call(second, "tool", "", 2, Absent), Note("assistant", "tool", Absent, 2),
     Close(2), Report(None, "model")]
  }

  lemma {:induction false} ParallelAtoms(first: string, second: string, output: Value)
    ensures AtomsOf(ParallelCalls(first, second, output)) ==
      OpeningAtoms() + [Call(first, "tool", "", 2, Absent)] + BetweenAtoms(second) +
      [Result(first, output, 3, false)] + [Result(second, output, 3, false)]
  {
    var lines := ParallelCalls(first, second, output);
    ParallelLines(first, second, output);
    FirstLine(lines[0]);
    TwoLines(lines[0], lines[1]);
    ThreeLines(lines[0], lines[1], lines[2]);
    assert lines == [lines[0], lines[1], lines[2]];
    assert OpeningAtoms()[..2] + OpeningAtoms()[2..] == OpeningAtoms();
  }

  lemma {:induction false} OneMoreLine(before: seq<Line>, line: Line, k: nat)
    requires k < |before| && IsPrompt(before[k])
    ensures AtomsOf(before + [line]) == AtomsOf(before) + LineAtoms(true, line)
  {
    AtomsSnoc(before, line);
  }

  lemma {:induction false} FirstLine(line: Line)
    ensures AtomsOf([line]) == LineAtoms(false, line)
  {
    var none: seq<Line> := [];
    AtomsSnoc(none, line);
    assert none + [line] == [line] && !Opened(none);
    assert AtomsOf(none) + LineAtoms(false, line) == LineAtoms(false, line);
  }

  lemma {:induction false} TwoLines(prompt: Line, x: Line)
    requires IsPrompt(prompt)
    ensures AtomsOf([prompt, x]) == AtomsOf([prompt]) + LineAtoms(true, x)
  {
    var one := [prompt];
    assert one[0] == prompt && one + [x] == [prompt, x];
    OneMoreLine(one, x, 0);
  }

  lemma {:induction false} ThreeLines(prompt: Line, x: Line, y: Line)
    requires IsPrompt(prompt)
    ensures AtomsOf([prompt, x, y]) == AtomsOf([prompt, x]) + LineAtoms(true, y)
  {
    var two := [prompt, x];
    assert two[0] == prompt && two + [y] == [prompt, x, y];
    OneMoreLine(two, y, 0);
  }

  lemma {:induction false} ParallelLines(first: string, second: string, output: Value)
    ensures
      var lines := ParallelCalls(first, second, output);
      && LineAtoms(false, lines[0]) == OpeningAtoms()[..2]
      && LineAtoms(true, lines[1]) == OpeningAtoms()[2..] + [Call(first, "tool", "", 2, Absent)] + BetweenAtoms(second)
      && LineAtoms(true, lines[2]) == [Result(first, output, 3, false)] + [Result(second, output, 3, false)]
  {
    CallsLine(first, second);
    ResultsLine(first, second, output);
  }

  lemma {:induction false} CallsLine(first: string, second: string)
    ensures LineAtoms(true, ParallelCalls(first, second, Absent)[1]) ==
      OpeningAtoms()[2..] + [Call(first, "tool", "", 2, Absent)] + BetweenAtoms(second)
  {
    BlockPair(ToolUse(first, "tool", Absent), ToolUse(second, "tool", Absent), 2);
  }

  lemma {:induction false} ResultsLine(first: string, second: string, output: Value)
    ensures LineAtoms(true, ParallelCalls(first, second, output)[2]) ==
      [Result(first, output, 3, false)] + [Result(second, output, 3, false)]
  {
    BlockPair(ToolResult(first, output, false), ToolResult(second, output, false), 3);
  }

  /** One turn with one step that holds n calls, and that step being written to. */
  ghost predicate Holds(s: State, n: nat) {
    HasStep(s) && |s.turns| == 1 && s.cursor == 0 && |CurrentStep(s).calls.View()| == n
  }

  lemma {:induction false} HoldsNext(moves: Growth, s: State, atom: Atom, n: nat)
    requires Holds(s, n) && (atom.Note? || atom.Close? || atom.Report? || atom.Call?)
    ensures Holds(Apply(moves, s, atom), if atom.Call? then n + 1 else n)
  {
  }

  lemma {:induction false} OpeningHolds(moves: Growth)
    ensures Holds(ApplyAll(moves, START, OpeningAtoms()), 0)
  {
    var atoms := OpeningAtoms();
    var turn := Apply(moves, Apply(moves, START, atoms[0]), atoms[1]);
    ApplyTwo(moves, START, atoms[0], atoms[1]);
    assert atoms == [atoms[0], atoms[1]] + [atoms[2]];
    ApplyAllConcat(moves, START, [atoms[0], atoms[1]], [atoms[2]]);
    ApplyOne(moves, turn, atoms[2]);
  }

  lemma {:induction false} BetweenHolds(moves: Growth, s: State, second: string, n: nat)
    requires Holds(s, n)
    ensures Holds(ApplyAll(moves, s, BetweenAtoms(second)), n + 1)
  {
    var atoms := BetweenAtoms(second);
    HoldsAll(moves, s, atoms[..1], n);
    HoldsNext(moves, ApplyAll(moves, s, atoms[..1]), atoms[1], n);
    assert atoms[..2][..1] == atoms[..1];
    HoldsAll(moves, ApplyAll(moves, s, atoms[..2]), atoms[2..], n + 1);
    assert atoms == atoms[..2] + atoms[2..];
    ApplyAllConcat(moves, s, atoms[..2], atoms[2..]);
  }

  lemma {:induction false} HoldsAll(moves: Growth, s: State, atoms: seq<Atom>, n: nat)
    requires Holds(s, n) && forall atom | atom in atoms :: atom.Note? || atom.Close? || atom.Report?
    ensures Holds(ApplyAll(moves, s, atoms), n)
    decreases |atoms|
  {
    if atoms != [] {
      HoldsAll(moves, s, atoms[..|atoms| - 1], n);
      assert atoms[|atoms| - 1] in atoms;
      HoldsNext(moves, ApplyAll(moves, s, atoms[..|atoms| - 1]), atoms[|atoms| - 1], n);
    }
  }

  /** The promise fails: when the second call moves the slice, as Go's append does going from
      one element to two, the first of two parallel calls never gets its output. */
  lemma {:induction false} FirstParallelOutputIsLost(moves: Growth, first: string, second: string, output: Value)
    requires moves(1) && first != second
    ensures
      var final := ApplyAll(moves, START, AtomsOf(ParallelCalls(first, second, output)));
      var slot := Slot(0, 0, 0);
      Valid(final, slot) && AsOpened(CallAt(final, slot), Call(first, "tool", "", 2, Absent))
  {
    var before, call, between := OpeningAtoms(), Call(first, "tool", "", 2, Absent), BetweenAtoms(second);
    ParallelAtoms(first, second, output);
    OpeningHolds(moves);
    var s := ApplyAll(moves, START, before);
    HoldsNext(moves, s, call, 0);
    BetweenHolds(moves, Apply(moves, s, call), second, 1);
    ApplyOne(moves, s, call);
    ApplyAllConcat(moves, START, before, [call]);
    ApplyAllConcat(moves, START, before + [call], between);
    OutputReachesItsCall(moves, before, call, between, Result(first, output, 3, false), [Result(second, output, 3, false)]);
    assert !Stays(moves, 0, 2);
  }
}
