// When a turn counts as finished, and what a hook that comes early loses.

module RunningTurns {
  // A turn counts as finished from its first answer on, so a hook that reads the transcript
  // while the turn goes on records it (internal/transcript/claude.go:143,
  // cmd/agynd-trace-hook/main.go:219-232).

  import opened Options
  import opened Transcript
  import opened Builder
  import opened TraceHook
  import opened Claude
  import opened ClaudeUsage
  import opened ClaudeOutputs
  import opened ClaudeTurns

  /** A turn counts as finished exactly when one of its assistant lines decodes, as long as those
      that do have a time. */
  lemma {:induction false} FinishedExactlyWhenAnswered(moves: Growth, lines: seq<Line>, t: nat)
    requires t < |Parse(moves, lines)|
    requires forall line | line in OwnLines(lines, t) && Decodes(line) :: line.at != ZERO_TIME
    ensures Finished(Parse(moves, lines)[t]) <==> exists line :: line in OwnLines(lines, t) && Decodes(line)
  {
    TurnsAreRead(moves, lines);
    assert TurnReads(Parse(moves, lines)[t], PromptLine(lines, t), OwnLines(lines, t));
    LastDecodes(OwnLines(lines, t));
  }

  lemma {:induction false} LastDecodes(own: seq<Line>)
    requires forall line | line in own && Decodes(line) :: line.at != ZERO_TIME
    ensures EndOf(own, ZERO_TIME) != ZERO_TIME <==> exists line :: line in own && Decodes(line)
  {
    if own != [] {
      var init, last := own[..|own| - 1], own[|own| - 1];
      assert own == init + [last];
      assert last in own && forall line | line in init :: line in own;
      LastDecodes(init);
    }
  }

  lemma {:induction false} ReadsOn(moves: Growth, lines: seq<Line>, line: Line)
    requires Opened(lines) && line.AssistantLine?
    ensures ApplyAll(moves, START, AtomsOf(lines + [line])) ==
      ApplyAll(moves, ApplyAll(moves, START, AtomsOf(lines)), AssistantAtoms(line))
  {
    assert (lines + [line])[..|lines|] == lines;
    ParseNext(moves, lines + [line]);
  }

  /** A prompt, and an answer under way in a step of its own. */
  function Asked(): seq<Line> {
    [UserLine(1, "session", "turn", Bare("prompt"))]
  }

  function Earlier(): seq<Line> {
    Asked() + [Answer(2, "first")]
  }

  function Later(): seq<Line> {
    Earlier() + [Answer(3, "second")]
  }

  function Answer(at: int, step: string): Line {
    AssistantLine(at, step, "", "model", BlockList([Text("text")]), None)
  }

  /** How many steps the one turn has. */
  ghost predicate OneTurn(s: State, steps: seq<string>) {
    && |s.turns| == 1 && s.turns[0].id == "turn" && |s.turns[0].steps| == |steps|
    && forall j | 0 <= j < |steps| :: s.turns[0].steps[j].id == steps[j]
  }

  lemma {:induction false} AskedIsOne(moves: Growth)
    ensures OneTurn(ApplyAll(moves, START, AtomsOf(Asked())), [])
  {
    var prompt := Asked()[0];
    FirstLine(prompt);
    ApplyTwo(moves, START, Note("user", "prompt", Absent, 1), OpenTurn("turn", "session", 1, "", "prompt"));
  }

  lemma {:induction false} AnswerAdds(moves: Growth, s: State, steps: seq<string>, line: Line)
    requires OneTurn(s, steps) && line.AssistantLine? && StepID(line) !in steps
    ensures OneTurn(ApplyAll(moves, s, AssistantAtoms(line)), steps + [StepID(line)])
  {
    var s' := ApplyAll(moves, s, AssistantAtoms(line));
    AssistantLedgers(moves, s, line);
    AtomsExtend(moves, s, AssistantAtoms(line));
    assert TurnExtends(s.turns[0], s'.turns[0]);
    assert |Ledgers(s'.turns)| == |s'.turns| && |Ledgers(s.turns)| == |s.turns|;
    assert Ledgers(s'.turns)[0] == LedgerOf(s'.turns[0]) && Ledgers(s.turns)[0] == LedgerOf(s.turns[0]);
    assert |LedgerOf(s'.turns[0]).steps| == |s'.turns[0].steps|;
    assert forall j | 0 <= j < |s'.turns[0].steps| :: LedgerOf(s'.turns[0]).steps[j].id == s'.turns[0].steps[j].id;
  }

  lemma {:induction false} LineAdds(moves: Growth, lines: seq<Line>, steps: seq<string>, line: Line)
    requires Opened(lines) && OneTurn(ApplyAll(moves, START, AtomsOf(lines)), steps)
    requires line.AssistantLine? && StepID(line) !in steps
    ensures OneTurn(ApplyAll(moves, START, AtomsOf(lines + [line])), steps + [StepID(line)])
  {
    ReadsOn(moves, lines, line);
    AnswerAdds(moves, ApplyAll(moves, START, AtomsOf(lines)), steps, line);
  }

  lemma {:induction false} EarlierReads(moves: Growth)
    ensures OneTurn(ApplyAll(moves, START, AtomsOf(Earlier())), ["first"])
  {
    assert IsPrompt(Asked()[0]);
    AskedIsOne(moves);
    LineAdds(moves, Asked(), [], Answer(2, "first"));
    assert [] + ["first"] == ["first"];
  }

  lemma {:induction false} LaterReads(moves: Growth)
    ensures OneTurn(ApplyAll(moves, START, AtomsOf(Later())), ["first", "second"])
  {
    assert IsPrompt(Earlier()[0]);
    EarlierReads(moves);
    LineAdds(moves, Earlier(), ["first"], Answer(3, "second"));
    assert ["first"] + ["second"] == ["first", "second"];
  }

  lemma {:induction false} FirstCount(prompt: Line)
    requires IsPrompt(prompt)
    ensures PromptCount([prompt]) == 1 && OwnLines([prompt], 0) == []
  {
    assert [prompt][..0] == [];
  }

  lemma {:induction false} EarlierOwn()
    ensures OwnLines(Earlier(), 0) == [Answer(2, "first")]
  {
    FirstCount(Asked()[0]);
    LineOwned(Asked(), Answer(2, "first"), 0);
  }

  lemma {:induction false} EarlierFinished(moves: Growth)
    requires |Parse(moves, Earlier())| > 0
    ensures Finished(Parse(moves, Earlier())[0])
  {
    EarlierOwn();
    FinishedExactlyWhenAnswered(moves, Earlier(), 0);
    assert Decodes(Answer(2, "first"));
  }

  /** The input that loses a step: the hook runs after the first of a turn's two answers. The
      turn counts as finished, is recorded, and is not offered when it has its second step. */
  lemma {:induction false} RunningTurnLosesStep(moves: Growth)
    ensures
      var first, second := Parse(moves, Earlier()), Parse(moves, Later());
      && |first| == 1 && |first[0].steps| == 1 && Finished(first[0])
      && |second| == 1 && |second[0].steps| == 2
      && Unsent(second, Load(AfterRun(None, Run(first, true, [])))) == []
  {
    EarlierReads(moves);
    LaterReads(moves);
    OneTurnReads(moves, Earlier(), ["first"]);
    EarlierFinished(moves);
    OneTurnReads(moves, Later(), ["first", "second"]);
    NotOffered(Parse(moves, Earlier()), Parse(moves, Later()));
  }

  lemma {:induction false} OneTurnReads(moves: Growth, lines: seq<Line>, steps: seq<string>)
    requires OneTurn(ApplyAll(moves, START, AtomsOf(lines)), steps)
    ensures
      var turns := Parse(moves, lines);
      && |turns| == 1 && turns[0].id == "turn" && |turns[0].steps| == |steps|
      && turns[0] == Current(ApplyAll(moves, START, AtomsOf(lines)))
  {
  }

  lemma {:induction false} NotOffered(first: seq<Turn>, second: seq<Turn>)
    requires |first| == 1 && first[0].id == "turn" && Finished(first[0])
    requires |second| == 1 && second[0].id == "turn"
    ensures Unsent(second, Load(AfterRun(None, Run(first, true, [])))) == []
  {
    var run := Run(first, true, []);
    assert first[0] in first && Clean("turn");
    RecordedExactlyWhenClean(None, run, first[0]);
    UnsentAre(second, Load(AfterRun(None, run)));
    assert second[0] !in Unsent(second, Load(AfterRun(None, run)));
    assert forall turn | turn in Unsent(second, Load(AfterRun(None, run))) :: turn in second;
  }
}
