// What the turns of a codex rollout say, from its lines alone (internal/transcript/codex.go): one turn
// per line that opens one, named by it, with at most one step. A turn's texts are those of its own lines
// in order, its usage the last count reported in it, and its times those of the lines that set them.

module CodexTurns {
  import opened Options
  import opened Transcript
  import opened Builder
  import opened Outlines
  import opened Codex

  // ---- What the lines say ----

  function LastSession(lines: seq<Line>): string {
    if lines == [] then ""
    else if lines[|lines| - 1].SessionMeta? then lines[|lines| - 1].id
    else LastSession(lines[..|lines| - 1])
  }

  function LastModel(lines: seq<Line>): string {
    if lines == [] then ""
    else if lines[|lines| - 1].TurnContext? && lines[|lines| - 1].model != "" then lines[|lines| - 1].model
    else LastModel(lines[..|lines| - 1])
  }

  function LastNamed(lines: seq<Line>): string {
    if lines == [] then ""
    else if lines[|lines| - 1].TurnContext? && lines[|lines| - 1].turnID != "" then lines[|lines| - 1].turnID
    else LastNamed(lines[..|lines| - 1])
  }

  predicate UserSays(line: Line) {
    line.ResponseItem? && line.item.Message? && line.item.role == "user"
  }

  /** The line opens a turn: it names another than the last named, or, where the rollout names
      none, it is a prompt. */
  predicate Opens(delimited: bool, before: seq<Line>, line: Line) {
    || (line.TurnContext? && line.turnID != "" && line.turnID != LastNamed(before))
    || (!delimited && UserSays(line))
  }

  /** Where the lines that open turns stand. */
  function Starts(delimited: bool, lines: seq<Line>): seq<nat> {
    if lines == [] then [] else
      var init := lines[..|lines| - 1];
      Starts(delimited, init) + if Opens(delimited, init, lines[|lines| - 1]) then [|init|] else []
  }

  /** The line is the model's: not a message of anyone else's. */
  predicate Output(line: Line) {
    line.ResponseItem? && (line.item.Message? ==> line.item.role == "assistant")
  }

  function Said(line: Line): string {
    if Output(line) && line.item.Message? then line.item.text else ""
  }

  function Thought(line: Line): string {
    if Output(line) && line.item.Reasoning? then line.item.text else ""
  }

  function Asked(line: Line): string {
    if UserSays(line) then line.item.text else ""
  }

  function Joined(own: seq<Line>, part: Line -> string): string {
    if own == [] then "" else Joined(own[..|own| - 1], part) + part(own[|own| - 1])
  }

  /** The counts a line reports, the total before the latest. */
  function Reported(line: Line): Option<Usage> {
    if !line.EventMsg? then None else if line.total.Some? then line.total else line.latest
  }

  /** The last counts reported. */
  function UsageOf(own: seq<Line>): Option<Usage> {
    if own == [] then None
    else if Reported(own[|own| - 1]).Some? then Reported(own[|own| - 1])
    else UsageOf(own[..|own| - 1])
  }

  /** The time of the last line of the model's, and, where prompts count, of the user's. */
  function EndOf(own: seq<Line>, prompts: bool): int {
    if own == [] then ZERO_TIME
    else if Output(own[|own| - 1]) || (prompts && UserSays(own[|own| - 1])) then own[|own| - 1].at
    else EndOf(own[..|own| - 1], prompts)
  }

  /** Where the first line of the model's stands, or past the end. */
  function FirstOutput(own: seq<Line>): (f: nat)
    ensures f <= |own| && (f < |own| ==> Output(own[f]))
    ensures forall i | 0 <= i < f :: !Output(own[i])
  {
    if own == [] then 0 else
      var init := own[..|own| - 1];
      if FirstOutput(init) < |init| then FirstOutput(init) else if Output(own[|own| - 1]) then |init| else |own|
  }

  /** head ends with the line that opened the turn; own are the lines after it up to the next. */
  ghost predicate HeadReads(turn: Turn, head: seq<Line>, own: seq<Line>)
    requires head != []
  {
    var before, opener := head[..|head| - 1], head[|head| - 1];
    && (opener.TurnContext? || UserSays(opener))
    && turn.id == (if opener.TurnContext? then opener.turnID else LastSession(before) + "@" + opener.stamp)
    && turn.sessionID == LastSession(before) && turn.startedAt == opener.at && turn.model == LastModel(head) && turn.parentID == ""
    && turn.userInput == Asked(opener) + Joined(own, Asked)
    && turn.finalOutput == Joined(own, Said) && turn.endedAt == EndOf(own, true) && turn.usage == UsageOf(own)
  }

  ghost predicate StepReads(step: Step, id: string, head: seq<Line>, own: seq<Line>) {
    var f := FirstOutput(own);
    && f < |own| && step.id == id + "@step"
    && step.startedAt == own[f].at && step.model == LastModel(head + own[..f]) && step.endedAt == EndOf(own, false)
    && step.text == Joined(own, Said) && step.reasoning == Joined(own, Thought) && step.usage == UsageOf(own[f..])
  }

  ghost predicate TurnReads(turn: Turn, head: seq<Line>, own: seq<Line>)
    requires head != []
  {
    && HeadReads(turn, head, own)
    && if FirstOutput(own) == |own| then turn.steps == [] else |turn.steps| == 1 && StepReads(turn.steps[0], turn.id, head, own)
  }

  /** The turn opened by line p, with lines up to q its own. */
  ghost predicate ReadFrom(turn: Turn, lines: seq<Line>, p: nat, q: nat) {
    p < q <= |lines| && TurnReads(turn, lines[..p + 1], lines[p + 1..q])
  }

  /** Where turn t ends: where the next one starts, or at the end of the lines. */
  function EndAt(starts: seq<nat>, n: nat, t: nat): nat {
    if t + 1 < |starts| then starts[t + 1] else n
  }

  ghost predicate ReadAt(turns: seq<Turn>, lines: seq<Line>, starts: seq<nat>) {
    && |turns| == |starts|
    && forall t | 0 <= t < |turns| :: ReadFrom(turns[t], lines, starts[t], EndAt(starts, |lines|, t))
  }

  ghost predicate AllRead(turns: seq<Turn>, delimited: bool, lines: seq<Line>) {
    ReadAt(turns, lines, Starts(delimited, lines))
  }

  // ---- The scan's variables ----

  lemma {:induction false} ScanFollows(delimited: bool, lines: seq<Line>)
    ensures
      var scan := ScanOf(delimited, lines);
      && scan.session == LastSession(lines) && scan.model == LastModel(lines) && scan.turnID == LastNamed(lines)
      && (scan.open <==> Starts(delimited, lines) != [])
  {
    if lines != [] {
      ScanFollows(delimited, lines[..|lines| - 1]);
    }
  }

  // ---- A turn takes in a line ----

  lemma {:induction false} OneMore(own: seq<Line>, line: Line)
    ensures
      var more, n := own + [line], |own|;
      && (forall part :: Joined(more, part) == Joined(own, part) + part(line))
      && UsageOf(more) == (if Reported(line).Some? then Reported(line) else UsageOf(own))
      && (forall prompts :: EndOf(more, prompts) == if Output(line) || (prompts && UserSays(line)) then line.at else EndOf(own, prompts))
      && FirstOutput(more) == (if FirstOutput(own) < n then FirstOutput(own) else if Output(line) then n else n + 1)
  {
    assert (own + [line])[..|own|] == own;
  }

  /** The open turn after a line of the model's: its step is there, says what the line says and
      ends with it. */
  ghost predicate TookOutput(turn: Turn, line: Line, model: string, context: seq<ContextItem>, after: Turn)
    requires line.ResponseItem? && |turn.steps| <= 1
  {
    && after.(finalOutput := "", steps := [], endedAt := 0) == turn.(finalOutput := "", steps := [], endedAt := 0)
    && after.finalOutput == turn.finalOutput + Said(line) && after.endedAt == line.at && |after.steps| == 1
    && var step := after.steps[0];
    && step.endedAt == line.at
    && if turn.steps == [] then
         && step.id == turn.id + "@step" && step.startedAt == line.at && step.model == model && step.usage == None
         && step.context == context && step.text == Said(line) && step.reasoning == Thought(line)
       else
         var was := turn.steps[0];
         && step.id == was.id && step.startedAt == was.startedAt && step.model == was.model && step.usage == was.usage
         && step.context == was.context && step.text == was.text + Said(line) && step.reasoning == was.reasoning + Thought(line)
  }

  lemma {:induction false} StartOfMore(own: seq<Line>, line: Line, f: nat)
    requires f <= |own|
    ensures (own + [line])[f..] == own[f..] + [line] && (own + [line])[..f] == own[..f]
  {
  }

  lemma {:induction false} SilentBefore(own: seq<Line>)
    requires FirstOutput(own) == |own|
    ensures Joined(own, Said) == "" && Joined(own, Thought) == ""
  {
    if own != [] {
      var init := own[..|own| - 1];
      assert own == init + [own[|own| - 1]];
      OneMore(init, own[|own| - 1]);
      SilentBefore(init);
    }
  }

  lemma {:induction false} FromFirst(own: seq<Line>, line: Line)
    requires Output(line)
    ensures (own + [line])[|own|..] == [line] && (own + [line])[..|own|] == own && UsageOf([line]) == None
  {
    OneMore([], line);
    assert [] + [line] == [line];
  }

  lemma {:induction false} StepBegins(step: Step, id: string, head: seq<Line>, own: seq<Line>, line: Line)
    requires FirstOutput(own) == |own| && Output(line)
    requires step.id == id + "@step" && step.startedAt == line.at && step.model == LastModel(head + own) && step.usage == None
    requires step.text == Said(line) && step.reasoning == Thought(line) && step.endedAt == line.at
    ensures StepReads(step, id, head, own + [line])
  {
    OneMore(own, line);
    SilentBefore(own);
    FromFirst(own, line);
    assert "" + Said(line) == Said(line) && "" + Thought(line) == Thought(line);
  }

  lemma {:induction false} HeadTakesOutput(turn: Turn, head: seq<Line>, own: seq<Line>, line: Line, context: seq<ContextItem>, after: Turn)
    requires head != [] && HeadReads(turn, head, own) && Output(line) && |turn.steps| <= 1
    requires TookOutput(turn, line, LastModel(head + own), context, after)
    ensures HeadReads(after, head, own + [line])
  {
    OneMore(own, line);
    assert turn.userInput + "" == turn.userInput;
    assert Joined(own, Asked) + "" == Joined(own, Asked);
  }

  lemma {:induction false} StepGoesOn(was: Step, step: Step, id: string, head: seq<Line>, own: seq<Line>, line: Line)
    requires StepReads(was, id, head, own) && Output(line)
    requires step.id == was.id && step.startedAt == was.startedAt && step.model == was.model && step.usage == was.usage
    requires step.text == was.text + Said(line) && step.reasoning == was.reasoning + Thought(line) && step.endedAt == line.at
    ensures StepReads(step, id, head, own + [line])
  {
    OneMore(own, line);
    var f := FirstOutput(own);
    StartOfMore(own, line, f);
    OneMore(own[f..], line);
  }

  lemma {:induction false} OutputTaken(turn: Turn, head: seq<Line>, own: seq<Line>, line: Line, context: seq<ContextItem>, after: Turn)
    requires head != [] && TurnReads(turn, head, own) && Output(line)
    requires TookOutput(turn, line, LastModel(head + own), context, after)
    ensures TurnReads(after, head, own + [line])
  {
    HeadTakesOutput(turn, head, own, line, context, after);
    if turn.steps == [] {
      StepBegins(after.steps[0], after.id, head, own, line);
    } else {
      StepGoesOn(turn.steps[0], after.steps[0], turn.id, head, own, line);
    }
  }

  /** After a line that is not the model's. */
  ghost predicate TookOther(turn: Turn, line: Line, after: Turn)
    requires |turn.steps| <= 1
  {
    && after.(userInput := "", steps := [], endedAt := 0, usage := None) == turn.(userInput := "", steps := [], endedAt := 0, usage := None)
    && after.userInput == turn.userInput + Asked(line)
    && after.endedAt == (if UserSays(line) then line.at else turn.endedAt)
    && after.usage == (if Reported(line).Some? then Reported(line) else turn.usage)
    && |after.steps| == |turn.steps|
    && (turn.steps != [] ==>
          var was, step := turn.steps[0], after.steps[0];
          && step.(calls := Calls([]), usage := None) == was.(calls := Calls([]), usage := None)
          && step.usage == (if Reported(line).Some? then Reported(line) else was.usage))
  }

  lemma {:induction false} StepStays(was: Step, step: Step, id: string, head: seq<Line>, own: seq<Line>, line: Line)
    requires StepReads(was, id, head, own) && !Output(line)
    requires step.(calls := Calls([]), usage := None) == was.(calls := Calls([]), usage := None)
    requires step.usage == if Reported(line).Some? then Reported(line) else was.usage
    ensures StepReads(step, id, head, own + [line])
  {
    OneMore(own, line);
    var f := FirstOutput(own);
    StartOfMore(own, line, f);
    OneMore(own[f..], line);
    assert Joined(own, Said) + "" == Joined(own, Said) && Joined(own, Thought) + "" == Joined(own, Thought);
  }

  lemma {:induction false} HeadTakesOther(turn: Turn, head: seq<Line>, own: seq<Line>, line: Line, after: Turn)
    requires head != [] && HeadReads(turn, head, own) && !Output(line) && |turn.steps| <= 1 && TookOther(turn, line, after)
    ensures HeadReads(after, head, own + [line])
  {
    OneMore(own, line);
    assert Joined(own, Said) + "" == Joined(own, Said);
    assert Asked(head[|head| - 1]) + Joined(own, Asked) + Asked(line) == Asked(head[|head| - 1]) + (Joined(own, Asked) + Asked(line));
  }

  lemma {:induction false} OtherTaken(turn: Turn, head: seq<Line>, own: seq<Line>, line: Line, after: Turn)
    requires head != [] && TurnReads(turn, head, own) && !Output(line) && TookOther(turn, line, after)
    ensures TurnReads(after, head, own + [line])
  {
    HeadTakesOther(turn, head, own, line, after);
    OneMore(own, line);
    if turn.steps != [] {
      StepStays(turn.steps[0], after.steps[0], turn.id, head, own, line);
    }
  }

  lemma {:induction false} SameOutlineReads(a: Turn, b: Turn, head: seq<Line>, own: seq<Line>)
    requires SameOutline(a, b) && head != [] && TurnReads(a, head, own)
    ensures TurnReads(b, head, own)
  {
    if a.steps != [] {
      assert a.steps[0].(calls := Calls([])) == b.steps[0].(calls := Calls([]));
    }
  }

  // ---- Lines speak ----

  lemma {:induction false} ItemSpeaks(moves: Growth, s: State, line: Line)
    requires HasStep(s) && Output(line)
    ensures
      var s' := ApplyAll(moves, s, ItemAtoms(line.item, line.at));
      HasStep(s') && s'.cursor == s.cursor && BecomesTurn(s, s', Worded(Current(s), s.cursor, Said(line), Thought(line)))
  {
    var atoms := ItemAtoms(line.item, line.at);
    if line.item.Message? || line.item.Reasoning? {
      var first := Apply(moves, s, atoms[0]);
      ApplyTwo(moves, s, atoms[0], atoms[1]);
      SayingWords(moves, s, line.item.text);
      SilentKeeps(moves, first, atoms[1]);
      ThenKept(s, first, ApplyAll(moves, s, atoms), Worded(Current(s), s.cursor, Said(line), Thought(line)));
    } else {
      SilentAllKeep(moves, s, atoms);
      WordsAddUp(Current(s), s.cursor, "", "", "", "");
      Unchanged(s);
      ThenKept(s, s, ApplyAll(moves, s, atoms), Current(s));
    }
  }

  /** Every turn but the last is the same up to its calls. */
  ghost predicate OthersSame(turns: seq<Turn>, turns': seq<Turn>) {
    |turns'| == |turns| && forall t | 0 <= t < |turns| - 1 :: SameOutline(turns[t], turns'[t])
  }

  lemma {:induction false} OutputLine(moves: Growth, s: State, line: Line, model: string)
    requires HasTurn(s) && Output(line) && |Current(s).steps| <= 1
    ensures
      var s' := ApplyAll(moves, s, [OpenOnlyStep(line.at, model)] + ItemAtoms(line.item, line.at) + [Close(line.at)]);
      OthersSame(s.turns, s'.turns) && TookOutput(Current(s), line, model, Snapshot(s.shown), Current(s'))
  {
    var opening, item, at := OpenOnlyStep(line.at, model), ItemAtoms(line.item, line.at), line.at;
    var begun := Apply(moves, s, opening);
    ApplyOne(moves, s, opening);
    var spoken := ApplyAll(moves, begun, item);
    ItemSpeaks(moves, begun, line);
    ClosingEnds(moves, spoken, at);
    var s' := Apply(moves, spoken, Close(at));
    ThenEnds(begun, spoken, s', Worded(Current(begun), begun.cursor, Said(line), Thought(line)), begun.cursor, at);
    ApplyAllConcat(moves, s, [opening], item);
    ApplyAllConcat(moves, s, [opening] + item, [Close(at)]);
    ApplyOne(moves, spoken, Close(at));
    OutputTook(s, begun, s', line, model);
  }

  lemma {:induction false} OutputTook(s: State, begun: State, s': State, line: Line, model: string)
    requires HasTurn(s) && Output(line) && |Current(s).steps| <= 1
    requires |begun.turns| == |s.turns| && begun.turns[..|s.turns| - 1] == s.turns[..|s.turns| - 1] && begun.cursor == 0
    requires Current(begun).(steps := []) == Current(s).(steps := []) && |Current(begun).steps| == 1
    requires
      var step := Current(begun).steps[0];
      if Current(s).steps == [] then
        && step.id == Current(s).id + "@step" && step.startedAt == line.at && step.model == model && step.usage == None
        && step.context == Snapshot(s.shown) && step.text == "" && step.reasoning == ""
      else step == Current(s).steps[0]
    requires BecomesTurn(begun, s', Ended(Worded(Current(begun), 0, Said(line), Thought(line)), 0, line.at))
    ensures OthersSame(s.turns, s'.turns) && TookOutput(Current(s), line, model, Snapshot(s.shown), Current(s'))
  {
    var to := Ended(Worded(Current(begun), 0, Said(line), Thought(line)), 0, line.at);
    assert to.steps[0].(calls := Calls([])) == Current(s').steps[0].(calls := Calls([]));
    forall t | 0 <= t < |s.turns| - 1 ensures SameOutline(s.turns[t], s'.turns[t]) {
      assert begun.turns[..|s.turns| - 1][t] == s.turns[..|s.turns| - 1][t];
    }
  }

  lemma {:induction false} InputTakes(moves: Growth, s: State, line: Line)
    requires HasTurn(s) && UserSays(line) && |Current(s).steps| <= 1
    ensures
      var s' := ApplyAll(moves, s, [Note("user", line.item.text, Absent, line.at), AddInput(line.item.text, line.at)]);
      OthersSame(s.turns, s'.turns) && TookOther(Current(s), line, Current(s'))
  {
    ApplyTwo(moves, s, Note("user", line.item.text, Absent, line.at), AddInput(line.item.text, line.at));
  }

  lemma {:induction false} ReportTakes(moves: Growth, s: State, line: Line)
    requires HasTurn(s) && Reported(line).Some? && |Current(s).steps| <= 1
    ensures
      var s' := ApplyAll(moves, s, [SetUsage(Reported(line).value)]);
      OthersSame(s.turns, s'.turns) && TookOther(Current(s), line, Current(s'))
  {
    ApplyOne(moves, s, SetUsage(Reported(line).value));
    assert Current(s).userInput + "" == Current(s).userInput;
  }

  lemma {:induction false} QuietTakes(moves: Growth, s: State, atoms: seq<Atom>, line: Line)
    requires HasTurn(s) && |Current(s).steps| <= 1 && !UserSays(line) && Reported(line).None?
    requires atoms == [] || (|atoms| == 1 && atoms[0].Note?)
    ensures
      var s' := ApplyAll(moves, s, atoms);
      s'.turns == s.turns && OthersSame(s.turns, s'.turns) && TookOther(Current(s), line, Current(s'))
  {
    if atoms != [] {
      assert atoms == [atoms[0]];
      ApplyOne(moves, s, atoms[0]);
    }
    assert Current(s).userInput + "" == Current(s).userInput;
  }

  /** A line that is not the model's and opens no turn. */
  lemma {:induction false} OtherLine(moves: Growth, s: State, delimited: bool, init: seq<Line>, line: Line)
    requires HasTurn(s) && !Output(line) && !Opens(delimited, init, line) && |Current(s).steps| <= 1
    requires ScanOf(delimited, init).open
    ensures
      var s' := ApplyAll(moves, s, LineAtoms(delimited, ScanOf(delimited, init), line));
      OthersSame(s.turns, s'.turns) && TookOther(Current(s), line, Current(s'))
  {
    ScanFollows(delimited, init);
    var atoms := LineAtoms(delimited, ScanOf(delimited, init), line);
    if UserSays(line) {
      assert atoms == [Note("user", line.item.text, Absent, line.at), AddInput(line.item.text, line.at)];
      InputTakes(moves, s, line);
    } else if Reported(line).Some? {
      ReportTakes(moves, s, line);
    } else {
      QuietTakes(moves, s, atoms, line);
    }
  }

  // ---- The whole rollout ----

  lemma {:induction false} StartsNext(delimited: bool, init: seq<Line>, line: Line)
    ensures Starts(delimited, init + [line]) ==
      if Opens(delimited, init, line) then Starts(delimited, init) + [|init|] else Starts(delimited, init)
  {
    assert (init + [line])[..|init|] == init;
  }

  lemma {:induction false} SlicesKept(init: seq<Line>, line: Line, p: nat, q: nat)
    requires p < q <= |init|
    ensures (init + [line])[..p + 1] == init[..p + 1] && (init + [line])[p + 1..q] == init[p + 1..q]
    ensures (init + [line])[p + 1..|init| + 1] == init[p + 1..] + [line]
  {
  }

  lemma {:induction false} Rejoin(init: seq<Line>, p: nat)
    requires p < |init|
    ensures init[..p + 1] + init[p + 1..] == init && init[p + 1..|init|] == init[p + 1..]
  {
  }

  lemma {:induction false} StillReads(turn: Turn, turn': Turn, init: seq<Line>, line: Line, p: nat, q: nat)
    requires ReadFrom(turn, init, p, q) && SameOutline(turn, turn')
    ensures ReadFrom(turn', init + [line], p, q)
  {
    SlicesKept(init, line, p, q);
    SameOutlineReads(turn, turn', init[..p + 1], init[p + 1..q]);
  }

  lemma {:induction false} ReadsOn(turn: Turn, init: seq<Line>, line: Line, p: nat)
    requires p < |init| && TurnReads(turn, init[..p + 1], init[p + 1..] + [line])
    ensures ReadFrom(turn, init + [line], p, |init| + 1)
  {
    SlicesKept(init, line, p, |init|);
  }

  lemma {:induction false} OthersStill(turns: seq<Turn>, turns': seq<Turn>, starts: seq<nat>, init: seq<Line>, line: Line)
    requires ReadAt(turns, init, starts) && OthersSame(turns, turns')
    ensures forall t | 0 <= t < |turns| - 1 :: ReadFrom(turns'[t], init + [line], starts[t], starts[t + 1])
  {
    forall t | 0 <= t < |turns| - 1 ensures ReadFrom(turns'[t], init + [line], starts[t], starts[t + 1]) {
      assert ReadFrom(turns[t], init, starts[t], EndAt(starts, |init|, t));
      StillReads(turns[t], turns'[t], init, line, starts[t], starts[t + 1]);
    }
  }

  /** The open turn takes in a line; the turns before it stand as they are. */
  lemma {:induction false} TakesIn(turns': seq<Turn>, starts: seq<nat>, init: seq<Line>, line: Line)
    requires |turns'| == |starts| > 0
    requires forall t | 0 <= t < |starts| - 1 :: ReadFrom(turns'[t], init + [line], starts[t], starts[t + 1])
    requires ReadFrom(turns'[|starts| - 1], init + [line], starts[|starts| - 1], |init| + 1)
    ensures ReadAt(turns', init + [line], starts)
  {
  }

  lemma {:induction false} OpenTakes(turns: seq<Turn>, turns': seq<Turn>, starts: seq<nat>, init: seq<Line>, line: Line)
    requires ReadAt(turns, init, starts) && turns != [] && OthersSame(turns, turns')
    requires ReadFrom(turns'[|starts| - 1], init + [line], starts[|starts| - 1], |init| + 1)
    ensures ReadAt(turns', init + [line], starts)
  {
    OthersStill(turns, turns', starts, init, line);
    TakesIn(turns', starts, init, line);
  }

  lemma {:induction false} SameOutlineSelf(turn: Turn)
    ensures SameOutline(turn, turn)
  {
  }

  lemma {:induction false} OpenedReads(turns: seq<Turn>, turn: Turn, starts: seq<nat>, init: seq<Line>, line: Line)
    requires ReadAt(turns, init, starts) && TurnReads(turn, init + [line], [])
    ensures ReadAt(turns + [turn], init + [line], starts + [|init|])
  {
    var starts', n := starts + [|init|], |init|;
    forall t | 0 <= t < |turns| ensures ReadFrom(turns[t], init + [line], starts[t], EndAt(starts', n + 1, t)) {
      SameOutlineSelf(turns[t]);
      StillReads(turns[t], turns[t], init, line, starts[t], EndAt(starts, n, t));
    }
    OpensAt(turn, init + [line]);
  }

  lemma {:induction false} OpensAt(turn: Turn, lines: seq<Line>)
    requires lines != [] && TurnReads(turn, lines, [])
    ensures ReadFrom(turn, lines, |lines| - 1, |lines|)
  {
    assert lines[..|lines| - 1 + 1] == lines && lines[|lines| - 1 + 1..|lines|] == [];
  }

  function TurnOf(init: seq<Line>, line: Line): Turn
    requires line.TurnContext? || UserSays(line)
  {
    if line.TurnContext? then
      Turn(line.turnID, LastSession(init), line.at, ZERO_TIME, if line.model != "" then line.model else LastModel(init), "", "", [], None, "")
    else
      Turn(LastSession(init) + "@" + line.stamp, LastSession(init), line.at, ZERO_TIME, LastModel(init), line.item.text, "", [], None, "")
  }

  lemma {:induction false} Adds(moves: Growth, s: State, notes: seq<Atom>, opening: Atom)
    requires notes == [] || (|notes| == 1 && notes[0].Note?)
    requires opening.OpenTurn?
    ensures
      var turns := ApplyAll(moves, s, notes + [opening]).turns;
      && |turns| == |s.turns| + 1 && turns[..|s.turns|] == s.turns
      && turns[|s.turns|] == Turn(opening.id, opening.sessionID, opening.at, ZERO_TIME, opening.model, opening.input, "", [], None, "")
  {
    if notes == [] {
      assert notes + [opening] == [opening];
      ApplyOne(moves, s, opening);
    } else {
      assert notes + [opening] == [notes[0], opening];
      ApplyTwo(moves, s, notes[0], opening);
    }
  }

  /** What an opening line adds: a turn that holds nothing but what the line says. */
  lemma {:induction false} NewTurn(moves: Growth, s: State, delimited: bool, init: seq<Line>, line: Line)
    requires Opens(delimited, init, line)
    ensures
      var turns := ApplyAll(moves, s, LineAtoms(delimited, ScanOf(delimited, init), line)).turns;
      |turns| == |s.turns| + 1 && turns[..|s.turns|] == s.turns && turns[|s.turns|] == TurnOf(init, line)
  {
    ScanFollows(delimited, init);
    var atoms := LineAtoms(delimited, ScanOf(delimited, init), line);
    var opening := OpenTurn(TurnOf(init, line).id, LastSession(init), line.at, TurnOf(init, line).model, TurnOf(init, line).userInput);
    if line.TurnContext? {
      assert atoms == [opening];
      Adds(moves, s, [], opening);
      assert [] + [opening] == [opening];
    } else {
      var note := Note("user", line.item.text, Absent, line.at);
      assert atoms == [note] + [opening];
      Adds(moves, s, [note], opening);
    }
  }

  lemma {:induction false} NewTurnReads(delimited: bool, init: seq<Line>, line: Line)
    requires Opens(delimited, init, line)
    ensures TurnReads(TurnOf(init, line), init + [line], [])
  {
    assert (init + [line])[..|init|] == init;
    assert Asked(line) + Joined([], Asked) == Asked(line);
  }

  lemma {:induction false} OpeningReads(moves: Growth, s: State, delimited: bool, init: seq<Line>, line: Line)
    requires AllRead(s.turns, delimited, init) && Opens(delimited, init, line)
    ensures AllRead(ApplyAll(moves, s, LineAtoms(delimited, ScanOf(delimited, init), line)).turns, delimited, init + [line])
  {
    var turns := ApplyAll(moves, s, LineAtoms(delimited, ScanOf(delimited, init), line)).turns;
    NewTurn(moves, s, delimited, init, line);
    var turn := turns[|s.turns|];
    NewTurnReads(delimited, init, line);
    assert turns == s.turns + [turn];
    StartsNext(delimited, init, line);
    OpenedReads(s.turns, turn, Starts(delimited, init), init, line);
  }

  lemma {:induction false} NothingOpen(moves: Growth, s: State, delimited: bool, init: seq<Line>, line: Line)
    requires s.turns == [] && !ScanOf(delimited, init).open && !Opens(delimited, init, line)
    ensures ApplyAll(moves, s, LineAtoms(delimited, ScanOf(delimited, init), line)).turns == []
  {
    ScanFollows(delimited, init);
    var atoms := LineAtoms(delimited, ScanOf(delimited, init), line);
    if |atoms| == 1 {
      ApplyOne(moves, s, atoms[0]);
    }
  }

  lemma {:induction false} LastReads(turns: seq<Turn>, init: seq<Line>, starts: seq<nat>)
    requires ReadAt(turns, init, starts) && turns != []
    ensures ReadFrom(turns[|starts| - 1], init, starts[|starts| - 1], |init|)
  {
    assert EndAt(starts, |init|, |starts| - 1) == |init|;
  }

  lemma {:induction false} LastTakes(moves: Growth, s: State, delimited: bool, init: seq<Line>, line: Line, starts: seq<nat>)
    requires !Opens(delimited, init, line) && ScanOf(delimited, init).open && |s.turns| == |starts| > 0
    requires ReadFrom(s.turns[|starts| - 1], init, starts[|starts| - 1], |init|)
    ensures
      var turns := ApplyAll(moves, s, LineAtoms(delimited, ScanOf(delimited, init), line)).turns;
      OthersSame(s.turns, turns) && ReadFrom(turns[|starts| - 1], init + [line], starts[|starts| - 1], |init| + 1)
  {
    var p := starts[|starts| - 1];
    var s' := ApplyAll(moves, s, LineAtoms(delimited, ScanOf(delimited, init), line));
    Rejoin(init, p);
    TurnTakes(moves, s, delimited, init, line, init[..p + 1], init[p + 1..]);
    ReadsOn(Current(s'), init, line, p);
  }

  lemma {:induction false} OpenReads(moves: Growth, s: State, delimited: bool, init: seq<Line>, line: Line)
    requires AllRead(s.turns, delimited, init) && !Opens(delimited, init, line) && HasTurn(s)
    ensures AllRead(ApplyAll(moves, s, LineAtoms(delimited, ScanOf(delimited, init), line)).turns, delimited, init + [line])
  {
    ScanFollows(delimited, init);
    var starts := Starts(delimited, init);
    LastReads(s.turns, init, starts);
    LastTakes(moves, s, delimited, init, line, starts);
    StartsNext(delimited, init, line);
    OpenTakes(s.turns, ApplyAll(moves, s, LineAtoms(delimited, ScanOf(delimited, init), line)).turns, starts, init, line);
  }

  /** What a line that opens no turn does to the open one. */
  lemma {:induction false} LineTaken(moves: Growth, s: State, delimited: bool, init: seq<Line>, line: Line)
    requires HasTurn(s) && !Opens(delimited, init, line) && ScanOf(delimited, init).open && |Current(s).steps| <= 1
    ensures
      var s' := ApplyAll(moves, s, LineAtoms(delimited, ScanOf(delimited, init), line));
      && OthersSame(s.turns, s'.turns)
      && (Output(line) ==> TookOutput(Current(s), line, LastModel(init), Snapshot(s.shown), Current(s')))
      && (!Output(line) ==> TookOther(Current(s), line, Current(s')))
  {
    ScanFollows(delimited, init);
    if Output(line) {
      OutputLine(moves, s, line, ScanOf(delimited, init).model);
    } else {
      OtherLine(moves, s, delimited, init, line);
    }
  }

  lemma {:induction false} TurnTakes(moves: Growth, s: State, delimited: bool, init: seq<Line>, line: Line, head: seq<Line>, own: seq<Line>)
    requires HasTurn(s) && !Opens(delimited, init, line) && ScanOf(delimited, init).open
    requires head != [] && head + own == init && TurnReads(Current(s), head, own)
    ensures
      var s' := ApplyAll(moves, s, LineAtoms(delimited, ScanOf(delimited, init), line));
      OthersSame(s.turns, s'.turns) && TurnReads(Current(s'), head, own + [line])
  {
    var s' := ApplyAll(moves, s, LineAtoms(delimited, ScanOf(delimited, init), line));
    LineTaken(moves, s, delimited, init, line);
    if Output(line) {
      OutputTaken(Current(s), head, own, line, Snapshot(s.shown), Current(s'));
    } else {
      OtherTaken(Current(s), head, own, line, Current(s'));
    }
  }

  lemma {:induction false} LineReads(moves: Growth, s: State, delimited: bool, init: seq<Line>, line: Line)
    requires AllRead(s.turns, delimited, init)
    ensures AllRead(ApplyAll(moves, s, LineAtoms(delimited, ScanOf(delimited, init), line)).turns, delimited, init + [line])
  {
    if Opens(delimited, init, line) {
      OpeningReads(moves, s, delimited, init, line);
    } else if HasTurn(s) {
      OpenReads(moves, s, delimited, init, line);
    } else {
      ScanFollows(delimited, init);
      NothingOpen(moves, s, delimited, init, line);
      StartsNext(delimited, init, line);
    }
  }

  lemma {:induction false} LastLineReads(moves: Growth, s: State, delimited: bool, lines: seq<Line>)
    requires lines != [] && AllRead(s.turns, delimited, lines[..|lines| - 1])
    ensures AllRead(ApplyAll(moves, s, LineAtoms(delimited, ScanOf(delimited, lines[..|lines| - 1]), lines[|lines| - 1])).turns, delimited, lines)
  {
    var init, line := lines[..|lines| - 1], lines[|lines| - 1];
    assert init + [line] == lines;
    LineReads(moves, s, delimited, init, line);
  }

  lemma {:induction false} NextLine(moves: Growth, delimited: bool, lines: seq<Line>)
    requires lines != []
    ensures
      var init := lines[..|lines| - 1];
      ApplyAll(moves, START, AtomsOf(delimited, lines)) ==
        ApplyAll(moves, ApplyAll(moves, START, AtomsOf(delimited, init)), LineAtoms(delimited, ScanOf(delimited, init), lines[|lines| - 1]))
  {
    var init := lines[..|lines| - 1];
    ApplyAllConcat(moves, START, AtomsOf(delimited, init), LineAtoms(delimited, ScanOf(delimited, init), lines[|lines| - 1]));
  }

  lemma {:induction false} LinesRead(moves: Growth, delimited: bool, lines: seq<Line>)
    ensures AllRead(ApplyAll(moves, START, AtomsOf(delimited, lines)).turns, delimited, lines)
  {
    if lines != [] {
      var init, line := lines[..|lines| - 1], lines[|lines| - 1];
      LinesRead(moves, delimited, init);
      NextLine(moves, delimited, lines);
      LastLineReads(moves, ApplyAll(moves, START, AtomsOf(delimited, init)), delimited, lines);
    }
  }

  /** A rollout has one turn for each line that opens one, under the id that line gives it. Its
      input is what the user says in it, its output and its one step's texts what the model says,
      joined in order; its usage is the last count reported in it, the total before the latest,
      and its step's the last since the step began. */
  lemma {:induction false} TurnsAreRead(moves: Growth, lines: seq<Line>)
    ensures AllRead(Parse(moves, lines), HasTurnIDs(lines), lines)
  {
    LinesRead(moves, HasTurnIDs(lines), lines);
  }
}
