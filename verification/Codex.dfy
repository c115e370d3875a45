// Codex's rollout file (internal/transcript/codex.go), line by line as decoded.

module Codex {
  import opened Options
  import opened Transcript
  import opened Builder
  import ToolOutputs

  datatype Item =
    | Message(role: string, text: string)
    | Reasoning(text: string)
    | ToolCallItem(callID: string, name: string, tool: string, server: string, arguments: Value)
    | ToolOutput(callID: string, output: Value, success: Option<bool>)
    | OtherItem

  /** Garbage is a line or payload that does not parse. stamp is the line's time as RFC 3339
      spells it; instructions is empty when the session names none. */
  datatype Line =
    | Garbage
    | SessionMeta(at: int, id: string, instructions: string)
    | TurnContext(at: int, model: string, turnID: string)
    | ResponseItem(at: int, stamp: string, item: Item)
    | EventMsg(total: Option<Usage>, latest: Option<Usage>)

  /** The scan's variables besides the turns: open says a turn is in flight. */
  datatype Scan = Scan(session: string, model: string, turnID: string, open: bool)

  const FRESH := Scan("", "", "", false)

  predicate IsPrompt(line: Line) {
    line.ResponseItem? && line.item.Message? && line.item.role == "user"
  }

  /** The line names a turn other than the one named last. */
  predicate Delimits(scan: Scan, line: Line) {
    line.TurnContext? && line.turnID != "" && line.turnID != scan.turnID
  }

  function ModelAfter(scan: Scan, line: Line): string {
    if line.TurnContext? && line.model != "" then line.model else scan.model
  }

  function Next(delimited: bool, scan: Scan, line: Line): Scan {
    Scan(if line.SessionMeta? then line.id else scan.session,
         ModelAfter(scan, line),
         if Delimits(scan, line) then line.turnID else scan.turnID,
         scan.open || Delimits(scan, line) || (IsPrompt(line) && !delimited))
  }

  /** What the model wrote, called, or was answered, within the turn's one step. */
  function ItemAtoms(item: Item, at: int): seq<Atom> {
    match item
    case Message(role, text) =>
      [Say(text), Note(if role == "" then "assistant" else role, text, Absent, at)]
    case Reasoning(text) => [Reason(text), Note("assistant", text, Absent, at)]
    case ToolCallItem(callID, name, tool, server, arguments) =>
      var called := if name == "" then tool else name;
      [Call(callID, called, server, at, arguments), Note("assistant", called, arguments, at)]
    case ToolOutput(callID, output, success) => [Result(callID, output, at, success == Some(false))]
    case OtherItem => []
  }

  /** What was put in front of the model, by the user or otherwise. */
  function ShownAtoms(delimited: bool, scan: Scan, line: Line): seq<Atom>
    requires line.ResponseItem? && line.item.Message?
  {
    var text := line.item.text;
    [Note(line.item.role, text, Absent, line.at)] +
    if line.item.role != "user" then []
    else if !delimited then
      [OpenTurn(scan.session + "@" + line.stamp, scan.session, line.at, scan.model, text)]
    else if scan.open then [AddInput(text, line.at)]
    else []
  }

  function LineAtoms(delimited: bool, scan: Scan, line: Line): seq<Atom> {
    match line
    case Garbage => []
    case SessionMeta(at, _, instructions) =>
      if instructions == "" then [] else [Note("system", instructions, Absent, at)]
    case TurnContext(at, _, turnID) =>
      if Delimits(scan, line) then [OpenTurn(turnID, scan.session, at, ModelAfter(scan, line), "")] else []
    case ResponseItem(at, _, item) =>
      if item.Message? && item.role != "assistant" then ShownAtoms(delimited, scan, line)
      else if !scan.open then []
      else [OpenOnlyStep(at, scan.model)] + ItemAtoms(item, at) + [Close(at)]
    case EventMsg(total, latest) =>
      if !scan.open then []
      else if total.Some? then [SetUsage(total.value)]
      else if latest.Some? then [SetUsage(latest.value)]
      else []
  }

  function ScanOf(delimited: bool, lines: seq<Line>): Scan {
    if lines == [] then FRESH else Next(delimited, ScanOf(delimited, lines[..|lines| - 1]), lines[|lines| - 1])
  }

  function AtomsOf(delimited: bool, lines: seq<Line>): seq<Atom> {
    if lines == [] then [] else
      var init := lines[..|lines| - 1];
      AtomsOf(delimited, init) + LineAtoms(delimited, ScanOf(delimited, init), lines[|lines| - 1])
  }

  /** Whether the rollout names its turns anywhere. */
  predicate HasTurnIDs(lines: seq<Line>) {
    exists i :: 0 <= i < |lines| && lines[i].TurnContext? && lines[i].turnID != ""
  }

  function Parse(moves: Growth, lines: seq<Line>): seq<Turn> {
    ApplyAll(moves, START, AtomsOf(HasTurnIDs(lines), lines)).turns
  }

  // ---- The scan ----

  method HasCodexTurnIDs(lines: seq<Line>) returns (named: bool)
    ensures named == HasTurnIDs(lines)
  {
    for i := 0 to |lines|
      invariant forall k | 0 <= k < i :: !(lines[k].TurnContext? && lines[k].turnID != "")
    {
      if lines[i].TurnContext? && lines[i].turnID != "" {
        return true;
      }
    }
    return false;
  }

  method ApplyItem(a: Assembly, item: Item, at: int)
    requires a.open && a.cursor < |a.current.steps|
    modifies a, a.seen
    ensures a.open && a.cursor < |a.current.steps|
    ensures a.View() == ApplyAll(a.moves, old(a.View()), ItemAtoms(item, at))
  {
    ghost var s := a.View();
    match item {
      case Message(role, text) =>
        a.AddText(text);
        var shown := if role == "" then "assistant" else role;
        a.AddNote(shown, text, Absent, at);
        ApplyTwo(a.moves, s, Say(text), Note(shown, text, Absent, at));
      case Reasoning(text) =>
        a.AddReasoning(text);
        a.AddNote("assistant", text, Absent, at);
        ApplyTwo(a.moves, s, Reason(text), Note("assistant", text, Absent, at));
      case ToolCallItem(callID, name, tool, server, arguments) =>
        var called := name;
        if called == "" {
          called := tool;
        }
        a.AppendToolCall(callID, called, server, at, arguments);
        a.AddNote("assistant", called, arguments, at);
        ApplyTwo(a.moves, s, Call(callID, called, server, at, arguments), Note("assistant", called, arguments, at));
      case ToolOutput(callID, output, success) =>
        a.ApplyResult(callID, output, at, success == Some(false));
        ApplyOne(a.moves, s, Result(callID, output, at, success == Some(false)));
      case OtherItem =>
    }
  }

  method ApplyCodexItem(a: Assembly, line: Line, delimited: bool, scan: Scan)
    requires line.ResponseItem? && scan.open == a.open
    modifies a, a.seen
    ensures a.View() == ApplyAll(a.moves, old(a.View()), LineAtoms(delimited, scan, line))
    ensures a.open == Next(delimited, scan, line).open
  {
    if line.item.Message? && line.item.role != "assistant" {
      ApplyShown(a, line, delimited, scan);
      return;
    }
    if a.open {
      ApplyOutput(a, line.item, line.at, scan.model);
    }
  }

  /** A message put in front of the model. */
  method ApplyShown(a: Assembly, line: Line, delimited: bool, scan: Scan)
    requires line.ResponseItem? && line.item.Message? && line.item.role != "assistant" && scan.open == a.open
    modifies a, a.seen
    ensures a.View() == ApplyAll(a.moves, old(a.View()), ShownAtoms(delimited, scan, line))
    ensures a.open == (old(a.open) || (line.item.role == "user" && !delimited))
  {
    ghost var s := a.View();
    var item, at := line.item, line.at;
    a.AddNote(item.role, item.text, Absent, at);
    ApplyOne(a.moves, s, Note(item.role, item.text, Absent, at));
    if item.role != "user" {
      return;
    }
    if !delimited {
      var id := scan.session + "@" + line.stamp;
      a.CloseAndOpen(id, scan.session, at, scan.model, item.text);
      ApplyTwo(a.moves, s, Note(item.role, item.text, Absent, at), OpenTurn(id, scan.session, at, scan.model, item.text));
    } else if a.open {
      a.AddToInput(item.text, at);
      ApplyTwo(a.moves, s, Note(item.role, item.text, Absent, at), AddInput(item.text, at));
    }
  }

  /** What the model wrote, called or was answered, in the open turn's one step. */
  method ApplyOutput(a: Assembly, item: Item, at: int, model: string)
    requires a.open
    modifies a, a.seen
    ensures a.View() == ApplyAll(a.moves, old(a.View()), [OpenOnlyStep(at, model)] + ItemAtoms(item, at) + [Close(at)])
    ensures a.open
  {
    ghost var s := a.View();
    a.OnlyStep(at, model);
    ApplyOne(a.moves, s, OpenOnlyStep(at, model));
    ApplyItem(a, item, at);
    ghost var filled := a.View();
    a.EndStep(at);
    ApplyOne(a.moves, filled, Close(at));
    ApplyAllConcat(a.moves, s, [OpenOnlyStep(at, model)], ItemAtoms(item, at));
    ApplyAllConcat(a.moves, s, [OpenOnlyStep(at, model)] + ItemAtoms(item, at), [Close(at)]);
  }

  method HandleLine(a: Assembly, line: Line, delimited: bool, scan: Scan) returns (next: Scan)
    requires scan.open == a.open
    modifies a, a.seen
    ensures a.View() == ApplyAll(a.moves, old(a.View()), LineAtoms(delimited, scan, line))
    ensures next == Next(delimited, scan, line) && next.open == a.open
  {
    ghost var s := a.View();
    next := scan;
    match line {
      case Garbage =>
      case SessionMeta(at, id, instructions) =>
        next := next.(session := id);
        if instructions != "" {
          a.AddNote("system", instructions, Absent, at);
          ApplyOne(a.moves, s, Note("system", instructions, Absent, at));
        }
      case TurnContext(at, model, turnID) =>
        if model != "" {
          next := next.(model := model);
        }
        if turnID != "" && turnID != next.turnID {
          next := next.(turnID := turnID, open := true);
          a.CloseAndOpen(turnID, next.session, at, next.model, "");
          ApplyOne(a.moves, s, OpenTurn(turnID, next.session, at, next.model, ""));
        }
      case ResponseItem(_, _, _) =>
        ApplyCodexItem(a, line, delimited, scan);
        next := next.(open := a.open);
      case EventMsg(total, latest) =>
        var usage := if total.Some? then total else latest;
        if a.open && usage.Some? {
          a.OverwriteUsage(usage.value);
          ApplyOne(a.moves, s, SetUsage(usage.value));
        }
    }
  }

  /** Line i, after those before it. */
  method ReadLine(a: Assembly, lines: seq<Line>, i: nat, delimited: bool, scan: Scan) returns (next: Scan)
    requires i < |lines| && scan == ScanOf(delimited, lines[..i]) && scan.open == a.open
    requires a.View() == ApplyAll(a.moves, START, AtomsOf(delimited, lines[..i]))
    modifies a, a.seen
    ensures next == ScanOf(delimited, lines[..i + 1]) && next.open == a.open
    ensures a.View() == ApplyAll(a.moves, START, AtomsOf(delimited, lines[..i + 1]))
  {
    LineRead(a.moves, delimited, lines, i);
    next := HandleLine(a, lines[i], delimited, scan);
  }

  method ParseCodex(moves: Growth, lines: seq<Line>) returns (turns: seq<Turn>)
    ensures turns == Parse(moves, lines)
  {
    var delimited := HasCodexTurnIDs(lines);
    var a := new Assembly(moves);
    var scan := FRESH;
    var i := 0;
    assert lines[..i] == [] && AtomsOf(delimited, lines[..i]) == [];
    while i < |lines|
      invariant 0 <= i <= |lines| && a.moves == moves && fresh(a) && fresh(a.seen)
      invariant scan == ScanOf(delimited, lines[..i]) && scan.open == a.open
      invariant a.View() == ApplyAll(moves, START, AtomsOf(delimited, lines[..i]))
    {
      scan := ReadLine(a, lines, i, delimited, scan);
      i := i + 1;
    }
    assert lines[..i] == lines;
    turns := if a.open then a.turns + [a.current] else a.turns;
  }

  lemma {:induction false} LineRead(moves: Growth, delimited: bool, lines: seq<Line>, i: nat)
    requires i < |lines|
    ensures
      var before, scan := AtomsOf(delimited, lines[..i]), ScanOf(delimited, lines[..i]);
      && ScanOf(delimited, lines[..i + 1]) == Next(delimited, scan, lines[i])
      && ApplyAll(moves, START, AtomsOf(delimited, lines[..i + 1])) ==
           ApplyAll(moves, ApplyAll(moves, START, before), LineAtoms(delimited, scan, lines[i]))
  {
    assert lines[..i + 1][..i] == lines[..i];
    ApplyAllConcat(moves, START, AtomsOf(delimited, lines[..i]), LineAtoms(delimited, ScanOf(delimited, lines[..i]), lines[i]));
  }

  // ---- Stability under growth ----

  lemma {:induction false} AtomsConcat(delimited: bool, a: seq<Line>, b: seq<Line>)
    ensures AtomsOf(delimited, a) <= AtomsOf(delimited, a + b)
    decreases |b|
  {
    if b == [] {
      assert a + b == a;
    } else {
      assert (a + b)[..|a + b| - 1] == a + b[..|b| - 1];
      AtomsConcat(delimited, a, b[..|b| - 1]);
    }
  }

  /** How a rollout may have grown when it is read again. */
  ghost predicate Grown(earlier: seq<Line>, later: seq<Line>) {
    earlier <= later || (earlier != [] && earlier[|earlier| - 1].Garbage? && earlier[..|earlier| - 1] <= later)
  }

  /** Stability under growth, as long as both readings agree on whether the rollout names its
      turns. */
  lemma {:induction false} StableUnderGrowth(moves: Growth, earlier: seq<Line>, later: seq<Line>)
    requires Grown(earlier, later) && HasTurnIDs(earlier) == HasTurnIDs(later)
    ensures Extends(Parse(moves, earlier), Parse(moves, later))
  {
    var delimited := HasTurnIDs(later);
    GrownAtoms(delimited, earlier, later);
    MoreAtomsExtend(moves, AtomsOf(delimited, earlier), AtomsOf(delimited, later));
  }

  /** A line that does not parse adds nothing. */
  lemma {:induction false} TornAddsNothing(delimited: bool, lines: seq<Line>)
    requires lines != [] && lines[|lines| - 1].Garbage?
    ensures AtomsOf(delimited, lines) == AtomsOf(delimited, lines[..|lines| - 1])
  {
    assert AtomsOf(delimited, lines[..|lines| - 1]) + [] == AtomsOf(delimited, lines[..|lines| - 1]);
  }

  lemma {:induction false} GrownAtoms(delimited: bool, earlier: seq<Line>, later: seq<Line>)
    requires Grown(earlier, later)
    ensures AtomsOf(delimited, earlier) <= AtomsOf(delimited, later)
  {
    var whole := if earlier <= later then earlier else earlier[..|earlier| - 1];
    if whole != earlier { TornAddsNothing(delimited, earlier); }
    assert later == whole + later[|whole|..];
    AtomsConcat(delimited, whole, later[|whole|..]);
  }

  /** The ids of the turns the atoms open, in order. */
  function OpenedIDs(atoms: seq<Atom>): seq<string> {
    if atoms == [] then [] else
      OpenedIDs(atoms[..|atoms| - 1]) + if atoms[|atoms| - 1].OpenTurn? then [atoms[|atoms| - 1].id] else []
  }

  ghost predicate HaveIDs(turns: seq<Turn>, ids: seq<string>) {
    |turns| == |ids| && forall i | 0 <= i < |turns| :: turns[i].id == ids[i]
  }

  lemma {:induction false} TurnsAreOpened(moves: Growth, atoms: seq<Atom>)
    ensures HaveIDs(ApplyAll(moves, START, atoms).turns, OpenedIDs(atoms))
  {
    if atoms != [] {
      var init, last := atoms[..|atoms| - 1], atoms[|atoms| - 1];
      TurnsAreOpened(moves, init);
      var s := ApplyAll(moves, START, init);
      AtomExtends(moves, s, last);
      TurnCount(moves, s, last);
    }
  }

  lemma {:induction false} TurnCount(moves: Growth, s: State, atom: Atom)
    ensures
      var turns := Apply(moves, s, atom).turns;
      |turns| == |s.turns| + (if atom.OpenTurn? then 1 else 0) &&
      (atom.OpenTurn? ==> turns[|s.turns|].id == atom.id)
  {
  }

  lemma {:induction false} OpenedConcat(a: seq<Atom>, b: seq<Atom>)
    ensures OpenedIDs(a + b) == OpenedIDs(a) + OpenedIDs(b)
    decreases |b|
  {
    if b == [] {
      assert a + b == a;
    } else {
      assert (a + b)[..|a + b| - 1] == a + b[..|b| - 1];
      OpenedConcat(a, b[..|b| - 1]);
    }
  }

  predicate Named(lines: seq<Line>, id: string) {
    exists i :: 0 <= i < |lines| && lines[i].TurnContext? && lines[i].turnID == id
  }

  lemma {:induction false} LineOpens(delimited: bool, scan: Scan, line: Line)
    ensures OpenedIDs(LineAtoms(delimited, scan, line)) ==
      if Delimits(scan, line) then [line.turnID]
      else if IsPrompt(line) && !delimited then [scan.session + "@" + line.stamp]
      else []
  {
    if line.ResponseItem? && !(line.item.Message? && line.item.role != "assistant") {
      NoneOpened(LineAtoms(delimited, scan, line));
    } else if line.ResponseItem? {
      ShownOpens(delimited, scan, line);
    } else {
      var atoms := LineAtoms(delimited, scan, line);
      if |atoms| == 1 {
        assert atoms == [atoms[0]];
        OneOpens(atoms[0]);
      }
    }
  }

  lemma {:induction false} ShownOpens(delimited: bool, scan: Scan, line: Line)
    requires line.ResponseItem? && line.item.Message? && line.item.role != "assistant"
    ensures OpenedIDs(ShownAtoms(delimited, scan, line)) == if IsPrompt(line) && !delimited then [scan.session + "@" + line.stamp] else []
  {
    var atoms := ShownAtoms(delimited, scan, line);
    if |atoms| == 2 {
      assert atoms == [atoms[0], atoms[1]];
      PairOpens(atoms[0], atoms[1]);
    } else if |atoms| == 1 {
      assert atoms == [atoms[0]];
      OneOpens(atoms[0]);
    }
  }

  lemma {:induction false} OneOpens(atom: Atom)
    ensures OpenedIDs([atom]) == if atom.OpenTurn? then [atom.id] else []
  {
    var one := [atom];
    assert one[..|one| - 1] == [];
  }

  lemma {:induction false} PairOpens(first: Atom, second: Atom)
    ensures OpenedIDs([first, second]) ==
      (if first.OpenTurn? then [first.id] else []) + if second.OpenTurn? then [second.id] else []
  {
    var two := [first, second];
    assert two[..|two| - 1] == [first];
    OneOpens(first);
  }

  lemma {:induction false} NoneOpened(atoms: seq<Atom>)
    requires forall atom | atom in atoms :: !atom.OpenTurn?
    ensures OpenedIDs(atoms) == []
  {
    if atoms != [] {
      assert atoms[|atoms| - 1] in atoms;
      NoneOpened(atoms[..|atoms| - 1]);
    }
  }

  /** A rollout read by its delimiters yields only turns it names. */
  lemma {:induction false} DelimitedTurnsAreNamed(lines: seq<Line>)
    ensures forall id | id in OpenedIDs(AtomsOf(true, lines)) :: Named(lines, id)
  {
    if lines != [] {
      var init, last := lines[..|lines| - 1], lines[|lines| - 1];
      DelimitedTurnsAreNamed(init);
      OpenedConcat(AtomsOf(true, init), LineAtoms(true, ScanOf(true, init), last));
      LineOpens(true, ScanOf(true, init), last);
      forall id | id in OpenedIDs(AtomsOf(true, lines)) ensures Named(lines, id) {
        if id in OpenedIDs(AtomsOf(true, init)) {
          var i :| 0 <= i < |init| && init[i].TurnContext? && init[i].turnID == id;
          assert lines[i].turnID == id;
        } else {
          assert lines[|lines| - 1].turnID == id;
        }
      }
    }
  }

  /** When growth is stable, exactly: as long as no delimiter names a turn the way a prompt
      would have, reading on keeps what was read if and only if both readings agree on whether
      turns are named, or the first found no turn. */
  lemma {:induction false} StableExactlyWhenFlagsAgree(moves: Growth, earlier: seq<Line>, later: seq<Line>)
    requires Grown(earlier, later)
    requires forall turn | turn in Parse(moves, earlier) && !HasTurnIDs(earlier) :: !Named(later, turn.id)
    ensures Extends(Parse(moves, earlier), Parse(moves, later)) <==>
      HasTurnIDs(earlier) == HasTurnIDs(later) || Parse(moves, earlier) == []
  {
    if HasTurnIDs(earlier) == HasTurnIDs(later) {
      StableUnderGrowth(moves, earlier, later);
    } else if Parse(moves, earlier) != [] {
      NamesStay(earlier, later);
      var first := Parse(moves, earlier)[0];
      assert first in Parse(moves, earlier);
      ParsedTurnsAreNamed(moves, later);
      assert |Parse(moves, later)| > 0 ==> Parse(moves, later)[0].id != first.id;
    }
  }

  /** A rollout read before its first delimiter was written: the turn exported then is gone. */
  lemma {:induction false} LateTurnIDsLoseTurns(moves: Growth)
    ensures
      var earlier := [ResponseItem(1, "stamp", Message("user", "prompt"))];
      var later := earlier + [TurnContext(2, "model", "turn")];
      |Parse(moves, earlier)| == 1 && !Extends(Parse(moves, earlier), Parse(moves, later))
  {
    var prompt := ResponseItem(1, "stamp", Message("user", "prompt"));
    var earlier, later := [prompt], [prompt, TurnContext(2, "model", "turn")];
    assert earlier + [later[1]] == later;
    var none := earlier[..|earlier| - 1];
    assert none == [] && ScanOf(false, none) == FRESH && AtomsOf(false, none) == [];
    var atoms := AtomsOf(false, earlier);
    var note, opening := Note("user", "prompt", Absent, 1), OpenTurn("" + "@" + "stamp", "", 1, "", "prompt");
    assert LineAtoms(false, FRESH, prompt) == [note] + [opening];
    assert atoms == [] + LineAtoms(false, FRESH, prompt) == [note, opening];
    PairOpens(note, opening);
    TurnsAreOpened(moves, atoms);
    assert later[1].TurnContext? && later[1].turnID == "turn";
    assert HasTurnIDs(later) && !HasTurnIDs(earlier);
    StableExactlyWhenFlagsAgree(moves, earlier, later);
  }

  lemma {:induction false} ParsedTurnsAreNamed(moves: Growth, lines: seq<Line>)
    requires HasTurnIDs(lines)
    ensures forall i | 0 <= i < |Parse(moves, lines)| :: Named(lines, Parse(moves, lines)[i].id)
  {
    TurnsAreOpened(moves, AtomsOf(true, lines));
    DelimitedTurnsAreNamed(lines);
    forall i | 0 <= i < |Parse(moves, lines)| ensures Named(lines, Parse(moves, lines)[i].id) {
      assert OpenedIDs(AtomsOf(true, lines))[i] in OpenedIDs(AtomsOf(true, lines));
    }
  }

  lemma {:induction false} NamesStay(earlier: seq<Line>, later: seq<Line>)
    requires Grown(earlier, later)
    ensures HasTurnIDs(earlier) ==> HasTurnIDs(later)
  {
    if HasTurnIDs(earlier) {
      var i :| 0 <= i < |earlier| && earlier[i].TurnContext? && earlier[i].turnID != "";
      assert later[i].turnID != "";
    }
  }

  /** The turn in flight is there while the scan says one is. */
  lemma {:induction false} OpenHasTurn(moves: Growth, delimited: bool, lines: seq<Line>)
    ensures ScanOf(delimited, lines).open ==> HasTurn(ApplyAll(moves, START, AtomsOf(delimited, lines)))
  {
    if lines != [] {
      var init, last := lines[..|lines| - 1], lines[|lines| - 1];
      var scan := ScanOf(delimited, init);
      OpenHasTurn(moves, delimited, init);
      LineOpens(delimited, scan, last);
      OpenedConcat(AtomsOf(delimited, init), LineAtoms(delimited, scan, last));
      TurnsAreOpened(moves, AtomsOf(delimited, init));
      TurnsAreOpened(moves, AtomsOf(delimited, lines));
    }
  }

  /** A call is read with its step open: no call of a rollout is lost, so the rule for which
      outputs reach their call holds of every rollout. */
  lemma {:induction false} CallsHaveStep(moves: Growth, delimited: bool, lines: seq<Line>, i: nat)
    requires i < |AtomsOf(delimited, lines)| && AtomsOf(delimited, lines)[i].Call?
    ensures HasStep(ApplyAll(moves, START, AtomsOf(delimited, lines)[..i]))
  {
    var init, last := lines[..|lines| - 1], lines[|lines| - 1];
    var before, line := AtomsOf(delimited, init), LineAtoms(delimited, ScanOf(delimited, init), last);
    SplitAt(before, line, i);
    if i < |before| {
      CallsHaveStep(moves, delimited, init, i);
    } else {
      ApplyAllConcat(moves, START, before, line[..i - |before|]);
      OpenHasTurn(moves, delimited, init);
      LineCallsHaveStep(moves, ApplyAll(moves, START, before), delimited, ScanOf(delimited, init), last, i - |before|);
    }
  }

  lemma {:induction false} LineCallsHaveStep(moves: Growth, s: State, delimited: bool, scan: Scan, line: Line, m: nat)
    requires scan.open ==> HasTurn(s)
    requires m < |LineAtoms(delimited, scan, line)| && LineAtoms(delimited, scan, line)[m].Call?
    ensures HasStep(ApplyAll(moves, s, LineAtoms(delimited, scan, line)[..m]))
  {
    var atoms := LineAtoms(delimited, scan, line);
    assert atoms[..m] == [atoms[0]] && atoms[0].OpenOnlyStep?;
    ApplyOne(moves, s, atoms[0]);
  }

  /** In any rollout that uses a call id once, the final turns show the call with its first
      result exactly when no call added to the turn's step before that result moved the slice. */
  lemma {:induction false} RolloutOutputReachesItsCall(moves: Growth, lines: seq<Line>, i: nat, k: nat)
    requires ToolOutputs.FirstResult(AtomsOf(HasTurnIDs(lines), lines), i, k)
    ensures
      var atoms := AtomsOf(HasTurnIDs(lines), lines);
      && HasStep(ApplyAll(moves, START, atoms[..i])) && ToolOutputs.Decided(moves, atoms, i, k)
      && Parse(moves, lines) == ApplyAll(moves, START, atoms).turns
  {
    CallsHaveStep(moves, HasTurnIDs(lines), lines, i);
    ToolOutputs.ResultsDecide(moves, AtomsOf(HasTurnIDs(lines), lines), i, k);
  }

  /** In any rollout a call that gets no result, and whose id is not used again, stays open. */
  lemma {:induction false} RolloutCallStaysOpen(moves: Growth, lines: seq<Line>, i: nat)
    requires ToolOutputs.NoResult(AtomsOf(HasTurnIDs(lines), lines), i)
    ensures
      var atoms := AtomsOf(HasTurnIDs(lines), lines);
      && HasStep(ApplyAll(moves, START, atoms[..i])) && ToolOutputs.LeftOpen(moves, atoms, i)
      && Parse(moves, lines) == ApplyAll(moves, START, atoms).turns
  {
    CallsHaveStep(moves, HasTurnIDs(lines), lines, i);
    ToolOutputs.NoResultLeavesOpen(moves, AtomsOf(HasTurnIDs(lines), lines), i);
  }
}
