// The token counts a Claude transcript adds up to: each step's and each turn's usage is the
// maximum over the lines that report it (internal/transcript/claude.go:109-148).

module ClaudeUsage {
  import opened Options
  import opened Transcript
  import opened Builder
  import opened Claude

  /** A step id with the usage a line reported for it. */
  datatype Reported = Reported(id: string, usage: Option<Usage>)

  /** What a turn says of usage: its own and, in order, each step's. */
  datatype Ledger = Ledger(total: Option<Usage>, steps: seq<Reported>)

  function LedgerOf(turn: Turn): Ledger {
    Ledger(turn.usage, seq(|turn.steps|, i requires 0 <= i < |turn.steps| => Reported(turn.steps[i].id, turn.steps[i].usage)))
  }

  function Ledgers(turns: seq<Turn>): seq<Ledger> {
    seq(|turns|, i requires 0 <= i < |turns| => LedgerOf(turns[i]))
  }

  /** The line opens turn number PromptCount(lines) - 1, counting from zero. */
  function PromptCount(lines: seq<Line>): nat {
    if lines == [] then 0 else
      PromptCount(lines[..|lines| - 1]) + if IsPrompt(lines[|lines| - 1]) then 1 else 0
  }

  /** The reports of turn number t: those of its assistant lines whose content decodes. */
  function ReportsOf(lines: seq<Line>, t: nat): seq<Reported> {
    if lines == [] then [] else
      var init, last := lines[..|lines| - 1], lines[|lines| - 1];
      ReportsOf(init, t) +
      if last.AssistantLine? && Blocks(last.content).Some? && PromptCount(init) == t + 1
      then [Reported(StepID(last), last.usage)] else []
  }

  function Usages(reports: seq<Reported>): seq<Option<Usage>> {
    if reports == [] then [] else Usages(reports[..|reports| - 1]) + [reports[|reports| - 1].usage]
  }

  function ForStep(reports: seq<Reported>, id: string): seq<Option<Usage>> {
    if reports == [] then [] else
      ForStep(reports[..|reports| - 1], id) +
      if reports[|reports| - 1].id == id then [reports[|reports| - 1].usage] else []
  }

  ghost predicate StepsAddUp(l: Ledger, reports: seq<Reported>) {
    forall j | 0 <= j < |l.steps| :: l.steps[j].usage == MaxOver(ForStep(reports, l.steps[j].id))
  }

  ghost predicate StepsDistinct(l: Ledger) {
    forall i, j | 0 <= i < j < |l.steps| :: l.steps[i].id != l.steps[j].id
  }

  predicate HasEntry(l: Ledger, id: string) {
    exists j :: 0 <= j < |l.steps| && l.steps[j].id == id
  }

  ghost predicate AllEntered(l: Ledger, reports: seq<Reported>) {
    forall i | 0 <= i < |reports| :: HasEntry(l, reports[i].id)
  }

  /** The ledger is what the reports add up to. */
  ghost predicate Balanced(l: Ledger, reports: seq<Reported>) {
    l.total == MaxOver(Usages(reports)) && StepsAddUp(l, reports) && StepsDistinct(l) && AllEntered(l, reports)
  }

  /** Atoms that leave every ledger, the open turn and the cursor alone. */
  predicate Neutral(atoms: seq<Atom>) {
    forall atom | atom in atoms ::
      atom.Note? || atom.Say? || atom.Reason? || atom.Call? || atom.Result? || atom.Close?
  }

  lemma {:induction false} NeutralKeeps(moves: Growth, s: State, atom: Atom)
    requires Neutral([atom])
    ensures Ledgers(Apply(moves, s, atom).turns) == Ledgers(s.turns) && Apply(moves, s, atom).cursor == s.cursor
  {
    assert atom in [atom];
    match atom {
      case Note(_, _, _, _) =>
      case Result(callID, output, at, failed) =>
        if callID in s.pending && InRange(s, s.pending[callID]) {
          var r := s.pending[callID];
          WriteKeepsLedgers(s, r, Answered(Pointee(s, r), output, at, failed));
        }
      case Call(callID, name, server, at, arguments) =>
        if HasStep(s) { CalledKeepsLedgers(moves, s, NewCall(callID, name, server, at, arguments)); }
      case _ =>
        if HasStep(s) { UpdatedKeepsLedgers(s, atom); }
    }
  }

  lemma {:induction false} WriteKeepsLedgers(s: State, r: Ref, call: ToolCall)
    requires InRange(s, r)
    ensures Ledgers(Write(s, r, call).turns) == Ledgers(s.turns)
  {
    var s' := Write(s, r, call);
    forall i | 0 <= i < |s.turns| ensures LedgerOf(s'.turns[i]) == LedgerOf(s.turns[i]) {
    }
  }

  lemma {:induction false} CalledKeepsLedgers(moves: Growth, s: State, call: ToolCall)
    requires HasStep(s)
    ensures Ledgers(Called(moves, s, call).turns) == Ledgers(s.turns) && Called(moves, s, call).cursor == s.cursor
  {
    var s' := Called(moves, s, call);
    forall i | 0 <= i < |s.turns| ensures LedgerOf(s'.turns[i]) == LedgerOf(s.turns[i]) {
    }
  }

  lemma {:induction false} UpdatedKeepsLedgers(s: State, atom: Atom)
    requires HasStep(s) && !atom.Report?
    ensures Ledgers(Updated(s, atom).turns) == Ledgers(s.turns) && Updated(s, atom).cursor == s.cursor
  {
    var s' := Updated(s, atom);
    forall i | 0 <= i < |s.turns| ensures LedgerOf(s'.turns[i]) == LedgerOf(s.turns[i]) {
    }
  }

  lemma {:induction false} NeutralAllKeep(moves: Growth, s: State, atoms: seq<Atom>)
    requires Neutral(atoms)
    ensures Ledgers(ApplyAll(moves, s, atoms).turns) == Ledgers(s.turns)
    ensures ApplyAll(moves, s, atoms).cursor == s.cursor
  {
    if atoms != [] {
      assert atoms[|atoms| - 1] in atoms;
      NeutralAllKeep(moves, s, atoms[..|atoms| - 1]);
      NeutralKeeps(moves, ApplyAll(moves, s, atoms[..|atoms| - 1]), atoms[|atoms| - 1]);
    }
  }

  lemma {:induction false} OutputNeutral(blocks: seq<Block>, at: int)
    ensures Neutral(AllOutput(blocks, at)) && Neutral(AllResults(blocks, at))
  {
    if blocks != [] {
      OutputNeutral(blocks[..|blocks| - 1], at);
    }
  }

  function FindReported(steps: seq<Reported>, id: string): (i: nat)
    ensures i <= |steps| && (i < |steps| ==> steps[i].id == id)
    ensures forall k | 0 <= k < i :: steps[k].id != id
  {
    if steps == [] then 0 else if steps[0].id == id then 0 else 1 + FindReported(steps[1..], id)
  }

  lemma {:induction false} FindSame(turn: Turn, id: string)
    ensures FindStep(turn.steps, id) == FindReported(LedgerOf(turn).steps, id)
  {
    assert forall k | 0 <= k < |turn.steps| :: LedgerOf(turn).steps[k].id == turn.steps[k].id;
  }

  /** The ledger with the step open, and with a report entered for it. */
  function WithOpen(l: Ledger, id: string): Ledger {
    if FindReported(l.steps, id) < |l.steps| then l else l.(steps := l.steps + [Reported(id, None)])
  }

  function WithReport(l: Ledger, i: nat, usage: Option<Usage>): Ledger
    requires i < |l.steps|
  {
    var entered := MaxUsage(l.steps[i].usage, usage);
    Ledger(MaxUsage(l.total, entered), l.steps[i := l.steps[i].(usage := entered)])
  }

  lemma {:induction false} OpeningStep(moves: Growth, s: State, id: string, at: int, model: string)
    requires HasTurn(s)
    ensures
      var s' := Apply(moves, s, OpenStep(id, at, model));
      && HasStep(s') && s'.cursor == FindReported(LedgerOf(Current(s)).steps, id)
      && Ledgers(s'.turns) == Ledgers(s.turns)[|s.turns| - 1 := WithOpen(LedgerOf(Current(s)), id)]
  {
    FindSame(Current(s), id);
    var s' := Apply(moves, s, OpenStep(id, at, model));
    assert LedgerOf(Current(s')) == WithOpen(LedgerOf(Current(s)), id);
  }

  lemma {:induction false} Reporting(moves: Growth, s: State, usage: Option<Usage>, model: string)
    requires HasStep(s)
    ensures Ledgers(Apply(moves, s, Report(usage, model)).turns) ==
      Ledgers(s.turns)[|s.turns| - 1 := WithReport(LedgerOf(Current(s)), s.cursor, usage)]
  {
    var s' := Apply(moves, s, Report(usage, model));
    assert LedgerOf(Current(s')) == WithReport(LedgerOf(Current(s)), s.cursor, usage);
  }

  /** An assistant line whose content decodes opens its step, writes, and reports last. */
  lemma {:induction false} DecodedRun(moves: Growth, s: State, line: Line)
    requires line.AssistantLine? && Blocks(line.content).Some?
    ensures
      var begun := Apply(moves, s, OpenStep(StepID(line), line.at, line.model));
      var writing := AllOutput(Blocks(line.content).value, line.at) + [Close(line.at)];
      ApplyAll(moves, s, AssistantAtoms(line)) == Apply(moves, ApplyAll(moves, begun, writing), Report(line.usage, line.model))
  {
    var opening := OpenStep(StepID(line), line.at, line.model);
    var writing := AllOutput(Blocks(line.content).value, line.at) + [Close(line.at)];
    var report := Report(line.usage, line.model);
    assert AssistantAtoms(line) == [opening] + (writing + [report]);
    ApplyOne(moves, s, opening);
    ApplyAllConcat(moves, s, [opening], writing + [report]);
    var begun := Apply(moves, s, opening);
    ApplyAllConcat(moves, begun, writing, [report]);
    ApplyOne(moves, ApplyAll(moves, begun, writing), report);
  }

  /** What an assistant line does to the ledgers. */
  lemma {:induction false} AssistantLedgers(moves: Growth, s: State, line: Line)
    requires HasTurn(s) && line.AssistantLine?
    ensures
      var n := |s.turns| - 1;
      var l := WithOpen(LedgerOf(Current(s)), StepID(line));
      var s' := ApplyAll(moves, s, AssistantAtoms(line));
      var i := FindReported(LedgerOf(Current(s)).steps, StepID(line));
      && i < |l.steps|
      && Ledgers(s'.turns) == Ledgers(s.turns)[n := if Blocks(line.content).Some? then WithReport(l, i, line.usage) else l]
  {
    var opening := OpenStep(StepID(line), line.at, line.model);
    OpeningStep(moves, s, StepID(line), line.at, line.model);
    LastLedger(s, Apply(moves, s, opening), WithOpen(LedgerOf(Current(s)), StepID(line)));
    if Blocks(line.content).Some? {
      DecodedLedgers(moves, s, line);
    } else {
      ApplyOne(moves, s, opening);
    }
  }

  lemma {:induction false} LastLedger(s: State, s': State, l: Ledger)
    requires HasTurn(s) && HasStep(s') && Ledgers(s'.turns) == Ledgers(s.turns)[|s.turns| - 1 := l]
    ensures |s'.turns| == |s.turns| && LedgerOf(Current(s')) == l && s'.cursor < |l.steps|
  {
    assert |Ledgers(s'.turns)| == |s'.turns| && |Ledgers(s.turns)| == |s.turns|;
    assert Ledgers(s'.turns)[|s.turns| - 1] == LedgerOf(Current(s'));
    assert |LedgerOf(Current(s')).steps| == |Current(s').steps|;
  }

  /** With its step open, a line whose content decodes changes only that step's ledger. */
  lemma {:induction false} DecodedLedgers(moves: Growth, s: State, line: Line)
    requires line.AssistantLine? && Blocks(line.content).Some?
    requires HasStep(Apply(moves, s, OpenStep(StepID(line), line.at, line.model)))
    ensures
      var begun := Apply(moves, s, OpenStep(StepID(line), line.at, line.model));
      Ledgers(ApplyAll(moves, s, AssistantAtoms(line)).turns) ==
        Ledgers(begun.turns)[|begun.turns| - 1 := WithReport(LedgerOf(Current(begun)), begun.cursor, line.usage)]
  {
    var begun := Apply(moves, s, OpenStep(StepID(line), line.at, line.model));
    var writing := AllOutput(Blocks(line.content).value, line.at) + [Close(line.at)];
    DecodedRun(moves, s, line);
    OutputNeutral(Blocks(line.content).value, line.at);
    NeutralAllKeep(moves, begun, writing);
    var written := ApplyAll(moves, begun, writing);
    LedgersShape(begun, written);
    Reporting(moves, written, line.usage, line.model);
    assert |Ledgers(written.turns)| == |written.turns| && |Ledgers(begun.turns)| == |begun.turns|;
  }

  lemma {:induction false} LedgersShape(a: State, b: State)
    requires Ledgers(a.turns) == Ledgers(b.turns) && a.cursor == b.cursor
    ensures HasTurn(a) ==> HasTurn(b) && LedgerOf(Current(a)) == LedgerOf(Current(b))
    ensures HasStep(a) ==> HasStep(b)
  {
    assert |Ledgers(a.turns)| == |a.turns| && |Ledgers(b.turns)| == |b.turns|;
    if HasTurn(a) {
      assert Ledgers(a.turns)[|a.turns| - 1] == LedgerOf(Current(a));
      assert Ledgers(b.turns)[|a.turns| - 1] == LedgerOf(Current(b));
      assert |LedgerOf(Current(a)).steps| == |Current(a).steps|;
      assert |LedgerOf(Current(b)).steps| == |Current(b).steps|;
    }
  }

  // ---- The accounts balance ----

  lemma {:induction false} ForStepWithin(reports: seq<Reported>, id: string)
    ensures forall r | r in ForStep(reports, id) :: r in Usages(reports)
    ensures |Usages(reports)| == |reports|
    ensures (forall i | 0 <= i < |reports| :: reports[i].id != id) ==> ForStep(reports, id) == []
  {
    if reports != [] {
      ForStepWithin(reports[..|reports| - 1], id);
    }
  }

  lemma {:induction false} MaxAbsorbs(total: Option<Usage>, part: Option<Usage>, usage: Option<Usage>)
    requires AtMost(part, total)
    ensures MaxUsage(total, MaxUsage(part, usage)) == MaxUsage(total, usage)
  {
  }

  lemma {:induction false} OpenBalances(l: Ledger, reports: seq<Reported>, id: string)
    requires Balanced(l, reports)
    ensures Balanced(WithOpen(l, id), reports)
    ensures FindReported(l.steps, id) < |WithOpen(l, id).steps|
  {
    var l' := WithOpen(l, id);
    if FindReported(l.steps, id) == |l.steps| {
      NewEntry(l, l', reports, id);
      ForStepWithin(reports, id);
      assert MaxOver([]).None?;
    }
  }

  /** An entry more, of an id not reported yet. */
  lemma {:induction false} NewEntry(l: Ledger, l': Ledger, reports: seq<Reported>, id: string)
    requires AllEntered(l, reports) && forall j | 0 <= j < |l.steps| :: l.steps[j].id != id
    requires l.steps <= l'.steps
    ensures AllEntered(l', reports) && forall i | 0 <= i < |reports| :: reports[i].id != id
  {
    forall i | 0 <= i < |reports| ensures HasEntry(l', reports[i].id) && reports[i].id != id {
      assert HasEntry(l, reports[i].id);
      var j :| 0 <= j < |l.steps| && l.steps[j].id == reports[i].id;
      assert l'.steps[j].id == reports[i].id;
    }
  }

  lemma {:induction false} ReportTotals(l: Ledger, reports: seq<Reported>, i: nat, usage: Option<Usage>)
    requires Balanced(l, reports) && i < |l.steps|
    ensures
      var more := reports + [Reported(l.steps[i].id, usage)];
      && WithReport(l, i, usage).total == MaxOver(Usages(more))
      && MaxUsage(l.steps[i].usage, usage) == MaxOver(ForStep(more, l.steps[i].id))
  {
    var id := l.steps[i].id;
    var more := reports + [Reported(id, usage)];
    assert more[..|more| - 1] == reports;
    ForStepWithin(reports, id);
    MaxOverIsJoin(Usages(reports), None);
    MaxOverIsJoin(ForStep(reports, id), MaxOver(Usages(reports)));
    MaxAbsorbs(l.total, l.steps[i].usage, usage);
    LastMax(Usages(reports), usage);
    LastMax(ForStep(reports, id), usage);
  }

  lemma {:induction false} OtherSteps(reports: seq<Reported>, r: Reported, id: string)
    requires r.id != id
    ensures ForStep(reports + [r], id) == ForStep(reports, id)
  {
    assert (reports + [r])[..|reports|] == reports;
  }

  lemma {:induction false} ReportBalances(l: Ledger, reports: seq<Reported>, i: nat, usage: Option<Usage>)
    requires Balanced(l, reports) && i < |l.steps|
    ensures Balanced(WithReport(l, i, usage), reports + [Reported(l.steps[i].id, usage)])
  {
    var r := Reported(l.steps[i].id, usage);
    var l', more := WithReport(l, i, usage), reports + [r];
    ReportTotals(l, reports, i, usage);
    assert StepsAddUp(l', more) by {
      forall j | 0 <= j < |l'.steps| ensures l'.steps[j].usage == MaxOver(ForStep(more, l'.steps[j].id)) {
        if j != i {
          OtherSteps(reports, r, l.steps[j].id);
        }
      }
    }
    EntriesKept(l, l', reports, r, i);
  }

  lemma {:induction false} EntriesKept(l: Ledger, l': Ledger, reports: seq<Reported>, r: Reported, i: nat)
    requires AllEntered(l, reports) && i < |l.steps| && r.id == l.steps[i].id
    requires |l'.steps| == |l.steps| && forall j | 0 <= j < |l.steps| :: l'.steps[j].id == l.steps[j].id
    ensures AllEntered(l', reports + [r])
  {
    var more := reports + [r];
    forall k | 0 <= k < |more| ensures HasEntry(l', more[k].id) {
      if k < |reports| {
        assert HasEntry(l, reports[k].id);
        var j :| 0 <= j < |l.steps| && l.steps[j].id == reports[k].id;
        assert l'.steps[j].id == more[k].id;
      } else {
        assert l'.steps[i].id == more[k].id;
      }
    }
  }

  lemma {:induction false} LastMax(reports: seq<Option<Usage>>, usage: Option<Usage>)
    ensures MaxOver(reports + [usage]) == MaxUsage(MaxOver(reports), usage)
  {
    assert (reports + [usage])[..|reports|] == reports;
  }

  ghost predicate AllBalanced(turns: seq<Turn>, lines: seq<Line>) {
    && |turns| == PromptCount(lines)
    && forall t | 0 <= t < |turns| :: Balanced(LedgerOf(turns[t]), ReportsOf(lines, t))
  }

  lemma {:induction false} OpenedCount(lines: seq<Line>)
    ensures Opened(lines) <==> PromptCount(lines) > 0
  {
    if lines != [] {
      OpenedCount(lines[..|lines| - 1]);
      OpenedNext(lines, |lines| - 1);
      assert lines[..|lines| - 1 + 1] == lines;
    }
  }

  lemma {:induction false} NoReportsYet(lines: seq<Line>, t: nat)
    requires PromptCount(lines) <= t
    ensures ReportsOf(lines, t) == []
  {
    if lines != [] {
      NoReportsYet(lines[..|lines| - 1], t);
    }
  }

  /** The reports of a turn change only with an assistant line of its own. */
  lemma {:induction false} ReportsNext(init: seq<Line>, line: Line, t: nat)
    ensures ReportsOf(init + [line], t) == ReportsOf(init, t) +
      if line.AssistantLine? && Blocks(line.content).Some? && PromptCount(init) == t + 1
      then [Reported(StepID(line), line.usage)] else []
    ensures PromptCount(init + [line]) == PromptCount(init) + if IsPrompt(line) then 1 else 0
  {
    assert (init + [line])[..|init|] == init;
  }

  lemma {:induction false} PromptBalances(turns: seq<Turn>, turn: Turn, init: seq<Line>, line: Line)
    requires AllBalanced(turns, init) && IsPrompt(line)
    requires turn.usage.None? && turn.steps == []
    ensures AllBalanced(turns + [turn], init + [line])
  {
    NoReportsYet(init, |turns|);
    assert LedgerOf(turn) == Ledger(None, []) && Balanced(Ledger(None, []), []);
    forall t | 0 <= t <= |turns| ensures ReportsOf(init + [line], t) == ReportsOf(init, t) {
      ReportsNext(init, line, t);
    }
    ReportsNext(init, line, 0);
  }

  lemma {:induction false} NeutralBalances(a: seq<Turn>, b: seq<Turn>, init: seq<Line>, line: Line)
    requires AllBalanced(a, init) && Ledgers(a) == Ledgers(b)
    requires !IsPrompt(line) && (line.AssistantLine? ==> a == [])
    ensures AllBalanced(b, init + [line])
  {
    SameLedgers(a, b);
    forall t | 0 <= t < |a| ensures ReportsOf(init + [line], t) == ReportsOf(init, t) {
      ReportsNext(init, line, t);
    }
    ReportsNext(init, line, 0);
  }

  lemma {:induction false} LineBalances(moves: Growth, s: State, init: seq<Line>, line: Line)
    requires AllBalanced(s.turns, init)
    ensures AllBalanced(ApplyAll(moves, s, LineAtoms(Opened(init), line)).turns, init + [line])
  {
    OpenedCount(init);
    if IsPrompt(line) {
      var text := Prompt(line.content).value;
      ApplyTwo(moves, s, Note("user", text, Absent, line.at), OpenTurn(line.uuid, line.sessionID, line.at, "", text));
      PromptBalances(s.turns, Turn(line.uuid, line.sessionID, line.at, ZERO_TIME, "", text, "", [], None, ""), init, line);
    } else if line.AssistantLine? && Opened(init) {
      AssistantBalances(moves, s, init, line);
    } else {
      if line.UserLine? && Blocks(line.content).Some? {
        OutputNeutral(Blocks(line.content).value, line.at);
      }
      NeutralAllKeep(moves, s, LineAtoms(Opened(init), line));
      NeutralBalances(s.turns, ApplyAll(moves, s, LineAtoms(Opened(init), line)).turns, init, line);
    }
  }

  lemma {:induction false} SameLedgers(a: seq<Turn>, b: seq<Turn>)
    requires Ledgers(a) == Ledgers(b)
    ensures |a| == |b| && forall t | 0 <= t < |a| :: LedgerOf(a[t]) == LedgerOf(b[t])
  {
    assert |Ledgers(a)| == |a| && |Ledgers(b)| == |b|;
    forall t | 0 <= t < |a| ensures LedgerOf(a[t]) == LedgerOf(b[t]) {
      assert Ledgers(a)[t] == Ledgers(b)[t];
    }
  }

  lemma {:induction false} AssistantBalances(moves: Growth, s: State, init: seq<Line>, line: Line)
    requires AllBalanced(s.turns, init) && line.AssistantLine? && HasTurn(s)
    ensures AllBalanced(ApplyAll(moves, s, AssistantAtoms(line)).turns, init + [line])
  {
    var l := WithOpen(LedgerOf(Current(s)), StepID(line));
    var i := FindReported(LedgerOf(Current(s)).steps, StepID(line));
    AssistantLedgers(moves, s, line);
    LedgerReplaced(s.turns, ApplyAll(moves, s, AssistantAtoms(line)).turns, init, line,
                   if Blocks(line.content).Some? then WithReport(l, i, line.usage) else l);
  }

  lemma {:induction false} LedgerReplaced(a: seq<Turn>, b: seq<Turn>, init: seq<Line>, line: Line, l: Ledger)
    requires AllBalanced(a, init) && a != [] && line.AssistantLine?
    requires Ledgers(b) == Ledgers(a)[|a| - 1 := l]
    requires
      var before := LedgerOf(a[|a| - 1]);
      var begun := WithOpen(before, StepID(line));
      var i := FindReported(before.steps, StepID(line));
      i < |begun.steps| && l == if Blocks(line.content).Some? then WithReport(begun, i, line.usage) else begun
    ensures AllBalanced(b, init + [line])
  {
    var n := |a| - 1;
    CurrentBalances(LedgerOf(a[n]), init, line, n, l);
    ReplacedLedgers(a, b, n, l);
    ReportsNext(init, line, n);
    forall t | 0 <= t < n ensures ReportsOf(init + [line], t) == ReportsOf(init, t) {
      ReportsNext(init, line, t);
    }
  }

  lemma {:induction false} ReplacedLedgers(a: seq<Turn>, b: seq<Turn>, n: nat, l: Ledger)
    requires n < |a| && Ledgers(b) == Ledgers(a)[n := l]
    ensures |b| == |a| && forall t | 0 <= t < |b| :: LedgerOf(b[t]) == if t == n then l else LedgerOf(a[t])
  {
    assert |Ledgers(b)| == |b| && |Ledgers(a)| == |a|;
    forall t | 0 <= t < |b| ensures LedgerOf(b[t]) == if t == n then l else LedgerOf(a[t]) {
      assert Ledgers(b)[t] == LedgerOf(b[t]) && Ledgers(a)[t] == LedgerOf(a[t]);
    }
  }

  lemma {:induction false} CurrentBalances(before: Ledger, init: seq<Line>, line: Line, n: nat, l: Ledger)
    requires PromptCount(init) == n + 1 && line.AssistantLine? && Balanced(before, ReportsOf(init, n))
    requires
      var begun := WithOpen(before, StepID(line));
      var i := FindReported(before.steps, StepID(line));
      i < |begun.steps| && l == if Blocks(line.content).Some? then WithReport(begun, i, line.usage) else begun
    ensures Balanced(l, ReportsOf(init + [line], n))
  {
    OpenBalances(before, ReportsOf(init, n), StepID(line));
    ReportsNext(init, line, n);
    if Blocks(line.content).Some? {
      var i := FindReported(before.steps, StepID(line));
      ReportBalances(WithOpen(before, StepID(line)), ReportsOf(init, n), i, line.usage);
    } else {
      assert ReportsOf(init, n) + [] == ReportsOf(init, n);
    }
  }

  /** Usage is a join: a transcript has one turn per prompt, and in each the turn's usage is
      the field-wise maximum over the turn's reports and each step's the maximum over the
      reports under its id, absent counting as the least. */
  lemma {:induction false} UsageIsMaximum(moves: Growth, lines: seq<Line>)
    ensures AllBalanced(Parse(moves, lines), lines)
  {
    if lines != [] {
      var init, last := lines[..|lines| - 1], lines[|lines| - 1];
      UsageIsMaximum(moves, init);
      ParseNext(moves, lines);
      assert init + [last] == lines;
      LineBalances(moves, ApplyAll(moves, START, AtomsOf(init)), init, last);
    }
  }

  /** So it depends only on which counts were reported, not on their order or repetition. */
  lemma {:induction false} UsageIgnoresOrder(moves: Growth, a: seq<Line>, b: seq<Line>, t: nat)
    requires t < PromptCount(a) && t < PromptCount(b)
    requires forall u :: u in Usages(ReportsOf(a, t)) <==> u in Usages(ReportsOf(b, t))
    ensures t < |Parse(moves, a)| && t < |Parse(moves, b)| && Parse(moves, a)[t].usage == Parse(moves, b)[t].usage
  {
    UsageIsMaximum(moves, a);
    UsageIsMaximum(moves, b);
    MaxOverIgnoresOrder(Usages(ReportsOf(a, t)), Usages(ReportsOf(b, t)));
    assert LedgerOf(Parse(moves, a)[t]).total == LedgerOf(Parse(moves, b)[t]).total;
  }

  /** Nor does a step's, on the order or repetition of the counts reported under its id. */
  lemma {:induction false} StepUsageIgnoresOrder(moves: Growth, a: seq<Line>, b: seq<Line>, t: nat, i: nat, j: nat)
    requires t < |Parse(moves, a)| && i < |Parse(moves, a)[t].steps|
    requires t < |Parse(moves, b)| && j < |Parse(moves, b)[t].steps|
    requires Parse(moves, a)[t].steps[i].id == Parse(moves, b)[t].steps[j].id
    requires
      var id := Parse(moves, a)[t].steps[i].id;
      forall u :: u in ForStep(ReportsOf(a, t), id) <==> u in ForStep(ReportsOf(b, t), id)
    ensures Parse(moves, a)[t].steps[i].usage == Parse(moves, b)[t].steps[j].usage
  {
    var id := Parse(moves, a)[t].steps[i].id;
    UsageIsMaximum(moves, a);
    UsageIsMaximum(moves, b);
    MaxOverIgnoresOrder(ForStep(ReportsOf(a, t), id), ForStep(ReportsOf(b, t), id));
    assert LedgerOf(Parse(moves, a)[t]).steps[i].usage == LedgerOf(Parse(moves, b)[t]).steps[j].usage;
  }
}
