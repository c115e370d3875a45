// The turn ids the trace hook remembers (cmd/agynd-trace-hook/main.go).

module TraceHook {
  // A sidecar file of the turns it has sent, one a line, read back on the next run.

  import opened Options
  import opened Strings
  import opened Transcript

  predicate Finished(turn: Turn) {
    turn.endedAt != ZERO_TIME
  }

  /** The ids in the lines of a sidecar. */
  function IDsIn(lines: seq<string>): set<string> {
    if lines == [] then {} else
      var id := Trim(lines[|lines| - 1]);
      IDsIn(lines[..|lines| - 1]) + if id != "" then {id} else {}
  }

  /** What a sidecar says was sent; one that is not there or cannot be read says nothing. */
  function Load(sidecar: Option<string>): set<string> {
    match sidecar
    case None => {}
    case Some(text) => IDsIn(Split(text, '\n'))
  }

  /** The finished turns among those exported that were not recorded yet. */
  function NewIDs(sent: set<string>, exported: seq<Turn>): seq<string> {
    if exported == [] then [] else
      var last := exported[|exported| - 1];
      NewIDs(sent, exported[..|exported| - 1]) + if Finished(last) && last.id !in sent then [last.id] else []
  }

  function Written(lines: seq<string>): string {
    Join(lines, '\n') + "\n"
  }

  /** An order a map may yield its keys in. */
  ghost predicate Lists(order: seq<string>, ids: set<string>) {
    forall id :: id in order <==> id in ids
  }

  function Unsent(turns: seq<Turn>, sent: set<string>): seq<Turn> {
    if turns == [] then [] else
      var last := turns[|turns| - 1];
      Unsent(turns[..|turns| - 1], sent) + if last.id in sent then [] else [last]
  }

  predicate AnyFinished(turns: seq<Turn>) {
    exists i :: 0 <= i < |turns| && Finished(turns[i])
  }

  method LoadSent(sidecar: Option<string>) returns (sent: set<string>)
    ensures sent == Load(sidecar)
  {
    sent := {};
    if sidecar.None? {
      return;
    }
    var lines := Split(sidecar.value, '\n');
    var i := 0;
    while i < |lines|
      invariant 0 <= i <= |lines|
      invariant sent == IDsIn(lines[..i])
    {
      assert lines[..i + 1][..i] == lines[..i];
      var id := Trim(lines[i]);
      if id != "" {
        sent := sent + {id};
      }
      i := i + 1;
    }
    assert lines[..i] == lines;
  }

  method RecordSent(sent: set<string>, exported: seq<Turn>) returns (text: string, ghost order: seq<string>)
    ensures Lists(order, sent)
    ensures text == Written(order + NewIDs(sent, exported))
    ensures exists o :: Lists(o, sent) && text == Written(o + NewIDs(sent, exported))
  {
    var lines: seq<string> := [];
    var left := sent;
    while left != {}
      invariant left <= sent && Lists(lines, sent - left)
      decreases |left|
    {
      var id :| id in left;
      left := left - {id};
      lines := lines + [id];
    }
    order := lines;
    var i := 0;
    while i < |exported|
      invariant 0 <= i <= |exported|
      invariant lines == order + NewIDs(sent, exported[..i])
    {
      assert exported[..i + 1][..i] == exported[..i];
      if !(exported[i].endedAt == ZERO_TIME || exported[i].id in sent) {
        lines := lines + [exported[i].id];
      }
      i := i + 1;
    }
    assert exported[..i] == exported;
    text := Join(lines, '\n') + "\n";
  }

  method SelectUnsent(turns: seq<Turn>, sent: set<string>) returns (unsent: seq<Turn>)
    ensures unsent == Unsent(turns, sent)
  {
    unsent := [];
    var i := 0;
    while i < |turns|
      invariant 0 <= i <= |turns|
      invariant unsent == Unsent(turns[..i], sent)
    {
      assert turns[..i + 1][..i] == turns[..i];
      if turns[i].id !in sent {
        unsent := unsent + [turns[i]];
      }
      i := i + 1;
    }
    assert turns[..i] == turns;
  }

  /** Reads the transcript again and again until a turn not sent yet is finished, or the
      deadline, after the last reading, has passed. */
  method SettledTurns(readings: seq<seq<Turn>>, sent: set<string>) returns (settled: seq<Turn>, k: nat)
    requires readings != []
    ensures k < |readings| && settled == Unsent(readings[k], sent)
    ensures AnyFinished(settled) || k == |readings| - 1
    ensures forall i | 0 <= i < k :: !AnyFinished(Unsent(readings[i], sent))
  {
    k := 0;
    while true
      invariant 0 <= k < |readings|
      invariant forall i | 0 <= i < k :: !AnyFinished(Unsent(readings[i], sent))
      decreases |readings| - k
    {
      settled := SelectUnsent(readings[k], sent);
      var any := HasFinished(settled);
      if any || k == |readings| - 1 {
        return;
      }
      k := k + 1;
    }
  }

  method HasFinished(turns: seq<Turn>) returns (any: bool)
    ensures any == AnyFinished(turns)
  {
    for i := 0 to |turns|
      invariant forall k | 0 <= k < i :: !Finished(turns[k])
    {
      if turns[i].endedAt != ZERO_TIME {
        return true;
      }
    }
    return false;
  }

  // ---- Round trip ----

  /** An id the sidecar can hold on a line of its own. */
  predicate Clean(id: string) {
    id != "" && Trimmed(id) && '\n' !in id
  }

  function SetOf(ids: seq<string>): set<string> {
    set id | id in ids
  }

  lemma {:induction false} IDsInLines(lines: seq<string>)
    ensures forall id :: id in IDsIn(lines) <==> id != "" && exists line :: line in lines && Trim(line) == id
  {
    if lines != [] {
      var init, last := lines[..|lines| - 1], lines[|lines| - 1];
      IDsInLines(init);
      assert forall line :: line in lines <==> line in init || line == last;
    }
  }

  /** What is read back of an id written as a line: the id itself if it is clean. */
  function PiecesOf(id: string): set<string> {
    IDsIn(Split(id, '\n'))
  }

  lemma {:induction false} OneLine(line: string)
    ensures IDsIn([line]) == if Trim(line) != "" then {Trim(line)} else {}
  {
    var one := [line];
    assert one[..|one| - 1] == [] && one[|one| - 1] == line;
  }

  lemma {:induction false} CleanPieces(id: string)
    ensures PiecesOf(id) == {id} <==> Clean(id)
    ensures forall piece | piece in PiecesOf(id) :: Clean(piece)
  {
    LoadedIsClean(Some(id));
    if Clean(id) {
      SplitAtFirst(id, '\n', "");
      TrimProperties(id);
      OneLine(id);
    } else {
      assert id !in PiecesOf(id);
    }
  }

  lemma {:induction false} IDsInConcat(a: seq<string>, b: seq<string>)
    ensures IDsIn(a + b) == IDsIn(a) + IDsIn(b)
  {
    if b == [] {
      assert a + b == a;
    } else {
      assert (a + b)[..|a + b| - 1] == a + b[..|b| - 1];
      IDsInConcat(a, b[..|b| - 1]);
    }
  }

  function AllPieces(lines: seq<string>): (pieces: set<string>)
    ensures forall line | line in lines :: PiecesOf(line) <= pieces
  {
    if lines == [] then {} else
      assert forall line :: line in lines <==> line == lines[0] || line in lines[1..];
      PiecesOf(lines[0]) + AllPieces(lines[1..])
  }

  lemma {:induction false} PieceOf(lines: seq<string>, id: string) returns (line: string)
    requires id in AllPieces(lines)
    ensures line in lines && id in PiecesOf(line)
  {
    line := lines[0];
    if id !in PiecesOf(lines[0]) {
      line := PieceOf(lines[1..], id);
    }
  }

  /** Reading back what was written gives the pieces of every line, and nothing else. */
  lemma {:induction false} ReadBack(lines: seq<string>)
    ensures Load(Some(Written(lines))) == AllPieces(lines)
  {
    var text := Join(lines, '\n');
    SplitConcat(text, '\n', "");
    assert Written(lines) == text + ['\n'] + "";
    IDsInConcat(Split(text, '\n'), [""]);
    TrimProperties("");
    OneLine("");
    JoinedPieces(lines);
  }

  lemma {:induction false} JoinedPieces(lines: seq<string>)
    ensures PiecesOf(Join(lines, '\n')) == AllPieces(lines)
  {
    if lines == [] {
      TrimProperties("");
      OneLine("");
    } else if |lines| == 1 {
      assert AllPieces(lines[1..]) == {};
    } else {
      var rest := Join(lines[1..], '\n');
      JoinedPieces(lines[1..]);
      SplitConcat(lines[0], '\n', rest);
      IDsInConcat(Split(lines[0], '\n'), Split(rest, '\n'));
    }
  }

  /** Whatever was written, what is read back is clean. */
  lemma {:induction false} LoadedIsClean(sidecar: Option<string>)
    ensures forall id | id in Load(sidecar) :: Clean(id)
  {
    if sidecar.Some? {
      var lines := Split(sidecar.value, '\n');
      IDsInLines(lines);
      SplitPieces(sidecar.value, '\n');
      forall id | id in Load(sidecar) ensures Clean(id) {
        var line :| line in lines && Trim(line) == id;
        TrimProperties(line);
      }
    }
  }

  /** Lines written are read back exactly when every one of them is clean. */
  lemma {:induction false} WrittenRoundTripIff(lines: seq<string>)
    ensures Load(Some(Written(lines))) == SetOf(lines) <==> forall id | id in lines :: Clean(id)
  {
    LoadedIsClean(Some(Written(lines)));
    if forall id | id in lines :: Clean(id) {
      CleanRoundTrip(lines);
    } else {
      var id :| id in lines && !Clean(id);
      assert id in SetOf(lines);
    }
  }

  lemma {:induction false} CleanRoundTrip(lines: seq<string>)
    requires forall id | id in lines :: Clean(id)
    ensures Load(Some(Written(lines))) == SetOf(lines)
  {
    ReadBack(lines);
    forall line | line in lines ensures PiecesOf(line) == {line} {
      CleanPieces(line);
    }
    forall id | id in AllPieces(lines) ensures id in lines {
      var line := PieceOf(lines, id);
    }
  }

  lemma {:induction false} NewIDsAre(sent: set<string>, exported: seq<Turn>)
    ensures forall id :: id in NewIDs(sent, exported) <==>
      id !in sent && exists turn :: turn in exported && Finished(turn) && turn.id == id
  {
    if exported != [] {
      var init, last := exported[..|exported| - 1], exported[|exported| - 1];
      NewIDsAre(sent, init);
      assert forall turn :: turn in exported <==> turn in init || turn == last;
    }
  }

  // ---- Hook runs ----

  /** One run: what the transcript held, whether the export went through, and the order the
      map of sent ids was walked in. */
  datatype Run = Run(turns: seq<Turn>, exported: bool, order: seq<string>)

  /** The sidecar after a run. */
  function AfterRun(sidecar: Option<string>, run: Run): Option<string> {
    var sent := Load(sidecar);
    var offered := Unsent(run.turns, sent);
    if offered == [] || !run.exported then sidecar
    else Some(Written(run.order + NewIDs(sent, offered)))
  }

  function AfterRuns(sidecar: Option<string>, runs: seq<Run>): Option<string> {
    if runs == [] then sidecar else AfterRun(AfterRuns(sidecar, runs[..|runs| - 1]), runs[|runs| - 1])
  }

  /** A run that can follow on a sidecar: the map is walked in some order of its keys. */
  ghost predicate Feasible(sidecar: Option<string>, run: Run) {
    Lists(run.order, Load(sidecar))
  }

  ghost predicate AllFeasible(sidecar: Option<string>, runs: seq<Run>) {
    runs == [] ||
    (AllFeasible(sidecar, runs[..|runs| - 1]) && Feasible(AfterRuns(sidecar, runs[..|runs| - 1]), runs[|runs| - 1]))
  }

  lemma {:induction false} UnsentAre(turns: seq<Turn>, sent: set<string>)
    ensures forall turn :: turn in Unsent(turns, sent) <==> turn in turns && turn.id !in sent
  {
    if turns != [] {
      UnsentAre(turns[..|turns| - 1], sent);
      assert forall turn :: turn in turns <==> turn in turns[..|turns| - 1] || turn == turns[|turns| - 1];
    }
  }

  /** The id is read back of some finished turn's: it is that turn's id, if that is clean. */
  ghost predicate Records(turns: seq<Turn>, id: string) {
    exists turn :: turn in turns && Finished(turn) && id in PiecesOf(turn.id)
  }

  /** One run, whatever order the map was walked in and whatever the ids are: if its export went
      through, exactly what is read back of the transcript's finished turns joins the sent set;
      otherwise nothing changes. */
  lemma {:induction false} RunRecordsFinished(sidecar: Option<string>, run: Run)
    requires Feasible(sidecar, run)
    ensures forall id :: id in Load(AfterRun(sidecar, run)) <==>
      id in Load(sidecar) || (run.exported && Records(run.turns, id))
  {
    var sent := Load(sidecar);
    var offered := Unsent(run.turns, sent);
    UnsentAre(run.turns, sent);
    LoadedIsClean(sidecar);
    forall turn | turn in run.turns && turn.id in sent ensures PiecesOf(turn.id) <= sent {
      CleanPieces(turn.id);
    }
    if offered == [] {
      assert forall turn | turn in run.turns :: turn.id in sent by {
        forall turn | turn in run.turns ensures turn.id in sent {
          assert turn !in offered;
        }
      }
    } else if run.exported {
      LinesRead(run.order, sent, offered);
      forall id ensures Records(run.turns, id) || id in sent <==> Records(offered, id) || id in sent {
        if turn :| turn in run.turns && Finished(turn) && id in PiecesOf(turn.id) {
          assert turn.id in sent || turn in offered;
        }
      }
    }
  }

  /** What is read back after recording: the old ids, and those of the finished turns. */
  lemma {:induction false} LinesRead(order: seq<string>, sent: set<string>, offered: seq<Turn>)
    requires Lists(order, sent) && (forall id | id in sent :: Clean(id)) && forall turn | turn in offered :: turn.id !in sent
    ensures forall id :: id in Load(Some(Written(order + NewIDs(sent, offered)))) <==> id in sent || Records(offered, id)
  {
    var lines := order + NewIDs(sent, offered);
    ReadBack(lines);
    NewIDsAre(sent, offered);
    forall id | id in sent ensures PiecesOf(id) == {id} {
      CleanPieces(id);
    }
    forall id ensures id in AllPieces(lines) <==> id in sent || Records(offered, id) {
      if id in sent {
        assert id in lines && id in PiecesOf(id);
      }
      if turn :| turn in offered && Finished(turn) && id in PiecesOf(turn.id) {
        assert turn.id in lines;
      }
      if id in AllPieces(lines) {
        var line := PieceOf(lines, id);
        if line !in sent {
          var turn :| turn in offered && Finished(turn) && turn.id == line;
          assert id in PiecesOf(turn.id);
        }
      }
    }
  }

  /** Over any sequence of runs the sent set only grows, and gains nothing but what is read back
      of turns finished in a run that exported -- their ids, where those are clean. */
  lemma {:induction false} SentOnlyGrows(sidecar: Option<string>, runs: seq<Run>, n: nat)
    requires n <= |runs| && AllFeasible(sidecar, runs)
    ensures Load(AfterRuns(sidecar, runs[..n])) <= Load(AfterRuns(sidecar, runs))
    ensures forall id | id in Load(AfterRuns(sidecar, runs)) && id !in Load(AfterRuns(sidecar, runs[..n])) ::
      exists k :: n <= k < |runs| && runs[k].exported && Records(runs[k].turns, id)
    decreases |runs|
  {
    if n == |runs| {
      assert runs[..n] == runs;
    } else {
      var init, last := runs[..|runs| - 1], runs[|runs| - 1];
      SentOnlyGrows(sidecar, init, n);
      assert init[..n] == runs[..n];
      RunRecordsFinished(AfterRuns(sidecar, init), last);
      forall id | id in Load(AfterRuns(sidecar, runs)) && id !in Load(AfterRuns(sidecar, runs[..n]))
        ensures exists k :: n <= k < |runs| && runs[k].exported && Records(runs[k].turns, id)
      {
        if id in Load(AfterRuns(sidecar, init)) {
          var k :| n <= k < |init| && init[k].exported && Records(init[k].turns, id);
          assert runs[k] == init[k];
        } else {
          assert runs[|runs| - 1].exported && Records(runs[|runs| - 1].turns, id);
        }
      }
    }
  }

  /** With clean ids, a sent set gains only ids of finished turns. */
  lemma {:induction false} CleanRecords(turns: seq<Turn>, id: string)
    requires forall turn | turn in turns :: Clean(turn.id)
    ensures Records(turns, id) <==> exists turn :: turn in turns && Finished(turn) && turn.id == id
  {
    forall turn | turn in turns ensures PiecesOf(turn.id) == {turn.id} {
      CleanPieces(turn.id);
    }
  }

  /** A finished turn whose export went through is recorded exactly when its id is clean. One
      with an empty id, say, is never recorded and is offered to every run. */
  lemma {:induction false} RecordedExactlyWhenClean(sidecar: Option<string>, run: Run, turn: Turn)
    requires Feasible(sidecar, run) && run.exported && turn in run.turns && Finished(turn)
    ensures turn.id in Load(AfterRun(sidecar, run)) <==> Clean(turn.id)
  {
    RunRecordsFinished(sidecar, run);
    LoadedIsClean(AfterRun(sidecar, run));
    CleanPieces(turn.id);
  }

  /** A turn once recorded is never offered for export again. */
  lemma {:induction false} RecordedIsNeverOffered(sidecar: Option<string>, runs: seq<Run>, n: nat, turn: Turn)
    requires n <= |runs| && AllFeasible(sidecar, runs)
    requires turn.id in Load(AfterRuns(sidecar, runs[..n]))
    ensures forall turns :: turn !in Unsent(turns, Load(AfterRuns(sidecar, runs)))
  {
    SentOnlyGrows(sidecar, runs, n);
    forall turns ensures turn !in Unsent(turns, Load(AfterRuns(sidecar, runs))) {
      UnsentAre(turns, Load(AfterRuns(sidecar, runs)));
    }
  }
}
