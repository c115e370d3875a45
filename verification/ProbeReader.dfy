// The reader of an MCP server's initialize response (internal/daemon/daemon.go:1237-1286): one
// JSON body, or an event stream any of whose events may hold it. check is the validation of a
// payload; it gives an error, or none.

module ProbeReader {
  import opened Options
  import opened Strings

  const LIMIT := 64 * 1024
  const DATA := "data:"

  datatype Outcome = Accepted | Rejected(error: string) | ReadFailed | MissingData

  /** What a line is to the reader. */
  datatype Line = Data(data: string) | Blank | Other

  /** The length of the first line, its newline included. */
  function LineLength(text: string): (n: nat)
    ensures n <= |text| && (text != "" ==> 0 < n)
    ensures forall i | 0 <= i < n - 1 :: text[i] != '\n'
    ensures n < |text| ==> text[n - 1] == '\n'
  {
    if text == "" then 0 else if text[0] == '\n' then 1 else 1 + LineLength(text[1..])
  }

  /** strings.TrimRight(line, "\r\n"). */
  function Chomp(line: string): string {
    if line != "" && line[|line| - 1] in {'\r', '\n'} then Chomp(line[..|line| - 1]) else line
  }

  function Classify(line: string): Line {
    var trimmed := Chomp(line);
    if DATA <= trimmed then Data(Trim(trimmed[|DATA|..])) else if Trim(trimmed) == "" then Blank else Other
  }

  lemma {:induction false} ChompCuts(text: string, ending: string)
    requires text == "" || text[|text| - 1] !in {'\r', '\n'}
    requires forall i | 0 <= i < |ending| :: ending[i] in {'\r', '\n'}
    ensures Chomp(text + ending) == text
    decreases |ending|
  {
    if ending == "" {
      assert text + ending == text;
    } else {
      var line := text + ending;
      assert line[..|line| - 1] == text + ending[..|ending| - 1] && line[|line| - 1] == ending[|ending| - 1];
      ChompCuts(text, ending[..|ending| - 1]);
    }
  }

  /** A line, less the carriage returns and newlines it ends with, is data exactly when it begins
      with "data:", and then what follows, trimmed; otherwise it is blank exactly when it holds
      nothing but space. */
  lemma {:induction false} ClassifyIs(text: string, ending: string)
    requires text == "" || text[|text| - 1] !in {'\r', '\n'}
    requires forall i | 0 <= i < |ending| :: ending[i] in {'\r', '\n'}
    ensures
      var line := Classify(text + ending);
      && (line.Data? <==> |text| >= 5 && text[..5] == "data:")
      && (line.Data? ==> line.data == Trim(text[5..]))
      && (line.Blank? <==> forall c | c in text :: IsSpace(c))
  {
    ChompCuts(text, ending);
    TrimOfSpaces(text);
    if DATA <= text {
      assert text[0] == 'd' && text[0] in text;
    }
  }

  /** The text's lines: each ends with its newline, the last may lack one. */
  function Lines(text: string): seq<Line> {
    if text == "" then []
    else
      var n := LineLength(text);
      [Classify(text[..n])] + Lines(text[n..])
  }

  /** What the data lines say, in order. */
  function DataOf(lines: seq<Line>): (data: seq<string>)
    ensures data == [] <==> forall line | line in lines :: !line.Data?
  {
    if lines == [] then []
    else
      var n := |lines| - 1;
      assert lines == lines[..n] + [lines[n]];
      if lines[n].Data? then DataOf(lines[..n]) + [lines[n].data] else DataOf(lines[..n])
  }

  /** Lines a to b, between blank lines or the ends of the text, hold an event. */
  predicate IsEvent(lines: seq<Line>, a: nat, b: nat) {
    && a <= b <= |lines|
    && (a == 0 || lines[a - 1].Blank?)
    && (b == |lines| || lines[b].Blank?)
    && (forall i | a <= i < b :: !lines[i].Blank?)
    && DataOf(lines[a..b]) != []
  }

  function Payload(lines: seq<Line>, a: nat, b: nat): string
    requires a <= b <= |lines|
  {
    Join(DataOf(lines[a..b]), '\n')
  }

  /** Some event that a blank line ends validates. */
  ghost predicate ClosedEventValidates(lines: seq<Line>, check: string -> Option<string>) {
    exists a: nat, b: nat :: IsEvent(lines, a, b) && b < |lines| && check(Payload(lines, a, b)).None?
  }

  /** The event the end of the text cuts off validates. */
  ghost predicate OpenEventValidates(lines: seq<Line>, check: string -> Option<string>) {
    exists a: nat :: IsEvent(lines, a, |lines|) && check(Payload(lines, a, |lines|)).None?
  }

  predicate AnyData(lines: seq<Line>) {
    exists i :: 0 <= i < |lines| && lines[i].Data?
  }

  /** error is that of the event at lines a to b, and no event ends after that and before line n. */
  ghost predicate LastErrorAt(lines: seq<Line>, check: string -> Option<string>, error: string, n: nat, a: nat, b: nat) {
    && IsEvent(lines, a, b) && b < n && check(Payload(lines, a, b)) == Some(error)
    && forall a': nat, b': nat | IsEvent(lines, a', b') && b' < n :: b' <= b
  }

  ghost predicate LastError(lines: seq<Line>, check: string -> Option<string>, error: string, n: nat) {
    exists a: nat, b: nat :: LastErrorAt(lines, check, error, n, a, b)
  }

  /** What the reader is to answer. The result is accepted exactly when some event that a blank
      line ends validates, or else, the text having ended without an error, the event it cuts off
      does, or the whole body where no line is data. A refusal gives the error of the last event,
      or of the whole body, and data is never found missing. */
  ghost predicate Answers(text: string, breaks: bool, check: string -> Option<string>, outcome: Outcome) {
    var lines := Lines(text);
    && (outcome == Accepted <==>
          ClosedEventValidates(lines, check) ||
          (!breaks && if AnyData(lines) then OpenEventValidates(lines, check) else check(text).None?))
    && (outcome == ReadFailed <==> breaks && !ClosedEventValidates(lines, check))
    && (outcome.Rejected? ==>
          if AnyData(lines) then LastError(lines, check, outcome.error, |lines| + 1) else check(text) == Some(outcome.error))
    && outcome != MissingData
  }

  /** How far the reader has come: what the event being read holds, the error of the last event
      before it, and whether any line was data; or an event has validated. */
  datatype Progress = Going(data: seq<string>, last: Option<string>, saw: bool) | Found

  function Take(p: Progress, line: Line, check: string -> Option<string>): Progress {
    if p.Found? then Found
    else if line.Data? then Going(p.data + [line.data], p.last, true)
    else if line.Other? || p.data == [] then p
    else
      var error := check(Join(p.data, '\n'));
      if error.None? then Found else Going([], error, p.saw)
  }

  function After(lines: seq<Line>, check: string -> Option<string>): Progress {
    if lines == [] then Going([], None, false) else Take(After(lines[..|lines| - 1], check), lines[|lines| - 1], check)
  }

  function Judged(error: Option<string>): Outcome {
    if error.None? then Accepted else Rejected(error.value)
  }

  function Ending(p: Progress, text: string, breaks: bool, check: string -> Option<string>): Outcome {
    if p.Found? then Accepted
    else if breaks then ReadFailed
    else if !p.saw then Judged(check(text))
    else if p.data != [] then Judged(check(Join(p.data, '\n')))
    else if p.last.Some? then Rejected(p.last.value)
    else MissingData
  }

  /** One reading: the bytes up to and with the next newline, or what is left. */
  method ReadString(text: string) returns (line: string, rest: string, more: bool)
    ensures line + rest == text && (line == "" || !more ==> rest == "")
    ensures more ==> line != ""
    ensures Lines(text) == (if line == "" then [] else [Classify(line)]) + Lines(rest)
  {
    var i := 0;
    while i < |text| && text[i] != '\n'
      invariant 0 <= i <= |text| && '\n' !in text[..i]
      invariant LineLength(text) == i + LineLength(text[i..])
    {
      assert text[i..][1..] == text[i + 1..];
      i := i + 1;
    }
    var n := if i < |text| then i + 1 else i;
    line, rest, more := text[..n], text[n..], i < |text|;
    assert n == LineLength(text);
  }

  /** The event being read starts at a: no blank line since, and one just before, if any. */
  predicate OpenFrom(lines: seq<Line>, a: nat, i: nat) {
    a <= i <= |lines| && (a == 0 || lines[a - 1].Blank?) && forall j | a <= j < i :: !lines[j].Blank?
  }

  /** An event that ends at i is the one being read there. */
  lemma {:induction false} EventsEndOnce(lines: seq<Line>, a: nat, i: nat)
    requires OpenFrom(lines, a, i) && (i == |lines| || lines[i].Blank?)
    ensures DataOf(lines[a..i]) != [] <==> IsEvent(lines, a, i)
    ensures forall a': nat | IsEvent(lines, a', i) :: a' == a
  {
  }

  /** One more line that is not blank joins the event being read. */
  lemma {:induction false} DataGrows(lines: seq<Line>, a: nat, i: nat)
    requires a <= i < |lines|
    ensures DataOf(lines[a..i + 1]) ==
      DataOf(lines[a..i]) + if lines[i].Data? then [lines[i].data] else []
  {
    assert lines[a..i + 1][..i - a] == lines[a..i];
    assert lines[a..i + 1][i - a] == lines[i];
  }

  /** The reader has taken i lines, the last event among them starting at line a; data is what
      that event holds so far, last the error of the event before it, and none has validated. */
  ghost predicate Reading(lines: seq<Line>, check: string -> Option<string>, a: nat, i: nat,
                          data: seq<string>, last: Option<string>, saw: bool) {
    && OpenFrom(lines, a, i)
    && data == DataOf(lines[a..i])
    && (saw <==> exists j :: 0 <= j < i && lines[j].Data?)
    && (forall a': nat, b': nat | IsEvent(lines, a', b') && b' < i :: check(Payload(lines, a', b')).Some?)
    && (last.Some? ==> LastError(lines, check, last.value, i))
    && (saw && data == [] ==> last.Some?)
  }

  lemma {:induction false} SawNext(lines: seq<Line>, i: nat, saw: bool)
    requires i < |lines| && (saw <==> exists j :: 0 <= j < i && lines[j].Data?)
    ensures saw || lines[i].Data? <==> exists j :: 0 <= j < i + 1 && lines[j].Data?
  {
    if saw {
      var j :| 0 <= j < i && lines[j].Data?;
      assert 0 <= j < i + 1 && lines[j].Data?;
    }
  }

  lemma {:induction false} SameOpen(lines: seq<Line>, check: string -> Option<string>, a: nat, i: nat,
                                    data: seq<string>, last: Option<string>, saw: bool)
    requires Reading(lines, check, a, i, data, last, saw) && i < |lines| && !lines[i].Blank?
    ensures Reading(lines, check, a, i + 1, DataOf(lines[a..i + 1]), last, saw || lines[i].Data?)
  {
    DataGrows(lines, a, i);
    forall a': nat, b': nat | IsEvent(lines, a', b') && b' < i + 1 ensures check(Payload(lines, a', b')).Some? {
      assert b' < i;
    }
    SawNext(lines, i, saw);
    if last.Some? { LastErrorStays(lines, check, last.value, i); }
  }

  lemma {:induction false} LastErrorStays(lines: seq<Line>, check: string -> Option<string>, error: string, i: nat)
    requires LastError(lines, check, error, i)
    requires forall a': nat :: !IsEvent(lines, a', i)
    ensures LastError(lines, check, error, i + 1)
  {
    var a: nat, b: nat :| LastErrorAt(lines, check, error, i, a, b);
    forall a': nat, b': nat | IsEvent(lines, a', b') && b' < i + 1 ensures b' <= b {
      assert b' < i;
    }
    assert LastErrorAt(lines, check, error, i + 1, a, b);
  }

  /** An event's end, at a blank line or where the text stops. */
  lemma {:induction false} EventEnds(lines: seq<Line>, check: string -> Option<string>, a: nat, i: nat,
                                     data: seq<string>, last: Option<string>, saw: bool)
    requires Reading(lines, check, a, i, data, last, saw) && (i == |lines| || lines[i].Blank?)
    ensures data != [] ==> IsEvent(lines, a, i) && data == DataOf(lines[a..i])
    ensures forall a': nat | IsEvent(lines, a', i) :: a' == a && data != []
    ensures data != [] && check(Join(data, '\n')).Some? ==> LastError(lines, check, check(Join(data, '\n')).value, i + 1)
    ensures data == [] && last.Some? ==> LastError(lines, check, last.value, i + 1)
  {
    EventsEndOnce(lines, a, i);
    if data != [] {
      assert Payload(lines, a, i) == Join(data, '\n');
      if check(Payload(lines, a, i)).Some? {
        assert LastErrorAt(lines, check, check(Payload(lines, a, i)).value, i + 1, a, i);
      }
    } else if last.Some? {
      LastErrorStays(lines, check, last.value, i);
    }
  }

  lemma {:induction false} NextOpen(lines: seq<Line>, check: string -> Option<string>, a: nat, i: nat,
                                    data: seq<string>, last: Option<string>, saw: bool)
    requires Reading(lines, check, a, i, data, last, saw) && i < |lines| && lines[i].Blank?
    requires data != [] ==> check(Join(data, '\n')).Some?
    ensures Reading(lines, check, i + 1, i + 1, [], if data != [] then check(Join(data, '\n')) else last, saw)
  {
    EventEnds(lines, check, a, i, data, last, saw);
    forall a': nat, b': nat | IsEvent(lines, a', b') && b' < i + 1 ensures check(Payload(lines, a', b')).Some? {
      if b' == i { assert a' == a && Payload(lines, a, i) == Join(data, '\n'); }
    }
    assert lines[i + 1..i + 1] == [];
  }

  /** What the limited reader lets through, and whether reading it ends in an error. */
  function Seen(body: string): string {
    if |body| > LIMIT then body[..LIMIT] else body
  }

  predicate Breaks(body: string, fails: bool) {
    fails && |body| < LIMIT
  }

  /** One line. */
  lemma {:induction false} LineTaken(lines: seq<Line>, check: string -> Option<string>, a: nat, i: nat,
                                     data: seq<string>, last: Option<string>, saw: bool)
    requires Reading(lines, check, a, i, data, last, saw) && i < |lines|
    requires lines[i].Blank? && data != [] ==> check(Join(data, '\n')).Some?
    ensures !saw ==> data == []
    ensures lines[i].Data? ==> Reading(lines, check, a, i + 1, data + [lines[i].data], last, true)
    ensures lines[i].Blank? ==>
      Reading(lines, check, i + 1, i + 1, [], if data != [] then check(Join(data, '\n')) else last, saw)
    ensures !lines[i].Data? && !lines[i].Blank? ==> Reading(lines, check, a, i + 1, data, last, saw)
  {
    DataGrows(lines, a, i);
    if lines[i].Blank? {
      NextOpen(lines, check, a, i, data, last, saw);
    } else {
      SameOpen(lines, check, a, i, data, last, saw);
    }
  }

  /** What the reader knows after i lines. */
  lemma {:induction false} Follows(lines: seq<Line>, check: string -> Option<string>, i: nat) returns (a: nat)
    requires i <= |lines|
    ensures var p := After(lines[..i], check);
      if p.Found? then ClosedEventValidates(lines, check) else Reading(lines, check, a, i, p.data, p.last, p.saw)
  {
    a := 0;
    if i == 0 {
      assert lines[0..0] == [];
    } else {
      assert lines[..i][..i - 1] == lines[..i - 1];
      a := Follows(lines, check, i - 1);
      assert After(lines[..i], check) == Take(After(lines[..i - 1], check), lines[i - 1], check);
      if After(lines[..i - 1], check).Going? {
        a := LineFollows(lines, check, a, i - 1, After(lines[..i - 1], check));
      }
    }
  }

  lemma {:induction false} LineFollows(lines: seq<Line>, check: string -> Option<string>, a: nat, i: nat, p: Progress) returns (next: nat)
    requires p.Going? && i < |lines| && Reading(lines, check, a, i, p.data, p.last, p.saw)
    ensures var p' := Take(p, lines[i], check);
      if p'.Found? then ClosedEventValidates(lines, check) else Reading(lines, check, next, i + 1, p'.data, p'.last, p'.saw)
  {
    next := if lines[i].Blank? then i + 1 else a;
    if lines[i].Blank? && p.data != [] && check(Join(p.data, '\n')).None? {
      EventEnds(lines, check, a, i, p.data, p.last, p.saw);
      assert Payload(lines, a, i) == Join(p.data, '\n');
    } else {
      LineTaken(lines, check, a, i, p.data, p.last, p.saw);
    }
  }

  /** Where the text stops, no event having validated: the answers when reading broke off, or no
      line was data; then when some was. */
  lemma {:induction false} TextEnds(text: string, check: string -> Option<string>, a: nat, p: Progress)
    requires p.Going? && Reading(Lines(text), check, a, |Lines(text)|, p.data, p.last, p.saw)
    ensures Answers(text, true, check, ReadFailed)
    ensures !p.saw ==> Answers(text, false, check, Judged(check(text)))
  {
    assert !ClosedEventValidates(Lines(text), check);
  }

  lemma {:induction false} DataEnds(text: string, check: string -> Option<string>, a: nat, p: Progress)
    requires p.Going? && Reading(Lines(text), check, a, |Lines(text)|, p.data, p.last, p.saw) && p.saw
    ensures if p.data != [] then Answers(text, false, check, Judged(check(Join(p.data, '\n'))))
            else p.last.Some? && Answers(text, false, check, Rejected(p.last.value))
  {
    var lines := Lines(text);
    EventEnds(lines, check, a, |lines|, p.data, p.last, p.saw);
    assert !ClosedEventValidates(lines, check) && AnyData(lines);
    if p.data != [] {
      OpenEventIs(lines, check, a, p.data);
    } else {
      assert !OpenEventValidates(lines, check);
    }
  }

  lemma {:induction false} OpenEventIs(lines: seq<Line>, check: string -> Option<string>, a: nat, data: seq<string>)
    requires IsEvent(lines, a, |lines|) && data == DataOf(lines[a..|lines|])
    requires forall a': nat | IsEvent(lines, a', |lines|) :: a' == a
    ensures OpenEventValidates(lines, check) <==> check(Join(data, '\n')).None?
  {
    assert Payload(lines, a, |lines|) == Join(data, '\n');
  }

  /** The fold over lines answers as it should. */
  lemma {:induction false} EndingAnswers(text: string, breaks: bool, check: string -> Option<string>)
    ensures Answers(text, breaks, check, Ending(After(Lines(text), check), text, breaks, check))
  {
    var lines := Lines(text);
    assert lines[..|lines|] == lines;
    var a := Follows(lines, check, |lines|);
    var p := After(lines, check);
    if p.Going? {
      TextEnds(text, check, a, p);
      if p.saw { DataEnds(text, check, a, p); }
    }
  }

  /** Of a body: the first 64 KiB are read, and its failure is seen only if it comes before that. */
  lemma {:induction false} BodyAnswers(body: string, fails: bool, check: string -> Option<string>)
    ensures
      var text := if |body| > 64 * 1024 then body[..64 * 1024] else body;
      Answers(text, fails && |body| < 64 * 1024, check, Ending(After(Lines(Seen(body)), check), Seen(body), Breaks(body, fails), check))
  {
    EndingAnswers(Seen(body), Breaks(body, fails), check);
  }

  /** The fold carried on from p. */
  function Resume(p: Progress, lines: seq<Line>, check: string -> Option<string>): Progress
    decreases |lines|
  {
    if lines == [] then p else Resume(Take(p, lines[0], check), lines[1..], check)
  }

  lemma {:induction false} ResumeIsAfter(taken: seq<Line>, others: seq<Line>, check: string -> Option<string>)
    ensures Resume(After(taken, check), others, check) == After(taken + others, check)
    decreases |others|
  {
    if others == [] {
      assert taken + others == taken;
    } else {
      var next := taken + [others[0]];
      assert next[..|taken|] == taken;
      assert next + others[1..] == taken + others;
      ResumeIsAfter(next, others[1..], check);
    }
  }

  lemma {:induction false} FoundStays(lines: seq<Line>, check: string -> Option<string>)
    ensures Resume(Found, lines, check) == Found
  {
    if lines != [] { FoundStays(lines[1..], check); }
  }

  lemma {:induction false} ResumeOne(p: Progress, line: Line, others: seq<Line>, check: string -> Option<string>)
    ensures Resume(p, [line] + others, check) == Resume(Take(p, line, check), others, check)
  {
    assert ([line] + others)[1..] == others;
  }

  /** The part of the loop that looks at a line. */
  method TakeLine(line: string, check: string -> Option<string>, data: seq<string>, last: Option<string>, saw: bool)
      returns (eventData: seq<string>, lastEventErr: Option<string>, sawSSE: bool, accepted: bool)
    requires saw || data == []
    ensures sawSSE || eventData == []
    ensures Take(Going(data, last, saw), Classify(line), check) == if accepted then Found else Going(eventData, lastEventErr, sawSSE)
  {
    eventData, lastEventErr, sawSSE, accepted := data, last, saw, false;
    var trimmed := Chomp(line);
    if DATA <= trimmed {
      sawSSE := true;
      eventData := eventData + [Trim(trimmed[|DATA|..])];
    } else if sawSSE && Trim(trimmed) == "" {
      if |eventData| > 0 {
        var err := check(Join(eventData, '\n'));
        if err.None? {
          accepted := true;
          return;
        }
        lastEventErr := err;
      }
      eventData := [];
    }
  }

  method ReadMCPProbeResult(body: string, fails: bool, check: string -> Option<string>) returns (outcome: Outcome)
    ensures outcome == Ending(After(Lines(Seen(body)), check), Seen(body), Breaks(body, fails), check)
  {
    var text := Seen(body);
    var rest, raw, more := text, "", true;
    var eventData: seq<string>, lastEventErr: Option<string>, sawSSE := [], None, false;
    ghost var result := After(Lines(text), check);
    ResumeIsAfter([], Lines(text), check);
    assert [] + Lines(text) == Lines(text);
    while more
      invariant raw + rest == text
      invariant !more ==> rest == ""
      invariant Resume(Going(eventData, lastEventErr, sawSSE), Lines(rest), check) == result
      invariant sawSSE || eventData == []
      decreases |rest|, more
    {
      var line;
      line, rest, more := ReadString(rest);
      if line != "" {
        assert (raw + line) + rest == raw + (line + rest) == text;
        raw := raw + line;
        ResumeOne(Going(eventData, lastEventErr, sawSSE), Classify(line), Lines(rest), check);
        var accepted;
        eventData, lastEventErr, sawSSE, accepted := TakeLine(line, check, eventData, lastEventErr, sawSSE);
        if accepted {
          FoundStays(Lines(rest), check);
          return Accepted;
        }
      }
    }
    assert raw == text;
    outcome := Conclude(raw, Breaks(body, fails), check, eventData, lastEventErr, sawSSE);
  }

  /** The part after the loop. */
  method Conclude(raw: string, breaks: bool, check: string -> Option<string>,
                  eventData: seq<string>, lastEventErr: Option<string>, sawSSE: bool) returns (outcome: Outcome)
    ensures outcome == Ending(Going(eventData, lastEventErr, sawSSE), raw, breaks, check)
  {
    if breaks {
      return ReadFailed;
    }
    if sawSSE {
      var last := lastEventErr;
      if |eventData| > 0 {
        var err := check(Join(eventData, '\n'));
        if err.None? {
          return Accepted;
        }
        last := err;
      }
      if last.Some? {
        return Rejected(last.value);
      }
      return MissingData;
    }
    var err := check(raw);
    outcome := if err.None? then Accepted else Rejected(err.value);
  }
}
