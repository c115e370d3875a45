// The spans a turn is exported as (internal/tracing/exporter.go).

module Spans {
  import opened Options
  import opened Transcript
  import opened SpanKeys
  import Builder

  const TWO_TO_THE_64: int := 0x1_0000_0000_0000_0000

  /** The attributes a span carries: a model call's, or a tool run's. */
  datatype Body =
    | LLMCall(model: string, calls: seq<ToolCall>, text: string, reasoning: string, usage: Option<Usage>, context: seq<ContextItem>)
    | ToolExecution(call: ToolCall)

  /** id and parent stand for the span ids hashed from the strings these keys render to. */
  datatype Span = Span(id: Key, parent: Option<Key>, start: int, end: int, failed: bool, body: Body)

  /** A time as the wire holds it: nothing is stamped for one that is not known. */
  function Instant(at: int, fallback: int): int {
    if at != ZERO_TIME then at % TWO_TO_THE_64
    else if fallback != ZERO_TIME then fallback % TWO_TO_THE_64
    else 0
  }

  function ParentOf(turn: Turn): Option<Key> {
    if turn.parentID == "" then None else Some(StepKey(turn.parentID, 0))
  }

  function CallSpan(turn: Turn, i: nat): Span
    requires i < |turn.steps|
  {
    var step := turn.steps[i];
    Span(StepKey(turn.id, i), ParentOf(turn), Instant(step.startedAt, turn.startedAt), Instant(step.endedAt, ZERO_TIME),
         false,
         LLMCall(if step.model == "" then turn.model else step.model, step.calls.View(), step.text, step.reasoning, step.usage, step.context))
  }

  function ToolSpan(turn: Turn, i: nat, j: nat): Span
    requires i < |turn.steps| && j < |turn.steps[i].calls.View()|
  {
    var call := turn.steps[i].calls.View()[j];
    Span(ToolKey(turn.id, i, j), Some(StepKey(turn.id, i)),
         Instant(call.startedAt, ZERO_TIME), Instant(call.endedAt, ZERO_TIME), call.error != "", ToolExecution(call))
  }

  function ToolSpans(turn: Turn, i: nat, n: nat): (spans: seq<Span>)
    requires i < |turn.steps| && n <= |turn.steps[i].calls.View()|
    ensures |spans| == n && forall j | 0 <= j < n :: spans[j] == ToolSpan(turn, i, j)
  {
    if n == 0 then [] else ToolSpans(turn, i, n - 1) + [ToolSpan(turn, i, n - 1)]
  }

  function StepSpans(turn: Turn, i: nat): seq<Span>
    requires i < |turn.steps|
  {
    [CallSpan(turn, i)] + ToolSpans(turn, i, |turn.steps[i].calls.View()|)
  }

  /** The spans of a turn's first n steps. */
  function SpansUpTo(turn: Turn, n: nat): seq<Span>
    requires n <= |turn.steps|
  {
    if n == 0 then [] else SpansUpTo(turn, n - 1) + StepSpans(turn, n - 1)
  }

  function TurnSpans(turn: Turn): seq<Span> {
    SpansUpTo(turn, |turn.steps|)
  }

  method ExportTurn(turn: Turn) returns (spans: seq<Span>)
    ensures spans == TurnSpans(turn)
  {
    var parent: Option<Key> := None;
    if turn.parentID != "" {
      parent := Some(StepKey(turn.parentID, 0));
    }
    spans := [];
    var i := 0;
    while i < |turn.steps|
      invariant 0 <= i <= |turn.steps|
      invariant parent == ParentOf(turn)
      invariant spans == SpansUpTo(turn, i)
    {
      var more := ExportStep(turn, i, parent);
      spans := spans + more;
      i := i + 1;
    }
  }

  method ExportStep(turn: Turn, i: nat, parent: Option<Key>) returns (spans: seq<Span>)
    requires i < |turn.steps| && parent == ParentOf(turn)
    ensures spans == StepSpans(turn, i)
  {
    var step := turn.steps[i];
    var model := if step.model == "" then turn.model else step.model;
    var call := Span(StepKey(turn.id, i), parent, Instant(step.startedAt, turn.startedAt), Instant(step.endedAt, ZERO_TIME), false,
                     LLMCall(model, step.calls.View(), step.text, step.reasoning, step.usage, step.context));
    var tools := ExportTools(turn, i, call.id);
    spans := [call] + tools;
  }

  method ExportTools(turn: Turn, i: nat, parent: Key) returns (spans: seq<Span>)
    requires i < |turn.steps| && parent == StepKey(turn.id, i)
    ensures spans == ToolSpans(turn, i, |turn.steps[i].calls.View()|)
  {
    var calls := turn.steps[i].calls.View();
    spans := [];
    var j := 0;
    while j < |calls|
      invariant 0 <= j <= |calls|
      invariant spans == ToolSpans(turn, i, j)
    {
      var tool := calls[j];
      spans := spans + [Span(ToolKey(turn.id, i, j), Some(parent), Instant(tool.startedAt, ZERO_TIME), Instant(tool.endedAt, ZERO_TIME),
                             tool.error != "", ToolExecution(tool))];
      j := j + 1;
    }
  }

  /** How many spans a turn's first n steps make: one each and one for each of their calls. */
  function SpanCount(turn: Turn, n: nat): nat
    requires n <= |turn.steps|
  {
    if n == 0 then 0 else SpanCount(turn, n - 1) + 1 + |turn.steps[n - 1].calls.View()|
  }

  lemma {:induction false} CountMatches(turn: Turn, n: nat)
    requires n <= |turn.steps|
    ensures |SpansUpTo(turn, n)| == SpanCount(turn, n)
  {
    if n > 0 {
      CountMatches(turn, n - 1);
    }
  }

  lemma {:induction false} EarlierStepsFirst(turn: Turn, m: nat, n: nat, all: seq<Span>)
    requires m <= n <= |turn.steps| && SpansUpTo(turn, n) <= all
    ensures SpansUpTo(turn, m) <= all
    decreases n
  {
    if m < n {
      PrefixOf(SpansUpTo(turn, n - 1), StepSpans(turn, n - 1), all, SpansUpTo(turn, n));
      EarlierStepsFirst(turn, m, n - 1, all);
    }
  }

  lemma {:induction false} PrefixOf(a: seq<Span>, more: seq<Span>, all: seq<Span>, both: seq<Span>)
    requires both == a + more && both <= all
    ensures a <= all
  {
  }

  /** Where step i's own span and its tools' spans stand in the list. */
  lemma {:induction false} StandsIn(turn: Turn, i: nat, all: seq<Span>)
    requires i < |turn.steps| && SpansUpTo(turn, i + 1) <= all
    ensures SpanCount(turn, i) + |StepSpans(turn, i)| == SpanCount(turn, i + 1) <= |all|
    ensures all[SpanCount(turn, i)..SpanCount(turn, i + 1)] == StepSpans(turn, i)
  {
    NextStep(turn, i);
    SliceAfter(SpansUpTo(turn, i), StepSpans(turn, i), all, SpansUpTo(turn, i + 1));
  }

  lemma {:induction false} NextStep(turn: Turn, i: nat)
    requires i < |turn.steps|
    ensures SpansUpTo(turn, i + 1) == SpansUpTo(turn, i) + StepSpans(turn, i)
    ensures |SpansUpTo(turn, i)| == SpanCount(turn, i) && |SpansUpTo(turn, i + 1)| == SpanCount(turn, i + 1)
  {
    CountMatches(turn, i);
    CountMatches(turn, i + 1);
  }

  lemma {:induction false} SliceAfter(before: seq<Span>, part: seq<Span>, all: seq<Span>, both: seq<Span>)
    requires both == before + part && both <= all
    ensures |before| + |part| == |both| <= |all| && all[|before|..|both|] == part
  {
    assert all[..|both|] == before + part;
  }

  /** Element by element. */
  lemma {:induction false} SpanPosition(turn: Turn, n: nat, i: nat, k: nat)
    requires i < n <= |turn.steps| && k <= |turn.steps[i].calls.View()|
    ensures
      var spans := SpansUpTo(turn, n);
      && SpanCount(turn, i) + k < |spans|
      && spans[SpanCount(turn, i) + k] == if k == 0 then CallSpan(turn, i) else ToolSpan(turn, i, k - 1)
  {
    var all := SpansUpTo(turn, n);
    EarlierStepsFirst(turn, i + 1, n, all);
    StandsAt(turn, all, i, k);
  }

  lemma {:induction false} StandsAt(turn: Turn, all: seq<Span>, i: nat, k: nat)
    requires i < |turn.steps| && k <= |turn.steps[i].calls.View()| && SpansUpTo(turn, i + 1) <= all
    ensures SpanCount(turn, i) + k < |all|
    ensures all[SpanCount(turn, i) + k] == if k == 0 then CallSpan(turn, i) else ToolSpan(turn, i, k - 1)
  {
    StandsIn(turn, i, all);
    StepSpanAt(turn, i, k);
    SliceElement(all, SpanCount(turn, i), SpanCount(turn, i + 1), StepSpans(turn, i), k);
  }

  lemma {:induction false} StepSpanAt(turn: Turn, i: nat, k: nat)
    requires i < |turn.steps| && k <= |turn.steps[i].calls.View()|
    ensures k < |StepSpans(turn, i)|
    ensures StepSpans(turn, i)[k] == if k == 0 then CallSpan(turn, i) else ToolSpan(turn, i, k - 1)
  {
  }

  lemma {:induction false} SliceElement(all: seq<Span>, from: nat, to: nat, part: seq<Span>, k: nat)
    requires from <= to <= |all| && all[from..to] == part && k < |part|
    ensures from + k < |all| && all[from + k] == part[k]
  {
  }

  /** stamp is the wire's unsigned 64-bit form of a time, or 0 where the time is not known. */
  ghost predicate Stamps(stamp: int, at: int) {
    && 0 <= stamp < TWO_TO_THE_64
    && (at == ZERO_TIME ==> stamp == 0)
    && (0 <= at < TWO_TO_THE_64 ==> stamp == at)
    && (at < 0 && at != ZERO_TIME && -at <= TWO_TO_THE_64 ==> stamp == TWO_TO_THE_64 + at)
  }

  lemma {:induction false} InstantStamps(at: int, fallback: int)
    ensures Stamps(Instant(at, fallback), if at == ZERO_TIME then fallback else at)
  {
    var from := if at == ZERO_TIME then fallback else at;
    if -TWO_TO_THE_64 <= from < 0 {
      assert (from + TWO_TO_THE_64) % TWO_TO_THE_64 == from % TWO_TO_THE_64;
    }
  }

  /** What the span under a key says: of a step's call, the step's own model, times, texts, usage
      and context; of a tool run, the call's own times and values, failed exactly when the call has
      an error. */
  ghost predicate Describes(turn: Turn, key: Key, span: Span) {
    match key
    case StepKey(subject, i) =>
      && subject == turn.id && i < |turn.steps| && span.id == key && !span.failed
      && (turn.parentID == "" ==> span.parent == None)
      && (turn.parentID != "" ==> span.parent == Some(StepKey(turn.parentID, 0)))
      && Stamps(span.start, if turn.steps[i].startedAt == ZERO_TIME then turn.startedAt else turn.steps[i].startedAt)
      && Stamps(span.end, turn.steps[i].endedAt)
      && span.body.LLMCall?
      && span.body.model == (if turn.steps[i].model != "" then turn.steps[i].model else turn.model)
      && span.body.calls == turn.steps[i].calls.View()
      && span.body.text == turn.steps[i].text && span.body.reasoning == turn.steps[i].reasoning
      && span.body.usage == turn.steps[i].usage && span.body.context == turn.steps[i].context
    case ToolKey(subject, i, j) =>
      && subject == turn.id && i < |turn.steps| && j < |turn.steps[i].calls.View()| && span.id == key
      && var call := turn.steps[i].calls.View()[j];
      && span.parent == Some(StepKey(turn.id, i))
      && (span.failed <==> call.error != "")
      && Stamps(span.start, call.startedAt) && Stamps(span.end, call.endedAt)
      && span.body == ToolExecution(call)
    case MessageKey(_) => false
  }

  function KeyAt(turn: Turn, i: nat, k: nat): Key {
    if k == 0 then StepKey(turn.id, i) else ToolKey(turn.id, i, k - 1)
  }

  /** Which step, and which of the step's spans, stands at a position. */
  lemma {:induction false} SpanAt(turn: Turn, n: nat, p: nat) returns (i: nat, k: nat)
    requires n <= |turn.steps| && p < SpanCount(turn, n)
    ensures i < n && k <= |turn.steps[i].calls.View()| && p == SpanCount(turn, i) + k
  {
    if p < SpanCount(turn, n - 1) {
      i, k := SpanAt(turn, n - 1, p);
    } else {
      i, k := n - 1, p - SpanCount(turn, n - 1);
    }
  }

  lemma {:induction false} SpanIs(turn: Turn, p: nat) returns (i: nat, k: nat)
    requires p < |TurnSpans(turn)|
    ensures i < |turn.steps| && k <= |turn.steps[i].calls.View()| && p == SpanCount(turn, i) + k
    ensures Describes(turn, KeyAt(turn, i, k), TurnSpans(turn)[p]) && TurnSpans(turn)[p].id == KeyAt(turn, i, k)
  {
    CountMatches(turn, |turn.steps|);
    i, k := SpanAt(turn, |turn.steps|, p);
    SpanPosition(turn, |turn.steps|, i, k);
    OwnSpans(turn, i, k);
  }

  lemma {:induction false} OwnSpans(turn: Turn, i: nat, k: nat)
    requires i < |turn.steps| && k <= |turn.steps[i].calls.View()|
    ensures Describes(turn, KeyAt(turn, i, k), if k == 0 then CallSpan(turn, i) else ToolSpan(turn, i, k - 1))
  {
    InstantStamps(turn.steps[i].startedAt, turn.startedAt);
    InstantStamps(turn.steps[i].endedAt, ZERO_TIME);
    if k > 0 {
      InstantStamps(turn.steps[i].calls.View()[k - 1].startedAt, ZERO_TIME);
      InstantStamps(turn.steps[i].calls.View()[k - 1].endedAt, ZERO_TIME);
    }
  }

  /** And the other way: the span of a step or of one of its calls stands in the list. */
  lemma {:induction false} SpanOf(turn: Turn, i: nat, k: nat) returns (p: nat)
    requires i < |turn.steps| && k <= |turn.steps[i].calls.View()|
    ensures p < |TurnSpans(turn)| && TurnSpans(turn)[p].id == KeyAt(turn, i, k)
    ensures Describes(turn, KeyAt(turn, i, k), TurnSpans(turn)[p])
  {
    SpanPosition(turn, |turn.steps|, i, k);
    OwnSpans(turn, i, k);
    p := SpanCount(turn, i) + k;
  }

  /** A turn's spans form a forest with one node per step and one per call: there are exactly
      that many, no two share an id, each describes its step or call, and a tool's parent is
      its own step's span, which stands earlier in the list. */
  lemma {:induction false} SpansFormForest(turn: Turn)
    ensures
      var spans := TurnSpans(turn);
      && |spans| == SpanCount(turn, |turn.steps|)
      && (forall a, b | 0 <= a < b < |spans| :: spans[a].id != spans[b].id)
      && (forall p | 0 <= p < |spans| :: Rooted(turn, p) && Describes(turn, spans[p].id, spans[p]))
      && forall i, k | 0 <= i < |turn.steps| && 0 <= k <= |turn.steps[i].calls.View()| :: Told(turn, KeyAt(turn, i, k))
  {
    var spans := TurnSpans(turn);
    CountMatches(turn, |turn.steps|);
    forall a, b | 0 <= a < b < |spans| ensures spans[a].id != spans[b].id {
      var i, k := SpanIs(turn, a);
      var j, l := SpanIs(turn, b);
    }
    forall p | 0 <= p < |spans| ensures Rooted(turn, p) && Describes(turn, spans[p].id, spans[p]) {
      var _, _ := SpanIs(turn, p);
      SpanRooted(turn, p);
    }
    forall i, k | 0 <= i < |turn.steps| && 0 <= k <= |turn.steps[i].calls.View()| ensures Told(turn, KeyAt(turn, i, k)) {
      var p := SpanOf(turn, i, k);
      assert TurnSpans(turn)[p].id == KeyAt(turn, i, k);
    }
  }

  /** Some span is exported under key. */
  ghost predicate Told(turn: Turn, key: Key) {
    exists p :: 0 <= p < |TurnSpans(turn)| && TurnSpans(turn)[p].id == key
  }

  /** A tool's parent is a call span that stands before it; a call's is the turn that delegated, if any. */
  ghost predicate Rooted(turn: Turn, p: nat)
    requires p < |TurnSpans(turn)|
  {
    var spans := TurnSpans(turn);
    if spans[p].body.LLMCall? then spans[p].parent == ParentOf(turn)
    else exists q :: 0 <= q < p && spans[q].body.LLMCall? && spans[p].parent == Some(spans[q].id)
  }

  lemma {:induction false} SpanRooted(turn: Turn, p: nat)
    requires p < |TurnSpans(turn)|
    ensures Rooted(turn, p)
  {
    var i, k := SpanIs(turn, p);
    SpanPosition(turn, |turn.steps|, i, 0);
    if k > 0 {
      var q := SpanCount(turn, i);
      assert TurnSpans(turn)[q].body.LLMCall? && TurnSpans(turn)[p].parent == Some(TurnSpans(turn)[q].id);
    }
  }

  /** Spans of turns with different ids never meet. */
  lemma {:induction false} TurnsDoNotMeet(a: Turn, b: Turn, x: nat, y: nat)
    requires a.id != b.id && x < |TurnSpans(a)| && y < |TurnSpans(b)|
    ensures Render(TurnSpans(a)[x].id) != Render(TurnSpans(b)[y].id)
  {
    var _, _ := SpanIs(a, x);
    var _, _ := SpanIs(b, y);
    KeysAreUnambiguous(TurnSpans(a)[x].id, TurnSpans(b)[y].id);
  }

  /** Some span of b has the id of a's span p, and both describe the same step or call. */
  ghost predicate Rewritten(a: Turn, b: Turn, p: nat)
    requires p < |TurnSpans(a)|
  {
    exists q, key ::
      && 0 <= q < |TurnSpans(b)| && TurnSpans(b)[q].id == TurnSpans(a)[p].id
      && Describes(a, key, TurnSpans(a)[p]) && Describes(b, key, TurnSpans(b)[q])
  }

  /** Every span exported before is exported again under the same id for the same step or
      call, once its turn has only grown: re-export lands on the rows already written. */
  lemma {:induction false} SpansAreRewritten(a: Turn, b: Turn, p: nat)
    requires Builder.TurnExtends(a, b) && p < |TurnSpans(a)|
    ensures Rewritten(a, b, p)
  {
    var i, k := SpanIs(a, p);
    assert Builder.CallsExtend(a.steps[i].calls.View(), b.steps[i].calls.View());
    var q := SpanOf(b, i, k);
    assert KeyAt(b, i, k) == KeyAt(a, i, k);
  }
}
