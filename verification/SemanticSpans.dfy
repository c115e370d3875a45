// Codex's log events turned into spans (internal/tracingproxy/semantic.go).

module SemanticSpans {
  // A span is held by pointer after it is emitted, so that usage arriving later lands on the
  // same one; the spans made so far are an arena and a pointer is an index into it.

  import opened Options
  import opened Strings

  const TWO_TO_THE_63: int := 0x8000_0000_0000_0000
  const TWO_TO_THE_64: int := 0x1_0000_0000_0000_0000
  const MILLISECOND: int := 1_000_000

  /** A time on the wire: 64 bits, unsigned. */
  type Word = n: int | 0 <= n < TWO_TO_THE_64

  datatype AttrValue = Text(text: string) | Int(number: int) | Flag(flag: bool) | OtherValue

  /** A log record, with its event time already read. */
  datatype Log = Log(name: string, kind: string, conversation: string, at: Word, attrs: map<string, AttrValue>)

  datatype Attr = Attr(key: string, value: AttrValue)

  datatype Kind = MessageSpan | CallSpan

  datatype Span = Span(
    kind: Kind, seed: string, id: int, parent: Option<int>, start: Word, end: Word, attrs: seq<Attr>, failed: bool)

  /** The proxy: the message being processed, the spans made, and by conversation the latest
      message and the latest call still without usage. */
  datatype State = State(messageID: string, spans: seq<Span>, messages: map<string, nat>, calls: map<string, nat>)

  const START := State("", [], map[], map[])

  predicate Digits(s: string) {
    s != "" && forall c | c in s :: IsDigit(c)
  }

  /** strconv.ParseInt to 64 bits in base ten. */
  function ParseInt(s: string): Option<int> {
    var negative := s != "" && s[0] == '-';
    var digits := if s != "" && (s[0] == '-' || s[0] == '+') then s[1..] else s;
    if !Digits(digits) then None
    else
      var magnitude: int := ParseDecimal(digits);
      var n := if negative then -magnitude else magnitude;
      if -TWO_TO_THE_63 <= n < TWO_TO_THE_63 then Some(n) else None
  }

  /** strconv.FormatInt in base ten. */
  function FormatInt(n: int): string {
    if n < 0 then "-" + Decimal(-n) else Decimal(n)
  }

  /** A count, which codex writes as a number or as a decimal string. */
  function Count(log: Log, key: string): Option<int> {
    if key !in log.attrs then None
    else
      match log.attrs[key]
      case Int(number) => Some(number)
      case Text(text) => ParseInt(Trim(text))
      case _ => None
  }

  function TextAttr(log: Log, key: string): string {
    if key !in log.attrs then ""
    else
      match log.attrs[key]
      case Text(text) => text
      case Int(number) => FormatInt(number)
      case Flag(flag) => if flag then "true" else "false"
      case OtherValue => ""
  }

  /** A count reads the same in both spellings, with or without space around the string. */
  lemma {:induction false} BothSpellingsCount(log: Log, key: string, n: int, spelled: string)
    requires -TWO_TO_THE_63 <= n < TWO_TO_THE_63 && Trim(spelled) == FormatInt(n)
    ensures Count(log.(attrs := log.attrs[key := Text(spelled)]), key) == Some(n)
    ensures Count(log.(attrs := log.attrs[key := Int(n)]), key) == Some(n)
    ensures Trim(FormatInt(n)) == FormatInt(n)
  {
    ParseFormatted(n);
    FormattedIsTrimmed(n);
  }

  lemma {:induction false} ParseFormatted(n: int)
    requires -TWO_TO_THE_63 <= n < TWO_TO_THE_63
    ensures ParseInt(FormatInt(n)) == Some(n)
  {
    var magnitude: nat := if n < 0 then -n else n;
    var s, digits := FormatInt(n), Decimal(magnitude);
    DecimalRoundTrip(magnitude);
    assert digits[0] in digits;
    assert n < 0 ==> s[0] == '-' && s[1..] == digits;
    assert Digits(digits);
  }

  lemma {:induction false} FormattedIsTrimmed(n: int)
    ensures Trim(FormatInt(n)) == FormatInt(n)
  {
    var magnitude: nat := if n < 0 then -n else n;
    var s, digits := FormatInt(n), Decimal(magnitude);
    assert digits[0] in digits && digits[|digits| - 1] in digits;
    assert s[|s| - 1] == digits[|digits| - 1];
    assert forall c :: IsDigit(c) ==> !IsSpace(c);
    TrimProperties(s);
  }

  function Counted(log: Log, source: string, key: string): seq<Attr> {
    var count := Count(log, source);
    if count.Some? then [Attr(key, Int(count.value))] else []
  }

  /** The usage attributes a completion carries. */
  function UsageAttrs(log: Log): seq<Attr> {
    Counted(log, "input_token_count", "gen_ai.usage.input_tokens") +
    Counted(log, "output_token_count", "gen_ai.usage.output_tokens") +
    Counted(log, "cached_token_count", "gen_ai.usage.cache_read.input_tokens") +
    Counted(log, "reasoning_token_count", "agyn.usage.reasoning_tokens")
  }

  /** A duration in milliseconds as the wire subtracts it, in 64-bit unsigned arithmetic. */
  function Back(log: Log): Word {
    var duration := Count(log, "duration_ms");
    if duration.Some? && duration.value > 0 then (duration.value * MILLISECOND) % TWO_TO_THE_64 else 0
  }

  function PromptAttrs(log: Log): seq<Attr> {
    [Attr("agyn.message.role", Text("user")), Attr("agyn.message.text", Text(TextAttr(log, "prompt")))] +
    Counted(log, "prompt_length", "agyn.message.length")
  }

  function CallAttrs(log: Log): seq<Attr> {
    [Attr("gen_ai.system", Text(TextAttr(log, "provider_name"))), Attr("gen_ai.request.model", Text(TextAttr(log, "model"))),
     Attr("agyn.llm.endpoint", Text(TextAttr(log, "endpoint")))] +
    Counted(log, "http.response.status_code", "http.response.status_code") + Counted(log, "attempt", "agyn.llm.attempt")
  }

  predicate Failed(log: Log) {
    var status := Count(log, "http.response.status_code");
    (status.Some? && status.value >= 400) || TextAttr(log, "error.message") != ""
  }

  /** What the proxy sees: the daemon sets the message, or codex logs something. drawn is the
      id drawn for the span. */
  datatype Event =
    | SetMessage(messageID: string)
    | Prompt(conversation: string, at: Word, attrs: seq<Attr>, drawn: int)
    | Request(conversation: string, at: Word, back: Word, attrs: seq<Attr>, failed: bool, drawn: int)
    | Completion(conversation: string, counts: seq<Attr>)
    | Untranslated

  /** The event a log record stands for. */
  function Read(log: Log, drawn: int): Event {
    if log.name == "codex.user_prompt" then Prompt(log.conversation, log.at, PromptAttrs(log), drawn)
    else if log.name == "codex.api_request" then
      Request(log.conversation, log.at, Back(log), CallAttrs(log), Failed(log), drawn)
    else if log.name == "codex.sse_event" && log.kind == "response.completed" then
      Completion(log.conversation, UsageAttrs(log))
    else Untranslated
  }

  function Seed(s: State, conversation: string): string {
    if s.messageID != "" then s.messageID else conversation
  }

  /** The message span a conversation's calls hang off. */
  function ParentOf(s: State, conversation: string): Option<nat> {
    if conversation != "" && conversation in s.messages then Some(s.messages[conversation]) else None
  }

  function MessageOf(s: State, e: Event): Span
    requires e.Prompt?
  {
    Span(MessageSpan, Seed(s, e.conversation), e.drawn, None, e.at, e.at, e.attrs, false)
  }

  /** A call's start as the wire has it, before its parent holds it back. */
  function RawStart(at: Word, back: Word): Word {
    (at - back) % TWO_TO_THE_64
  }

  function CallOf(s: State, e: Event): Span
    requires e.Request? && InRange(s)
  {
    var parent := ParentOf(s, e.conversation);
    var raw := RawStart(e.at, e.back);
    var start := if parent.Some? && raw < s.spans[parent.value].start then s.spans[parent.value].start else raw;
    Span(CallSpan, Seed(s, e.conversation), e.drawn, if parent.Some? then Some(s.spans[parent.value].id) else None,
         start, e.at, e.attrs, e.failed)
  }

  /** A completion that carries counts. */
  predicate IsUsage(e: Event) {
    e.Completion? && e.counts != []
  }

  predicate InRange(s: State) {
    && (forall c | c in s.messages :: s.messages[c] < |s.spans|)
    && forall c | c in s.calls :: s.calls[c] < |s.spans|
  }

  function Remembered(m: map<string, nat>, conversation: string, i: nat): map<string, nat> {
    if conversation == "" then m else m[conversation := i]
  }

  /** The state after an event. */
  function Handle(s: State, e: Event): (s': State)
    requires InRange(s)
    ensures InRange(s') && |s.spans| <= |s'.spans|
  {
    if e.SetMessage? then s.(messageID := e.messageID)
    else if e.Prompt? then
      s.(spans := s.spans + [MessageOf(s, e)],
         messages := Remembered(s.messages, e.conversation, |s.spans|))
    else if e.Request? then
      s.(spans := s.spans + [CallOf(s, e)],
         calls := Remembered(s.calls, e.conversation, |s.spans|))
    else if IsUsage(e) && Taken(s, e).Some? then
      var i := Taken(s, e).value;
      s.(spans := s.spans[i := s.spans[i].(attrs := s.spans[i].attrs + e.counts)],
         calls := s.calls - {e.conversation})
    else s
  }

  /** The call a completion takes. */
  function Taken(s: State, e: Event): Option<nat> {
    if IsUsage(e) && e.conversation != "" && e.conversation in s.calls then Some(s.calls[e.conversation]) else None
  }

  /** The span an event emits. */
  function Emitted(s: State, e: Event): Option<nat> {
    if e.Prompt? || e.Request? then Some(|s.spans|) else Taken(s, e)
  }

  function After(events: seq<Event>): (s: State)
    ensures InRange(s)
  {
    if events == [] then START else Handle(After(events[..|events| - 1]), events[|events| - 1])
  }

  /** The position in the arena of the span that event k makes. */
  function Place(events: seq<Event>, k: nat): nat
    requires k <= |events|
  {
    |After(events[..k]).spans|
  }

  predicate Makes(e: Event) {
    e.Prompt? || e.Request?
  }

  predicate RequestOf(e: Event, conversation: string) {
    e.Request? && e.conversation == conversation
  }

  /** What ends the wait of a held call of the conversation: the next request or the next counts. */
  predicate Concerns(e: Event, conversation: string) {
    (e.Request? || IsUsage(e)) && e.conversation == conversation
  }

  /** The first event after k to concern the conversation. */
  function NextConcern(events: seq<Event>, k: nat, conversation: string): (j: Option<nat>)
    requires k < |events|
    ensures j.Some? ==> k < j.value < |events| && Concerns(events[j.value], conversation)
    ensures forall i | k < i < |events| && (j.None? || i < j.value) :: !Concerns(events[i], conversation)
  {
    var n := |events| - 1;
    if n == k then None
    else
      var earlier := NextConcern(events[..n], k, conversation);
      if earlier.Some? then earlier
      else if Concerns(events[n], conversation) then Some(n) else None
  }

  /** The usage the call made by event k ends up with: the counts of its conversation's next
      completion, unless another request comes first. */
  function UsageFor(events: seq<Event>, k: nat): seq<Attr>
    requires k < |events| && events[k].Request?
  {
    var conversation := events[k].conversation;
    var j := NextConcern(events, k, conversation);
    if conversation != "" && j.Some? && IsUsage(events[j.value]) then events[j.value].counts else []
  }

  lemma {:induction false} PlacesGrow(events: seq<Event>, i: nat, k: nat)
    requires i < k <= |events|
    ensures Place(events, i) <= Place(events, k)
    ensures Makes(events[i]) ==> Place(events, i) < Place(events, k)
    decreases k
  {
    assert events[..k][..k - 1] == events[..k - 1];
    if i < k - 1 { PlacesGrow(events, i, k - 1); }
  }

  lemma {:induction false} PlacesDiffer(events: seq<Event>, i: nat, k: nat)
    requires i < |events| && k < |events| && Makes(events[i]) && Makes(events[k])
    requires Place(events, i) == Place(events, k)
    ensures i == k
  {
    if i < k { PlacesGrow(events, i, k); }
    if k < i { PlacesGrow(events, k, i); }
  }

  lemma {:induction false} PlaceOfPrefix(events: seq<Event>, n: nat, k: nat)
    requires k <= n <= |events|
    ensures Place(events[..n], k) == Place(events, k) && After(events[..n][..k]) == After(events[..k])
  {
    assert events[..n][..k] == events[..k];
  }

  /** An event's effect on one conversation's held call. */
  lemma {:induction false} StepCalls(s: State, e: Event, conversation: string)
    requires InRange(s) && conversation != ""
    ensures RequestOf(e, conversation) ==>
      conversation in Handle(s, e).calls && Handle(s, e).calls[conversation] == |s.spans|
    ensures Concerns(e, conversation) && IsUsage(e) ==> conversation !in Handle(s, e).calls
    ensures !Concerns(e, conversation) ==>
      (conversation in Handle(s, e).calls <==> conversation in s.calls) &&
      (conversation in s.calls ==> Handle(s, e).calls[conversation] == s.calls[conversation])
  {
  }

  /** An event's effect on a span already made. */
  lemma {:induction false} StepSpan(s: State, e: Event, i: nat)
    requires InRange(s) && i < |s.spans|
    ensures Taken(s, e) == Some(i) ==> Handle(s, e).spans[i] == s.spans[i].(attrs := s.spans[i].attrs + e.counts)
    ensures Taken(s, e) != Some(i) ==> Handle(s, e).spans[i] == s.spans[i]
  {
  }

  /** Only conversations with a name hold calls. */
  lemma {:induction false} HeldAreNamed(events: seq<Event>)
    ensures "" !in After(events).calls
  {
    if events != [] { HeldAreNamed(events[..|events| - 1]); }
  }

  lemma {:induction false} AfterStep(events: seq<Event>)
    requires events != []
    ensures var n := |events| - 1; After(events) == Handle(After(events[..n]), events[n]) && Place(events, n) == |After(events[..n]).spans|
  {
  }

  /** A held call was made by a request of the conversation it is held for. */
  lemma {:induction false} HeldWasRequested(events: seq<Event>, conversation: string) returns (k: nat)
    requires conversation in After(events).calls
    ensures k < |events| && RequestOf(events[k], conversation)
    ensures After(events).calls[conversation] == Place(events, k)
    decreases |events|
  {
    HeldAreNamed(events);
    var n := |events| - 1;
    var before := events[..n];
    StepCalls(After(before), events[n], conversation);
    if RequestOf(events[n], conversation) {
      k := n;
    } else {
      k := HeldWasRequested(before, conversation);
      PlaceOfPrefix(events, n, k);
    }
  }

  /** For conversations with a name: a call is the held one exactly while nothing since has
      concerned its conversation. */
  lemma {:induction false} HeldExactlyWhenUntaken(events: seq<Event>, k: nat)
    requires k < |events| && events[k].Request? && events[k].conversation != ""
    ensures var c := events[k].conversation;
      (c in After(events).calls && After(events).calls[c] == Place(events, k)) <==> NextConcern(events, k, c).None?
    decreases |events|
  {
    var n, c := |events| - 1, events[k].conversation;
    var before, e := events[..n], events[n];
    AfterStep(events);
    StepCalls(After(before), e, c);
    if k < n {
      HeldExactlyWhenUntaken(before, k);
      PlaceOfPrefix(events, n, k);
      PlacesGrow(events, k, n);
    }
  }

  /** The last event takes a call exactly when it is the first to concern it and carries counts. */
  lemma {:induction false} TakenExactlyWhenNext(events: seq<Event>, k: nat)
    requires k < |events| - 1 && events[k].Request?
    ensures var n, c := |events| - 1, events[k].conversation;
      Taken(After(events[..n]), events[n]) == Some(Place(events, k)) <==>
      c != "" && NextConcern(events[..n], k, c).None? && NextConcern(events, k, c).Some? && IsUsage(events[n])
  {
    var n, c := |events| - 1, events[k].conversation;
    var before, e := events[..n], events[n];
    var s := After(before);
    PlaceOfPrefix(events, n, k);
    if Taken(s, e).Some? {
      var i := HeldWasRequested(before, e.conversation);
      PlaceOfPrefix(events, n, i);
      if Place(events, i) == Place(events, k) {
        PlacesDiffer(events, i, k);
        assert e.conversation == c;
      }
    }
    if c != "" {
      HeldExactlyWhenUntaken(before, k);
    }
  }

  function With(span: Span, attrs: seq<Attr>): Span {
    span.(attrs := span.attrs + attrs)
  }

  lemma {:induction false} WithTwice(span: Span, a: seq<Attr>, b: seq<Attr>)
    ensures With(With(span, a), b) == With(span, a + b) && With(span, []) == span
  {
    assert span.attrs + a + b == span.attrs + (a + b);
    assert span.attrs + [] == span.attrs;
  }

  /** What the last event adds to the span event k made. */
  function Gained(events: seq<Event>, k: nat): seq<Attr>
    requires k < |events| - 1
  {
    var n := |events| - 1;
    if Taken(After(events[..n]), events[n]) == Some(Place(events, k)) then events[n].counts else []
  }

  lemma {:induction false} UsageForStep(events: seq<Event>, k: nat)
    requires k < |events| - 1 && events[k].Request?
    ensures var n := |events| - 1;
      UsageFor(events, k) == UsageFor(events[..n], k) + Gained(events, k)
  {
    TakenExactlyWhenNext(events, k);
  }

  /** The span as event k emits it. */
  function AsMade(events: seq<Event>, k: nat): Span
    requires k < |events| && Makes(events[k])
  {
    assert events[..k + 1][..k] == events[..k];
    After(events[..k + 1]).spans[Place(events, k)]
  }

  /** The span as it stands after the events. */
  function AsHeld(events: seq<Event>, k: nat): Span
    requires k < |events| && Makes(events[k])
  {
    PlacesGrow(events, k, |events|);
    assert events[..|events|] == events;
    After(events).spans[Place(events, k)]
  }

  lemma {:induction false} AsMadeOfPrefix(events: seq<Event>, k: nat)
    requires k < |events| - 1 && Makes(events[k])
    ensures AsMade(events[..|events| - 1], k) == AsMade(events, k)
  {
    var before := events[..|events| - 1];
    assert before[..k + 1] == events[..k + 1] && before[..k] == events[..k];
  }

  lemma {:induction false} HeldStep(events: seq<Event>, k: nat)
    requires k < |events| - 1 && Makes(events[k])
    ensures var n := |events| - 1;
      AsHeld(events, k) == With(AsHeld(events[..n], k), Gained(events, k))
  {
    var n := |events| - 1;
    AfterStep(events);
    PlaceOfPrefix(events, n, k);
    PlacesGrow(events, k, n);
    StepSpan(After(events[..n]), events[n], Place(events, k));
    assert AsHeld(events[..n], k).attrs + [] == AsHeld(events[..n], k).attrs;
  }

  /** Usage pairing, call by call: after any events, the span a request made is the span it was
      made as, with the counts of its conversation's next completion appended if no other
      request came first. So a call takes usage at most once, and only its own. */
  lemma {:induction false} CallKeepsItsUsage(events: seq<Event>, k: nat)
    requires k < |events| && events[k].Request?
    ensures AsHeld(events, k) == With(AsMade(events, k), UsageFor(events, k))
    decreases |events|
  {
    var made := AsMade(events, k);
    if k == |events| - 1 {
      assert events[..k + 1] == events;
      WithTwice(made, [], []);
    } else {
      var before := events[..|events| - 1];
      CallKeepsItsUsage(before, k);
      WithTwice(made, UsageFor(before, k), Gained(events, k));
      AsMadeOfPrefix(events, k);
      HeldStep(events, k);
      UsageForStep(events, k);
    }
  }

  /** Event k made the conversation's latest call before event j, and nothing has taken it. */
  predicate UntakenAt(events: seq<Event>, k: nat, j: nat, conversation: string)
    requires j <= |events|
  {
    && k < j && conversation != "" && RequestOf(events[k], conversation)
    && forall i | k < i < j :: !Concerns(events[i], conversation)
  }

  /** A completion with counts emits its conversation's latest untaken call, and nothing if
      there is none; one without counts changes nothing. */
  lemma {:induction false} UsageLandsOnLatestUntaken(events: seq<Event>, j: nat)
    requires j < |events| && events[j].Completion?
    ensures var before, conversation := After(events[..j]), events[j].conversation;
      if IsUsage(events[j])
      then
        && (forall k :: UntakenAt(events, k, j, conversation) ==> Emitted(before, events[j]) == Some(Place(events, k)))
        && (Emitted(before, events[j]).Some? ==> exists k :: UntakenAt(events, k, j, conversation))
      else Emitted(before, events[j]).None? && Handle(before, events[j]) == before
  {
    var before, conversation := After(events[..j]), events[j].conversation;
    if IsUsage(events[j]) {
      forall k | UntakenAt(events, k, j, conversation) ensures Emitted(before, events[j]) == Some(Place(events, k)) {
        HeldExactlyWhenUntaken(events[..j], k);
        PlaceOfPrefix(events, j, k);
      }
      if Emitted(before, events[j]).Some? {
        HeldAreNamed(events[..j]);
        var k := HeldWasRequested(events[..j], conversation);
        HeldExactlyWhenUntaken(events[..j], k);
        UntakenByPrefix(events, k, j, conversation);
      }
    }
  }

  lemma {:induction false} UntakenByPrefix(events: seq<Event>, k: nat, j: nat, conversation: string)
    requires k < j <= |events| && conversation != "" && RequestOf(events[k], conversation)
    requires NextConcern(events[..j], k, conversation).None?
    ensures UntakenAt(events, k, j, conversation)
  {
    forall i | k < i < j ensures !Concerns(events[i], conversation) {
      assert !Concerns(events[..j][i], conversation);
    }
  }

  predicate PromptOf(e: Event, conversation: string) {
    e.Prompt? && e.conversation == conversation
  }

  /** The latest prompt of a conversation that has a name. */
  function LatestPrompt(events: seq<Event>, conversation: string): (m: Option<nat>)
    ensures m.Some? ==> m.value < |events| && conversation != "" && PromptOf(events[m.value], conversation)
    ensures conversation != "" ==>
      forall i | 0 <= i < |events| && (m.None? || m.value < i) :: !PromptOf(events[i], conversation)
  {
    var n := |events| - 1;
    if conversation == "" || n < 0 then None
    else if PromptOf(events[n], conversation) then Some(n)
    else LatestPrompt(events[..n], conversation)
  }

  /** The message being processed: the last one the daemon set. */
  function LastSet(events: seq<Event>): string {
    var n := |events| - 1;
    if n < 0 then "" else if events[n].SetMessage? then events[n].messageID else LastSet(events[..n])
  }

  lemma {:induction false} MessageIsLastSet(events: seq<Event>)
    ensures After(events).messageID == LastSet(events)
  {
    if events != [] { MessageIsLastSet(events[..|events| - 1]); }
  }

  lemma {:induction false} MessageIsLatestPrompt(events: seq<Event>, conversation: string)
    requires conversation != ""
    ensures var m, messages := LatestPrompt(events, conversation), After(events).messages;
      (conversation in messages <==> m.Some?) && (m.Some? ==> messages[conversation] == Place(events, m.value))
  {
    if events != [] {
      var n := |events| - 1;
      MessageIsLatestPrompt(events[..n], conversation);
      StepMessages(After(events[..n]), events[n], conversation);
      AfterStep(events);
      var m := LatestPrompt(events[..n], conversation);
      if m.Some? { PlaceOfPrefix(events, n, m.value); }
    }
  }

  /** An event's effect on one conversation's message. */
  lemma {:induction false} StepMessages(s: State, e: Event, conversation: string)
    requires InRange(s) && conversation != ""
    ensures PromptOf(e, conversation) ==>
      conversation in Handle(s, e).messages && Handle(s, e).messages[conversation] == |s.spans|
    ensures !PromptOf(e, conversation) ==>
      (conversation in Handle(s, e).messages <==> conversation in s.messages) &&
      (conversation in s.messages ==> Handle(s, e).messages[conversation] == s.messages[conversation])
  {
  }

  /** Nothing changes a message's span after it is made. */
  lemma {:induction false} MessageSpanIsFinal(events: seq<Event>, k: nat)
    requires k < |events| && events[k].Prompt?
    ensures AsHeld(events, k) == AsMade(events, k)
    ensures AsMade(events, k).id == events[k].drawn && AsMade(events, k).start == events[k].at
    decreases |events|
  {
    if k == |events| - 1 {
      assert events[..k + 1] == events;
    } else {
      MessageSpanIsFinal(events[..|events| - 1], k);
      AsMadeOfPrefix(events, k);
      HeldStep(events, k);
      MessageGainsNothing(events, k);
      WithTwice(AsMade(events, k), [], []);
    }
  }

  lemma {:induction false} MessageGainsNothing(events: seq<Event>, k: nat)
    requires k < |events| - 1 && events[k].Prompt?
    ensures Gained(events, k) == []
  {
    var n := |events| - 1;
    if Taken(After(events[..n]), events[n]).Some? {
      var i := HeldWasRequested(events[..n], events[n].conversation);
      PlaceOfPrefix(events, n, i);
      if Place(events, i) == Place(events, k) { PlacesDiffer(events, i, k); }
    }
  }

  /** A call goes to the trace of the message last set, or else of its conversation, and hangs
      off the conversation's latest message: it never starts before it. Its times are in order
      exactly when its duration, as the wire has it, fits below its end and the message does
      not start after that. */
  lemma {:induction false} CallHangsOffItsMessage(events: seq<Event>, k: nat)
    requires k < |events| && events[k].Request?
    ensures var call, e := AsMade(events, k), events[k];
      var m := LatestPrompt(events[..k], e.conversation);
      && call.seed == (if LastSet(events[..k]) != "" then LastSet(events[..k]) else e.conversation)
      && call.id == events[k].drawn && call.end == e.at
      && (m.None? ==> call.parent == None)
      && (m.Some? ==> call.parent == Some(events[m.value].drawn) && events[m.value].at <= call.start)
      && (call.start <= call.end <==> e.back <= e.at && (m.Some? ==> events[m.value].at <= e.at))
  {
    var e := events[k];
    var before := events[..k];
    assert events[..k + 1][..k] == before;
    MessageIsLastSet(before);
    var m := LatestPrompt(before, e.conversation);
    if e.conversation != "" {
      MessageIsLatestPrompt(before, e.conversation);
      if m.Some? { MessageSpanIsFinal(before, m.value); }
    }
    BeginsBefore(e.at, e.back);
    assert AsMade(events, k) == CallOf(After(before), e);
  }

  lemma {:induction false} BeginsBefore(at: Word, back: Word)
    ensures RawStart(at, back) <= at <==> back <= at
  {
    if back <= at {
      assert 0 <= at - back < TWO_TO_THE_64;
    } else {
      assert RawStart(at, back) == at - back + TWO_TO_THE_64;
    }
  }

  function Reads(logs: seq<Log>, drawn: seq<int>): (events: seq<Event>)
    requires |drawn| == |logs|
    ensures |events| == |logs|
  {
    seq(|logs|, i requires 0 <= i < |logs| => Read(logs[i], drawn[i]))
  }

  /** The spans the events emit, in order, as they come after those before. */
  function Emissions(before: seq<Event>, events: seq<Event>): seq<nat> {
    if events == [] then []
    else
      var init := events[..|events| - 1];
      var span := Emitted(After(before + init), events[|events| - 1]);
      Emissions(before, init) + if span.Some? then [span.value] else []
  }

  lemma {:induction false} ReadsNext(before: seq<Event>, logs: seq<Log>, drawn: seq<int>, i: nat)
    requires |drawn| == |logs| && i < |logs|
    ensures
      var earlier, e := Reads(logs[..i], drawn[..i]), Read(logs[i], drawn[i]);
      && Reads(logs[..i + 1], drawn[..i + 1]) == earlier + [e]
      && After(before + (earlier + [e])) == Handle(After(before + earlier), e)
      && Emissions(before, earlier + [e]) == Emissions(before, earlier) +
           (if Emitted(After(before + earlier), e).Some? then [Emitted(After(before + earlier), e).value] else [])
  {
    var earlier, e := Reads(logs[..i], drawn[..i]), Read(logs[i], drawn[i]);
    assert Reads(logs[..i + 1], drawn[..i + 1]) == earlier + [e];
    OneMoreEvent(before, earlier, e);
  }

  lemma {:induction false} OneMoreEvent(before: seq<Event>, earlier: seq<Event>, e: Event)
    ensures After(before + (earlier + [e])) == Handle(After(before + earlier), e)
    ensures Emissions(before, earlier + [e]) == Emissions(before, earlier) +
      if Emitted(After(before + earlier), e).Some? then [Emitted(After(before + earlier), e).value] else []
  {
    var all, more := before + (earlier + [e]), earlier + [e];
    assert all[..|all| - 1] == before + earlier && all[|all| - 1] == e;
    assert more[..|more| - 1] == earlier && more[|more| - 1] == e;
  }

  class Proxy {
    var messageID: string
    var spans: seq<Span>
    var messageSpans: map<string, nat>
    var llmCalls: map<string, nat>

    ghost function View(): State
      reads this
    {
      State(messageID, spans, messageSpans, llmCalls)
    }

    constructor ()
      ensures View() == START
    {
      messageID, spans, messageSpans, llmCalls := "", [], map[], map[];
    }

    /** before is all that happened until then. */
    method SetMessageID(id: string, ghost before: seq<Event>)
      requires View() == After(before)
      modifies this`messageID
      ensures View() == After(before + [SetMessage(id)])
    {
      assert (before + [SetMessage(id)])[..|before|] == before;
      messageID := id;
    }

    method TraceSeed(log: Log) returns (seed: string)
      ensures seed == Seed(View(), log.conversation)
    {
      if messageID != "" {
        return messageID;
      }
      return log.conversation;
    }

    method Message(log: Log, drawn: int) returns (span: nat)
      requires InRange(View()) && log.name == "codex.user_prompt"
      modifies this
      ensures View() == Handle(old(View()), Read(log, drawn)) && span == |old(spans)|
    {
      var seed := TraceSeed(log);
      var attrs := [Attr("agyn.message.role", Text("user")), Attr("agyn.message.text", Text(TextAttr(log, "prompt")))];
      var length := Count(log, "prompt_length");
      if length.Some? {
        attrs := attrs + [Attr("agyn.message.length", Int(length.value))];
      }
      span := |spans|;
      assert attrs == PromptAttrs(log);
      spans := spans + [Span(MessageSpan, seed, drawn, None, log.at, log.at, attrs, false)];
      if log.conversation != "" {
        messageSpans := messageSpans[log.conversation := span];
      }
    }

    /** The attributes and status of a call, the lines of the source that build them. */
    method CallDetails(log: Log) returns (attrs: seq<Attr>, failed: bool)
      ensures attrs == CallAttrs(log) && failed == Failed(log)
    {
      attrs := [Attr("gen_ai.system", Text(TextAttr(log, "provider_name"))), Attr("gen_ai.request.model", Text(TextAttr(log, "model"))),
                Attr("agyn.llm.endpoint", Text(TextAttr(log, "endpoint")))];
      failed := false;
      ghost var base := attrs;
      var status := Count(log, "http.response.status_code");
      if status.Some? {
        attrs := attrs + [Attr("http.response.status_code", Int(status.value))];
        if status.value >= 400 {
          failed := true;
        }
      }
      assert attrs == base + Counted(log, "http.response.status_code", "http.response.status_code");
      var attempt := Count(log, "attempt");
      if attempt.Some? {
        attrs := attrs + [Attr("agyn.llm.attempt", Int(attempt.value))];
      }
      if TextAttr(log, "error.message") != "" {
        failed := true;
      }
    }

    method LLMCall(log: Log, drawn: int) returns (span: nat)
      requires InRange(View()) && log.name == "codex.api_request"
      modifies this
      ensures View() == Handle(old(View()), Read(log, drawn)) && span == |old(spans)|
    {
      var end := log.at;
      var start := end;
      var duration := Count(log, "duration_ms");
      if duration.Some? && duration.value > 0 {
        start := (end - (duration.value * MILLISECOND) % TWO_TO_THE_64) % TWO_TO_THE_64;
      }
      assert start == RawStart(end, Back(log));
      var parentID: Option<int> := None;
      if log.conversation != "" && log.conversation in messageSpans {
        var parent := spans[messageSpans[log.conversation]];
        parentID := Some(parent.id);
        if start < parent.start {
          start := parent.start;
        }
      }
      var seed := TraceSeed(log);
      var attrs, failed := CallDetails(log);
      span := |spans|;
      spans := spans + [Span(CallSpan, seed, drawn, parentID, start, end, attrs, failed)];
      if log.conversation != "" {
        llmCalls := llmCalls[log.conversation := span];
      }
    }

    method TakeLLMCall(conversation: string) returns (taken: Option<nat>)
      modifies this`llmCalls
      ensures taken == if conversation != "" && conversation in old(llmCalls) then Some(old(llmCalls)[conversation]) else None
      ensures llmCalls == if taken.Some? then old(llmCalls) - {conversation} else old(llmCalls)
    {
      if conversation == "" || conversation !in llmCalls {
        return None;
      }
      taken := Some(llmCalls[conversation]);
      llmCalls := llmCalls - {conversation};
    }

    method Usage(log: Log, drawn: int) returns (span: Option<nat>)
      requires InRange(View()) && log.name == "codex.sse_event" && log.kind == "response.completed"
      modifies this
      ensures View() == Handle(old(View()), Read(log, drawn)) && span == Taken(old(View()), Read(log, drawn))
    {
      var sources := ["input_token_count", "output_token_count", "cached_token_count", "reasoning_token_count"];
      var keys := ["gen_ai.usage.input_tokens", "gen_ai.usage.output_tokens", "gen_ai.usage.cache_read.input_tokens", "agyn.usage.reasoning_tokens"];
      var counted: seq<Attr> := [];
      var i := 0;
      while i < 4
        invariant 0 <= i <= 4
        invariant counted ==
          (if i > 0 then Counted(log, sources[0], keys[0]) else []) + (if i > 1 then Counted(log, sources[1], keys[1]) else []) +
          (if i > 2 then Counted(log, sources[2], keys[2]) else []) + (if i > 3 then Counted(log, sources[3], keys[3]) else [])
      {
        var count := Count(log, sources[i]);
        if count.Some? {
          counted := counted + [Attr(keys[i], Int(count.value))];
        }
        i := i + 1;
      }
      if |counted| == 0 {
        return None;
      }
      span := TakeLLMCall(log.conversation);
      if span.Some? {
        var k := span.value;
        spans := spans[k := spans[k].(attrs := spans[k].attrs + counted)];
      }
    }

    method SpanForRecord(log: Log, drawn: int) returns (span: Option<nat>)
      requires InRange(View())
      modifies this
      ensures View() == Handle(old(View()), Read(log, drawn)) && span == Emitted(old(View()), Read(log, drawn))
    {
      span := None;
      if log.name == "codex.user_prompt" {
        var i := Message(log, drawn);
        span := Some(i);
      } else if log.name == "codex.api_request" {
        var i := LLMCall(log, drawn);
        span := Some(i);
      } else if log.name == "codex.sse_event" && log.kind == "response.completed" {
        span := Usage(log, drawn);
      }
    }

    /** One export of logs: the spans of the records that yield one, in order. before is all that
        happened until then. */
    method Export(logs: seq<Log>, drawn: seq<int>, ghost before: seq<Event>) returns (emitted: seq<nat>)
      requires |drawn| == |logs| && View() == After(before)
      modifies this
      ensures View() == After(before + Reads(logs, drawn))
      ensures emitted == Emissions(before, Reads(logs, drawn))
    {
      emitted := [];
      var i := 0;
      assert before + Reads(logs[..0], drawn[..0]) == before;
      while i < |logs|
        invariant 0 <= i <= |logs|
        invariant View() == After(before + Reads(logs[..i], drawn[..i]))
        invariant emitted == Emissions(before, Reads(logs[..i], drawn[..i]))
      {
        ReadsNext(before, logs, drawn, i);
        var span := SpanForRecord(logs[i], drawn[i]);
        if span.Some? {
          emitted := emitted + [span.value];
        }
        i := i + 1;
      }
      assert logs[..i] == logs && drawn[..i] == drawn;
    }
  }
}
