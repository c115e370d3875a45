// What a log record comes to (internal/tracingproxy/semantic.go).

module LogRecords {
  // From its attributes alone: which keys are read, under which keys they are written, and when
  // a call counts as failed.

  import opened Options
  import opened Strings
  import opened SemanticSpans

  /** A decimal spelling of n, with or without a sign. */
  ghost predicate Spells(s: string, n: int) {
    exists digits: string :: SpelledBy(s, digits, n)
  }

  predicate SpelledBy(s: string, digits: string, n: int) {
    && digits != "" && (forall c | c in digits :: IsDigit(c))
    && (((s == digits || s == "+" + digits) && n == ParseDecimal(digits)) || (s == "-" + digits && n + ParseDecimal(digits) == 0))
  }

  /** The attribute is a 64-bit count: a number, or a string that spells one. */
  ghost predicate Numbers(log: Log, key: string, n: int) {
    && key in log.attrs
    && (log.attrs[key] == Int(n)
        || (log.attrs[key].Text? && Spells(Trim(log.attrs[key].text), n) && -0x8000_0000_0000_0000 <= n < 0x8000_0000_0000_0000))
  }

  ghost predicate NoNumber(log: Log, key: string) {
    forall n :: !Numbers(log, key, n)
  }

  lemma {:induction false} SignedSpells(s: string)
    ensures ParseInt(s).Some? ==> Spells(s, ParseInt(s).value)
  {
    if ParseInt(s).Some? {
      var digits := if s != "" && (s[0] == '-' || s[0] == '+') then s[1..] else s;
      assert s == digits || s == [s[0]] + digits;
      assert SpelledBy(s, digits, ParseInt(s).value);
    }
  }

  lemma {:induction false} SpellingParses(s: string, n: int)
    requires Spells(s, n) && -0x8000_0000_0000_0000 <= n < 0x8000_0000_0000_0000
    ensures ParseInt(s) == Some(n)
  {
    var digits :| SpelledBy(s, digits, n);
    assert digits[0] in digits;
    if s != digits {
      assert s[1..] == digits;
    }
  }

  /** What is read as a count, exactly. */
  lemma {:induction false} CountNumbers(log: Log, key: string, n: int)
    ensures Count(log, key) == Some(n) <==> Numbers(log, key, n)
  {
    if key in log.attrs && log.attrs[key].Text? {
      var s := Trim(log.attrs[key].text);
      SignedSpells(s);
      if Numbers(log, key, n) {
        SpellingParses(s, n);
      }
    }
  }

  /** The attribute read as text: absent reads as empty. */
  ghost predicate Tells(log: Log, key: string, text: string) {
    if key !in log.attrs then text == ""
    else
      match log.attrs[key]
      case Text(own) => text == own
      case Int(n) => text == if n < 0 then "-" + Decimal(-n) else Decimal(n)
      case Flag(flag) => text == if flag then "true" else "false"
      case OtherValue => text == ""
  }

  /** The attribute written under key is the count read from source, and nothing is written
      under it when there is none. */
  ghost predicate Copied(log: Log, source: string, key: string, attrs: seq<Attr>) {
    && (forall i | 0 <= i < |attrs| && attrs[i].key == key :: attrs[i].value.Int? && Numbers(log, source, attrs[i].value.number))
    && (forall n | Numbers(log, source, n) :: Attr(key, Int(n)) in attrs)
  }

  ghost predicate KeysOnce(attrs: seq<Attr>, keys: set<string>) {
    && (forall i | 0 <= i < |attrs| :: attrs[i].key in keys)
    && forall i, j | 0 <= i < j < |attrs| :: attrs[i].key != attrs[j].key
  }

  lemma {:induction false} CountedIs(log: Log, source: string, key: string)
    ensures NoNumber(log, source) <==> Counted(log, source, key) == []
    ensures Counted(log, source, key) != [] ==>
      |Counted(log, source, key)| == 1 && Counted(log, source, key)[0].key == key && Counted(log, source, key)[0].value.Int?
      && forall n :: Numbers(log, source, n) <==> n == Counted(log, source, key)[0].value.number
  {
    forall n ensures Numbers(log, source, n) <==> Count(log, source) == Some(n) {
      CountNumbers(log, source, n);
    }
    if Count(log, source).Some? {
      assert Numbers(log, source, Count(log, source).value);
    }
  }

  // ---- Completions ----

  ghost predicate HasCounts(log: Log) {
    !(NoNumber(log, "input_token_count") && NoNumber(log, "output_token_count")
      && NoNumber(log, "cached_token_count") && NoNumber(log, "reasoning_token_count"))
  }

  /** Each count under its key, and nothing else. */
  ghost predicate CarriesCounts(log: Log, attrs: seq<Attr>) {
    && KeysOnce(attrs, {"gen_ai.usage.input_tokens", "gen_ai.usage.output_tokens",
                        "gen_ai.usage.cache_read.input_tokens", "agyn.usage.reasoning_tokens"})
    && Copied(log, "input_token_count", "gen_ai.usage.input_tokens", attrs)
    && Copied(log, "output_token_count", "gen_ai.usage.output_tokens", attrs)
    && Copied(log, "cached_token_count", "gen_ai.usage.cache_read.input_tokens", attrs)
    && Copied(log, "reasoning_token_count", "agyn.usage.reasoning_tokens", attrs)
  }

  /** At most one attribute, under this key. */
  predicate Under(key: string, attrs: seq<Attr>) {
    |attrs| <= 1 && (attrs != [] ==> attrs[0].key == key)
  }

  lemma {:induction false} CopiedAlone(log: Log, source: string, key: string)
    ensures Under(key, Counted(log, source, key)) && Copied(log, source, key, Counted(log, source, key))
  {
    CountedIs(log, source, key);
  }

  /** Copied into the whole, whose other attributes have other keys. */
  lemma {:induction false} CopiedAmong(log: Log, source: string, key: string, own: seq<Attr>, whole: seq<Attr>)
    requires Copied(log, source, key, own)
    requires forall attr | attr in own :: attr in whole
    requires forall attr | attr in whole :: attr in own || attr.key != key
    ensures Copied(log, source, key, whole)
  {
    forall i | 0 <= i < |whole| && whole[i].key == key
      ensures whole[i].value.Int? && Numbers(log, source, whole[i].value.number)
    {
      assert whole[i] in own;
    }
  }

  lemma {:induction false} FourMembers(a: seq<Attr>, b: seq<Attr>, c: seq<Attr>, d: seq<Attr>)
    ensures forall attr :: attr in a + b + c + d <==> attr in a || attr in b || attr in c || attr in d
  {
  }

  lemma {:induction false} UnderKey(key: string, attrs: seq<Attr>)
    requires Under(key, attrs)
    ensures forall attr | attr in attrs :: attr.key == key
  {
  }

  lemma {:induction false} KeysTogether(a: seq<Attr>, b: seq<Attr>, ka: set<string>, kb: set<string>)
    requires KeysOnce(a, ka) && KeysOnce(b, kb) && ka !! kb
    ensures KeysOnce(a + b, ka + kb)
  {
  }

  lemma {:induction false} FourKeys(a: seq<Attr>, b: seq<Attr>, c: seq<Attr>, d: seq<Attr>, ka: string, kb: string, kc: string, kd: string)
    requires Under(ka, a) && Under(kb, b) && Under(kc, c) && Under(kd, d)
    requires ka != kb && ka != kc && ka != kd && kb != kc && kb != kd && kc != kd
    ensures KeysOnce(a + b + c + d, {ka, kb, kc, kd})
  {
    KeysTogether(a, b, {ka}, {kb});
    KeysTogether(a + b, c, {ka, kb}, {kc});
    KeysTogether(a + b + c, d, {ka, kb, kc}, {kd});
  }

  lemma {:induction false} FourCopied(log: Log, a: seq<Attr>, b: seq<Attr>, c: seq<Attr>, d: seq<Attr>, whole: seq<Attr>)
    requires Under("gen_ai.usage.input_tokens", a) && Copied(log, "input_token_count", "gen_ai.usage.input_tokens", a)
    requires Under("gen_ai.usage.output_tokens", b) && Copied(log, "output_token_count", "gen_ai.usage.output_tokens", b)
    requires Under("gen_ai.usage.cache_read.input_tokens", c) && Copied(log, "cached_token_count", "gen_ai.usage.cache_read.input_tokens", c)
    requires Under("agyn.usage.reasoning_tokens", d) && Copied(log, "reasoning_token_count", "agyn.usage.reasoning_tokens", d)
    requires forall attr :: attr in whole <==> attr in a || attr in b || attr in c || attr in d
    ensures Copied(log, "input_token_count", "gen_ai.usage.input_tokens", whole)
    ensures Copied(log, "output_token_count", "gen_ai.usage.output_tokens", whole)
    ensures Copied(log, "cached_token_count", "gen_ai.usage.cache_read.input_tokens", whole)
    ensures Copied(log, "reasoning_token_count", "agyn.usage.reasoning_tokens", whole)
  {
    UnderKey("gen_ai.usage.input_tokens", a);
    UnderKey("gen_ai.usage.output_tokens", b);
    UnderKey("gen_ai.usage.cache_read.input_tokens", c);
    UnderKey("agyn.usage.reasoning_tokens", d);
    CopiedAmong(log, "input_token_count", "gen_ai.usage.input_tokens", a, whole);
    CopiedAmong(log, "output_token_count", "gen_ai.usage.output_tokens", b, whole);
    CopiedAmong(log, "cached_token_count", "gen_ai.usage.cache_read.input_tokens", c, whole);
    CopiedAmong(log, "reasoning_token_count", "agyn.usage.reasoning_tokens", d, whole);
  }

  lemma {:induction false} CountsAreCarried(log: Log)
    ensures CarriesCounts(log, UsageAttrs(log))
    ensures UsageAttrs(log) != [] <==> HasCounts(log)
  {
    CopiedAlone(log, "input_token_count", "gen_ai.usage.input_tokens");
    CopiedAlone(log, "output_token_count", "gen_ai.usage.output_tokens");
    CopiedAlone(log, "cached_token_count", "gen_ai.usage.cache_read.input_tokens");
    CopiedAlone(log, "reasoning_token_count", "agyn.usage.reasoning_tokens");
    var a, b := Counted(log, "input_token_count", "gen_ai.usage.input_tokens"), Counted(log, "output_token_count", "gen_ai.usage.output_tokens");
    var c := Counted(log, "cached_token_count", "gen_ai.usage.cache_read.input_tokens");
    var d := Counted(log, "reasoning_token_count", "agyn.usage.reasoning_tokens");
    FourMembers(a, b, c, d);
    FourCopied(log, a, b, c, d, UsageAttrs(log));
    FourKeys(a, b, c, d, "gen_ai.usage.input_tokens", "gen_ai.usage.output_tokens",
             "gen_ai.usage.cache_read.input_tokens", "agyn.usage.reasoning_tokens");
    SomeCounted(log);
  }

  lemma {:induction false} SomeCounted(log: Log)
    ensures UsageAttrs(log) != [] <==> HasCounts(log)
  {
    CountedIs(log, "input_token_count", "gen_ai.usage.input_tokens");
    CountedIs(log, "output_token_count", "gen_ai.usage.output_tokens");
    CountedIs(log, "cached_token_count", "gen_ai.usage.cache_read.input_tokens");
    CountedIs(log, "reasoning_token_count", "agyn.usage.reasoning_tokens");
  }

  /** What a record of a completed response does: with counts, and a call of its conversation
      held, that call's span gains the counts, each under its key, is emitted, and is held no
      longer; otherwise nothing happens. */
  lemma {:induction false} CompletionAddsCounts(s: State, log: Log, drawn: int)
    requires InRange(s) && log.name == "codex.sse_event" && log.kind == "response.completed"
    ensures
      var s', emitted := Handle(s, Read(log, drawn)), Emitted(s, Read(log, drawn));
      if HasCounts(log) && log.conversation != "" && log.conversation in s.calls then
        var i := s.calls[log.conversation];
        var was, now := s.spans[i], s'.spans[i];
        && emitted == Some(i) && |s'.spans| == |s.spans| && (forall j | 0 <= j < |s.spans| && j != i :: s'.spans[j] == s.spans[j])
        && now.(attrs := []) == was.(attrs := []) && was.attrs <= now.attrs && CarriesCounts(log, now.attrs[|was.attrs|..])
        && s'.calls == s.calls - {log.conversation} && s'.messages == s.messages && s'.messageID == s.messageID
      else s' == s && emitted == None
  {
    CountsAreCarried(log);
    if HasCounts(log) && log.conversation != "" && log.conversation in s.calls {
      var i := s.calls[log.conversation];
      assert (s.spans[i].attrs + UsageAttrs(log))[|s.spans[i].attrs|..] == UsageAttrs(log);
    }
  }

  // ---- Requests and prompts ----

  /** A span is made and emitted, and remembered for its conversation in the one map; the spans
      there were stand. */
  ghost predicate Made(s: State, s': State, emitted: Option<nat>, log: Log, was: map<string, nat>, now: map<string, nat>) {
    && |s'.spans| == |s.spans| + 1 && s'.spans[..|s.spans|] == s.spans && emitted == Some(|s.spans|) && s'.messageID == s.messageID
    && now == if log.conversation == "" then was else was[log.conversation := |s.spans|]
  }

  ghost predicate FailsAt(log: Log) {
    (exists status :: Numbers(log, "http.response.status_code", status) && status >= 400) || !Tells(log, "error.message", "")
  }

  /** Where a call of this length that ended at `at` began, on the wire's 64 bits. */
  ghost predicate BeginsBack(log: Log, start: int) {
    && (forall d | Numbers(log, "duration_ms", d) && d > 0 && d * 1_000_000 <= log.at :: start == log.at - d * 1_000_000)
    && ((forall d | Numbers(log, "duration_ms", d) :: d <= 0) ==> start == log.at)
  }

  lemma {:induction false} BackBegins(log: Log)
    ensures BeginsBack(log, RawStart(log.at, Back(log)))
  {
    forall n ensures Numbers(log, "duration_ms", n) <==> Count(log, "duration_ms") == Some(n) {
      CountNumbers(log, "duration_ms", n);
    }
    var duration := Count(log, "duration_ms");
    if duration.Some? {
      assert Numbers(log, "duration_ms", duration.value);
      var d := duration.value;
      if d > 0 && d * 1_000_000 <= log.at {
        assert Back(log) == d * 1_000_000;
        assert RawStart(log.at, Back(log)) == log.at - d * 1_000_000;
      }
    }
  }

  /** What a call's span says of its record. */
  ghost predicate DescribesCall(s: State, log: Log, drawn: int, span: Span)
    requires InRange(s)
  {
    && span.kind == CallSpan && span.id == drawn && span.end == log.at && (span.failed <==> FailsAt(log))
    && span.seed == (if s.messageID != "" then s.messageID else log.conversation)
    && (if log.conversation != "" && log.conversation in s.messages then
          var message := s.spans[s.messages[log.conversation]];
          && span.parent == Some(message.id) && span.start >= message.start
          && exists raw :: BeginsBack(log, raw) && span.start == if raw < message.start then message.start else raw
        else span.parent == None && BeginsBack(log, span.start))
    && |span.attrs| >= 3
    && span.attrs[0].key == "gen_ai.system" && span.attrs[0].value.Text? && Tells(log, "provider_name", span.attrs[0].value.text)
    && span.attrs[1].key == "gen_ai.request.model" && span.attrs[1].value.Text? && Tells(log, "model", span.attrs[1].value.text)
    && span.attrs[2].key == "agyn.llm.endpoint" && span.attrs[2].value.Text? && Tells(log, "endpoint", span.attrs[2].value.text)
    && CarriesOutcome(log, span.attrs[3..])
  }

  lemma {:induction false} ThreeFirst(head: seq<Attr>, a: seq<Attr>, b: seq<Attr>, whole: seq<Attr>)
    requires |head| == 3 && whole == head + a + b
    ensures whole[3..] == a + b
  {
  }

  ghost predicate CarriesOutcome(log: Log, attrs: seq<Attr>) {
    && KeysOnce(attrs, {"http.response.status_code", "agyn.llm.attempt"})
    && Copied(log, "http.response.status_code", "http.response.status_code", attrs)
    && Copied(log, "attempt", "agyn.llm.attempt", attrs)
  }

  lemma {:induction false} OutcomeCarried(log: Log, status: seq<Attr>, attempt: seq<Attr>)
    requires Under("http.response.status_code", status) && Copied(log, "http.response.status_code", "http.response.status_code", status)
    requires Under("agyn.llm.attempt", attempt) && Copied(log, "attempt", "agyn.llm.attempt", attempt)
    ensures CarriesOutcome(log, status + attempt)
  {
    UnderKey("http.response.status_code", status);
    UnderKey("agyn.llm.attempt", attempt);
    CopiedAmong(log, "http.response.status_code", "http.response.status_code", status, status + attempt);
    CopiedAmong(log, "attempt", "agyn.llm.attempt", attempt, status + attempt);
    KeysTogether(status, attempt, {"http.response.status_code"}, {"agyn.llm.attempt"});
    assert {"http.response.status_code"} + {"agyn.llm.attempt"} == {"http.response.status_code", "agyn.llm.attempt"};
  }

  lemma {:induction false} CallAttrsDescribe(log: Log)
    ensures
      var attrs := CallAttrs(log);
      && |attrs| >= 3
      && attrs[0] == Attr("gen_ai.system", Text(TextAttr(log, "provider_name")))
      && attrs[1] == Attr("gen_ai.request.model", Text(TextAttr(log, "model")))
      && attrs[2] == Attr("agyn.llm.endpoint", Text(TextAttr(log, "endpoint")))
      && CarriesOutcome(log, attrs[3..])
  {
    var status, attempt := Counted(log, "http.response.status_code", "http.response.status_code"), Counted(log, "attempt", "agyn.llm.attempt");
    CopiedAlone(log, "http.response.status_code", "http.response.status_code");
    CopiedAlone(log, "attempt", "agyn.llm.attempt");
    OutcomeCarried(log, status, attempt);
    ThreeFirst(CallAttrs(log)[..3], status, attempt, CallAttrs(log));
  }

  lemma {:induction false} FailedIs(log: Log)
    ensures Failed(log) <==> FailsAt(log)
  {
    forall n ensures Numbers(log, "http.response.status_code", n) <==> Count(log, "http.response.status_code") == Some(n) {
      CountNumbers(log, "http.response.status_code", n);
    }
    TellsText(log, "error.message");
  }

  lemma {:induction false} TellsText(log: Log, key: string)
    ensures forall text :: Tells(log, key, text) <==> text == TextAttr(log, key)
  {
  }

  /** What a record of an API request does: its span, from its attributes and its
      conversation's message, is made, emitted and held for usage. */
  lemma {:induction false} RequestMakesCall(s: State, log: Log, drawn: int)
    requires InRange(s) && log.name == "codex.api_request"
    ensures
      var s', emitted := Handle(s, Read(log, drawn)), Emitted(s, Read(log, drawn));
      && Made(s, s', emitted, log, s.calls, s'.calls) && s'.messages == s.messages
      && DescribesCall(s, log, drawn, s'.spans[|s.spans|])
  {
    var s' := Handle(s, Read(log, drawn));
    BackBegins(log);
    FailedIs(log);
    CallAttrsDescribe(log);
    TellsText(log, "provider_name");
    TellsText(log, "model");
    TellsText(log, "endpoint");
    assert s'.spans[|s.spans|] == CallOf(s, Read(log, drawn));
  }

  ghost predicate DescribesPrompt(s: State, log: Log, drawn: int, span: Span) {
    && span.kind == MessageSpan && span.id == drawn && span.parent == None && !span.failed && span.start == span.end == log.at
    && span.seed == (if s.messageID != "" then s.messageID else log.conversation)
    && |span.attrs| >= 2 && span.attrs[0] == Attr("agyn.message.role", Text("user"))
    && span.attrs[1].key == "agyn.message.text" && span.attrs[1].value.Text? && Tells(log, "prompt", span.attrs[1].value.text)
    && KeysOnce(span.attrs[2..], {"agyn.message.length"}) && Copied(log, "prompt_length", "agyn.message.length", span.attrs[2..])
  }

  /** What a record of a prompt does: its message span is made and emitted, and becomes its
      conversation's message. */
  lemma {:induction false} PromptMakesMessage(s: State, log: Log, drawn: int)
    requires InRange(s) && log.name == "codex.user_prompt"
    ensures
      var s', emitted := Handle(s, Read(log, drawn)), Emitted(s, Read(log, drawn));
      && Made(s, s', emitted, log, s.messages, s'.messages) && s'.calls == s.calls
      && DescribesPrompt(s, log, drawn, s'.spans[|s.spans|])
  {
    CountedIs(log, "prompt_length", "agyn.message.length");
    TellsText(log, "prompt");
    assert PromptAttrs(log)[2..] == Counted(log, "prompt_length", "agyn.message.length");
  }

  /** Any other record changes and emits nothing. */
  lemma {:induction false} OthersDoNothing(s: State, log: Log, drawn: int)
    requires InRange(s) && log.name !in {"codex.user_prompt", "codex.api_request"}
    requires log.name != "codex.sse_event" || log.kind != "response.completed"
    ensures Handle(s, Read(log, drawn)) == s && Emitted(s, Read(log, drawn)) == None
  {
  }
}
