// A span's id is a hash of a string naming what the span describes (internal/tracing/exporter.go).
// The strings are what is modelled here.

module SpanKeys {
  import opened Options
  import opened Strings

  /** What a span describes: a message, a model call of a turn, or a tool run of a call. */
  datatype Key = MessageKey(subject: string) | StepKey(subject: string, step: nat) | ToolKey(subject: string, step: nat, tool: nat)

  /** The string SpanID hashes for a subject and a part. */
  function SpanID(subject: string, part: string): string {
    "agyn.span." + subject + "." + part
  }

  function Part(key: Key): string {
    match key
    case MessageKey(_) => "message"
    case StepKey(_, step) => "step." + Decimal(step)
    case ToolKey(_, step, tool) => "step." + Decimal(step) + ".tool." + Decimal(tool)
  }

  function Render(key: Key): string {
    SpanID(key.subject, Part(key))
  }

  /** The string cut at its last dot. */
  function Cut(s: string): Option<(string, string)> {
    if s == "" then None
    else if s[|s| - 1] == '.' then Some((s[..|s| - 1], ""))
    else
      var rest := Cut(s[..|s| - 1]);
      if rest.None? then None else Some((rest.value.0, rest.value.1 + [s[|s| - 1]]))
  }

  lemma {:induction false} CutAt(head: string, tail: string)
    requires '.' !in tail
    ensures Cut(head + "." + tail) == Some((head, tail))
  {
    var s := head + "." + tail;
    if tail == "" {
      assert s[..|s| - 1] == head;
    } else {
      var init := tail[..|tail| - 1];
      assert s[..|s| - 1] == head + "." + init;
      CutAt(head, init);
      assert init + [tail[|tail| - 1]] == tail;
    }
  }

  predicate Number(s: string) {
    forall c | c in s :: IsDigit(c)
  }

  /** Reads a key back from its string, from the right: the subject may hold anything. */
  function ReadKey(s: string): Option<Key> {
    if |s| < 10 then None
    else
      match Cut(s[10..])
      case None => None
      case Some((head, tail)) =>
        if tail == "message" then Some(MessageKey(head))
        else if !Number(tail) then None
        else ReadNumbered(head, ParseDecimal(tail))
  }

  function ReadNumbered(s: string, n: nat): Option<Key> {
    match Cut(s)
    case None => None
    case Some((head, tail)) => if tail == "step" then Some(StepKey(head, n)) else ReadTool(head, n)
  }

  function ReadTool(s: string, tool: nat): Option<Key> {
    match Cut(s)
    case None => None
    case Some((head, tail)) =>
      if !Number(tail) then None
      else
        match Cut(head)
        case None => None
        case Some((subject, _)) => Some(ToolKey(subject, ParseDecimal(tail), tool))
  }

  /** The string after the prefix every span shares. */
  function Body(key: Key): string {
    key.subject + "." + Part(key)
  }

  lemma {:induction false} PrefixDrops(key: Key)
    ensures |Render(key)| >= 10 && Render(key)[10..] == Body(key)
  {
    var prefix := "agyn.span.";
    assert Render(key) == prefix + Body(key);
    assert |prefix| == 10;
  }

  lemma {:induction false} MessageReads(subject: string)
    ensures ReadKey(Render(MessageKey(subject))) == Some(MessageKey(subject))
  {
    PrefixDrops(MessageKey(subject));
    CutAt(subject, "message");
  }

  lemma {:induction false} StepReads(subject: string, step: nat)
    ensures ReadKey(Render(StepKey(subject, step))) == Some(StepKey(subject, step))
  {
    PrefixDrops(StepKey(subject, step));
    var head := subject + "." + "step";
    StepBody(subject, step);
    NumberTail(head, step);
    CutAt(subject, "step");
  }

  lemma {:induction false} StepBody(subject: string, step: nat)
    ensures Body(StepKey(subject, step)) == subject + "." + "step" + "." + Decimal(step)
  {
  }

  lemma {:induction false} ToolHeadReads(subject: string, step: nat, tool: nat)
    ensures ReadNumbered(subject + "." + "step" + "." + Decimal(step) + "." + "tool", tool) == Some(ToolKey(subject, step, tool))
  {
    var outer := subject + "." + "step";
    CutAt(outer + "." + Decimal(step), "tool");
    NumberTail(outer, step);
    CutAt(subject, "step");
  }

  lemma {:induction false} Regroup(a: string, b: string, c: string)
    ensures a + (b + c) == a + b + c
  {
  }

  /** The tool part of a key, behind whatever stands before it, cut at its last dot. */
  lemma {:induction false} ToolPart(head: string, step: string, tool: string)
    ensures head + ("step." + step + ".tool." + tool) == head + "step" + "." + step + "." + "tool" + "." + tool
  {
    Regroup(head, "step." + step + ".tool.", tool);
    Regroup(head, "step." + step, ".tool.");
    Regroup(head, "step.", step);
    Regroup(head, "step", ".");
    assert "step." == "step" + ".";
    var front := head + "step" + "." + step;
    Regroup(front, ".tool", ".");
    Regroup(front, ".", "tool");
    assert ".tool." == ".tool" + "." && ".tool" == "." + "tool";
  }

  lemma {:induction false} ToolReads(subject: string, step: nat, tool: nat)
    ensures ReadKey(Render(ToolKey(subject, step, tool))) == Some(ToolKey(subject, step, tool))
  {
    PrefixDrops(ToolKey(subject, step, tool));
    ToolPart(subject + ".", Decimal(step), Decimal(tool));
    NumberTail(subject + "." + "step" + "." + Decimal(step) + "." + "tool", tool);
    ToolHeadReads(subject, step, tool);
  }

  /** A key is read back from its string whatever its subject holds, dots included. */
  lemma {:induction false} ReadRender(key: Key)
    ensures ReadKey(Render(key)) == Some(key)
  {
    match key
    case MessageKey(subject) => MessageReads(subject);
    case StepKey(subject, step) => StepReads(subject, step);
    case ToolKey(subject, step, tool) => ToolReads(subject, step, tool);
  }

  lemma {:induction false} NumberTail(head: string, n: nat)
    ensures Cut(head + "." + Decimal(n)) == Some((head, Decimal(n)))
    ensures Decimal(n) != "message" && Number(Decimal(n)) && ParseDecimal(Decimal(n)) == n
  {
    assert '.' !in Decimal(n);
    CutAt(head, Decimal(n));
    DecimalRoundTrip(n);
    assert !IsDigit("message"[0]);
  }

  /** Span keys are unambiguous: two spans share a string only if they describe the same thing. */
  lemma {:induction false} KeysAreUnambiguous(a: Key, b: Key)
    ensures Render(a) == Render(b) <==> a == b
  {
    ReadRender(a);
    ReadRender(b);
  }
}
