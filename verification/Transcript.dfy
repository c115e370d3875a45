// What a transcript is read into, and the two accumulators the parsers share
// (internal/transcript/transcript.go).

module Transcript {
  import opened Options

  /** time.Time's zero value, in nanoseconds since the Unix epoch. */
  const ZERO_TIME: int := -62_135_596_800 * 1_000_000_000

  /** A decoded JSON value as far as anything here looks into it. */
  datatype Value = Absent | Plain(text: string) | Structured(json: string)

  function TextOf(value: Value): string {
    match value
    case Absent => ""
    case Plain(text) => text
    case Structured(json) => json
  }

  datatype ContextItem = ContextItem(role: string, text: string, json: Value, isNew: bool, at: int)

  datatype ToolCall = ToolCall(
    callID: string, name: string, server: string, startedAt: int, endedAt: int,
    arguments: Value, output: Value, error: string)

  datatype Usage = Usage(input: Option<int>, output: Option<int>, cached: Option<int>, reasoning: Option<int>)

  /** A step's tool calls with every array Go's append has held them in, the current one
      last. A pointer into an earlier array still reaches it, but nobody reads it there. */
  datatype Calls = Calls(arrays: seq<seq<ToolCall>>) {
    function View(): seq<ToolCall> {
      if arrays == [] then [] else arrays[|arrays| - 1]
    }
  }

  datatype Step = Step(
    id: string, startedAt: int, endedAt: int, model: string, reasoning: string, text: string,
    context: seq<ContextItem>, calls: Calls, usage: Option<Usage>)

  datatype Turn = Turn(
    id: string, sessionID: string, startedAt: int, endedAt: int, model: string,
    userInput: string, finalOutput: string, steps: seq<Step>, usage: Option<Usage>, parentID: string)

  function JoinText(existing: string, addition: string): (joined: string)
    ensures joined == existing + addition
  {
    if addition == "" then existing
    else if existing == "" then addition
    else existing + addition
  }

  // ---- The conversation so far ----

  /** The items shown so far and how many of them the latest step has been given. */
  datatype Shown = Shown(items: seq<ContextItem>, sent: nat)

  function Add(h: Shown, item: ContextItem): Shown {
    h.(items := h.items + [item])
  }

  /** A step's context: everything so far, what the previous step did not have marked new. */
  function Snapshot(h: Shown): seq<ContextItem> {
    seq(|h.items|, i requires 0 <= i < |h.items| => h.items[i].(isNew := i >= h.sent))
  }

  function AfterSnapshot(h: Shown): Shown {
    if h.items == [] then h else h.(sent := |h.items|)
  }

  class History {
    var items: seq<ContextItem>
    var sent: nat

    ghost function State(): Shown
      reads this
    {
      Shown(items, sent)
    }

    constructor ()
      ensures State() == Shown([], 0)
    {
      items, sent := [], 0;
    }

    method AddItem(item: ContextItem)
      modifies this`items
      ensures State() == Add(old(State()), item)
    {
      items := items + [item];
    }

    method TakeSnapshot() returns (context: seq<ContextItem>)
      modifies this`sent
      ensures context == Snapshot(old(State())) && State() == AfterSnapshot(old(State()))
    {
      if |items| == 0 {
        return [];
      }
      context := items;
      var i := 0;
      while i < |context|
        invariant 0 <= i <= |context| == |items|
        invariant context == Snapshot(State())[..i] + items[i..]
      {
        context := context[i := context[i].(isNew := i >= sent)];
        i := i + 1;
      }
      sent := |items|;
    }
  }

  /** The items as they were added, without the flag. */
  function Unmarked(context: seq<ContextItem>): seq<ContextItem> {
    seq(|context|, i requires 0 <= i < |context| => context[i].(isNew := false))
  }

  /** The items flagged new, in order. */
  function Fresh(context: seq<ContextItem>): seq<ContextItem> {
    if context == [] then [] else
      var last := context[|context| - 1];
      Fresh(context[..|context| - 1]) + if last.isNew then [last.(isNew := false)] else []
  }

  function AllFresh(contexts: seq<seq<ContextItem>>): seq<ContextItem> {
    if contexts == [] then [] else AllFresh(contexts[..|contexts| - 1]) + Fresh(contexts[|contexts| - 1])
  }

  /** What the contexts of the steps so far say of the conversation: each continues the one
      before it, and what they flag new adds up to what the latest has been given, so every
      item is new exactly once. */
  ghost predicate Partitioned(contexts: seq<seq<ContextItem>>, h: Shown) {
    && h.sent <= |h.items|
    && (forall i | 0 <= i < |h.items| :: !h.items[i].isNew)
    && AllFresh(contexts) == h.items[..h.sent]
    && (contexts != [] ==> Unmarked(contexts[|contexts| - 1]) == h.items[..h.sent])
    && forall k | 0 <= k < |contexts| - 1 :: Unmarked(contexts[k]) <= Unmarked(contexts[k + 1])
  }

  lemma {:induction false} FreshIsRest(context: seq<ContextItem>, sent: nat)
    requires sent <= |context|
    requires forall i | 0 <= i < |context| :: context[i].isNew == (i >= sent)
    ensures Fresh(context) == Unmarked(context)[sent..]
  {
    if |context| > sent {
      var init := context[..|context| - 1];
      FreshIsRest(init, sent);
      assert Unmarked(context)[sent..] == Unmarked(init)[sent..] + [context[|context| - 1].(isNew := false)];
    } else if context != [] {
      FreshIsRest(context[..|context| - 1], sent - 1);
    }
  }

  lemma {:induction false} SnapshotPartitions(contexts: seq<seq<ContextItem>>, h: Shown)
    requires Partitioned(contexts, h)
    ensures Partitioned(contexts + [Snapshot(h)], AfterSnapshot(h))
  {
    SnapshotShows(h);
    PartitionNext(contexts, h, Snapshot(h), AfterSnapshot(h));
  }

  lemma {:induction false} PartitionNext(contexts: seq<seq<ContextItem>>, h: Shown, next: seq<ContextItem>, h': Shown)
    requires Partitioned(contexts, h) && h'.items == h.items && h'.sent == |h.items|
    requires Unmarked(next) == h.items && Fresh(next) == h.items[h.sent..]
    ensures Partitioned(contexts + [next], h')
  {
    FreshNext(contexts, next);
    assert h.items[..h.sent] + h.items[h.sent..] == h.items;
    assert h'.items[..h'.sent] == h.items;
    ChainNext(contexts, next);
  }

  lemma {:induction false} FreshNext(contexts: seq<seq<ContextItem>>, next: seq<ContextItem>)
    ensures AllFresh(contexts + [next]) == AllFresh(contexts) + Fresh(next)
  {
    assert (contexts + [next])[..|contexts|] == contexts;
  }

  lemma {:induction false} ChainNext(contexts: seq<seq<ContextItem>>, next: seq<ContextItem>)
    requires forall k | 0 <= k < |contexts| - 1 :: Unmarked(contexts[k]) <= Unmarked(contexts[k + 1])
    requires contexts != [] ==> Unmarked(contexts[|contexts| - 1]) <= Unmarked(next)
    ensures var all := contexts + [next]; forall k | 0 <= k < |all| - 1 :: Unmarked(all[k]) <= Unmarked(all[k + 1])
  {
  }

  lemma {:induction false} SnapshotShows(h: Shown)
    requires h.sent <= |h.items| && forall i | 0 <= i < |h.items| :: !h.items[i].isNew
    ensures Unmarked(Snapshot(h)) == h.items && Fresh(Snapshot(h)) == h.items[h.sent..]
  {
    assert Unmarked(Snapshot(h)) == h.items;
    FreshIsRest(Snapshot(h), h.sent);
  }

  lemma {:induction false} AddPartitions(contexts: seq<seq<ContextItem>>, h: Shown, item: ContextItem)
    requires Partitioned(contexts, h) && !item.isNew
    ensures Partitioned(contexts, Add(h, item))
  {
    assert Add(h, item).items[..h.sent] == h.items[..h.sent];
  }

  // ---- Usage ----

  function MaxCount(a: Option<int>, b: Option<int>): Option<int> {
    if a.None? then b
    else if b.None? then a
    else if b.value > a.value then b
    else a
  }

  function MaxUsage(a: Option<Usage>, b: Option<Usage>): Option<Usage> {
    if a.None? then b
    else if b.None? then a
    else Some(Usage(MaxCount(a.value.input, b.value.input), MaxCount(a.value.output, b.value.output),
                    MaxCount(a.value.cached, b.value.cached), MaxCount(a.value.reasoning, b.value.reasoning)))
  }

  /** The order MaxUsage is the join of: absent below everything, field by field. */
  predicate CountAtMost(a: Option<int>, b: Option<int>) {
    a.None? || (b.Some? && a.value <= b.value)
  }

  predicate AtMost(a: Option<Usage>, b: Option<Usage>) {
    a.None? ||
    (&& b.Some?
     && CountAtMost(a.value.input, b.value.input) && CountAtMost(a.value.output, b.value.output)
     && CountAtMost(a.value.cached, b.value.cached) && CountAtMost(a.value.reasoning, b.value.reasoning))
  }

  function MaxOver(reports: seq<Option<Usage>>): Option<Usage> {
    if reports == [] then None else MaxUsage(MaxOver(reports[..|reports| - 1]), reports[|reports| - 1])
  }

  /** The maximum over some reports is their least upper bound. */
  lemma {:induction false} MaxOverIsJoin(reports: seq<Option<Usage>>, bound: Option<Usage>)
    ensures forall r | r in reports :: AtMost(r, MaxOver(reports))
    ensures (forall r | r in reports :: AtMost(r, bound)) ==> AtMost(MaxOver(reports), bound)
  {
    if reports != [] {
      var init, last := reports[..|reports| - 1], reports[|reports| - 1];
      MaxOverIsJoin(init, bound);
      assert last in reports && forall r | r in init :: r in reports;
      assert AtMost(MaxOver(init), MaxOver(reports));
      forall r | r in reports ensures AtMost(r, MaxOver(reports)) {
        if r in init {
          assert AtMost(r, MaxOver(init));
        }
      }
    }
  }

  /** So it depends neither on their order nor on how often one is repeated. */
  lemma {:induction false} MaxOverIgnoresOrder(a: seq<Option<Usage>>, b: seq<Option<Usage>>)
    requires forall r :: r in a <==> r in b
    ensures MaxOver(a) == MaxOver(b)
  {
    MaxOverIsJoin(a, MaxOver(b));
    MaxOverIsJoin(b, MaxOver(a));
  }
}
