// Handling an inbox item: the three handlers of internal/daemon.

module TurnHandling {
  // daemon.go, claude.go and agn.go, with what they publish, acknowledge and report. What the
  // outside answers is an input; what the daemon does to it is a trace of effects.

  import opened Options
  import opened Strings
  import opened Turns
  import opened TurnTypes
  import opened Inbox
  import Rendezvous

  datatype SDK = Codex | Agn | Claude | Unknown

  /** toDefaultThread says the class asks for the final message to be posted; named that
      the workload has an id to report under; native that there is no LLM Proxy to wait for;
      inbox that the daemon reads an agent's inbox rather than threads. */
  datatype Config = Config(sdk: SDK, toDefaultThread: bool, native: bool, named: bool, inbox: bool)

  /** Whether buildInput finds something to say. */
  predicate HasContent(m: Message) {
    Trim(m.body) != "" || m.files != []
  }

  function PublishEffects(cfg: Config, m: Message, text: string, post: Post): seq<Effect> {
    if !cfg.toDefaultThread || Trim(text) == "" then [] else [Published(m.id, Trim(text), post)]
  }

  /** Where a message's ack goes: to the inbox for one of its items, otherwise to the thread. */
  function TargetOf(cfg: Config, m: Message): Target {
    if m.inboxItem != "" && cfg.inbox then InboxItem(m.inboxItem) else ThreadMessage(m.id)
  }

  function AckOf(cfg: Config, m: Message, ok: bool): Effect {
    Acked(m.id, TargetOf(cfg, m), ok)
  }

  /** Publish the final text, then acknowledge the item. */
  function Finish(cfg: Config, d: Delivery, text: string): (seq<Effect>, Outcome) {
    var published := PublishEffects(cfg, d.message, text, d.world.post);
    if published != [] && d.world.post.SendFailed? then (published, Retryable)
    else (published + [AckOf(cfg, d.message, d.world.ackOk)], if d.world.ackOk then Nil else Retryable)
  }

  /** What a finished codex turn comes to. */
  function CodexResult(cfg: Config, transient: string -> bool, d: Delivery, codexThread: string, result: TurnResult)
    : (seq<Effect>, Outcome)
  {
    if result.threadID != "" && result.threadID != codexThread then ([], Terminal)
    else match result.err
      case None => Finish(cfg, d, result.message)
      case Some(MissingAgentMessage) =>
        (match d.world.readback
         case ReadBack(text) => Finish(cfg, d, text)
         case StillMissing => ([], Terminal)
         case ReadFailed => ([], Retryable))
      case Some(Notification(_, _, message, willRetry, _)) =>
        if !transient(message) then ([], Terminal)
        else if willRetry then ([], Retryable)
        else Finish(cfg, d, "")
  }

  function CodexTurn(cfg: Config, transient: string -> bool, d: Delivery): (seq<Effect>, Outcome) {
    var w := d.world;
    if Trim(d.message.threadID) == "" || !HasContent(d.message) || w.thread.None? then ([], Retryable)
    else if !cfg.native && !w.llmReady then ([], Retryable)
    else if w.turn.None? || Trim(w.turn.value) == "" then ([], Retryable)
    else match w.completion
      case Interrupted => ([], Retryable)
      case Completed(result) => CodexResult(cfg, transient, d, w.thread.value, result)
  }

  function CliTurn(cfg: Config, d: Delivery): (seq<Effect>, Outcome) {
    if (cfg.sdk.Claude? && Trim(d.message.threadID) == "") || !HasContent(d.message) || d.world.response.None? then ([], Retryable)
    else Finish(cfg, d, Trim(d.world.response.value))
  }

  function Handler(cfg: Config, transient: string -> bool, d: Delivery): (seq<Effect>, Outcome) {
    match cfg.sdk
    case Codex => CodexTurn(cfg, transient, d)
    case Unknown => ([], Retryable)
    case _ => CliTurn(cfg, d)
  }

  /** Handling one delivered item within a sync; ready says the MCP servers were found up before. */
  function Block(cfg: Config, transient: string -> bool, ready: bool, d: Delivery): (seq<Effect>, Outcome) {
    if !ready && !d.world.mcpUp then ([], Retryable)
    else
      var (effects, outcome) := Handler(cfg, transient, d);
      (if outcome.Nil? && cfg.named then effects + [Idle] else effects, outcome)
  }

  function HandlingOf(cfg: Config, transient: string -> bool): Handling {
    (ready, d) => Block(cfg, transient, ready, d)
  }

  class Daemon {
    const cfg: Config
    const transient: string -> bool
    var trace: seq<Effect>
    var mcpReady: bool
    var claudeReady: bool

    constructor (cfg: Config, transient: string -> bool)
      ensures this.cfg == cfg && this.transient == transient
      ensures trace == [] && !claudeReady && (mcpReady <==> cfg.sdk.Agn?)
    {
      this.cfg, this.transient := cfg, transient;
      trace, mcpReady, claudeReady := [], cfg.sdk.Agn?, false;
    }

    method PublishFinalMessage(m: Message, text: string, post: Post) returns (ok: bool)
      modifies this`trace
      ensures trace == old(trace) + PublishEffects(cfg, m, text, post)
      ensures
        if cfg.toDefaultThread && Trim(text) != ""
        then trace == old(trace) + [Published(m.id, Trim(text), post)] && (ok <==> !post.SendFailed?)
        else trace == old(trace) && ok
    {
      if !cfg.toDefaultThread {
        return true;
      }
      var response := Trim(text);
      if response == "" {
        return true;
      }
      trace := trace + [Published(m.id, response, post)];
      if post.NoDefaultThread? {
        return true;
      }
      return !post.SendFailed?;
    }

    method AckMessage(m: Message, ackOk: bool) returns (ok: bool)
      modifies this`trace
      ensures trace == old(trace) + [AckOf(cfg, m, ackOk)] && ok == ackOk
    {
      if m.inboxItem != "" && cfg.inbox {
        trace := trace + [Acked(m.id, InboxItem(m.inboxItem), ackOk)];
      } else {
        trace := trace + [Acked(m.id, ThreadMessage(m.id), ackOk)];
      }
      ok := ackOk;
    }

    method PublishAndAck(d: Delivery, text: string) returns (outcome: Outcome)
      modifies this`trace
      ensures trace == old(trace) + Finish(cfg, d, text).0
      ensures outcome == Finish(cfg, d, text).1
    {
      var ok := PublishFinalMessage(d.message, text, d.world.post);
      if !ok {
        return Retryable;
      }
      ok := AckMessage(d.message, d.world.ackOk);
      return if ok then Nil else Retryable;
    }

    method HandleCodexMessage(d: Delivery) returns (outcome: Outcome)
      modifies this`trace
      ensures trace == old(trace) + CodexTurn(cfg, transient, d).0
      ensures outcome == CodexTurn(cfg, transient, d).1
    {
      var w := d.world;
      if Trim(d.message.threadID) == "" || !HasContent(d.message) {
        return Retryable;
      }
      if w.thread.None? {
        return Retryable;
      }
      if !cfg.native && !w.llmReady {
        return Retryable;
      }
      if w.turn.None? || Trim(w.turn.value) == "" {
        return Retryable;
      }
      if w.completion.Interrupted? {
        return Retryable;
      }
      var result := w.completion.result;
      if result.threadID != "" && result.threadID != w.thread.value {
        return Terminal;
      }
      var text := result.message;
      if result.err.Some? {
        if !result.err.value.MissingAgentMessage? {
          if transient(result.err.value.message) {
            if result.err.value.willRetry {
              return Retryable;
            }
            outcome := PublishAndAck(d, "");
            return;
          }
          return Terminal;
        }
        match w.readback {
          case ReadBack(readback) => text := readback;
          case StillMissing => return Terminal;
          case ReadFailed => return Retryable;
        }
      }
      outcome := PublishAndAck(d, text);
    }

    method HandleAgnMessage(d: Delivery) returns (outcome: Outcome)
      requires cfg.sdk.Agn?
      modifies this`trace
      ensures trace == old(trace) + CliTurn(cfg, d).0
      ensures outcome == CliTurn(cfg, d).1
    {
      if !HasContent(d.message) || d.world.response.None? {
        return Retryable;
      }
      outcome := PublishAndAck(d, Trim(d.world.response.value));
    }

    method EnsureMCPReady(up: bool) returns (ok: bool)
      modifies this`mcpReady
      ensures ok == (old(mcpReady) || up) && mcpReady == ok
    {
      if mcpReady {
        return true;
      }
      mcpReady := up;
      return up;
    }

    method EnsureClaudeReady(up: bool) returns (ok: bool)
      modifies this`mcpReady, this`claudeReady
      ensures old(mcpReady) ==> ok && mcpReady
    {
      if claudeReady {
        return true;
      }
      ok := EnsureMCPReady(up);
      if ok {
        claudeReady := true;
      }
    }

    method HandleClaudeMessage(d: Delivery) returns (outcome: Outcome)
      requires cfg.sdk.Claude? && mcpReady
      modifies this
      ensures mcpReady
      ensures trace == old(trace) + CliTurn(cfg, d).0
      ensures outcome == CliTurn(cfg, d).1
    {
      if Trim(d.message.threadID) == "" || !HasContent(d.message) {
        return Retryable;
      }
      var ok := EnsureClaudeReady(d.world.mcpUp);
      if !ok {
        return Retryable;
      }
      if d.world.response.None? {
        return Retryable;
      }
      outcome := PublishAndAck(d, Trim(d.world.response.value));
    }

    method ReportWorkloadIdle()
      modifies this`trace
      ensures trace == old(trace) + if cfg.named then [Idle] else []
    {
      if cfg.named {
        trace := trace + [Idle];
      }
    }

    /** What syncMessages does with each item. */
    method HandleItem(d: Delivery) returns (outcome: Outcome)
      modifies this
      ensures trace == old(trace) + Block(cfg, transient, old(mcpReady), d).0
      ensures outcome == Block(cfg, transient, old(mcpReady), d).1
      ensures mcpReady == (old(mcpReady) || d.world.mcpUp)
    {
      var up := EnsureMCPReady(d.world.mcpUp);
      if !up {
        return Retryable;
      }
      match cfg.sdk {
        case Codex => outcome := HandleCodexMessage(d);
        case Agn => outcome := HandleAgnMessage(d);
        case Claude => outcome := HandleClaudeMessage(d);
        case Unknown => outcome := Retryable;
      }
      if outcome.Nil? {
        ReportWorkloadIdle();
      }
    }
  }

  /** The shape of what handling one item does: at most one publish, then the ack, then the
      idle report -- each only after what stands before it went through -- and how the
      handler returns. */
  ghost predicate BlockShape(cfg: Config, m: Message, effects: seq<Effect>, outcome: Outcome) {
    match outcome
    case Nil => exists pub ::
      Delivered(m.id, pub) && effects == pub + [AckOf(cfg, m, true)] + if cfg.named then [Idle] else []
    case Retryable =>
      || effects == [] || FailedPost(m.id, effects)
      || exists pub :: Delivered(m.id, pub) && effects == pub + [AckOf(cfg, m, false)]
    case Terminal => effects == []
  }

  /** Nothing to publish, or one publish that did not fail. */
  ghost predicate Delivered(item: string, pub: seq<Effect>) {
    pub == [] || (|pub| == 1 && pub[0].Published? && pub[0].item == item && !pub[0].post.SendFailed?)
  }

  ghost predicate FailedPost(item: string, effects: seq<Effect>) {
    |effects| == 1 && effects[0].Published? && effects[0].item == item && effects[0].post.SendFailed?
  }

  ghost predicate Shaped(cfg: Config, handle: Handling) {
    forall ready: bool, d: Delivery :: BlockShape(cfg, d.message, handle(ready, d).0, handle(ready, d).1)
  }

  lemma {:induction false} FinishShape(cfg: Config, d: Delivery, text: string)
    ensures BlockShape(cfg.(named := false), d.message, Finish(cfg, d, text).0, Finish(cfg, d, text).1)
    ensures !Finish(cfg, d, text).1.Terminal?
  {
    var published := PublishEffects(cfg, d.message, text, d.world.post);
    if published == [] || !d.world.post.SendFailed? {
      assert Delivered(d.message.id, published);
      assert Finish(cfg, d, text).0 + [] == Finish(cfg, d, text).0;
    }
  }

  /** All three handlers keep the same discipline, whatever they meet. */
  lemma {:induction false} HandlersKeepDiscipline(cfg: Config, transient: string -> bool)
    ensures Shaped(cfg, HandlingOf(cfg, transient))
  {
    forall ready: bool, d: Delivery
      ensures BlockShape(cfg, d.message, HandlingOf(cfg, transient)(ready, d).0, HandlingOf(cfg, transient)(ready, d).1)
    {
      HandlerShape(cfg, transient, d);
      var (effects, outcome) := Handler(cfg, transient, d);
      if outcome.Nil? {
        var pub :| Delivered(d.message.id, pub) && effects == pub + [AckOf(cfg, d.message, true)] + [];
        assert effects + [Idle] == pub + [AckOf(cfg, d.message, true)] + [Idle];
      }
    }
  }

  lemma {:induction false} HandlerShape(cfg: Config, transient: string -> bool, d: Delivery)
    ensures BlockShape(cfg.(named := false), d.message, Handler(cfg, transient, d).0, Handler(cfg, transient, d).1)
  {
    if d.world.response.Some? {
      FinishShape(cfg, d, Trim(d.world.response.value));
    }
    if d.world.completion.Completed? && d.world.thread.Some? {
      ResultShape(cfg, transient, d, d.world.thread.value, d.world.completion.result);
    }
  }

  lemma {:induction false} ResultShape(cfg: Config, transient: string -> bool, d: Delivery, codexThread: string, result: TurnResult)
    ensures
      var (effects, outcome) := CodexResult(cfg, transient, d, codexThread, result);
      BlockShape(cfg.(named := false), d.message, effects, outcome)
  {
    FinishShape(cfg, d, "");
    FinishShape(cfg, d, result.message);
    if d.world.readback.ReadBack? {
      FinishShape(cfg, d, d.world.readback.text);
    }
  }

  /** What the outside has to grant for a turn to end in a final text, handler by handler: the
      message codex completed the turn with, the one read back when it completed without, nothing
      after a transient failure codex has given up on, or the CLI's response. */
  ghost predicate EndsWith(cfg: Config, transient: string -> bool, d: Delivery, text: string) {
    var m, w := d.message, d.world;
    && (Trim(m.body) != "" || m.files != [])
    && (cfg.sdk.Agn? || Trim(m.threadID) != "")
    && match cfg.sdk
       case Unknown => false
       case Codex =>
         && w.thread.Some? && (cfg.native || w.llmReady) && w.turn.Some? && Trim(w.turn.value) != ""
         && w.completion.Completed?
         && (var result := w.completion.result;
             && (result.threadID == "" || result.threadID == w.thread.value)
             && match result.err
                case None => text == result.message
                case Some(MissingAgentMessage) => w.readback == ReadBack(text)
                case Some(Notification(_, _, message, willRetry, _)) => transient(message) && !willRetry && text == "")
       case _ => w.response == Some(text)
  }

  /** The codex failures no sync can mend: another thread's turn, an answer that is not to be
      found, an error that is not transient. */
  ghost predicate EndsDaemon(cfg: Config, transient: string -> bool, d: Delivery) {
    var m, w := d.message, d.world;
    && cfg.sdk.Codex? && (Trim(m.body) != "" || m.files != []) && Trim(m.threadID) != ""
    && w.thread.Some? && (cfg.native || w.llmReady) && w.turn.Some? && Trim(w.turn.value) != ""
    && w.completion.Completed?
    && (var result := w.completion.result;
        || (result.threadID != "" && result.threadID != w.thread.value)
        || (result.err == Some(MissingAgentMessage) && w.readback.StillMissing?)
        || (result.err.Some? && result.err.value.Notification? && !transient(result.err.value.message)))
  }

  /** What a turn that ends with text leaves behind: its one post where the class asks for one
      and there is something to say, and its ack unless that post failed. */
  ghost predicate Answered(cfg: Config, d: Delivery, text: string, effects: seq<Effect>, outcome: Outcome) {
    var m, w := d.message, d.world;
    var target := if m.inboxItem != "" && cfg.inbox then InboxItem(m.inboxItem) else ThreadMessage(m.id);
    var post := Published(m.id, Trim(text), w.post);
    var ack := Acked(m.id, target, w.ackOk);
    var idle := if outcome.Nil? && cfg.named then [Idle] else [];
    if !cfg.toDefaultThread || Trim(text) == "" then
      effects == [ack] + idle && outcome == if w.ackOk then Nil else Retryable
    else if w.post.SendFailed? then
      effects == [post] && outcome == Retryable
    else
      effects == [post, ack] + idle && outcome == if w.ackOk then Nil else Retryable
  }

  lemma {:induction false} FinishAnswers(cfg: Config, d: Delivery, text: string)
    ensures Answered(cfg.(named := false), d, text, Finish(cfg, d, text).0, Finish(cfg, d, text).1)
    ensures Answered(cfg.(named := false), d, text, Finish(cfg, d, Trim(text)).0, Finish(cfg, d, Trim(text)).1)
  {
    TrimProperties(text);
    TrimProperties(Trim(text));
    var m, w := d.message, d.world;
    assert [Published(m.id, Trim(text), w.post)] + [AckOf(cfg, m, w.ackOk)]
        == [Published(m.id, Trim(text), w.post), AckOf(cfg, m, w.ackOk)] + [];
  }

  lemma {:induction false} HandlerAnswers(cfg: Config, transient: string -> bool, d: Delivery)
    ensures
      var (effects, outcome) := Handler(cfg, transient, d);
      && (forall text :: EndsWith(cfg, transient, d, text) ==> Answered(cfg.(named := false), d, text, effects, outcome))
      && ((forall text :: !EndsWith(cfg, transient, d, text)) ==> effects == [] && !outcome.Nil?)
      && (outcome.Terminal? <==> EndsDaemon(cfg, transient, d))
  {
    var w := d.world;
    forall text: string | EndsWith(cfg, transient, d, text)
      ensures Answered(cfg.(named := false), d, text, Handler(cfg, transient, d).0, Handler(cfg, transient, d).1)
    {
      FinishAnswers(cfg, d, text);
    }
    if (forall text :: !EndsWith(cfg, transient, d, text)) {
      assert w.response.Some? ==> !EndsWith(cfg, transient, d, w.response.value);
      assert w.completion.Completed? ==> !EndsWith(cfg, transient, d, w.completion.result.message);
      assert w.readback.ReadBack? ==> !EndsWith(cfg, transient, d, w.readback.text);
      assert !EndsWith(cfg, transient, d, "");
    }
  }

  /** Whether, where and with what text a turn is answered, from the class and from what the
      outside did alone, for all three handlers. */
  lemma {:induction false} TurnIsAnswered(cfg: Config, transient: string -> bool, ready: bool, d: Delivery)
    ensures
      var (effects, outcome) := Block(cfg, transient, ready, d);
      var up := ready || d.world.mcpUp;
      && (forall text :: up && EndsWith(cfg, transient, d, text) ==> Answered(cfg, d, text, effects, outcome))
      && (!(up && exists text :: EndsWith(cfg, transient, d, text)) ==> effects == [] && !outcome.Nil?)
      && (outcome.Terminal? <==> up && EndsDaemon(cfg, transient, d))
  {
    HandlerAnswers(cfg, transient, d);
  }

  /** No idle report without a successful ack just before it, and no publish that went
      through without its item's ack just after it. */
  ghost predicate Punctuated(trace: seq<Effect>) {
    forall i {:trigger trace[i]} | 0 <= i < |trace| ::
      && (trace[i].Idle? ==> i > 0 && trace[i - 1].Acked? && trace[i - 1].ok)
      && (trace[i].Published? && !trace[i].post.SendFailed? ==>
            i + 1 < |trace| && trace[i + 1].Acked? && trace[i + 1].item == trace[i].item)
  }

  lemma {:induction false} ShapePunctuates(cfg: Config, m: Message, effects: seq<Effect>, outcome: Outcome)
    requires BlockShape(cfg, m, effects, outcome)
    ensures Punctuated(effects)
  {
  }

  lemma {:induction false} PunctuatedConcat(a: seq<Effect>, b: seq<Effect>)
    requires Punctuated(a) && Punctuated(b)
    ensures Punctuated(a + b)
  {
    var c := a + b;
    forall i | 0 <= i < |c|
      ensures c[i].Idle? ==> i > 0 && c[i - 1].Acked? && c[i - 1].ok
      ensures c[i].Published? && !c[i].post.SendFailed? ==>
        i + 1 < |c| && c[i + 1].Acked? && c[i + 1].item == c[i].item
    {
      if i < |a| {
        assert c[i] == a[i];
      } else {
        assert c[i] == b[i - |a|];
      }
    }
  }

  /** The turn boundary, over any number of items, syncs and failures. */
  lemma {:induction false} RunIsPunctuated(cfg: Config, handle: Handling, ready: bool, ds: seq<Delivery>)
    requires Shaped(cfg, handle)
    ensures Punctuated(Blocks(handle, ready, ds))
  {
    if ds != [] {
      var before, last := ds[..|ds| - 1], ds[|ds| - 1];
      RunIsPunctuated(cfg, handle, ready, before);
      var r := Ready(ready, before);
      ShapePunctuates(cfg, last.message, handle(r, last).0, handle(r, last).1);
      PunctuatedConcat(Blocks(handle, ready, before), handle(r, last).0);
    }
  }

  function Count(trace: seq<Effect>, chosen: Effect -> bool): nat {
    if trace == [] then 0 else Count(trace[..|trace| - 1], chosen) + if chosen(trace[|trace| - 1]) then 1 else 0
  }

  function IsAck(item: string, ok: bool): Effect -> bool {
    (e: Effect) => e.Acked? && e.item == item && e.ok == ok
  }

  /** A publish that was sent. */
  function IsPost(item: string): Effect -> bool {
    (e: Effect) => e.Published? && e.item == item && e.post.Sent?
  }

  lemma {:induction false} CountConcat(a: seq<Effect>, b: seq<Effect>, chosen: Effect -> bool)
    ensures Count(a + b, chosen) == Count(a, chosen) + Count(b, chosen)
  {
    if b == [] {
      assert a + b == a;
    } else {
      assert (a + b)[..|a + b| - 1] == a + b[..|b| - 1];
      CountConcat(a, b[..|b| - 1], chosen);
    }
  }

  /** The server hands out only items it has not been told are done. */
  ghost predicate ServedUnacked(handle: Handling, ready: bool, ds: seq<Delivery>) {
    ds == [] ||
    (var before, last := ds[..|ds| - 1], ds[|ds| - 1];
     ServedUnacked(handle, ready, before) && Count(Blocks(handle, ready, before), IsAck(last.message.id, true)) == 0)
  }

  function One(b: bool): nat {
    if b then 1 else 0
  }

  lemma {:induction false} BlockCounts(cfg: Config, m: Message, effects: seq<Effect>, outcome: Outcome, other: string)
    requires BlockShape(cfg, m, effects, outcome)
    ensures Count(effects, IsAck(other, true)) == One(outcome.Nil? && other == m.id)
    ensures Count(effects, IsPost(other)) <= Count(effects, IsAck(other, false)) + Count(effects, IsAck(other, true))
  {
    if FailedPost(m.id, effects) {
      assert effects == [effects[0]];
      CountOne(effects[0], IsPost(other));
      CountOne(effects[0], IsAck(other, true));
    } else if effects != [] {
      var ok := outcome.Nil?;
      var idle := if ok && cfg.named then [Idle] else [];
      if !ok {
        var pub :| Delivered(m.id, pub) && effects == pub + [AckOf(cfg, m, false)];
        assert effects == pub + [AckOf(cfg, m, false)] + idle;
        AckedCounts(cfg, m, pub, ok, idle, other);
      } else {
        var pub :| Delivered(m.id, pub) && effects == pub + [AckOf(cfg, m, true)] + idle;
        AckedCounts(cfg, m, pub, ok, idle, other);
      }
    }
  }

  lemma {:induction false} AckedCounts(cfg: Config, m: Message, pub: seq<Effect>, ok: bool, idle: seq<Effect>, other: string)
    requires Delivered(m.id, pub) && idle in {[], [Idle]}
    ensures
      var effects := pub + [AckOf(cfg, m, ok)] + idle;
      && Count(effects, IsAck(other, true)) == One(ok && other == m.id)
      && Count(effects, IsPost(other)) <= Count(effects, IsAck(other, false)) + Count(effects, IsAck(other, true))
  {
    DeliveredCounts(m.id, pub, AckOf(cfg, m, ok), idle, IsAck(other, true));
    DeliveredCounts(m.id, pub, AckOf(cfg, m, ok), idle, IsAck(other, false));
    DeliveredCounts(m.id, pub, AckOf(cfg, m, ok), idle, IsPost(other));
  }

  lemma {:induction false} CountOne(x: Effect, chosen: Effect -> bool)
    ensures Count([x], chosen) == One(chosen(x))
  {
    assert [x][..0] == [];
  }

  lemma {:induction false} DeliveredCounts(item: string, pub: seq<Effect>, ack: Effect, idle: seq<Effect>, chosen: Effect -> bool)
    requires Delivered(item, pub) && idle in {[], [Idle]} && !chosen(Idle)
    ensures Count(pub + [ack] + idle, chosen) == One(pub != [] && chosen(pub[0])) + One(chosen(ack))
  {
    CountConcat(pub + [ack], idle, chosen);
    CountConcat(pub, [ack], chosen);
    CountOne(ack, chosen);
    if pub != [] {
      CountOne(pub[0], chosen);
    }
    if idle != [] {
      CountOne(Idle, chosen);
    }
  }

  /** Successful publishes of an item exceed its failed acks by at most one, and not at all
      while the item is unacked: a reply is repeated only when acknowledging it failed. */
  lemma {:induction false} PublishesFollowAcks(cfg: Config, handle: Handling, ready: bool, ds: seq<Delivery>, item: string)
    requires Shaped(cfg, handle) && ServedUnacked(handle, ready, ds)
    ensures
      var trace := Blocks(handle, ready, ds);
      && Count(trace, IsPost(item)) <= Count(trace, IsAck(item, false)) + Count(trace, IsAck(item, true))
      && Count(trace, IsAck(item, true)) <= 1
  {
    if ds != [] {
      var before, last := ds[..|ds| - 1], ds[|ds| - 1];
      PublishesFollowAcks(cfg, handle, ready, before, item);
      var (effects, outcome) := handle(Ready(ready, before), last);
      BlockCounts(cfg, last.message, effects, outcome, item);
      forall chosen: Effect -> bool
        ensures Count(Blocks(handle, ready, ds), chosen) == Count(Blocks(handle, ready, before), chosen) + Count(effects, chosen)
      {
        CountConcat(Blocks(handle, ready, before), effects, chosen);
      }
    }
  }

  /** An item is acked in the end exactly when its handler returned nil; a terminal error
      leaves it unacked for good, as the run ends there. */
  lemma {:induction false} NilExactlyWhenAcked(cfg: Config, handle: Handling, ready: bool, ds: seq<Delivery>)
    requires Shaped(cfg, handle) && ServedUnacked(handle, ready, ds) && ds != []
    ensures Count(Blocks(handle, ready, ds), IsAck(ds[|ds| - 1].message.id, true)) ==
      One(OutcomeAt(handle, ready, ds, |ds| - 1).Nil?)
  {
    var before, last := ds[..|ds| - 1], ds[|ds| - 1];
    var (effects, outcome) := handle(Ready(ready, before), last);
    BlockCounts(cfg, last.message, effects, outcome, last.message.id);
    CountConcat(Blocks(handle, ready, before), effects, IsAck(last.message.id, true));
  }

  /** Bridge, tracker and handler together: an error a waiting handler receives, in any
      interleaving of notifications the bridge sends, is never answered with another sync. It
      ends the turn quietly when the failure was transient and the daemon when it was not, so
      the branch for an error codex will retry is dead. */
  lemma {:induction false} NotifiedErrorIsNeverRetried(cfg: Config, transient: string -> bool, d: Delivery, codexThread: string,
                                    steps: seq<Rendezvous.Step>, ch: nat)
    requires Rendezvous.Possible(steps) && forall i | 0 <= i < |steps| :: Rendezvous.FromBridge(steps[i])
    requires ch < |Rendezvous.After(steps).channels| && Rendezvous.After(steps).channels[ch].sent != []
    ensures
      var result := Rendezvous.After(steps).channels[ch].sent[0];
      result.err.Some? && result.err.value.Notification? && (result.threadID == "" || result.threadID == codexThread) ==>
        CodexResult(cfg, transient, d, codexThread, result) ==
          if transient(result.err.value.message) then Finish(cfg, d, "") else ([], Terminal)
  {
    Rendezvous.WillRetryNeverReachesHandler(steps);
    var result := Rendezvous.After(steps).channels[ch].sent[0];
    assert result in Rendezvous.After(steps).channels[ch].sent;
    assert GivenUp(result);
  }
}
