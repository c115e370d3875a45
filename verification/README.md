# A verified model of agynd

agynd feeds the messages of an inbox to an agent CLI, survives hibernation, and exports a
trace of what the agent did. This project models the parts of it that are protocols, state
machines or transformations, and proves what each is for.

- **The wake and read protocol** (`Clocks.dfy`, `Wake.dfy`, `WakeProtocol.dfy`,
  `WakeHistory.dfy`, `WakeRecord.dfy`, `WakeKeeper.dfy`, `WakeLoops.dfy`). The subscriber, the
  inbox loop of `Run`, the keepalive loop and the far side are one step relation over the inbox,
  the stream, two single-slot tokens, the retry timer and both clocks. No message is lost, and
  what that promise is worth is proved as well: from every waiting state the daemon's own next
  steps, with nothing more going wrong, read the message, and they can read one if and only if
  the daemon will hear of something. What every token, backoff, wait and read of a run comes to
  is told from its steps alone.
- **The turn rendezvous** (`Turns.dfy`, `TurnTracker.dfy`, `Notifications.dfy`,
  `Rendezvous.dfy`, `TurnHistory.dfy`, `Bridge.dfy`). Each tracker method is split at the unlock
  and interleaved; the channel discipline holds in every interleaving. The bridge gathers what a
  turn streamed and finds its answer, which reaches the waiting handler whole.
- **Turn handling** (`TurnTypes.dfy`, `Inbox.dfy`, `TurnHandling.dfy`). Publish, ack and idle
  report as a trace of effects over whole runs of paged, ordered, failing and retried syncs.
- **The transcript parsers, the span exporter and the trace hook** (`Transcript.dfy`,
  `Builder.dfy`, `ToolOutputs.dfy`, `Outlines.dfy`, `Claude.dfy`, `ClaudeUsage.dfy`,
  `ClaudeOutputs.dfy`, `ClaudeTurns.dfy`, `ClaudeResults.dfy`, `ClaudeContexts.dfy`,
  `Codex.dfy`, `CodexTurns.dfy`, `CodexResults.dfy`, `CodexContexts.dfy`, `Pieces.dfy`,
  `Talks.dfy`, `SpanKeys.dfy`, `Spans.dfy`, `TraceHook.dfy`, `Reexport.dfy`,
  `RunningTurns.dfy`). Each line of a file stands for a run of small mutations ("atoms") of the
  turns under construction; both parsers are loops proved against that reading. Theorems then
  say, from the lines alone, what the turns, their steps, texts, usage, contexts and calls are.
  Parser, exporter and hook are taken together over any sequence of hook runs.
- **The one-conversation guarantee** (`ThreadMapping.dfy`, `MappingStore.dfy`,
  `Conversation.dfy`, `ConversationLife.dfy`). A two-way map in memory and a file replaced
  atomically, over any sequence of calls, save failures, kills and restarts, and exactly which
  calls succeed.
- **The log-to-span translator** (`SemanticSpans.dfy`, `LogRecords.dfy`). Calls held by
  conversation are paired with later usage, over any sequence of events.
- **Two smaller loops** (`ProbeReader.dfy`, `NoProxy.dfy`): the event-stream reader of the MCP
  probe and the no-proxy merger.

Code that updates fields or loops is a class or a method, proved against a function of the old
state; the theorems are lemmas about those functions. Time is an integer number of nanoseconds,
strings are sequences of characters, decoded JSON is a datatype. Every lemma turns Dafny's
automatic induction off, so a proof uses what it says it uses. `dafny verify dfyconfig.toml`
checks the whole project.

## What the proofs found

- An item that arrives after the initial read and before the first stream opens is announced to
  nobody: `Run` starts on `Started()`, which is closed before the first `Subscribe`, and the first
  stream sends no wake (`internal/subscriber/subscriber.go:40`, `:68-71`). `GapItemIsStranded`
  gives the run. `ArrivalHeardIff` says that, while `Run` waits or handles what it has read, there is
  no other such window: it lasts from the inbox read until the first stream is open.
- If the only sleep falls between the opening of the first stream and the keepalive loop's first
  clock reading, no tick sees it and the dead stream is not dropped (`SleepBeforeWatchIsMissed`). A
  stream opened before the last sleep is dropped if and only if a tick has seen a sleep or a signal
  has been taken (`SleptStreamIsDroppedIff`, `ClockAloneDropsIff`).
- `pending` holds pointers into a slice that a later `append` may move
  (`internal/transcript/claude.go:136-137`, `internal/transcript/codex.go:228`). A tool output is
  lost exactly when a call appended to the step before the result moved the slice. With Claude's
  parallel calls that is the ordinary case: the first of two calls never gets its output
  (`FirstParallelOutputIsLost`), as Go's append moves a slice that grows from one element to two.
- Reading a codex rollout again keeps what was read only while both readings agree on whether the
  rollout names its turns (`internal/transcript/codex.go:90`, `StableExactlyWhenFlagsAgree`;
  `LateTurnIDsLoseTurns` is a rollout on which they do not).
- The handler's branch for an error codex will retry (`internal/daemon/daemon.go:911-918`) is dead:
  the bridge never passes such an error on (`WillRetryNeverReachesHandler`,
  `NotifiedErrorIsNeverRetried`).
- A turn with two or more unseen streamed messages, none a final answer, can get either as its
  answer, since Go walks a map in any order (`AnswerIgnoresMapOrderIff`).
- A turn counts as finished from its first answer on, so a hook that reads the transcript while the
  turn goes on records it, and its later steps are never exported (`RunningTurnLosesStep`), against
  the comment at `cmd/agynd-trace-hook/main.go:216-218`. Nothing of a turn is missing in the end if and
  only if it gained nothing after the last run that exported it (`FullyExportedIff`).
- A turn with an empty id, as a Claude prompt without a uuid opens, is never recorded and is offered
  to every run (`RecordedExactlyWhenClean`).
- `SetRecord` leaves the two maps inverse only when no other instance holds the codex thread
  (`SetKeeps`).

## Model

| member | source | states |
|---|---|---|
| `Clocks.ReadingsFollow` | internal/daemon/wake.go:7-27 | Over running and sleeps of at least a second, wall minus monotonic never falls, and is unchanged exactly when nothing slept. |
| `Wake.WakeWatch.constructor` | internal/daemon/wake.go:49-54 | A new watch has its first reading and no wake handled. |
| `Wake.WakeWatch.Tick` | internal/daemon/wake.go:59-64 | The jump is how much wall minus monotonic grew since the last tick; only the last reading changes. |
| `Wake.WakeWatch.Admit` | internal/daemon/wake.go:73-83 | A sign is a wake of its own unless wall minus monotonic is within a second of the last one handled; only then is it recorded. |
| `Wake.KeepaliveLoop.NoteWake` | internal/daemon/keepalive.go:47-68 | A fresh sign drops the stream, leaves one wakeSync token and touches; a repeat does nothing. |
| `Wake.KeepaliveLoop.Run` | internal/daemon/keepalive.go:24-86 | The select loop does to its state what the fold over its events says, for any sequence of processing, signal and tick events. |
| `Wake.TickMakesWakeCertain` | internal/daemon/wake.go:59-83 | After any processed tick the last admitted reading was taken after the latest sleep that tick saw, whatever signals came or were lost. |
| `Wake.WakesCountedExactly` | internal/daemon/wake.go:66-83 | The wakes admitted over a run number exactly the distinct wall-minus-monotonic values at which signs were seen. |
| `Wake.WokenMeansAsked` | internal/daemon/keepalive.go:47-68 | Every wake acted on drops the stream, then asks for an inbox read, then touches the workload, with nothing in between; a read is asked for at no other time and is pending exactly when some wake was acted on. |
| `Wake.TouchesCounted` | internal/daemon/keepalive.go:24-86 | The workload is touched once to begin with, once for each tick and each start of processing, and once for each wake acted on, and never otherwise. |
| `WakeProtocol.NextBackoff` | internal/subscriber/subscriber.go:184-193 | A wait in range stays in range and grows until it reaches thirty seconds, where it stays. |
| `WakeProtocol.AlwaysInvariant` | internal/daemon/daemon.go:532-614 | What every step of every process keeps: the invariant below the no-lost-item theorem. |
| `WakeProtocol.NoLostItem` | internal/daemon/daemon.go:532-614 | Whenever Run waits at its select, each unacked item that was present at an inbox read or arrived once the first stream had opened has a token, an armed retry, a queued notice or a signalling reopening; the retry is armed exactly when the last sync of the run failed. |
| `WakeProtocol.CoveredItemIsRead` | internal/subscriber/subscriber.go:43-114 | From every such state steps of the subscriber and of Run bring the item into an inbox read with nothing more going wrong: no sync fails, and a call only where its attempt was dropped or its stream already lost. |
| `WakeProtocol.ReadExactlyWhenHeard` | internal/subscriber/subscriber.go:43-114 | In every reachable waiting state such steps exist for an unacked item if and only if Run will hear of something: a token, a retry, a signal under way, a queued notice, or a stream that is lost, dropped or down after it was open. |
| `WakeProtocol.QueueRead` | internal/subscriber/subscriber.go:73-113 | A queued notice leads to an inbox read with nothing going wrong, whatever is queued before it. |
| `WakeProtocol.ReopenRead` | internal/subscriber/subscriber.go:51-71 | A subscriber whose stream is down reopens one and signals, which leads to an inbox read with nothing more going wrong, a dropped attempt included. |
| `WakeProtocol.ArrivalHeardIff` | internal/subscriber/subscriber.go:63-71 | With no token pending, an arrival while Run waits with no retry armed, or while it handles what it read, is announced if and only if the first stream has been opened; one just before the inbox is read is in what is read. |
| `WakeProtocol.GapItemIsStranded` | internal/daemon/daemon.go:526-530 | A run in which an item arrives in the window before the first stream, the daemon has no step left but that stream's failure, and no steps without a failure can have the item read. |
| `WakeProtocol.SleptStreamIsDropped` | internal/daemon/keepalive.go:62-69 | Once a tick is done with and some tick has seen a sleep since the watch began, a stream opened before the last sleep seen has been dropped, whenever it was opened. |
| `WakeProtocol.SleptStreamIsDroppedIff` | internal/daemon/keepalive.go:37-69 | Exactly when, over all runs: such a stream has been dropped if and only if a tick has seen a sleep since the watch began or the loop has taken a signal. |
| `WakeProtocol.ClockAloneDropsIff` | internal/daemon/keepalive.go:37-69 | With no signal from the runner, if and only if a tick has seen a sleep since the watch began. |
| `WakeProtocol.SleepBeforeWatchIsMissed` | internal/daemon/keepalive.go:37-46 | A run on which it has not: the only sleep falls before the watch's first reading, and the dead stream stays in use. |
| `WakeHistory.FailureIsWaitedOut` | internal/subscriber/subscriber.go:80-97 | In every run the subscriber waits exactly once between a failure and its next try, and not at all after a stream that Resubscribe dropped. |
| `WakeHistory.WaitsDouble` | internal/subscriber/subscriber.go:128-193 | The wait a failure earns is the first one doubled as often as the subscriber has waited since the last stream opened or a wait was cut short, thirty seconds at most. |
| `WakeHistory.RetriesDouble` | internal/daemon/daemon.go:554-571 | The delay of the next retry is the first one doubled for each sync that failed since one went through, likewise bounded. |
| `WakeHistory.SignalsWhatWasCreated` | internal/subscriber/subscriber.go:99-112 | After receiving something the subscriber next signals, and leaves a token, exactly when it was the creation of an item. |
| `WakeHistory.ReopeningSignals` | internal/subscriber/subscriber.go:65-71 | A stream that opens leaves a token exactly when one was open before it. |
| `WakeRecord.ItemsFollow` | internal/daemon/daemon.go:580-614 | The unacked items are those that were there or arrived less those acked, and those the promise covers are those a read found or that arrived once there was a stream. |
| `WakeRecord.StreamFollows` | internal/subscriber/subscriber.go:63-113 | A live stream still holds exactly what was announced on it since it opened and not received yet; a lost one, a part of that from its start. |
| `WakeRecord.TokensFollow` | internal/daemon/daemon.go:591-612 | Each token is pending exactly when it was left and has not been taken since, from the steps alone. |
| `WakeRecord.RunFollows` | internal/daemon/daemon.go:526-614 | Where Run stands, that a sync has left to do exactly what it found less what was acked since, and that a retry is pending exactly when a sync has failed and none was retried or went through since. |
| `WakeRecord.ClocksFollow` | internal/daemon/wake.go:7-27 | The wall clock has gone on by all that ran and slept, the monotonic one by what ran. |
| `WakeRecord.NoReadWithoutCause` | internal/daemon/daemon.go:580-614 | Run does not spin: in every run it begins at most one read for each signal, ask and failed sync, and one to begin with. |
| `WakeKeeper.KeeperIsTheLoop` | internal/daemon/keepalive.go:24-86 | Over every run of the protocol the keepalive loop holds the watch the select loop holds after the same signals and ticks, read at the clocks of the run, and has dropped and asked as often, but for what it is about to do: a repeat of a handled wake is not acted on. |
| `WakeLoops.SubscriberLoop.Run` | internal/subscriber/subscriber.go:39-138 | The subscriber's nested loops over its own backoff and reopened, with tokens, contexts and streams others share, under any schedule of everybody's steps: it stands, holds and has signalled exactly what the protocol says after that run, for a daemon that is scoped to no thread and not shut down. |
| `WakeLoops.InboxLoop.Run` | internal/daemon/daemon.go:526-615 | The same of the initial sync and the select loop with its retry timer and backoff; an error is returned exactly when a sync ended in a terminal one. |
| `TurnTracker.TurnTracker.Register` | internal/codexbridge/turn_tracker.go:30-44 | A fresh channel; if the turn was already notified it holds that result and is closed and the active turn is as it was, otherwise the turn waits on it and is the active one. |
| `TurnTracker.TurnTracker.Cancel` | internal/codexbridge/turn_tracker.go:46-54 | The turn neither waits nor has a result kept; it is active no more. |
| `TurnTracker.TurnTracker.Notify` | internal/codexbridge/turn_tracker.go:56-73 | A waiting turn's channel gets the result and is closed, no other channel is touched; otherwise the result is kept. |
| `TurnTracker.TurnTracker.NotifyActive` | internal/codexbridge/turn_tracker.go:75-98 | Delivers, addressed to the active turn, exactly when there is one. |
| `Rendezvous.AlwaysInvariant` | internal/codexbridge/turn_tracker.go:30-98 | What every locked section, send, close and receive keeps. |
| `Rendezvous.ChannelDiscipline` | internal/codexbridge/turn_tracker.go:30-98 | In every interleaving a channel gets at most one value, meant for its turn, is closed at most once and after it; no send blocks or follows a close, and an owed delivery can always be made. |
| `Rendezvous.ActiveTurnHasWaiter` | internal/codexbridge/turn_tracker.go:75-98 | Waiters and kept results are disjoint, a non-empty active turn always waits, so NotifyActive's branch without a waiter is dead. |
| `Rendezvous.RegisterMeetsNotify` | internal/codexbridge/turn_tracker.go:30-73 | One Register and one Notify of a turn, in either order and with anything between that neither cancels the turn nor sends it an error through NotifyActive, end with its only channel holding that result, closed. |
| `Rendezvous.WillRetryNeverReachesHandler` | internal/codexbridge/bridge.go:55-146 | With every notification one that the bridge makes of a completed turn or of an error, no channel, kept result or owed delivery ever says codex will retry, in any interleaving. |
| `TurnHistory.TableFollows` | internal/codexbridge/turn_tracker.go:30-98 | After any steps a turn waits, and has a result kept, exactly as its own registrations, cancels and notifications say, and the active turn is the last one registered that found no result kept, until a Cancel, Notify or NotifyActive ends it. |
| `TurnHistory.ActiveExactlyWhenLastRegistered` | internal/codexbridge/turn_tracker.go:30-98 | A turn is active exactly when the last Register that found no kept result was its own and nothing has ended it since, over all interleavings. |
| `TurnHistory.ErrorReachesActiveTurn` | internal/codexbridge/turn_tracker.go:75-98 | An error that names no turn then ends up on that turn's channel, addressed to it, and the channel is closed. |
| `TurnHistory.ReceivedOnce` | internal/codexbridge/turn_tracker.go:30-98 | What is received on a channel was sent, and is received at most once. |
| `Bridge.ExtractFinalAnswer` | internal/codexbridge/bridge.go:188-204 | The first final answer, else the last agent message, else none. |
| `Bridge.MergeTurnItems` | internal/codexbridge/bridge.go:159-186 | The notification's items, or the gathered ones if it has none, then each streamed message whose id they lack, in some order of the map. |
| `Bridge.Bridge.OnItemCompleted` | internal/codexbridge/bridge.go:86-94 | The item joins its turn's items; no other turn changes. |
| `Bridge.Bridge.OnAgentMessageDelta` | internal/codexbridge/bridge.go:96-104 | The delta is appended to its message in its turn; nothing without ids or text is kept. |
| `Bridge.Bridge.OnTurnCompleted` | internal/codexbridge/bridge.go:55-82 | The result names the thread and the turn and carries the merged answer as its message without an error, or the missing-message error when there is none; the turn's items are forgotten. |
| `Notifications.Notifier.OnTurnCompleted` | internal/codexbridge/bridge.go:55-82 | The waiting handler's channel, closed, or else the kept result, holds what codex said as the turn's answer with no error, and the missing-message error when it said nothing. |
| `Notifications.Notifier.OnError` | internal/codexbridge/bridge.go:112-146 | Nothing while codex will retry; otherwise the message and details as codex gave them, marked as not retried, reach the named turn's handler, are kept for it, or reach the active one. |
| `Bridge.GathersItsOwn` | internal/codexbridge/bridge.go:86-104 | After any events a turn holds exactly its own items since it last completed and, per message, exactly its own deltas joined in arrival order. |
| `Bridge.MissingExactlyWhenSilent` | internal/codexbridge/bridge.go:159-204 | A turn ends in ErrMissingAgentMessage exactly when its items hold no agent message and nothing was streamed for it. |
| `Bridge.StreamedTurnHasAnswer` | internal/codexbridge/bridge.go:96-104 | A turn that streamed any text with ids has an answer, for every map order. |
| `Bridge.MergedAnswer` | internal/codexbridge/bridge.go:159-204 | The final answer among the items, else one of the unseen streamed messages, else the items' last message. |
| `Bridge.AnswerIsTheTurns` | internal/codexbridge/bridge.go:159-204 | From the events alone and for every map order: the turn's answer is the text of the first final answer among its items, failing that a message it only streamed, joined, failing that its last message, and none otherwise. |
| `Bridge.AnswerIgnoresMapOrderIff` | internal/codexbridge/bridge.go:159-204 | The answer is the same for every map order if and only if the items hold a final answer or all unseen messages say the same. |
| `Inbox.SortPageSorts` | internal/platform/consumer.go:67-74 | A page is handled by creation time and then id, and nothing is dropped or added. |
| `Inbox.PageOrderIsUnique` | internal/platform/consumer.go:67-74 | With distinct ids there is only one such order, whatever sorts. |
| `Inbox.PageIsOldestFirst` | internal/platform/consumer.go:67-74 | Along a page the creation time never falls, and messages of one time stand by id, the first differing character deciding or the shorter first. |
| `Inbox.PagesInTurn` | internal/platform/consumer.go:46-85 | What is handled is the pages' items, page after page, each page sorted on its own. |
| `Inbox.Consumer.HandlePage` | internal/platform/consumer.go:75-79 | Items are handled in order up to the first error, and that is the outcome. |
| `Inbox.Consumer.Sync` | internal/platform/consumer.go:46-85 | All pages in order up to the first failing item or unfetchable page; nil exactly when everything was read and handled; the trace gains exactly the handled items' effects. |
| `Inbox.Consumer.ServeInbox` | internal/daemon/daemon.go:580-614 | All syncs, or all up to the first terminal one, are run one after the other, each from the readiness the last left, each doing what a sync does; the trace is the effects of everything they handled, in order. |
| `Inbox.ServedEndsOnTerminal` | internal/daemon/daemon.go:572-614 | Over such a run only the last item handled can end in a terminal error, and it does exactly when the run stopped on one. |
| `TurnHandling.Daemon.PublishFinalMessage` | internal/daemon/daemon.go:715-742 | Publishes the trimmed text exactly once where the class asks for it and something is left of it, and otherwise nothing; only a failed send is an error. |
| `TurnHandling.Daemon.AckMessage` | internal/daemon/daemon.go:751-771 | One ack of this message, addressed to the inbox for one of its items and otherwise to the thread, and its result. |
| `TurnHandling.Daemon.HandleCodexMessage` | internal/daemon/daemon.go:864-974 | Effects and ending of a codex turn, for every answer of the outside. |
| `TurnHandling.Daemon.HandleClaudeMessage` | internal/daemon/claude.go:126-154 | Effects and ending of a claude turn. |
| `TurnHandling.Daemon.HandleAgnMessage` | internal/daemon/agn.go:122-152 | Effects and ending of an agn turn. |
| `TurnHandling.Daemon.HandleItem` | internal/daemon/daemon.go:800-836 | Nothing happens before the MCP servers are up, and they are probed until they were once; a nil ending is followed by one idle report where the workload is named. |
| `TurnHandling.HandlersKeepDiscipline` | internal/daemon/daemon.go:715-974 | All three handlers, whatever they meet: at most one publish, then at most one ack, addressed to where the message came from; nil exactly when the ack succeeded, idle only then, no ack on a terminal error. |
| `TurnHandling.TurnIsAnswered` | internal/daemon/daemon.go:715-974 | For all three handlers, from the class and what the outside did alone: a turn that ends with a text (codex's message, the one read back, nothing after a transient failure it gave up on, the CLI's response) posts exactly that text, trimmed, once where the class asks for it and it is not blank, and then acks; any other turn has no effect and no nil outcome; exactly the three unmendable codex failures are terminal. |
| `TurnHandling.RunIsPunctuated` | internal/daemon/daemon.go:800-836 | Over whole runs no idle report lacks a successful ack just before it. |
| `TurnHandling.PublishesFollowAcks` | internal/daemon/daemon.go:715-771 | While items are served until acked, successful publishes of an item exceed its failed acks by at most one, and it is acked at most once. |
| `TurnHandling.NilExactlyWhenAcked` | internal/daemon/daemon.go:851-974 | The last item served was acked in the end exactly when its handler returned nil; a terminal error leaves it unacked. |
| `TurnHandling.NotifiedErrorIsNeverRetried` | internal/daemon/daemon.go:898-935 | Bridge, tracker and handler together: an error a waiting handler receives, in any interleaving, ends the turn quietly if transient and the daemon otherwise, and is never answered by another sync. |
| `Transcript.History.AddItem` | internal/transcript/transcript.go:83-85 | The conversation gains the item at its end. |
| `Transcript.History.TakeSnapshot` | internal/transcript/transcript.go:89-100 | All items so far, flagged new exactly from the last snapshot on. |
| `Transcript.SnapshotPartitions` | internal/transcript/transcript.go:89-100 | A snapshot extends the partition: what it flags new is what no earlier one showed. |
| `Transcript.MaxOverIsJoin` | internal/transcript/transcript.go:153-179 | The field-wise maximum of reports is their least upper bound, absent as bottom. |
| `Transcript.MaxOverIgnoresOrder` | internal/transcript/transcript.go:153-179 | It depends neither on order nor on repetition. |
| `Builder.Assembly.CloseAndOpen` | internal/transcript/claude.go:94-107 | The turn in flight is kept as closed, and the new one is open and empty. |
| `Builder.Assembly.StepByID` | internal/transcript/claude.go:150-166 | The turn's first step with the id, or a new one at the end with a snapshot of the conversation. |
| `Builder.Assembly.OnlyStep` | internal/transcript/codex.go:250-263 | A codex turn's one step, made when first needed. |
| `Builder.Assembly.AppendToolCall` | internal/transcript/claude.go:131-138 | The call is the step's last, in the same array or in a copy as append decides, and waits by a pointer into that array. |
| `Builder.Assembly.ApplyResult` | internal/transcript/claude.go:168-188 | Output, end time and error go through the pointer kept for the id, which is then forgotten; an unknown id is ignored. |
| `Builder.Assembly.OverwriteUsage` | internal/transcript/codex.go:267-286 | The turn's usage and its last step's become the reported counts. |
| `Builder.AtomExtends` | internal/transcript/claude.go:94-188 | Nothing the parsers do renames, removes or moves a turn, step or call, and only the last turn can gain any. |
| `Builder.ContextIsPartitioned` | internal/transcript/transcript.go:77-100 | Over a whole parse each step's context continues the previous step's, and the items flagged new, over all steps in order, are exactly the last step's context. |
| `ToolOutputs.AlwaysWellPlaced` | internal/transcript/claude.go:131-138 | In every reachable state a waiting pointer reaches the array its step shows exactly when no append since has moved it, and no two point at the same call. |
| `ToolOutputs.OutputReachesItsCall` | internal/transcript/claude.go:129-188 | With a call id used once, the final turns show the call as it was read with its first result's output, time and, if it failed, error text exactly when no append in between moved the slice, always so when the result came before the step's next call, and with no output, end or error otherwise. |
| `ToolOutputs.UnansweredStaysOpen` | internal/transcript/claude.go:129-188 | A call without a result has no output and no end time in the final turns; `TranscriptCallStaysOpen` and `RolloutCallStaysOpen` state it of whole files. |
| `Claude.ClaudeText` | internal/transcript/claude.go:193-212 | The prompt of a user line: a bare string, or its text blocks joined, and none when a block is a tool result. |
| `Claude.AppendAssistant` | internal/transcript/claude.go:109-148 | What an assistant line does to the turn in flight. |
| `Claude.ApplyToolResults` | internal/transcript/claude.go:168-188 | Each tool result of a user line, in order, reaches what waits for it. |
| `Claude.ParseClaude` | internal/transcript/claude.go:51-92 | The scan yields what the lines' atoms build. |
| `Claude.StableUnderGrowth` | internal/transcript/claude.go:51-166 | Lines added, or a torn last line completed: turns, steps and calls read before keep their positions and ids, and only the last turn may have gained any. |
| `ClaudeUsage.UsageIsMaximum` | internal/transcript/claude.go:109-148 | One turn per prompt; a turn's usage is the maximum over its decodable assistant lines, each step's over those sharing its id. |
| `ClaudeUsage.UsageIgnoresOrder` | internal/transcript/claude.go:109-148 | Two transcripts whose turn has the same set of reports give it the same usage. |
| `ClaudeUsage.StepUsageIgnoresOrder` | internal/transcript/claude.go:109-148 | And steps of one id, for which the same set of counts was reported, have the same usage. |
| `ClaudeOutputs.CallsHaveStep` | internal/transcript/claude.go:109-138 | Every call a transcript makes is read into a step. |
| `ClaudeOutputs.TranscriptOutputReachesItsCall` | internal/transcript/claude.go:51-188 | The tool-output rule for every Claude transcript. |
| `ClaudeOutputs.TranscriptCallStaysOpen` | internal/transcript/claude.go:51-188 | In every Claude transcript a call that gets no result, and whose id is not used again, stays open. |
| `ClaudeOutputs.FirstParallelOutputIsLost` | internal/transcript/claude.go:136-137 | The transcript on which the promise fails: two calls in one message, answered together. |
| `ClaudeTurns.PromptAsks` | internal/transcript/claude.go:193-212 | A user line opens a turn exactly when it is a bare string, null, or blocks with some text and no tool result, and its text is the turn's input. |
| `ClaudeTurns.TurnsAreRead` | internal/transcript/claude.go:51-166 | From the lines alone: one turn per prompt, one step per message in the order of their first lines, each step's text and reasoning its lines' blocks of that kind joined in order, the turn's output all its text, and ids, times and models those of the lines that set them. |
| `ClaudeContexts.StepsAreShownTheTalk` | internal/transcript/claude.go:94-188 | Each step's context is the conversation before its message's first line: prompts, texts, thoughts, calls and the results of calls that waited for one, in order. |
| `ClaudeResults.ResultReachesItsUse` | internal/transcript/claude.go:129-188 | From the lines alone: a tool_use block's call shows the content of the first tool_result block that names it, that line's time and, where the block says so, the error, exactly when no call added to the step before that line moved the slice. |
| `Codex.HasCodexTurnIDs` | internal/transcript/codex.go:149-163 | Whether any turn context names a turn. |
| `Codex.ApplyCodexItem` | internal/transcript/codex.go:165-246 | What a response item does, for every kind of item, role and flag. |
| `Codex.ParseCodex` | internal/transcript/codex.go:79-147 | The scan, with the session, model and turn it carries along, yields what the lines' atoms build. |
| `Codex.StableUnderGrowth` | internal/transcript/codex.go:79-263 | As for Claude, while both readings agree on whether turns are named. |
| `Codex.StableExactlyWhenFlagsAgree` | internal/transcript/codex.go:86-131 | When no delimiter reuses a prompt's turn id, growth, a torn last line included, keeps what was read if and only if that flag agrees or there was no turn. |
| `Codex.LateTurnIDsLoseTurns` | internal/transcript/codex.go:86-131 | The rollout on which growth loses a turn: read once before and once after its first delimiter. |
| `Codex.TurnsAreOpened` | internal/transcript/codex.go:112-131 | The turns' ids are exactly the ids opened, in order. |
| `Codex.DelimitedTurnsAreNamed` | internal/transcript/codex.go:112-131 | A rollout read by its delimiters yields only turns it names. |
| `Codex.CallsHaveStep` | internal/transcript/codex.go:216-231 | Every call of a rollout with an open turn is read into a step. |
| `Codex.RolloutOutputReachesItsCall` | internal/transcript/codex.go:216-241 | The tool-output rule for every codex rollout. |
| `Codex.RolloutCallStaysOpen` | internal/transcript/codex.go:216-241 | The same in every codex rollout. |
| `CodexTurns.TurnsAreRead` | internal/transcript/codex.go:79-286 | From the lines alone: one turn per line that opens one, named by it; its input what the user says in it, its output and its step's texts what the model says, joined in order, its usage the last count reported in it, total before latest, its step's the last since the step began, and times and models those of the lines that set them. |
| `CodexContexts.StepsAreShownTheTalk` | internal/transcript/codex.go:165-263 | The context of a turn's step is the conversation before the first thing the model says in it: instructions, messages, thoughts, calls and the outputs of calls that waited for one, in order. |
| `CodexResults.OutputReachesItsLine` | internal/transcript/codex.go:216-241 | From the lines alone: a call line's call shows the output of the first output line that names it, that line's time and, exactly where the line says it did not succeed, the error, exactly when no call added before that line moved the slice. |
| `SpanKeys.ReadRender` | internal/tracing/exporter.go:156-159 | A span key is read back from the string hashed for it, for arbitrary subjects, dotted ones included. |
| `SpanKeys.KeysAreUnambiguous` | internal/tracing/exporter.go:156-159 | Two keys hash the same string only if they are the same key. |
| `Spans.ExportTurn` | internal/tracing/exporter.go:255-306 | The loop over a turn's steps and calls yields its spans in order. |
| `Spans.SpansFormForest` | internal/tracing/exporter.go:234-339 | One span per step plus one per call, ids distinct; a step's span has its own times, texts, usage, context and model, or the turn's model where it names none; a tool's has its call's own times and values and has failed exactly when the call has an error, and its parent is its own step's span, earlier in the list. |
| `Spans.TurnsDoNotMeet` | internal/tracing/exporter.go:255-306 | Spans of turns with different ids never hash the same string. |
| `Spans.SpansAreRewritten` | internal/tracing/exporter.go:255-306 | After a turn has grown each span is exported again under the same key for the same step or call. |
| `Reexport.ClaudeSpansAreRewritten` | cmd/agynd-trace-hook/main.go:123-143 | Parser, exporter and hook together: when a transcript has grown, every turn not recorded is offered again with every span it had under the same key for the same step or call, and a recorded turn is not. |
| `Reexport.CodexSpansAreRewritten` | cmd/agynd-trace-hook/main.go:123-143 | The same for a rollout, while the flag agrees. |
| `Reexport.FullyExportedIff` | cmd/agynd-trace-hook/main.go:53-121 | Over any runs on a growing transcript, every span of a turn's last reading was exported, under its key, if and only if the turn gained no step and no call after the last run that exported it. |
| `Reexport.RecordingIsLast` | cmd/agynd-trace-hook/main.go:216-242 | The run that exports a finished turn with a clean id is the last to export it. |
| `RunningTurns.FinishedExactlyWhenAnswered` | internal/transcript/claude.go:141-143 | A transcript's turn counts as finished exactly when one of its assistant lines decodes, as long as those that do have a time. |
| `RunningTurns.RunningTurnLosesStep` | cmd/agynd-trace-hook/main.go:216-232 | The transcript that loses a step: the hook runs between a turn's two answers, records the turn, and is not offered its second step. |
| `TraceHook.LoadSent` | cmd/agynd-trace-hook/main.go:199-214 | The non-blank lines, trimmed, as a set; none when there is no file. |
| `TraceHook.RecordSent` | cmd/agynd-trace-hook/main.go:219-232 | The old ids in some order, then the finished exported ones that are new. |
| `TraceHook.SettledTurns` | cmd/agynd-trace-hook/main.go:123-143 | The first reading whose unsent turns include a finished one, or else the last. |
| `TraceHook.WrittenRoundTripIff` | cmd/agynd-trace-hook/main.go:199-232 | Ids written are read back as they were if and only if each is non-empty, trimmed and on one line. |
| `TraceHook.LoadedIsClean` | cmd/agynd-trace-hook/main.go:199-214 | Whatever was written, what is loaded is such ids. |
| `TraceHook.RunRecordsFinished` | cmd/agynd-trace-hook/main.go:219-242 | For every map order and whatever the ids are, a run adds exactly what is read back of the transcript's finished turns if its export went through, and nothing otherwise. |
| `TraceHook.CleanRecords` | cmd/agynd-trace-hook/main.go:199-232 | Where the ids are clean that is exactly the finished turns' ids. |
| `TraceHook.RecordedExactlyWhenClean` | cmd/agynd-trace-hook/main.go:199-232 | A finished turn whose export went through is recorded if and only if its id is non-empty, trimmed and on one line. |
| `TraceHook.SentOnlyGrows` | cmd/agynd-trace-hook/main.go:53-121 | Over any runs, whatever the ids, the set only grows, by what is read back of turns finished in a run that exported. |
| `TraceHook.RecordedIsNeverOffered` | cmd/agynd-trace-hook/main.go:234-242 | A turn whose id is recorded is in no later run's unsent turns, whatever other turns are called. |
| `ThreadMapping.ThreadMapping.SetRecord` | internal/codexbridge/mapping.go:21-31 | The instance's record and the reverse entry; the entry of its former thread goes if it still named it. |
| `ThreadMapping.ThreadMapping.InstanceForCodex` | internal/codexbridge/mapping.go:47-52 | The instance found for a codex thread holds a record of that thread. |
| `ThreadMapping.SetKeeps` | internal/codexbridge/mapping.go:21-31 | Every reverse entry stays backed by a record; the maps stay inverse if and only if no other instance holds the codex thread. |
| `MappingStore.Store.SaveRecord` | internal/codexbridge/thread_mapping_store.go:78-121 | The disk after a save that succeeds, fails or is killed at any stage. |
| `MappingStore.Store.LoadRecord` | internal/codexbridge/thread_mapping_store.go:63-76 | The file's record if it is valid and the instance's, none if there is no file, an error otherwise. |
| `MappingStore.SaveIsAtomic` | internal/codexbridge/thread_mapping_store.go:78-121 | The mapping file holds the whole new record exactly when the rename was reached and otherwise what it held; other files are untouched, a success is loaded back, and a temporary file stays exactly after a kill between making and renaming it. |
| `Conversation.CodexThreads.EnsureCodexThread` | internal/daemon/daemon.go:1037-1082 | Memory first, then the file, then a new thread; memory, disk and outcome after every failure. |
| `Conversation.CallKeeps` | internal/daemon/daemon.go:1037-1082 | A call leaves memory and file in agreement; a success is on disk, and returns what memory or the file already held. |
| `Conversation.AlwaysAgree` | internal/daemon/daemon.go:1037-1082 | Memory and file agree after any calls, save failures, kills and restarts. |
| `Conversation.HeldThreadIsReturned` | internal/daemon/daemon.go:1037-1082 | Once the file holds the instance's record every later success, in any process, returns its thread, and no thread is started. |
| `Conversation.FirstSuccessDecides` | internal/daemon/daemon.go:1037-1082 | After the first success every success returns the same thread and none is started. |
| `Conversation.OneThreadPerProcess` | internal/daemon/daemon.go:1060-1082 | Within one process a started thread is the only one even while every save fails. |
| `ConversationLife.CallSucceedsIff` | internal/daemon/daemon.go:1037-1082 | When one call succeeds, whatever memory and file hold, and with which thread: nothing befalls the save, the record is one a save accepts, and it is memory's, or else the file's and codex resumed it, or else, without a file, a new thread's. |
| `ConversationLife.ThreadIsStartedIff` | internal/daemon/daemon.go:1060-1082 | Codex starts a thread exactly when neither memory nor a readable disk has anything for the instance. |
| `ConversationLife.SucceedsExactlyWhenMet` | internal/daemon/daemon.go:1037-1082 | Over a whole life with no save failing, clean ids and a clock that does not fall back, a call succeeds exactly when one has since the process started, or the file can be read and codex resumes the thread kept or, none being kept, starts one. |
| `SemanticSpans.BothSpellingsCount` | internal/tracingproxy/semantic.go:63-79 | A 64-bit count reads the same written as a number or as a decimal string. |
| `LogRecords.CountNumbers` | internal/tracingproxy/semantic.go:63-79 | What is read as a count, exactly: a number, or a string that spells a 64-bit one with space around it or without. |
| `LogRecords.CompletionAddsCounts` | internal/tracingproxy/semantic.go:258-286 | What a completed response's record does: each count it carries goes under its own key, once and nothing else, onto its conversation's held call, which is emitted and held no longer; without counts or a held call, nothing. |
| `LogRecords.RequestMakesCall` | internal/tracingproxy/semantic.go:207-253 | What a request's record does: its span ends at its time, starts its milliseconds before it or with its message, has failed exactly when its status is at least 400 or it names an error, carries its attributes under their keys, and is held. |
| `LogRecords.PromptMakesMessage` | internal/tracingproxy/semantic.go:185-205 | What a prompt's record does: its span, at its time and with its text and length, becomes its conversation's message. |
| `SemanticSpans.Proxy.Message` | internal/tracingproxy/semantic.go:185-205 | A message span is made and becomes its conversation's message. |
| `SemanticSpans.Proxy.LLMCall` | internal/tracingproxy/semantic.go:207-253 | A call span is made under its conversation's message and is held for usage. |
| `SemanticSpans.Proxy.TakeLLMCall` | internal/tracingproxy/semantic.go:321-333 | A held call is handed out once. |
| `SemanticSpans.Proxy.Usage` | internal/tracingproxy/semantic.go:258-286 | Counts go to the held call; without counts nothing is taken. |
| `SemanticSpans.Proxy.SpanForRecord` | internal/tracingproxy/semantic.go:160-173 | State and emitted span after any log record. |
| `SemanticSpans.Proxy.Export` | internal/tracingproxy/semantic.go:140-158 | The loop over an export's records leaves the state of all events so far, and emits the spans of those that yield one, in order. |
| `SemanticSpans.CallKeepsItsUsage` | internal/tracingproxy/semantic.go:258-333 | After any events a call's span is as it was made plus the counts of its conversation's next completion, if no other request came first: usage is taken at most once and only by its own call. |
| `SemanticSpans.UsageLandsOnLatestUntaken` | internal/tracingproxy/semantic.go:258-286 | Counts are emitted on the conversation's latest untaken call, or dropped if there is none; a completion without counts changes nothing. |
| `SemanticSpans.CallHangsOffItsMessage` | internal/tracingproxy/semantic.go:178-230 | A call's trace is that of the message last set or else of its conversation, its parent the conversation's latest message, before which it never starts; start is at most end if and only if the duration fits below the end and the message does not start after it. |
| `SemanticSpans.MessageSpanIsFinal` | internal/tracingproxy/semantic.go:185-205 | Nothing changes a message span once it is made. |
| `ProbeReader.ReadString` | internal/daemon/daemon.go:1245-1247 | One line with its newline, or what is left; what was read and what remains make up the text. |
| `ProbeReader.ClassifyIs` | internal/daemon/daemon.go:1245-1262 | A line is data exactly when it begins with "data:", and then what follows, trimmed; otherwise it is blank exactly when it holds nothing but space. |
| `ProbeReader.ReadMCPProbeResult` | internal/daemon/daemon.go:1237-1286 | The loop answers what the fold over the body's lines says, read errors and the size limit included. |
| `ProbeReader.EndingAnswers` | internal/daemon/daemon.go:1237-1286 | Success exactly when some event a blank line ends validates, or, the text having ended without an error, the event it cuts off does, or the whole body where no line is data; a refusal carries the last event's error; "missing data" is unreachable. |
| `ProbeReader.BodyAnswers` | internal/daemon/daemon.go:1237-1272 | The same of a whole body: the first 64 KiB of it are read, and its failure counts only if it comes before that. |
| `NoProxy.SplitNoProxy` | internal/daemon/codexconfig.go:294-304 | The comma-separated parts, trimmed, blank ones dropped. |
| `NoProxy.ZitiNoProxyValue` | internal/daemon/codexconfig.go:270-292 | The two loops and the map compute the first-seen entries of the values followed by the required hosts. |
| `NoProxy.FirstsInOrder` | internal/daemon/codexconfig.go:270-292 | Each entry kept is the first of its host, and they stand in the order first seen. |
| `NoProxy.CoversEachOnce` | internal/daemon/codexconfig.go:270-292 | Each host once ignoring case, every given entry and required host covered, and nothing else listed. |
| `NoProxy.ReadsBack` | internal/daemon/codexconfig.go:270-304 | Splitting the merged value gives the merged list. |
| `NoProxy.MergingAgainChangesNothing` | internal/daemon/codexconfig.go:270-304 | Merging a merged value with any values whose hosts it covers gives it back. |
| `NoProxy.SelfMerge` | internal/daemon/codexconfig.go:270-304 | In particular merging it with itself. |
| `Strings.TrimCuts` | internal/daemon/codexconfig.go:294-304 | Trimming cuts a string where only spaces stand outside and none at either end within. |

## Left out

- NoLostItem: says nothing of an item that arrives after the initial read and before the first stream (GapItemIsStranded shows that nothing could be said), nor of a daemon scoped to one thread, whose filter at `internal/subscriber/subscriber.go:108-111` is not modelled.
- CoveredItemIsRead: gives steps of the daemon that read the item where nothing more fails, not that the scheduler takes them; fairness between goroutines, real durations and Go's timers are not modelled.
- SubscriberLoop.Run: leaves out the thread filter at `internal/subscriber/subscriber.go:108-111` and the endings on a cancelled context.
- FullyExportedIff: is about which spans were exported, under their keys; the attributes are those of the reading they were exported from.
- StableExactlyWhenFlagsAgree: leaves aside a rollout whose delimiter reuses the id a prompt's turn would have been given, where the two readings can coincide by accident.
- UsageIsMaximum: is about Claude transcripts; codex usage is the last report, as `CodexTurns.TurnsAreRead` says.
- ReadMCPProbeResult: takes the validation of a payload as a parameter, and a body that fails exactly at the 64 KiB limit as ended, since the limit is reached first.
- ZitiNoProxyValue: takes lower-casing as any function of strings, so nothing depends on its Unicode tables.
- Subscriber.Resubscribe is a step of the keepalive loop (`KeepDrop`): the instant between the end of one attempt and the storing of the next one's cancel function is one step with the attempt's start; a drop that falls in it ends an attempt already over.
- Shutdown of the process: a cancelled context ends every loop, and no property here is about what follows.
- Goroutines are interleaved as steps on values; the wake loops run whole under such interleavings, the tracker's methods are one locked section each. The Go memory model is not modelled.
- Pointers into a step's tool calls are paths to an array and an element, and Go's decision to move a slice is an arbitrary function of its length; Dafny's heap is not used for them.
- `Resulted` in `Builder.dfy` guards a write with the pointer being in range, which it always is in a parse (`AlwaysWellPlaced`).
- A message the server published although the send was reported as failed counts as a failed send.
- JSON, protobuf, UUID, URL and RFC 3339 decoding, hashing and random ids: decoded values, keys and drawn ids are inputs. Keys are proved different as strings; that SHA-256 keeps them apart is not part of this model.
- The sidecar and the mapping file's content are written whole or not at all by one step; scanner line limits are not modelled.
- Span attributes other than those named in `Spans.dfy` and `SemanticSpans.dfy`, resource attributes, batching and the gRPC export itself.
- The file's directory and its creation, permissions and fsync durability after a power loss: the stages of a save can each fail or be the last one reached, and that is all.
- Configuration writers, environment parsing, init scripts, skills, the shell server, holder mode, TCP and MCP readiness loops, and LLM-service waiting: straight-line code or I/O.
- Logging everywhere.
