// The bridge with the tracker it notifies (internal/codexbridge/bridge.go:55-146): what codex says
// of a turn reaches whoever waits for it.

module Notifications {
  import opened Options
  import opened Turns
  import Bridge
  import TurnTracker

  class Notifier {
    const bridge: Bridge.Bridge
    const tracker: TurnTracker.TurnTracker

    constructor (bridge: Bridge.Bridge, tracker: TurnTracker.TurnTracker)
      ensures this.bridge == bridge && this.tracker == tracker
    {
      this.bridge, this.tracker := bridge, tracker;
    }

    /** A completed turn's answer, or that it has none, reaches whoever waits for the turn or is
        kept for them. events is what the bridge has heard until now. */
    method OnTurnCompleted(threadID: string, turnID: string, items: seq<Bridge.Item>, ghost events: seq<Bridge.Event>)
      returns (result: TurnResult, ghost answer: Option<string>)
      requires tracker.Valid() && bridge.items == Bridge.HandleAll(events)
      modifies bridge, tracker, tracker.waiters.Values
      ensures tracker.Valid() && tracker.State() == TurnTracker.Notified(old(tracker.State()), result).0
      ensures bridge.items == Bridge.HandleAll(events + [Bridge.TurnCompleted(turnID)])
      ensures result.threadID == threadID && result.turnID == turnID
      ensures answer.Some? ==> result.err.None? && result.message == answer.value
      ensures answer.None? ==> result.err == Some(MissingAgentMessage)
      ensures turnID != "" ==> Bridge.IsAnswer(events, turnID, items, answer)
      ensures turnID in old(tracker.waiters) ==>
        var ch := old(tracker.waiters[turnID]); ch.buffer == [result] && ch.closed
      ensures turnID !in old(tracker.waiters) ==> turnID in tracker.pending && tracker.pending[turnID] == result
    {
      result, answer := TurnCompleted(threadID, turnID, items, events);
      tracker.Notify(result);
    }

    /** The bridge's part. */
    method TurnCompleted(threadID: string, turnID: string, items: seq<Bridge.Item>, ghost events: seq<Bridge.Event>)
      returns (result: TurnResult, ghost answer: Option<string>)
      requires bridge.items == Bridge.HandleAll(events)
      modifies bridge
      ensures bridge.items == Bridge.HandleAll(events + [Bridge.TurnCompleted(turnID)])
      ensures result.threadID == threadID && result.turnID == turnID
      ensures answer.Some? ==> result.err.None? && result.message == answer.value
      ensures answer.None? ==> result.err == Some(MissingAgentMessage)
      ensures turnID != "" ==> Bridge.IsAnswer(events, turnID, items, answer)
    {
      ghost var order;
      ghost var all := events + [Bridge.TurnCompleted(turnID)];
      assert all[..|events|] == events;
      result, order := bridge.OnTurnCompleted(threadID, turnID, items);
      answer := Bridge.Answer(Bridge.Merged(items, Bridge.Gathered(Bridge.HandleAll(events), turnID), order));
      if turnID != "" {
        Bridge.AnswerIsTheTurns(events, turnID, items, order);
      }
    }

    /** An error codex gave up on reaches its turn, or the active one when it names none, as it
        was said; one codex will retry changes nothing. */
    method OnError(threadID: string, turnID: string, message: string, willRetry: bool, details: Option<string>)
      requires tracker.Valid()
      modifies tracker, tracker.waiters.Values
      ensures tracker.Valid()
      ensures willRetry ==> tracker.State() == old(tracker.State())
      ensures !willRetry && turnID == "" && old(tracker.active) != "" ==>
        var active := old(tracker.active);
        active in old(tracker.waiters) && active !in tracker.waiters &&
        var ch := old(tracker.waiters[active]); ch.buffer == [Said(threadID, active, message, details)] && ch.closed
      ensures !willRetry && turnID != "" && turnID in old(tracker.waiters) ==>
        var ch := old(tracker.waiters[turnID]); ch.buffer == [Said(threadID, turnID, message, details)] && ch.closed
      ensures !willRetry && turnID != "" && turnID !in old(tracker.waiters) ==>
        turnID in tracker.pending && tracker.pending[turnID] == Said(threadID, turnID, message, details)
    {
      var outcome := bridge.OnError(threadID, turnID, message, willRetry, details);
      match outcome {
        case Unsaid =>
        case ToActive(result) => var _ := tracker.NotifyActive(result);
        case ToTurn(result) => tracker.Notify(result);
      }
    }
  }

  /** The result that tells a turn of an error. */
  function Said(threadID: string, turnID: string, message: string, details: Option<string>): TurnResult {
    TurnResult(threadID, turnID, "",
      Some(Notification(threadID, turnID, message, false, if details.Some? then details.value else "")))
  }
}
