// What a codex turn ends in, as the bridge tells it (internal/codexbridge).

module Turns {
  import opened Options

  /** What a turn can end in besides a message. */
  datatype TurnError =
    | MissingAgentMessage
    | Notification(threadID: string, turnID: string, message: string, willRetry: bool, details: string)

  datatype TurnResult = TurnResult(threadID: string, turnID: string, message: string, err: Option<TurnError>)

  /** A result found to belong to turnID, with its error told so when it can be. */
  function Addressed(result: TurnResult, turnID: string): TurnResult {
    var err := if result.err.Some? && result.err.value.Notification?
               then Some(result.err.value.(turnID := turnID)) else result.err;
    result.(turnID := turnID, err := err)
  }

  /** An error result the bridge sends on never says codex will retry. */
  ghost predicate GivenUp(result: TurnResult) {
    result.err.Some? && result.err.value.Notification? ==> !result.err.value.willRetry
  }
}
