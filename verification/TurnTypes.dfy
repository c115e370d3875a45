// What handling one message meets, and the effects it has.

module TurnTypes {
  import opened Options
  import opened Turns

  /** inboxItem is empty for a message that was not delivered by an inbox. */
  datatype Message = Message(
    id: string, inboxItem: string, threadID: string, body: string, files: seq<string>, createdAt: int)

  /** How SendMessage ends. */
  datatype Post = Sent | NoDefaultThread | SendFailed

  datatype Completion = Completed(result: TurnResult) | Interrupted

  datatype Readback = ReadBack(text: string) | StillMissing | ReadFailed

  /** What handling one message meets. A thread, a turn id or a response that is None is a
      call that failed. */
  datatype World = World(
    mcpUp: bool, thread: Option<string>, llmReady: bool, turn: Option<string>, completion: Completion,
    readback: Readback, response: Option<string>, post: Post, ackOk: bool)

  datatype Delivery = Delivery(message: Message, world: World)

  /** What an ack is addressed to. */
  datatype Target = InboxItem(inboxItem: string) | ThreadMessage(message: string)

  datatype Effect = Published(item: string, text: string, post: Post) | Acked(item: string, target: Target, ok: bool) | Idle

  /** How a handler returns: nil, an error the next sync retries, or one that ends the daemon. */
  datatype Outcome = Nil | Retryable | Terminal
}
