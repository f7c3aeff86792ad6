/** The events the session loop consumes (event_handler.rs), from the
    terminal, the timer and the stream task. */
module Events {
  import opened Keys

  /** What is known of an `anyhow::Error` carried by an event: whether its
      root cause is an `std::io::Error`, and its message. The older event
      handler's `Error` carries nothing (`Unspecified`). */
  datatype ErrorCause = Unspecified | Failure(ioRoot: bool, message: string)

  predicate IsIoRooted(cause: ErrorCause) {
    cause.Failure? && cause.ioRoot
  }

  datatype LlmResponse = Finished | Chunk(text: string)

  datatype Event =
    | Tick
    | Key(key: KeyEvent)
    | LlmResponse(response: LlmResponse)
    | Error(cause: ErrorCause)
}
