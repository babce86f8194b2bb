/** The event types of one job (`app/events.py`) without the clock field `ts`. */
module Events {
  datatype ErrorReason = FETCH | CHUNK | SUMMARIZE | SYNTHESIZE | TIMEOUT | UNKNOWN

  datatype Event =
    | Queued
    | Started(input: string)
    | FetchStarted(url: string)
    | FetchDone(chars: nat)
    | ChunkSummarized(index: nat, total: nat, text: string)
    | FinalStarted(chunks: nat)
    | FinalDone(length: nat)
    | AnswerStarted
    | Token(delta: string)
    | AnswerDone(length: nat)
    | Heartbeat
    | Cancelled
    | Error(reason: ErrorReason)
    | Done(summary: string, chunks: nat)

  /** `event.type in TERMINAL_TYPES`. */
  predicate Terminal(e: Event) {
    e.Done? || e.Error? || e.Cancelled?
  }
}
