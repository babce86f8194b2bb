/** `run_job` and its two pipelines (`app/tasks.py`) as a machine that moves from one suspension point to the
    next. The environment answers every suspension: a value, an exception, the hard timeout, or the end of
    the worker. `emit` never suspends, so all that is emitted between two suspensions is one move. */
module Job {
  import opened Options
  import opened Events
  import opened Text
  import Chunker

  /** The arguments of `run_job`; the size bounds are those of the inbound contract. */
  datatype Request = Chat(prompt: string) | Url(url: string, size: nat, maxChunks: nat)

  predicate Valid(req: Request) {
    req.Url? ==> req.size >= 1 && req.maxChunks >= 1
  }

  /** What a suspended call can raise: the pipeline's two error types, `TimeoutError` (also the hard timeout,
      which cancels the pipeline where it is suspended), the cancellation of `run_job` itself, anything else. */
  datatype Fault = FetchError | SummarizeError | TimeoutError | CancelledError | OtherError

  /** The cancel flag read by EXISTS, the text of a fetch, summary or delta, and whether a stream goes on. */
  datatype Answer = Value(flag: bool, text: string, more: bool) | Raises(fault: Fault)

  /** What a suspended call asks for: EXISTS on the cancel key, `fetch_text`, `summarize_chunk`, the next delta of
      `chat_stream`. */
  datatype Question = AskFlag | AskPage(url: string) | AskSummary(chunk: string, index: nat) | AskDelta(prompt: string)

  datatype Outcome = Ok(summary: string, chunks: nat) | DuplicateDelivery | TimedOut | WasCancelled | Errored
                   | Reraised | Killed

  datatype Pc =
    | CheckStart
    | ChatNext(parts: seq<string>)
    | ChatPoll(parts: seq<string>, delta: string)
    | Fetching
    | CheckChunk(text: string)
    | CheckSummary(text: string, summaries: seq<string>)
    | Summarizing(text: string, summaries: seq<string>)
    | CheckFinal(text: string, summaries: seq<string>)
    | FinalNext(text: string, summaries: seq<string>, parts: seq<string>)
    | FinalPoll(text: string, summaries: seq<string>, parts: seq<string>, delta: string)
    | Over(outcome: Outcome)

  datatype Machine = Machine(req: Request, pc: Pc, trace: seq<Event>)

  /** A pipeline's suspension points belong to its mode. */
  predicate Fits(m: Machine) {
    && Valid(m.req)
    && match m.pc
       case CheckStart => true
       case Over(_) => true
       case ChatNext(_) => m.req.Chat?
       case ChatPoll(_, _) => m.req.Chat?
       case _ => m.req.Url?
  }

  function Started200(prompt: string): string {
    if |prompt| <= 200 then prompt else prompt[..200]
  }

  function Start(req: Request): Machine {
    Machine(req, CheckStart, [Started(if req.Chat? then Started200(req.prompt) else req.url)])
  }

  function Moved(m: Machine, pc: Pc, events: seq<Event>): Machine {
    m.(pc := pc, trace := if events == [] then m.trace else m.trace + events)
  }

  /** The handlers of `run_job`; `except Exception` does not catch its cancellation. */
  function Handle(m: Machine, fault: Fault): Machine {
    match fault
    case TimeoutError => Moved(m, Over(TimedOut), [Error(TIMEOUT)])
    case FetchError => Moved(m, Over(Errored), [])
    case SummarizeError => Moved(m, Over(Errored), [])
    case OtherError => Moved(m, Over(Reraised), [Error(UNKNOWN)])
    case CancelledError => Moved(m, Over(Killed), [])
  }

  function Cancel(m: Machine): Machine {
    Moved(m, Over(WasCancelled), [Cancelled])
  }

  /** The inner handler around a suspension point, if any: what it catches and the reason it reports. */
  function Inner(pc: Pc): Option<(Fault, ErrorReason)> {
    match pc
    case Fetching => Some((FetchError, FETCH))
    case ChatNext(_) => Some((SummarizeError, SUMMARIZE))
    case ChatPoll(_, _) => Some((SummarizeError, SUMMARIZE))
    case Summarizing(_, _) => Some((SummarizeError, SUMMARIZE))
    case FinalNext(_, _, _) => Some((SummarizeError, SYNTHESIZE))
    case FinalPoll(_, _, _, _) => Some((SummarizeError, SYNTHESIZE))
    case _ => None
  }

  predicate Catches(pc: Pc, fault: Fault) {
    Inner(pc).Some? && Inner(pc).value.0 == fault
  }

  /** An inner handler reports and re-raises, so the outer one returns without a second event. */
  function Fail(m: Machine, fault: Fault): Machine {
    if Catches(m.pc, fault) then Handle(m.(trace := m.trace + [Error(Inner(m.pc).value.1)]), fault)
    else Handle(m, fault)
  }

  function Chunks(req: Request, text: string): seq<string>
    requires req.Url? && req.size >= 1
  {
    Chunker.ChunkText(text, req.size, req.maxChunks)
  }

  function Advance(m: Machine, a: Answer): Machine
    requires a.Value? && Fits(m)
  {
    match m.pc
    case CheckStart =>
      if a.flag then Cancel(m)
      else if m.req.Chat? then Moved(m, ChatNext([]), [AnswerStarted])
      else Moved(m, Fetching, [FetchStarted(m.req.url)])
    case ChatNext(parts) =>
      if a.more then Moved(m, ChatPoll(parts, a.text), [])
      else Moved(m, Over(Ok(Join(parts), 0)), [AnswerDone(|Join(parts)|), Done(Join(parts), 0)])
    case ChatPoll(parts, delta) =>
      if a.flag then Cancel(m) else Moved(m, ChatNext(parts + [delta]), [Token(delta)])
    case Fetching =>
      Moved(m, CheckChunk(a.text), [FetchDone(|a.text|)])
    case CheckChunk(text) =>
      if a.flag then Cancel(m)
      else if Chunks(m.req, text) == [] then Handle(Moved(m, m.pc, [Error(CHUNK)]), SummarizeError)
      else Moved(m, CheckSummary(text, []), [])
    case CheckSummary(text, summaries) =>
      if a.flag then Cancel(m) else Moved(m, Summarizing(text, summaries), [])
    case Summarizing(text, summaries) =>
      var total, later := |Chunks(m.req, text)|, summaries + [a.text];
      Moved(m, if |later| < total then CheckSummary(text, later) else CheckFinal(text, later),
            [ChunkSummarized(|summaries|, total, a.text)])
    case CheckFinal(text, summaries) =>
      if a.flag then Cancel(m)
      else Moved(m, FinalNext(text, summaries, []), [FinalStarted(|summaries|), AnswerStarted])
    case FinalNext(text, summaries, parts) =>
      if a.more then Moved(m, FinalPoll(text, summaries, parts, a.text), [])
      else
        var final := Join(parts);
        Moved(m, Over(Ok(final, |summaries|)),
              [AnswerDone(|final|), FinalDone(|final|), Done(final, |summaries|)])
    case FinalPoll(text, summaries, parts, delta) =>
      if a.flag then Cancel(m) else Moved(m, FinalNext(text, summaries, parts + [delta]), [Token(delta)])
    case Over(_) => m
  }

  function Step(m: Machine, a: Answer): (next: Machine)
    requires Fits(m)
    ensures Fits(next) && next.req == m.req
  {
    if m.pc.Over? then m
    else match a {
      case Value(_, _, _) => Advance(m, a)
      case Raises(fault) => Fail(m, fault)
    }
  }

  /** A worker that never gets another answer is a worker that is gone. */
  function Head(script: seq<Answer>): Answer {
    if script == [] then Raises(CancelledError) else script[0]
  }

  function Tail(script: seq<Answer>): seq<Answer> {
    if script == [] then [] else script[1..]
  }

  function Exec(m: Machine, script: seq<Answer>): (end: Machine)
    requires Fits(m)
    ensures end.req == m.req && end.pc.Over?
    decreases |script|
  {
    if m.pc.Over? then m
    else if script == [] then Step(m, Head(script))
    else Exec(Step(m, script[0]), script[1..])
  }

  lemma ExecStep(m: Machine, script: seq<Answer>)
    requires Fits(m)
    ensures Exec(m, script) == Exec(Step(m, Head(script)), Tail(script))
  {
  }

  // ---------------------------------------------------------------------------
  // What is asked
  // ---------------------------------------------------------------------------

  const SYNTHESIS := "Combine these chunk summaries into one cohesive overall summary (3-5 sentences). "
                     + "Do not list the bullets back; produce flowing prose.\n\n"

  /** `"\n\n".join(f"- {s}" for s in summaries)`. */
  function Bullets(summaries: seq<string>): string {
    if summaries == [] then ""
    else
      var n := |summaries| - 1;
      (if n == 0 then "" else Bullets(summaries[..n]) + "\n\n") + "- " + summaries[n]
  }

  function ChunkAt(req: Request, text: string, index: nat): string
    requires req.Url? && req.size >= 1
  {
    if index < |Chunks(req, text)| then Chunks(req, text)[index] else ""
  }

  function Asks(m: Machine): Question
    requires Fits(m) && !m.pc.Over?
  {
    match m.pc
    case ChatNext(_) => AskDelta(m.req.prompt)
    case Fetching => AskPage(m.req.url)
    case Summarizing(text, summaries) => AskSummary(ChunkAt(m.req, text, |summaries|), |summaries|)
    case FinalNext(_, summaries, _) => AskDelta(SYNTHESIS + Bullets(summaries))
    case _ => AskFlag
  }

  /** All that a run asks. */
  function Asked(m: Machine, script: seq<Answer>): seq<Question>
    requires Fits(m)
    decreases |script|
  {
    if m.pc.Over? then []
    else [Asks(m)] + (if script == [] then [] else Asked(Step(m, script[0]), script[1..]))
  }

  lemma AskedStep(m: Machine, script: seq<Answer>)
    requires Fits(m) && !m.pc.Over?
    ensures Asked(m, script) == [Asks(m)] + Asked(Step(m, Head(script)), Tail(script))
  {
  }
}
