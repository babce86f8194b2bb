/** The event grammar of a job, and that every run speaks it: one terminal event, in last position, that
    matches the returned status. */
module JobGrammar {
  import opened Events
  import opened Text
  import opened Job

  function Tokens(deltas: seq<string>): seq<Event> {
    seq(|deltas|, i requires 0 <= i < |deltas| => Token(deltas[i]))
  }

  function ChunkEvents(summaries: seq<string>, total: nat): seq<Event> {
    seq(|summaries|, i requires 0 <= i < |summaries| => ChunkSummarized(i, total, summaries[i]))
  }

  /** What varies between the complete traces of one request. */
  datatype Shape = ChatShape(deltas: seq<string>) | UrlShape(chars: nat, summaries: seq<string>, deltas: seq<string>)

  predicate ShapeFits(req: Request, shape: Shape) {
    if req.Chat? then shape.ChatShape? else shape.UrlShape? && shape.summaries != []
  }

  /** The chat form and the URL form. */
  function Full(req: Request, shape: Shape): seq<Event>
    requires ShapeFits(req, shape)
  {
    match shape
    case ChatShape(deltas) =>
      [Started(Started200(req.prompt)), AnswerStarted] + Tokens(deltas)
      + [AnswerDone(|Join(deltas)|), Done(Join(deltas), 0)]
    case UrlShape(chars, summaries, deltas) =>
      var n, final := |summaries|, Join(deltas);
      [Started(req.url), FetchStarted(req.url), FetchDone(chars)] + ChunkEvents(summaries, n)
      + [FinalStarted(n), AnswerStarted] + Tokens(deltas)
      + [AnswerDone(|final|), FinalDone(|final|), Done(final, n)]
  }

  /** How many chunks a text of `chars` characters has. */
  function Count(req: Request, chars: nat): nat
    requires req.Url? && Valid(req)
  {
    Chunker.Min((chars + req.size - 1) / req.size, req.maxChunks)
  }

  lemma CountIs(req: Request, text: string)
    requires req.Url? && Valid(req)
    ensures |Chunks(req, text)| == Count(req, |text|) && (Chunks(req, text) == [] <==> text == "")
  {
    Chunker.ChunksConserve(text, req.size, req.maxChunks);
  }

  /** A completed run has one summary for each chunk of the fetched text. */
  ghost predicate Complete(req: Request, shape: Shape) {
    && Valid(req) && ShapeFits(req, shape)
    && (req.Url? ==> |shape.summaries| == Count(req, shape.chars))
  }

  /** Events after which the pipeline emits again without suspending. */
  predicate MidMove(e: Event) {
    e.FinalStarted? || e.AnswerDone? || e.FinalDone?
  }

  /** A proper, non-empty prefix of a complete trace, cut at a suspension point. The text need not have any
      chunks as long as no summary is reported. */
  ghost predicate CutOf(req: Request, shape: Shape, prefix: seq<Event>) {
    && Valid(req) && ShapeFits(req, shape) && prefix <= Full(req, shape)
    && 0 < |prefix| < |Full(req, shape)| && !MidMove(prefix[|prefix| - 1])
    && (req.Url? && |prefix| > 3 ==> Complete(req, shape))
  }

  ghost predicate LegalPrefix(req: Request, prefix: seq<Event>) {
    exists shape :: CutOf(req, shape, prefix)
  }

  /** A chunk is still to be summarized. */
  predicate BeforeSummary(last: Event) {
    (last.FetchDone? && last.chars > 0) || (last.ChunkSummarized? && last.index + 1 < last.total)
  }

  /** Where each typed error can strike, by the last event before it. */
  predicate ReasonFits(req: Request, last: Event, reason: ErrorReason) {
    match reason
    case FETCH => last.FetchStarted?
    case CHUNK => last == FetchDone(0)
    case SUMMARIZE => if req.Chat? then last.AnswerStarted? || last.Token? else BeforeSummary(last)
    case SYNTHESIZE => req.Url? && (last.AnswerStarted? || last.Token?)
    case TIMEOUT => true
    case UNKNOWN => true
  }

  /** A legal prefix followed by one event. */
  ghost predicate EndsWith(req: Request, trace: seq<Event>, e: Event) {
    && |trace| >= 2 && trace[|trace| - 1] == e && LegalPrefix(req, trace[..|trace| - 1])
    && (e.Error? ==> ReasonFits(req, trace[|trace| - 2], e.reason))
    && (e.Cancelled? ==> !trace[|trace| - 2].FetchStarted?)
  }

  /** What the client sees for each way a run can end. */
  ghost predicate Conforms(req: Request, trace: seq<Event>, outcome: Outcome) {
    match outcome
    case Ok(summary, chunks) =>
      exists shape :: Complete(req, shape) && trace == Full(req, shape)
        && summary == Join(shape.deltas) && chunks == if req.Chat? then 0 else |shape.summaries|
    case TimedOut => EndsWith(req, trace, Error(TIMEOUT))
    case WasCancelled => EndsWith(req, trace, Cancelled)
    case Reraised => EndsWith(req, trace, Error(UNKNOWN))
    case Errored =>
      EndsWith(req, trace, Error(FETCH)) || EndsWith(req, trace, Error(CHUNK))
      || EndsWith(req, trace, Error(SUMMARIZE)) || EndsWith(req, trace, Error(SYNTHESIZE))
    case Killed => LegalPrefix(req, trace)
    case DuplicateDelivery => false
  }

  /** A pipeline error type raised where the pipeline does not raise it: the outer handler takes it for one
      that has been reported. */
  predicate StrayAt(pc: Pc, a: Answer) {
    !pc.Over? && a.Raises? && (a.fault.FetchError? || a.fault.SummarizeError?) && !Catches(pc, a.fault)
  }

  predicate Stray(m: Machine, script: seq<Answer>)
    requires Fits(m)
    decreases |script|
  {
    !m.pc.Over? && script != [] && (StrayAt(m.pc, script[0]) || Stray(Step(m, script[0]), script[1..]))
  }

  // ---------------------------------------------------------------------------
  // What has been emitted at each suspension point
  // ---------------------------------------------------------------------------

  function UrlSoFar(req: Request, chars: nat, summaries: seq<string>, total: nat): seq<Event>
    requires req.Url?
  {
    [Started(req.url), FetchStarted(req.url), FetchDone(chars)] + ChunkEvents(summaries, total)
  }

  function FinalSoFar(req: Request, chars: nat, summaries: seq<string>, parts: seq<string>): seq<Event>
    requires req.Url?
  {
    UrlSoFar(req, chars, summaries, |summaries|) + [FinalStarted(|summaries|), AnswerStarted] + Tokens(parts)
  }

  function ChatSoFar(req: Request, parts: seq<string>): seq<Event>
    requires req.Chat?
  {
    [Started(Started200(req.prompt)), AnswerStarted] + Tokens(parts)
  }

  function SoFar(m: Machine): seq<Event>
    requires Fits(m)
  {
    match m.pc
    case CheckStart => Start(m.req).trace
    case ChatNext(parts) => ChatSoFar(m.req, parts)
    case ChatPoll(parts, _) => ChatSoFar(m.req, parts)
    case Fetching => [Started(m.req.url), FetchStarted(m.req.url)]
    case CheckChunk(text) => UrlSoFar(m.req, |text|, [], 0)
    case CheckSummary(text, summaries) => UrlSoFar(m.req, |text|, summaries, |Chunks(m.req, text)|)
    case Summarizing(text, summaries) => UrlSoFar(m.req, |text|, summaries, |Chunks(m.req, text)|)
    case CheckFinal(text, summaries) => UrlSoFar(m.req, |text|, summaries, |summaries|)
    case FinalNext(text, summaries, parts) => FinalSoFar(m.req, |text|, summaries, parts)
    case FinalPoll(text, summaries, parts, _) => FinalSoFar(m.req, |text|, summaries, parts)
    case Over(_) => m.trace
  }

  /** The loops' progress: summaries never outnumber chunks, and all are there when the loop is left. */
  ghost predicate Progress(m: Machine)
    requires Fits(m)
  {
    match m.pc
    case CheckSummary(text, summaries) => |summaries| < |Chunks(m.req, text)|
    case Summarizing(text, summaries) => |summaries| < |Chunks(m.req, text)|
    case CheckFinal(text, summaries) => summaries != [] && |summaries| == |Chunks(m.req, text)|
    case FinalNext(text, summaries, _) => summaries != [] && |summaries| == |Chunks(m.req, text)|
    case FinalPoll(text, summaries, _, _) => summaries != [] && |summaries| == |Chunks(m.req, text)|
    case _ => true
  }

  ghost predicate Suspended(m: Machine) {
    Fits(m) && !m.pc.Over? && m.trace == SoFar(m) && Progress(m)
  }

  lemma TokensAppend(parts: seq<string>, delta: string)
    ensures Tokens(parts + [delta]) == Tokens(parts) + [Token(delta)]
  {
  }

  lemma ChunkEventsAppend(summaries: seq<string>, total: nat, text: string)
    ensures ChunkEvents(summaries + [text], total) == ChunkEvents(summaries, total) + [ChunkSummarized(|summaries|, total, text)]
  {
  }

  lemma StepStaysSuspended(m: Machine, a: Answer)
    requires Suspended(m) && !Step(m, a).pc.Over?
    ensures Suspended(Step(m, a))
  {
    match m.pc {
      case ChatPoll(parts, delta) => TokensAppend(parts, delta);
      case FinalPoll(_, _, parts, delta) => TokensAppend(parts, delta);
      case Summarizing(text, summaries) =>
        ChunkEventsAppend(summaries, |Chunks(m.req, text)|, a.text);
      case _ =>
    }
  }

  function Padded(summaries: seq<string>, n: nat): seq<string> {
    if n <= |summaries| then summaries else summaries + seq(n - |summaries|, i => "")
  }

  /** A complete trace that continues what has been emitted. */
  function Continuation(m: Machine): Shape
    requires Fits(m) && !m.pc.Over?
  {
    match m.pc
    case CheckStart => if m.req.Chat? then ChatShape([]) else UrlShape(0, [""], [])
    case ChatNext(parts) => ChatShape(parts)
    case ChatPoll(parts, _) => ChatShape(parts)
    case Fetching => UrlShape(0, [""], [])
    case CheckChunk(text) => UrlShape(|text|, [""], [])
    case CheckSummary(text, summaries) => UrlShape(|text|, Padded(summaries, |Chunks(m.req, text)|), [])
    case Summarizing(text, summaries) => UrlShape(|text|, Padded(summaries, |Chunks(m.req, text)|), [])
    case CheckFinal(text, summaries) => UrlShape(|text|, summaries, [])
    case FinalNext(text, summaries, parts) => UrlShape(|text|, summaries, parts)
    case FinalPoll(text, summaries, parts, _) => UrlShape(|text|, summaries, parts)
  }

  lemma SuspendedIsLegal(m: Machine)
    requires Suspended(m)
    ensures CutOf(m.req, Continuation(m), m.trace) && LegalPrefix(m.req, m.trace)
  {
    var shape := Continuation(m);
    match m.pc {
      case CheckSummary(text, summaries) =>
        CountIs(m.req, text);
        ChunksPad(summaries, |Chunks(m.req, text)|);
      case Summarizing(text, summaries) =>
        CountIs(m.req, text);
        ChunksPad(summaries, |Chunks(m.req, text)|);
      case CheckFinal(text, _) => CountIs(m.req, text);
      case FinalNext(text, _, _) => CountIs(m.req, text);
      case FinalPoll(text, _, _, _) => CountIs(m.req, text);
      case _ =>
    }
    hide Count, Chunks;
    assert m.trace <= Full(m.req, shape);
    assert CutOf(m.req, shape, m.trace);
  }

  lemma ChunksPad(summaries: seq<string>, n: nat)
    requires |summaries| < n
    ensures |Padded(summaries, n)| == n && ChunkEvents(summaries, n) <= ChunkEvents(Padded(summaries, n), n)
  {
  }

  // ---------------------------------------------------------------------------
  // The grammar theorem
  // ---------------------------------------------------------------------------

  /** The last event before each suspension point. */
  predicate LastFits(pc: Pc, e: Event) {
    match pc
    case CheckStart => e.Started?
    case ChatNext(_) => e.AnswerStarted? || e.Token?
    case ChatPoll(_, _) => e.AnswerStarted? || e.Token?
    case Fetching => e.FetchStarted?
    case CheckChunk(text) => e == FetchDone(|text|)
    case CheckSummary(_, _) => BeforeSummary(e)
    case Summarizing(_, _) => BeforeSummary(e)
    case CheckFinal(_, _) => e.ChunkSummarized?
    case FinalNext(_, _, _) => e.AnswerStarted? || e.Token?
    case FinalPoll(_, _, _, _) => e.AnswerStarted? || e.Token?
    case Over(_) => true
  }

  lemma LastOf(m: Machine)
    requires Suspended(m)
    ensures m.trace != [] && LastFits(m.pc, m.trace[|m.trace| - 1])
  {
  }

  lemma OneMore(m: Machine, e: Event)
    requires Suspended(m)
    requires e.Error? ==> ReasonFits(m.req, m.trace[|m.trace| - 1], e.reason)
    requires e.Cancelled? ==> !m.pc.Fetching?
    ensures EndsWith(m.req, m.trace + [e], e)
  {
    hide SoFar, CutOf;
    SuspendedIsLegal(m);
    LastOf(m);
    assert (m.trace + [e])[..|m.trace|] == m.trace;
  }

  lemma FaultEndsWell(m: Machine, fault: Fault)
    requires Suspended(m) && !StrayAt(m.pc, Raises(fault))
    ensures var end := Fail(m, fault); end.pc.Over? && Conforms(m.req, end.trace, end.pc.outcome)
  {
    hide SoFar, CutOf, EndsWith;
    LastOf(m);
    SuspendedIsLegal(m);
    if Catches(m.pc, fault) {
      OneMore(m, Error(Inner(m.pc).value.1));
      assert m.trace + [Error(Inner(m.pc).value.1)] + [] == m.trace + [Error(Inner(m.pc).value.1)];
    } else if fault.TimeoutError? {
      OneMore(m, Error(TIMEOUT));
    } else if fault.OtherError? {
      OneMore(m, Error(UNKNOWN));
    } else {
      assert m.trace + [] == m.trace;
    }
  }

  lemma StepEndsWell(m: Machine, a: Answer)
    requires Suspended(m) && Step(m, a).pc.Over? && !StrayAt(m.pc, a)
    ensures var end := Step(m, a); Conforms(m.req, end.trace, end.pc.outcome)
  {
    hide SoFar, CutOf, EndsWith, Conforms;
    if a.Raises? {
      FaultEndsWell(m, a.fault);
    } else if Step(m, a).pc.outcome.Ok? {
      EndOfStream(m, a);
    } else if Step(m, a).pc.outcome.WasCancelled? {
      OneMore(m, Cancelled);
      ByOneEvent(m.req, m.trace, Cancelled, WasCancelled);
    } else {
      CountIs(m.req, m.pc.text);
      LastOf(m);
      OneMore(m, Error(CHUNK));
      ByOneEvent(m.req, m.trace, Error(CHUNK), Errored);
      assert m.trace + [Error(CHUNK)] + [] == m.trace + [Error(CHUNK)];
    }
  }

  lemma ByOneEvent(req: Request, prefix: seq<Event>, e: Event, outcome: Outcome)
    requires EndsWith(req, prefix + [e], e)
    requires (e.Cancelled? && outcome.WasCancelled?) || (e == Error(CHUNK) && outcome.Errored?)
    ensures Conforms(req, prefix + [e], outcome)
  {
  }

  lemma EndTrace(m: Machine, a: Answer)
    requires Suspended(m) && Step(m, a).pc.Over? && Step(m, a).pc.outcome.Ok?
    ensures Step(m, a).trace == Full(m.req, Continuation(m))
  {
  }

  lemma EndOfStream(m: Machine, a: Answer)
    requires Suspended(m) && Step(m, a).pc.Over? && Step(m, a).pc.outcome.Ok?
    ensures var end := Step(m, a); Conforms(m.req, end.trace, end.pc.outcome)
  {
    EndTrace(m, a);
    if m.req.Url? {
      CountIs(m.req, m.pc.text);
    }
    assert Complete(m.req, Continuation(m));
  }

  lemma {:induction false} ExecConforms(m: Machine, script: seq<Answer>)
    requires Suspended(m) && !Stray(m, script)
    ensures var end := Exec(m, script); Conforms(m.req, end.trace, end.pc.outcome)
    decreases |script|
  {
    if script == [] {
      StepEndsWell(m, Head(script));
    } else if Step(m, script[0]).pc.Over? {
      StepEndsWell(m, script[0]);
      ExecOver(Step(m, script[0]), script[1..]);
    } else {
      StepStaysSuspended(m, script[0]);
      ExecConforms(Step(m, script[0]), script[1..]);
    }
  }

  lemma ExecOver(m: Machine, script: seq<Answer>)
    requires Fits(m) && m.pc.Over?
    ensures Exec(m, script) == m
  {
  }

  /** Every run of every request, for every choice of deltas, failures, cancels and timeouts. */
  lemma EveryRunConforms(req: Request, script: seq<Answer>)
    requires Valid(req) && !Stray(Start(req), script)
    ensures var end := Exec(Start(req), script); Conforms(req, end.trace, end.pc.outcome)
  {
    ExecConforms(Start(req), script);
  }
}
