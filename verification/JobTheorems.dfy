/** What follows from the grammar, and how fast a cancel flag takes effect. */
module JobTheorems {
  import opened Events
  import opened TraceCounts
  import opened Text
  import opened Job
  import opened JobGrammar

  function Last(trace: seq<Event>): Event
    requires trace != []
  {
    trace[|trace| - 1]
  }

  ghost predicate NoTerminalBeforeLast(trace: seq<Event>) {
    forall i :: 0 <= i < |trace| - 1 ==> !Terminal(trace[i])
  }

  lemma FullIsTerminatedOnce(req: Request, shape: Shape)
    requires ShapeFits(req, shape)
    ensures var full := Full(req, shape); full != [] && Last(full).Done? && NoTerminalBeforeLast(full)
  {
  }

  lemma LegalHasNoTerminal(req: Request, prefix: seq<Event>)
    requires LegalPrefix(req, prefix)
    ensures prefix != [] && forall i :: 0 <= i < |prefix| ==> !Terminal(prefix[i])
  {
    var shape :| CutOf(req, shape, prefix);
    FullIsTerminatedOnce(req, shape);
  }

  lemma EndsWithIsTerminated(req: Request, trace: seq<Event>, e: Event)
    requires EndsWith(req, trace, e)
    ensures NoTerminalBeforeLast(trace)
  {
    LegalHasNoTerminal(req, trace[..|trace| - 1]);
    forall i | 0 <= i < |trace| - 1
      ensures trace[i] == trace[..|trace| - 1][i]
    {
    }
  }

  /** The returned status and the last published event name the same outcome. */
  predicate StatusMatches(outcome: Outcome, last: Event) {
    && (outcome.Ok? <==> last.Done?)
    && (outcome.Ok? ==> last == Done(outcome.summary, outcome.chunks))
    && (outcome.WasCancelled? <==> last.Cancelled?)
    && (outcome.TimedOut? <==> last == Error(TIMEOUT))
    && (outcome.Reraised? <==> last == Error(UNKNOWN))
    && (outcome.Errored? <==>
          last == Error(FETCH) || last == Error(CHUNK) || last == Error(SUMMARIZE) || last == Error(SYNTHESIZE))
  }

  lemma ConformingIsTerminated(req: Request, trace: seq<Event>, outcome: Outcome)
    requires Conforms(req, trace, outcome)
    ensures trace != [] && NoTerminalBeforeLast(trace)
    ensures StatusMatches(outcome, Last(trace)) && (Terminal(Last(trace)) <==> !outcome.Killed?)
  {
    hide EndsWith, LegalPrefix, Full;
    match outcome {
      case Ok(_, _) =>
        var shape :| Complete(req, shape) && trace == Full(req, shape)
          && outcome.summary == Join(shape.deltas) && outcome.chunks == if req.Chat? then 0 else |shape.summaries|;
        FullIsTerminatedOnce(req, shape);
        DoneOfFull(req, shape);
      case Killed => LegalHasNoTerminal(req, trace);
      case _ =>
        var e := LastOfEnding(req, trace, outcome);
        EndsWithIsTerminated(req, trace, e);
    }
  }

  lemma DoneOfFull(req: Request, shape: Shape)
    requires ShapeFits(req, shape)
    ensures var full := Full(req, shape);
            full != [] && Last(full) == Done(Join(shape.deltas), if req.Chat? then 0 else |shape.summaries|)
  {
  }

  lemma LastOfEnding(req: Request, trace: seq<Event>, outcome: Outcome) returns (e: Event)
    requires Conforms(req, trace, outcome) && !outcome.Ok? && !outcome.Killed?
    ensures EndsWith(req, trace, e) && trace != [] && Last(trace) == e && Terminal(e) && StatusMatches(outcome, e)
  {
    hide LegalPrefix;
    assert trace != [];
    e := Last(trace);
  }

  lemma {:induction false} StrayEndsSilently(m: Machine, script: seq<Answer>)
    requires Suspended(m) && Stray(m, script)
    ensures var end := Exec(m, script); end.pc == Over(Errored) && LegalPrefix(m.req, end.trace)
    decreases |script|
  {
    hide SoFar, LegalPrefix;
    if StrayAt(m.pc, script[0]) {
      SuspendedIsLegal(m);
      assert m.trace + [] == m.trace;
      ExecOver(Step(m, script[0]), script[1..]);
    } else {
      StepStaysSuspended(m, script[0]);
      StrayEndsSilently(Step(m, script[0]), script[1..]);
    }
  }

  /** Every run emits at most one terminal event, in last position, and emits one exactly when the worker
      survives and no call raises a pipeline error type that is not its own. */
  lemma ExactlyOneTerminalEvent(req: Request, script: seq<Answer>)
    requires Valid(req)
    ensures var end := Exec(Start(req), script);
            && end.trace != [] && NoTerminalBeforeLast(end.trace)
            && (Terminal(Last(end.trace)) <==> !end.pc.outcome.Killed? && !Stray(Start(req), script))
  {
    var end := Exec(Start(req), script);
    if Stray(Start(req), script) {
      StrayEndsSilently(Start(req), script);
      LegalHasNoTerminal(req, end.trace);
    } else {
      EveryRunConforms(req, script);
      ConformingIsTerminated(req, end.trace, end.pc.outcome);
    }
  }

  /** A delivery of the message: without the lock `run_job` returns at once. */
  function Delivered(req: Request, gotLock: bool, script: seq<Answer>): (end: Machine)
    requires Valid(req)
    ensures end.req == req && end.pc.Over?
  {
    if gotLock then Exec(Start(req), script) else Machine(req, Over(DuplicateDelivery), [])
  }

  lemma NeverDuplicate(m: Machine, script: seq<Answer>)
    requires Fits(m) && (m.pc.Over? ==> !m.pc.outcome.DuplicateDelivery?)
    ensures !Exec(m, script).pc.outcome.DuplicateDelivery?
    decreases |script|
  {
    if !m.pc.Over? && script != [] {
      NeverDuplicate(Step(m, script[0]), script[1..]);
    }
  }

  /** Returned status and published outcome agree: a delivery is a duplicate exactly when it emitted nothing,
      and any other names its last event. */
  lemma StatusMatchesOutcome(req: Request, gotLock: bool, script: seq<Answer>)
    requires Valid(req)
    ensures var end := Delivered(req, gotLock, script);
            && (end.pc.outcome.DuplicateDelivery? <==> end.trace == [])
            && (end.pc.outcome.DuplicateDelivery? <==> !gotLock)
            && (gotLock && !Stray(Start(req), script) ==> StatusMatches(end.pc.outcome, Last(end.trace)))
  {
    ExactlyOneTerminalEvent(req, script);
    NeverDuplicate(Start(req), script);
    if !Stray(Start(req), script) {
      EveryRunConforms(req, script);
      ConformingIsTerminated(req, Exec(Start(req), script).trace, Exec(Start(req), script).pc.outcome);
    }
  }

  // ---------------------------------------------------------------------------
  // Token and chunk conservation, read off the events alone
  // ---------------------------------------------------------------------------

  lemma {:induction false} OfTokens(deltas: seq<string>)
    ensures TokensOf(Tokens(deltas)) == deltas && ChunksOf(Tokens(deltas)) == []
  {
    if deltas != [] {
      OfTokens(deltas[1..]);
      assert Tokens(deltas)[1..] == Tokens(deltas[1..]);
    }
  }

  function Numbered(summaries: seq<string>): seq<Summary> {
    seq(|summaries|, i requires 0 <= i < |summaries| => Summary(i, |summaries|, summaries[i]))
  }

  lemma OfFull(req: Request, shape: Shape)
    requires ShapeFits(req, shape)
    ensures TokensOf(Full(req, shape)) == shape.deltas
    ensures ChunksOf(Full(req, shape)) == if req.Chat? then [] else Numbered(shape.summaries)
  {
    hide TokensOf, ChunksOf;
    OfTokens(shape.deltas);
    var final := Join(shape.deltas);
    if req.Chat? {
      var a, b := [Started(Started200(req.prompt)), AnswerStarted], [AnswerDone(|final|), Done(final, 0)];
      OfPlain(a);
      OfPlain(b);
      OfConcat(a, Tokens(shape.deltas));
      OfConcat(a + Tokens(shape.deltas), b);
    } else {
      var n := |shape.summaries|;
      var a := [Started(req.url), FetchStarted(req.url), FetchDone(shape.chars)];
      var b := ChunkEvents(shape.summaries, n);
      var c := [FinalStarted(n), AnswerStarted];
      var d := [AnswerDone(|final|), FinalDone(|final|), Done(final, n)];
      OfPlain(a);
      OfChunks(b);
      assert ChunksOf(b) == Numbered(shape.summaries);
      OfPlain(c);
      OfPlain(d);
      OfConcat(a, b);
      OfConcat(a + b, c);
      OfConcat(a + b + c, Tokens(shape.deltas));
      OfConcat(a + b + c + Tokens(shape.deltas), d);
    }
  }

  /** The lengths and counts an event announces. */
  predicate Announces(e: Event, length: nat, chunks: nat) {
    && (e.AnswerDone? ==> e.length == length)
    && (e.FinalDone? ==> e.length == length)
    && (e.FinalStarted? ==> e.chunks == chunks)
  }

  ghost predicate AllAnnounce(trace: seq<Event>, length: nat, chunks: nat) {
    forall e :: e in trace ==> Announces(e, length, chunks)
  }

  lemma AnnounceConcat(a: seq<Event>, b: seq<Event>, length: nat, chunks: nat)
    requires AllAnnounce(a, length, chunks) && AllAnnounce(b, length, chunks)
    ensures AllAnnounce(a + b, length, chunks)
  {
  }

  lemma FullAnnounces(req: Request, shape: Shape)
    requires ShapeFits(req, shape)
    ensures AllAnnounce(Full(req, shape), |Join(shape.deltas)|, if req.Chat? then 0 else |shape.summaries|)
  {
    var final, length := Join(shape.deltas), |Join(shape.deltas)|;
    var tokens := Tokens(shape.deltas);
    if req.Chat? {
      var a := [Started(Started200(req.prompt)), AnswerStarted];
      AnnounceConcat(a, tokens, length, 0);
      AnnounceConcat(a + tokens, [AnswerDone(length), Done(final, 0)], length, 0);
    } else {
      var n := |shape.summaries|;
      var a := [Started(req.url), FetchStarted(req.url), FetchDone(shape.chars)];
      var b, c := ChunkEvents(shape.summaries, n), [FinalStarted(n), AnswerStarted];
      AnnounceConcat(a, b, length, n);
      AnnounceConcat(a + b, c, length, n);
      AnnounceConcat(a + b + c, tokens, length, n);
      AnnounceConcat(a + b + c + tokens, [AnswerDone(length), FinalDone(length), Done(final, n)], length, n);
    }
  }

  /** Everything a completed trace says about itself adds up. */
  ghost predicate Balanced(req: Request, trace: seq<Event>) {
    var text, chunks := Join(TokensOf(trace)), ChunksOf(trace);
    && trace != [] && Last(trace) == Done(text, |chunks|)
    && AllAnnounce(trace, |text|, |chunks|)
    && (forall i :: 0 <= i < |chunks| ==> chunks[i].index == i && chunks[i].total == |chunks|)
    && (req.Url? ==> 1 <= |chunks| <= req.maxChunks)
  }

  lemma FullIsBalanced(req: Request, shape: Shape)
    requires Complete(req, shape)
    ensures Balanced(req, Full(req, shape))
  {
    hide Full, TokensOf, ChunksOf, AllAnnounce, Join;
    OfFull(req, shape);
    DoneOfFull(req, shape);
    FullAnnounces(req, shape);
  }

  /** DONE.summary is the concatenation of the TOKEN deltas, the lengths are its length, and the chunk
      indices are 0 .. n-1 with n the announced total and count, at least 1 in URL mode. */
  lemma CompletedRunsBalance(req: Request, script: seq<Answer>)
    requires Valid(req) && !Stray(Start(req), script)
    ensures var end := Exec(Start(req), script);
            end.pc.outcome.Ok? ==>
              Balanced(req, end.trace) && end.pc.outcome.summary == Join(TokensOf(end.trace))
              && end.pc.outcome.chunks == |ChunksOf(end.trace)|
  {
    EveryRunConforms(req, script);
    var end := Exec(Start(req), script);
    if end.pc.outcome.Ok? {
      var shape :| Complete(req, shape) && end.trace == Full(req, shape)
        && end.pc.outcome.summary == Join(shape.deltas)
        && end.pc.outcome.chunks == if req.Chat? then 0 else |shape.summaries|;
      FullIsBalanced(req, shape);
      OfFull(req, shape);
    }
  }

  // ---------------------------------------------------------------------------
  // How fast a cancel flag takes effect
  // ---------------------------------------------------------------------------

  /** From some answer on, every EXISTS finds the flag. */
  ghost predicate Flagged(script: seq<Answer>) {
    forall a :: a in script && a.Value? ==> a.flag
  }

  /** Events still to come once every further EXISTS finds the flag. */
  function Left(pc: Pc): nat {
    match pc
    case ChatNext(_) => 2
    case Fetching => 2
    case Summarizing(_, _) => 2
    case FinalNext(_, _, _) => 3
    case Over(_) => 0
    case _ => 1
  }

  function BulkLeft(pc: Pc): nat {
    if pc.Summarizing? then 1 else 0
  }

  /** The events of one move. */
  function Added(m: Machine, a: Answer): (events: seq<Event>)
    requires Fits(m)
    ensures Step(m, a).trace == m.trace + events
  {
    Step(m, a).trace[|m.trace|..]
  }

  lemma MoveIsShort(m: Machine, a: Answer)
    requires Fits(m)
    ensures |Added(m, a)| + Left(Step(m, a).pc) <= 5
    ensures (a.Value? ==> a.flag) ==> |Added(m, a)| + Left(Step(m, a).pc) <= Left(m.pc)
  {
  }

  lemma MoveIsLean(m: Machine, a: Answer)
    requires Fits(m)
    ensures Bulk(Added(m, a)) + BulkLeft(Step(m, a).pc) <= 1
    ensures (a.Value? ==> a.flag) ==> Bulk(Added(m, a)) + BulkLeft(Step(m, a).pc) <= BulkLeft(m.pc)
  {
    hide TokensOf, ChunksOf;
    var events := Added(m, a);
    if a.Value? && (m.pc.Summarizing? || (!a.flag && (m.pc.ChatPoll? || m.pc.FinalPoll?))) {
      assert |events| == 1;
      OfAtMostOne(events);
    } else {
      OfPlain(events);
    }
  }

  /** What one move adds, and how many of it count. */
  lemma MoveAdds(m: Machine, a: Answer) returns (events: seq<Event>)
    requires Fits(m)
    ensures Step(m, a).trace == m.trace + events
    ensures Bulk(Step(m, a).trace) == Bulk(m.trace) + Bulk(events)
    ensures |events| + Left(Step(m, a).pc) <= 5
    ensures Bulk(events) + BulkLeft(Step(m, a).pc) <= 1
    ensures (a.Value? ==> a.flag) ==> |events| + Left(Step(m, a).pc) <= Left(m.pc)
    ensures (a.Value? ==> a.flag) ==> Bulk(events) + BulkLeft(Step(m, a).pc) <= BulkLeft(m.pc)
  {
    hide Step, TokensOf, ChunksOf, Left, BulkLeft;
    events := Added(m, a);
    MoveIsShort(m, a);
    MoveIsLean(m, a);
    OfConcat(m.trace, events);
  }

  lemma {:induction false} FlaggedRunIsShort(m: Machine, script: seq<Answer>)
    requires Fits(m) && Flagged(script)
    ensures var end := Exec(m, script);
            |end.trace| <= |m.trace| + Left(m.pc) && Bulk(end.trace) <= Bulk(m.trace) + BulkLeft(m.pc)
    decreases |script|
  {
    hide Step, Bulk, Left, BulkLeft;
    ExecStep(m, script);
    var events := MoveAdds(m, Head(script));
    if script != [] && !m.pc.Over? {
      FlaggedRunIsShort(Step(m, script[0]), script[1..]);
    } else {
      OverLeavesNothing(m, script);
    }
  }

  lemma OverLeavesNothing(m: Machine, script: seq<Answer>)
    requires Fits(m) && (m.pc.Over? || script == [])
    ensures Exec(m, script) == Step(m, Head(script)) || Exec(m, script) == m
    ensures Left(Exec(m, script).pc) == 0 && BulkLeft(Exec(m, script).pc) == 0
  {
  }

  /** Wherever a run is suspended when the flag is set, and whatever the pending call still answers: at most
      five more events, the terminal one included, and at most one TOKEN or CHUNK_SUMMARIZED. */
  lemma CancelBound(m: Machine, pending: Answer, rest: seq<Answer>)
    requires Fits(m) && Flagged(rest)
    ensures var end := Exec(m, [pending] + rest);
            |end.trace| <= |m.trace| + 5 && Bulk(end.trace) <= Bulk(m.trace) + 1
  {
    hide Step, Bulk, Left, BulkLeft;
    assert ([pending] + rest)[1..] == rest;
    var events := MoveAdds(m, pending);
    ExecStep(m, [pending] + rest);
    FlaggedRunIsShort(Step(m, pending), rest);
  }

  /** A checkpoint that finds no flag. */
  const PASS := Value(false, "", false)

  lemma OneStep(m: Machine, a: Answer, rest: seq<Answer>)
    requires Suspended(m) && !Step(m, a).pc.Over?
    ensures Exec(m, [a] + rest) == Exec(Step(m, a), rest) && Suspended(Step(m, a))
  {
    hide SoFar;
    assert ([a] + rest)[1..] == rest;
    ExecStep(m, [a] + rest);
    StepStaysSuspended(m, a);
  }

  /** The worst case: the flag is set just after the checkpoint before FINAL_STARTED, and the stream is empty. */
  lemma CancelBoundIsTight(m: Machine)
    requires Suspended(m) && m.pc.CheckFinal?
    ensures var end := Exec(m, [PASS] + [Value(true, "", false)]);
            |end.trace| == |m.trace| + 5 && end.pc.outcome.Ok?
  {
    hide SoFar;
    var late := Value(true, "", false);
    OneStep(m, PASS, [late]);
    var streaming := Step(m, PASS);
    ExecStep(streaming, [late]);
    ExecOver(Step(streaming, late), []);
  }
}
