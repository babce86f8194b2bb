/** The grammar is exact: whatever conforms to it is what some run does. */
module JobReach {
  import opened Events
  import opened Text
  import opened Job
  import opened JobGrammar
  import opened JobTheorems

  /** Where a script leads. */
  function After(m: Machine, script: seq<Answer>): (next: Machine)
    requires Fits(m)
    ensures Fits(next) && next.req == m.req
    decreases |script|
  {
    if script == [] then m else After(Step(m, script[0]), script[1..])
  }

  /** No call fails. */
  predicate Quiet(script: seq<Answer>) {
    forall a :: a in script ==> a.Value?
  }

  lemma {:induction false} Compose(m: Machine, a: seq<Answer>, b: seq<Answer>)
    requires Fits(m) && Quiet(a)
    ensures Exec(m, a + b) == Exec(After(m, a), b)
    ensures Stray(m, a + b) <==> Stray(After(m, a), b)
    ensures After(m, a + b) == After(After(m, a), b)
    decreases |a|
  {
    hide Step;
    if a == [] {
      assert a + b == b;
    } else {
      assert (a + b)[1..] == a[1..] + b && a[0] in a;
      ExecStep(m, a + b);
      Compose(Step(m, a[0]), a[1..], b);
      if m.pc.Over? {
        OverStays(m, a[0]);
      }
    }
  }

  lemma OverStays(m: Machine, a: Answer)
    requires Fits(m) && m.pc.Over?
    ensures Step(m, a) == m
  {
  }

  // ---------------------------------------------------------------------------
  // Scripts that lead to a suspension point
  // ---------------------------------------------------------------------------

  /** The script leads to `pc`, and no call in it fails. */
  ghost predicate LeadsTo(req: Request, script: seq<Answer>, pc: Pc) {
    && Valid(req) && Quiet(script)
    && var m := After(Start(req), script); m.pc == pc && Suspended(m)
  }

  /** One more answer. */
  lemma Further(req: Request, script: seq<Answer>, pc: Pc, a: Answer)
    requires LeadsTo(req, script, pc) && a.Value?
    requires !Step(After(Start(req), script), a).pc.Over?
    ensures LeadsTo(req, script + [a], Step(After(Start(req), script), a).pc)
  {
    hide SoFar, Step;
    var m := After(Start(req), script);
    Compose(Start(req), script, [a]);
    assert After(Step(m, a), []) == Step(m, a);
    StepStaysSuspended(m, a);
  }

  /** Some text of a given length. */
  function TextOf(chars: nat): (text: string)
    ensures |text| == chars
  {
    seq(chars, i => 'x')
  }

  function WithParts(pc: Pc, parts: seq<string>): Pc
    requires pc.ChatNext? || pc.FinalNext?
  {
    if pc.ChatNext? then ChatNext(parts) else FinalNext(pc.text, pc.summaries, parts)
  }

  /** The stream loop, delta by delta. */
  lemma {:induction false} ReachDeltas(req: Request, script: seq<Answer>, pc: Pc, deltas: seq<string>)
    returns (longer: seq<Answer>)
    requires (pc.ChatNext? || pc.FinalNext?) && pc.parts == [] && LeadsTo(req, script, pc)
    ensures LeadsTo(req, longer, WithParts(pc, deltas))
    decreases |deltas|
  {
    hide LeadsTo;
    if deltas == [] {
      longer := script;
    } else {
      var n := |deltas| - 1;
      longer := ReachDeltas(req, script, pc, deltas[..n]);
      longer := OneDelta(req, longer, WithParts(pc, deltas[..n]), deltas[n]);
      assert deltas[..n] + [deltas[n]] == deltas;
    }
  }

  lemma OneDelta(req: Request, script: seq<Answer>, pc: Pc, delta: string) returns (longer: seq<Answer>)
    requires (pc.ChatNext? || pc.FinalNext?) && LeadsTo(req, script, pc)
    ensures LeadsTo(req, longer, WithParts(pc, pc.parts + [delta]))
  {
    hide SoFar;
    var more := Value(false, delta, true);
    Further(req, script, pc, more);
    var polled := Step(After(Start(req), script), more).pc;
    Further(req, script + [more], polled, PASS);
    longer := script + [more] + [PASS];
  }

  lemma ReachChat(req: Request, deltas: seq<string>) returns (script: seq<Answer>)
    requires Valid(req) && req.Chat?
    ensures LeadsTo(req, script, ChatNext(deltas))
  {
    hide SoFar;
    StartIsSuspended(req);
    Further(req, [], CheckStart, PASS);
    script := ReachDeltas(req, [] + [PASS], ChatNext([]), deltas);
  }

  lemma StartIsSuspended(req: Request)
    requires Valid(req)
    ensures LeadsTo(req, [], CheckStart)
  {
  }

  lemma ReachFetching(req: Request) returns (script: seq<Answer>)
    requires Valid(req) && req.Url?
    ensures LeadsTo(req, script, Fetching)
  {
    hide SoFar;
    StartIsSuspended(req);
    Further(req, [], CheckStart, PASS);
    script := [] + [PASS];
  }

  lemma ReachChunk(req: Request, text: string) returns (script: seq<Answer>)
    requires Valid(req) && req.Url?
    ensures LeadsTo(req, script, CheckChunk(text))
  {
    hide SoFar;
    script := ReachFetching(req);
    Further(req, script, Fetching, Value(false, text, false));
    script := script + [Value(false, text, false)];
  }

  /** Where the chunk loop is after some summaries. */
  function LoopPoint(req: Request, text: string, summaries: seq<string>): Pc
    requires Valid(req) && req.Url?
  {
    if |summaries| < Count(req, |text|) then CheckSummary(text, summaries) else CheckFinal(text, summaries)
  }

  lemma {:induction false} ReachSummary(req: Request, text: string, summaries: seq<string>)
    returns (script: seq<Answer>)
    requires Valid(req) && req.Url? && text != "" && |summaries| <= Count(req, |text|)
    ensures LeadsTo(req, script, LoopPoint(req, text, summaries))
    decreases |summaries|
  {
    hide SoFar, Count, Chunks;
    CountIs(req, text);
    if summaries == [] {
      script := ReachChunk(req, text);
      Further(req, script, CheckChunk(text), PASS);
      script := script + [PASS];
    } else {
      var n := |summaries| - 1;
      var summary := Value(false, summaries[n], false);
      script := ReachSummary(req, text, summaries[..n]);
      Further(req, script, CheckSummary(text, summaries[..n]), PASS);
      script := script + [PASS];
      Further(req, script, Summarizing(text, summaries[..n]), summary);
      script := script + [summary];
      assert summaries[..n] + [summaries[n]] == summaries;
    }
  }

  lemma ReachFinal(req: Request, text: string, summaries: seq<string>, deltas: seq<string>)
    returns (script: seq<Answer>)
    requires Valid(req) && req.Url? && text != "" && |summaries| == Count(req, |text|)
    ensures LeadsTo(req, script, FinalNext(text, summaries, deltas))
  {
    hide SoFar, Count, Chunks;
    script := ReachSummary(req, text, summaries);
    Further(req, script, CheckFinal(text, summaries), PASS);
    script := ReachDeltas(req, script + [PASS], FinalNext(text, summaries, []), deltas);
  }

  // ---------------------------------------------------------------------------
  // Every legal prefix is the trace at some suspension point
  // ---------------------------------------------------------------------------

  /** The earliest suspension point with the first `n` events of a complete trace. */
  function Point(req: Request, shape: Shape, n: nat): Pc
    requires ShapeFits(req, shape)
  {
    if n <= 1 then CheckStart
    else match shape
      case ChatShape(deltas) => ChatNext(Chunker.Take(deltas, n - 2))
      case UrlShape(chars, summaries, deltas) =>
        var total, text := |summaries|, TextOf(chars);
        if n == 2 then Fetching
        else if n == 3 then CheckChunk(text)
        else if n < 3 + total then CheckSummary(text, Chunker.Take(summaries, n - 3))
        else if n < 5 + total then CheckFinal(text, summaries)
        else FinalNext(text, summaries, Chunker.Take(deltas, n - 5 - total))
  }

  lemma PointInChat(req: Request, shape: Shape, prefix: seq<Event>)
    requires CutOf(req, shape, prefix) && req.Chat?
    ensures Suspended(Machine(req, Point(req, shape, |prefix|), prefix))
  {
    assert prefix == Full(req, shape)[..|prefix|];
  }

  lemma PointInLoop(req: Request, shape: Shape, prefix: seq<Event>)
    requires CutOf(req, shape, prefix) && req.Url? && |prefix| <= 3 + |shape.summaries|
    ensures Suspended(Machine(req, Point(req, shape, |prefix|), prefix))
  {
    hide Tokens, Count;
    CountIs(req, TextOf(shape.chars));
    assert prefix == Full(req, shape)[..|prefix|];
  }

  lemma PointInStream(req: Request, shape: Shape, prefix: seq<Event>)
    requires CutOf(req, shape, prefix) && req.Url? && |prefix| > 3 + |shape.summaries|
    ensures Suspended(Machine(req, Point(req, shape, |prefix|), prefix))
  {
    hide ChunkEvents, Count;
    CountIs(req, TextOf(shape.chars));
    assert |ChunkEvents(shape.summaries, |shape.summaries|)| == |shape.summaries| by { ChunkEventsLength(shape.summaries); }
    assert prefix == Full(req, shape)[..|prefix|];
  }

  lemma ChunkEventsLength(summaries: seq<string>)
    ensures |ChunkEvents(summaries, |summaries|)| == |summaries|
  {
  }

  lemma PointHasPrefix(req: Request, shape: Shape, prefix: seq<Event>)
    requires CutOf(req, shape, prefix)
    ensures Suspended(Machine(req, Point(req, shape, |prefix|), prefix))
  {
    hide Suspended, Full, Point;
    if req.Chat? {
      PointInChat(req, shape, prefix);
    } else if |prefix| <= 3 + |shape.summaries| {
      PointInLoop(req, shape, prefix);
    } else {
      PointInStream(req, shape, prefix);
    }
  }

  lemma ReachPoint(req: Request, shape: Shape, prefix: seq<Event>) returns (script: seq<Answer>)
    requires CutOf(req, shape, prefix)
    ensures LeadsTo(req, script, Point(req, shape, |prefix|))
  {
    hide SoFar, LeadsTo, Count;
    var n := |prefix|;
    if n <= 1 {
      StartIsSuspended(req);
      script := [];
    } else if req.Chat? {
      script := ReachChat(req, Chunker.Take(shape.deltas, n - 2));
    } else {
      var total, text := |shape.summaries|, TextOf(shape.chars);
      if n == 2 {
        script := ReachFetching(req);
      } else if n == 3 {
        script := ReachChunk(req, text);
      } else {
        CountIs(req, text);
        if n < 3 + total {
          script := ReachSummary(req, text, Chunker.Take(shape.summaries, n - 3));
        } else if n < 5 + total {
          script := ReachSummary(req, text, shape.summaries);
        } else {
          script := ReachFinal(req, text, shape.summaries, Chunker.Take(shape.deltas, n - 5 - total));
        }
      }
    }
  }

  // ---------------------------------------------------------------------------
  // Every way to end
  // ---------------------------------------------------------------------------

  /** Run on from `m`, the job ends as `outcome` with `trace`. */
  ghost predicate EndsAs(m: Machine, script: seq<Answer>, trace: seq<Event>, outcome: Outcome) {
    Fits(m) && !Stray(m, script) && Exec(m, script) == Machine(m.req, Over(outcome), trace)
  }

  lemma EndNow(m: Machine, a: Answer)
    requires Fits(m) && Step(m, a).pc.Over? && !StrayAt(m.pc, a)
    ensures EndsAs(m, [a], Step(m, a).trace, Step(m, a).pc.outcome)
  {
    hide Step;
    assert [a][1..] == [];
    ExecStep(m, [a]);
    ExecOver(Step(m, a), []);
    OverIsNotStray(Step(m, a), []);
  }

  lemma OverIsNotStray(m: Machine, script: seq<Answer>)
    requires Fits(m) && m.pc.Over?
    ensures !Stray(m, script)
  {
  }

  lemma EndAfter(m: Machine, a: Answer, rest: seq<Answer>, trace: seq<Event>, outcome: Outcome)
    requires Fits(m) && a.Value? && EndsAs(Step(m, a), rest, trace, outcome)
    ensures EndsAs(m, [a] + rest, trace, outcome)
  {
    hide Step;
    Compose(m, [a], rest);
    assert After(Step(m, a), []) == Step(m, a);
  }

  /** At a checkpoint at once, in a stream after one more delta. */
  lemma EndCancelled(m: Machine) returns (script: seq<Answer>)
    requires Suspended(m) && !m.pc.Fetching? && !m.pc.Summarizing? && !m.pc.ChatPoll? && !m.pc.FinalPoll?
    ensures EndsAs(m, script, m.trace + [Cancelled], WasCancelled)
  {
    hide SoFar;
    var flag := Value(true, "", false);
    if m.pc.ChatNext? || m.pc.FinalNext? {
      var more := Value(false, "", true);
      EndNow(Step(m, more), flag);
      EndAfter(m, more, [flag], m.trace + [Cancelled], WasCancelled);
      script := [more] + [flag];
    } else {
      EndNow(m, flag);
      script := [flag];
    }
  }

  lemma EndRaised(m: Machine, outcome: Outcome) returns (script: seq<Answer>)
    requires Suspended(m) && (outcome.TimedOut? || outcome.Reraised? || outcome.Killed?)
    ensures EndsAs(m, script, m.trace + match outcome {
              case TimedOut => [Error(TIMEOUT)] case Reraised => [Error(UNKNOWN)] case _ => [] }, outcome)
  {
    hide SoFar;
    var fault := match outcome { case TimedOut => TimeoutError case Reraised => OtherError case _ => CancelledError };
    EndNow(m, Raises(fault));
    assert m.trace + [] == m.trace;
    script := [Raises(fault)];
  }

  /** Reported by an inner handler, then re-raised. */
  lemma EndReported(m: Machine)
    requires Suspended(m) && Inner(m.pc).Some?
    ensures EndsAs(m, [Raises(Inner(m.pc).value.0)], m.trace + [Error(Inner(m.pc).value.1)], Errored)
  {
    hide SoFar;
    var e := Error(Inner(m.pc).value.1);
    EndNow(m, Raises(Inner(m.pc).value.0));
    assert m.trace + [e] + [] == m.trace + [e];
  }

  lemma EndWithoutChunks(m: Machine)
    requires Suspended(m) && m.pc == CheckChunk("")
    ensures EndsAs(m, [PASS], m.trace + [Error(CHUNK)], Errored)
  {
    hide SoFar;
    CountIs(m.req, "");
    EndNow(m, PASS);
    assert m.trace + [Error(CHUNK)] + [] == m.trace + [Error(CHUNK)];
  }

  /** In the chunk loop, or about to enter it. */
  lemma EndSummarizing(m: Machine) returns (script: seq<Answer>)
    requires Suspended(m) && (m.pc.CheckSummary? || (m.pc.CheckChunk? && m.pc.text != ""))
    ensures EndsAs(m, script, m.trace + [Error(SUMMARIZE)], Errored)
    decreases if m.pc.CheckChunk? then 1 else 0
  {
    hide SoFar;
    var next := Step(m, PASS);
    StepStaysSuspendedHere(m);
    if m.pc.CheckChunk? {
      script := EndSummarizing(next);
    } else {
      EndReported(next);
      script := [Raises(SummarizeError)];
    }
    EndAfter(m, PASS, script, m.trace + [Error(SUMMARIZE)], Errored);
    script := [PASS] + script;
  }

  lemma StepStaysSuspendedHere(m: Machine)
    requires Suspended(m) && (m.pc.CheckSummary? || (m.pc.CheckChunk? && m.pc.text != ""))
    ensures var next := Step(m, PASS);
            Suspended(next) && next.trace == m.trace && if m.pc.CheckChunk? then next.pc.CheckSummary? else next.pc.Summarizing?
  {
    hide SoFar;
    CountIs(m.req, m.pc.text);
    StepStaysSuspended(m, PASS);
  }

  /** Where an event that ends a job can follow. */
  lemma PlaceOf(req: Request, shape: Shape, prefix: seq<Event>, reason: ErrorReason)
    requires CutOf(req, shape, prefix) && ReasonFits(req, prefix[|prefix| - 1], reason)
    ensures var pc := Point(req, shape, |prefix|);
            match reason {
              case FETCH => pc.Fetching?
              case CHUNK => pc == CheckChunk("")
              case SUMMARIZE => pc.ChatNext? || pc.CheckSummary? || (pc.CheckChunk? && pc.text != "")
              case SYNTHESIZE => pc.FinalNext?
              case _ => true
            }
  {
  }

  lemma CancelPlace(req: Request, shape: Shape, prefix: seq<Event>)
    requires CutOf(req, shape, prefix) && !prefix[|prefix| - 1].FetchStarted?
    ensures !Point(req, shape, |prefix|).Fetching?
  {
  }

  // ---------------------------------------------------------------------------
  // Exactness
  // ---------------------------------------------------------------------------

  /** Some run of the job ends as `outcome` with `trace`. */
  ghost predicate Happens(req: Request, trace: seq<Event>, outcome: Outcome) {
    Valid(req) && exists script :: EndsAs(Start(req), script, trace, outcome)
  }

  lemma ThenEnds(req: Request, script: seq<Answer>, pc: Pc, last: seq<Answer>, trace: seq<Event>, outcome: Outcome)
    requires LeadsTo(req, script, pc) && EndsAs(After(Start(req), script), last, trace, outcome)
    ensures Happens(req, trace, outcome)
  {
    hide Exec, Stray, After;
    Compose(Start(req), script, last);
    assert EndsAs(Start(req), script + last, trace, outcome);
  }

  lemma Arrive(req: Request, shape: Shape, prefix: seq<Event>) returns (script: seq<Answer>, m: Machine)
    requires CutOf(req, shape, prefix)
    ensures LeadsTo(req, script, Point(req, shape, |prefix|)) && m == After(Start(req), script)
    ensures Suspended(m) && m.trace == prefix && m.pc == Point(req, shape, |prefix|)
  {
    hide Full, Point, SoFar;
    script := ReachPoint(req, shape, prefix);
    PointHasPrefix(req, shape, prefix);
    m := After(Start(req), script);
    SameSoFar(m, Machine(req, Point(req, shape, |prefix|), prefix));
  }

  lemma SameSoFar(m: Machine, n: Machine)
    requires Suspended(m) && Suspended(n) && m.req == n.req && m.pc == n.pc
    ensures m.trace == n.trace
  {
  }

  lemma ErrorHappens(req: Request, trace: seq<Event>, reason: ErrorReason)
    requires EndsWith(req, trace, Error(reason))
    ensures Happens(req, trace, match reason { case TIMEOUT => TimedOut case UNKNOWN => Reraised case _ => Errored })
  {
    hide CutOf, Point, SoFar, ReasonFits, Happens, LeadsTo, EndsAs;
    var prefix := trace[..|trace| - 1];
    assert trace == prefix + [Error(reason)];
    var shape :| CutOf(req, shape, prefix);
    var script, m := Arrive(req, shape, prefix);
    assert ReasonFits(req, prefix[|prefix| - 1], reason);
    PlaceOf(req, shape, prefix, reason);
    var last;
    match reason {
      case TIMEOUT => last := EndRaised(m, TimedOut);
      case UNKNOWN => last := EndRaised(m, Reraised);
      case CHUNK =>
        EndWithoutChunks(m);
        last := [PASS];
      case _ =>
        if reason.SUMMARIZE? && !m.pc.ChatNext? {
          last := EndSummarizing(m);
        } else {
          EndReported(m);
          last := [Raises(Inner(m.pc).value.0)];
        }
    }
    ThenEnds(req, script, m.pc, last, trace,
             match reason { case TIMEOUT => TimedOut case UNKNOWN => Reraised case _ => Errored });
  }

  lemma CancelHappens(req: Request, trace: seq<Event>)
    requires EndsWith(req, trace, Cancelled)
    ensures Happens(req, trace, WasCancelled)
  {
    hide CutOf, SoFar, Happens, LeadsTo, EndsAs;
    var prefix := trace[..|trace| - 1];
    assert trace == prefix + [Cancelled];
    var shape :| CutOf(req, shape, prefix);
    var script, m := Arrive(req, shape, prefix);
    CancelPlace(req, shape, prefix);
    var last := EndCancelled(m);
    ThenEnds(req, script, m.pc, last, trace, WasCancelled);
  }

  lemma KillHappens(req: Request, trace: seq<Event>)
    requires LegalPrefix(req, trace)
    ensures Happens(req, trace, Killed)
  {
    hide CutOf, Point, SoFar, Happens, LeadsTo, EndsAs;
    var shape :| CutOf(req, shape, trace);
    var script, m := Arrive(req, shape, trace);
    var last := EndRaised(m, Killed);
    assert trace + [] == trace;
    ThenEnds(req, script, m.pc, last, trace, Killed);
  }

  /** The stream ends with no delta left. */
  lemma CompletionHappens(req: Request, shape: Shape)
    requires Complete(req, shape)
    ensures Happens(req, Full(req, shape), Ok(Join(shape.deltas), if req.Chat? then 0 else |shape.summaries|))
  {
    hide SoFar, Full, Count, Happens, EndsAs;
    var script;
    if req.Chat? {
      script := ReachChat(req, shape.deltas);
    } else {
      CountIs(req, TextOf(shape.chars));
      script := ReachFinal(req, TextOf(shape.chars), shape.summaries, shape.deltas);
    }
    var m := After(Start(req), script);
    EndTrace(m, PASS);
    EndNow(m, PASS);
    ThenEnds(req, script, m.pc, [PASS], Full(req, shape), Step(m, PASS).pc.outcome);
  }

  /** The grammar is exactly what jobs do: a sequence of events and a returned status conform to it if and only
      if some run, for some choice of deltas, failures, cancels and timeouts, emits the one and returns the other. */
  lemma GrammarIsExact(req: Request, trace: seq<Event>, outcome: Outcome)
    requires Valid(req)
    ensures Conforms(req, trace, outcome) <==> Happens(req, trace, outcome)
  {
    hide Full, EndsWith, LegalPrefix, EndsAs;
    if Conforms(req, trace, outcome) {
      match outcome {
        case Ok(_, _) =>
          var shape :| Complete(req, shape) && trace == Full(req, shape)
            && outcome.summary == Join(shape.deltas) && outcome.chunks == if req.Chat? then 0 else |shape.summaries|;
          CompletionHappens(req, shape);
        case TimedOut => ErrorHappens(req, trace, TIMEOUT);
        case Reraised => ErrorHappens(req, trace, UNKNOWN);
        case WasCancelled => CancelHappens(req, trace);
        case Errored =>
          var reason := if EndsWith(req, trace, Error(FETCH)) then FETCH
            else if EndsWith(req, trace, Error(CHUNK)) then CHUNK
            else if EndsWith(req, trace, Error(SUMMARIZE)) then SUMMARIZE else SYNTHESIZE;
          ErrorHappens(req, trace, reason);
        case Killed => KillHappens(req, trace);
      }
    }
    if Happens(req, trace, outcome) {
      var script :| EndsAs(Start(req), script, trace, outcome);
      HappeningConforms(req, script, trace, outcome);
    }
  }

  lemma HappeningConforms(req: Request, script: seq<Answer>, trace: seq<Event>, outcome: Outcome)
    requires Valid(req) && EndsAs(Start(req), script, trace, outcome)
    ensures Conforms(req, trace, outcome)
  {
    hide Exec, Stray, Conforms;
    EveryRunConforms(req, script);
  }
}
