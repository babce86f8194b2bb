/** What a job makes of the answers it gets, read off the answers alone: clean runs, what every run says and asks, and
    what each failure and flag does. */
module JobAnswers {
  import opened Events
  import opened Text
  import opened Job
  import opened JobGrammar
  import opened JobReach

  /** A checkpoint that found no flag. */
  predicate Clear(a: Answer) {
    a.Value? && !a.flag
  }

  // ---------------------------------------------------------------------------
  // Clean runs
  // ---------------------------------------------------------------------------

  /** The deltas of a stream, each followed by a clear checkpoint. */
  predicate DeltasAnswered(script: seq<Answer>, deltas: seq<string>) {
    if deltas == [] then script == []
    else
      && |script| >= 2 && script[0].Value? && script[0].more && script[0].text == deltas[0] && Clear(script[1])
      && DeltasAnswered(script[2..], deltas[1..])
  }

  predicate EndsDeltas(a: Answer) {
    a.Value? && !a.more
  }

  /** The summaries of the chunks, each after a clear checkpoint. */
  predicate SummariesAnswered(script: seq<Answer>, summaries: seq<string>) {
    if summaries == [] then script == []
    else
      && |script| >= 2 && Clear(script[0]) && script[1].Value? && script[1].text == summaries[0]
      && SummariesAnswered(script[2..], summaries[1..])
  }

  /** Two answers further, none of which ends the job. */
  lemma TwoFurther(req: Request, script: seq<Answer>, pc: Pc, a: Answer, b: Answer)
    requires LeadsTo(req, script, pc) && a.Value? && b.Value?
    requires var m := After(Start(req), script); !Step(m, a).pc.Over? && !Step(Step(m, a), b).pc.Over?
    ensures var m := After(Start(req), script); LeadsTo(req, script + [a, b], Step(Step(m, a), b).pc)
  {
    hide SoFar, Step;
    var m := After(Start(req), script);
    Further(req, script, pc, a);
    Compose(Start(req), script, [a]);
    assert After(Step(m, a), []) == Step(m, a);
    Further(req, script + [a], Step(m, a).pc, b);
    assert script + [a] + [b] == script + [a, b];
  }

  lemma {:induction false} StreamLeads(req: Request, before: seq<Answer>, pc: Pc, script: seq<Answer>, deltas: seq<string>)
    requires (pc.ChatNext? || pc.FinalNext?) && LeadsTo(req, before, pc) && DeltasAnswered(script, deltas)
    ensures LeadsTo(req, before + script, WithParts(pc, pc.parts + deltas))
    decreases |deltas|
  {
    hide LeadsTo;
    if deltas == [] {
      assert before + script == before && pc.parts + deltas == pc.parts;
    } else {
      DeltaLeads(req, before, pc, script[0], script[1]);
      StreamLeads(req, before + [script[0], script[1]], WithParts(pc, pc.parts + [deltas[0]]), script[2..], deltas[1..]);
      assert before + [script[0], script[1]] + script[2..] == before + script;
      assert pc.parts + [deltas[0]] + deltas[1..] == pc.parts + deltas;
    }
  }

  lemma DeltaLeads(req: Request, before: seq<Answer>, pc: Pc, delta: Answer, poll: Answer)
    requires (pc.ChatNext? || pc.FinalNext?) && LeadsTo(req, before, pc)
    requires delta.Value? && delta.more && Clear(poll)
    ensures LeadsTo(req, before + [delta, poll], WithParts(pc, pc.parts + [delta.text]))
  {
    hide SoFar;
    TwoFurther(req, before, pc, delta, poll);
  }

  lemma {:induction false} LoopLeads(req: Request, before: seq<Answer>, text: string, done: seq<string>, script: seq<Answer>,
                                     summaries: seq<string>)
    requires Valid(req) && req.Url? && |done| + |summaries| <= Count(req, |text|)
    requires LeadsTo(req, before, LoopPoint(req, text, done)) && SummariesAnswered(script, summaries)
    ensures LeadsTo(req, before + script, LoopPoint(req, text, done + summaries))
    decreases |summaries|
  {
    hide LeadsTo, Count;
    if summaries == [] {
      assert before + script == before && done + summaries == done;
    } else {
      SummaryLeads(req, before, text, done, script[0], script[1]);
      LoopLeads(req, before + [script[0], script[1]], text, done + [summaries[0]], script[2..], summaries[1..]);
      assert before + [script[0], script[1]] + script[2..] == before + script;
      assert done + [summaries[0]] + summaries[1..] == done + summaries;
    }
  }

  lemma SummaryLeads(req: Request, before: seq<Answer>, text: string, done: seq<string>, check: Answer, summary: Answer)
    requires Valid(req) && req.Url? && |done| < Count(req, |text|)
    requires LeadsTo(req, before, LoopPoint(req, text, done)) && Clear(check) && summary.Value?
    ensures LeadsTo(req, before + [check, summary], LoopPoint(req, text, done + [summary.text]))
  {
    hide SoFar, Count, Chunks;
    CountIs(req, text);
    TwoFurther(req, before, CheckSummary(text, done), check, summary);
  }

  /** A chat whose stream answers with some deltas is waiting for the next one with exactly those. */
  lemma ChatLeads(req: Request, check: Answer, stream: seq<Answer>, deltas: seq<string>)
    requires Valid(req) && req.Chat? && Clear(check) && DeltasAnswered(stream, deltas)
    ensures LeadsTo(req, [check] + stream, ChatNext(deltas))
  {
    hide SoFar;
    JobReach.StartIsSuspended(req);
    Further(req, [], CheckStart, check);
    assert [] + [check] == [check];
    StreamLeads(req, [check], ChatNext([]), stream, deltas);
    assert [] + deltas == deltas;
  }

  /** A page that is fetched is cut into chunks, which are summarized one by one. */
  lemma UrlLeads(req: Request, check: Answer, page: Answer, again: Answer, loop: seq<Answer>, summaries: seq<string>)
    requires Valid(req) && req.Url? && Clear(check) && page.Value? && page.text != "" && Clear(again)
    requires SummariesAnswered(loop, summaries) && |summaries| <= |Chunks(req, page.text)|
    ensures LeadsTo(req, [check, page, again] + loop, LoopPoint(req, page.text, summaries))
  {
    hide SoFar, Chunks, Count;
    CountIs(req, page.text);
    JobReach.StartIsSuspended(req);
    Further(req, [], CheckStart, check);
    assert [] + [check] == [check];
    TwoFurther(req, [check], Fetching, page, again);
    assert [check] + [page, again] == [check, page, again];
    LoopLeads(req, [check, page, again], page.text, [], loop, summaries);
    assert [] + summaries == summaries;
  }

  lemma FinalLeads(req: Request, before: seq<Answer>, text: string, summaries: seq<string>, check: Answer,
                   stream: seq<Answer>, deltas: seq<string>)
    requires LeadsTo(req, before, CheckFinal(text, summaries)) && Clear(check) && DeltasAnswered(stream, deltas)
    ensures LeadsTo(req, before + [check] + stream, FinalNext(text, summaries, deltas))
  {
    hide SoFar;
    Further(req, before, CheckFinal(text, summaries), check);
    StreamLeads(req, before + [check], FinalNext(text, summaries, []), stream, deltas);
    assert [] + deltas == deltas;
  }

  /** The end of a stream ends the job. */
  lemma StreamEnds(req: Request, script: seq<Answer>, pc: Pc, end: Answer, rest: seq<Answer>)
    requires LeadsTo(req, script, pc) && (pc.ChatNext? || pc.FinalNext?) && EndsDeltas(end)
    ensures var shape := if pc.ChatNext? then ChatShape(pc.parts) else UrlShape(|pc.text|, pc.summaries, pc.parts);
            && ShapeFits(req, shape)
            && Exec(Start(req), script + [end] + rest)
               == Machine(req, Over(Ok(Join(pc.parts), if pc.ChatNext? then 0 else |pc.summaries|)), Full(req, shape))
  {
    hide SoFar, Full;
    var m := After(Start(req), script);
    assert script + [end] + rest == script + ([end] + rest);
    Compose(Start(req), script, [end] + rest);
    assert ([end] + rest)[1..] == rest;
    ExecStep(m, [end] + rest);
    ExecOver(Step(m, end), rest);
    EndTrace(m, end);
  }

  /** A chat that is never flagged and never fails emits, token by token, the deltas it was answered with. */
  lemma CleanChat(req: Request, check: Answer, stream: seq<Answer>, end: Answer, deltas: seq<string>, rest: seq<Answer>)
    requires Valid(req) && req.Chat? && Clear(check) && DeltasAnswered(stream, deltas) && EndsDeltas(end)
    ensures Exec(Start(req), [check] + stream + [end] + rest)
         == Machine(req, Over(Ok(Join(deltas), 0)), Full(req, ChatShape(deltas)))
  {
    hide LeadsTo, Full, Exec;
    ChatLeads(req, check, stream, deltas);
    StreamEnds(req, [check] + stream, ChatNext(deltas), end, rest);
  }

  /** A URL job that is never flagged and never fails emits the length of the page, one summary for each chunk, and the
      deltas of the synthesis, all as they were answered. */
  lemma CleanUrl(req: Request, check: Answer, page: Answer, again: Answer, loop: seq<Answer>, last: Answer,
                 stream: seq<Answer>, end: Answer, summaries: seq<string>, deltas: seq<string>, rest: seq<Answer>)
    requires Valid(req) && req.Url? && Clear(check) && page.Value? && page.text != "" && Clear(again) && Clear(last)
    requires SummariesAnswered(loop, summaries) && |summaries| == |Chunks(req, page.text)|
    requires DeltasAnswered(stream, deltas) && EndsDeltas(end)
    ensures summaries != []
    ensures Exec(Start(req), [check, page, again] + loop + [last] + stream + [end] + rest)
         == Machine(req, Over(Ok(Join(deltas), |summaries|)), Full(req, UrlShape(|page.text|, summaries, deltas)))
  {
    hide LeadsTo, Full, Exec, Count, Chunks;
    CountIs(req, page.text);
    UrlLeads(req, check, page, again, loop, summaries);
    FinalLeads(req, [check, page, again] + loop, page.text, summaries, last, stream, deltas);
    StreamEnds(req, [check, page, again] + loop + [last] + stream, FinalNext(page.text, summaries, deltas), end, rest);
  }

  /** A page without text has no chunks, and the job says so. */
  lemma EmptyPage(req: Request, check: Answer, page: Answer, again: Answer, rest: seq<Answer>)
    requires Valid(req) && req.Url? && Clear(check) && page.Value? && page.text == "" && Clear(again)
    ensures Exec(Start(req), [check, page, again] + rest)
         == Machine(req, Over(Errored), [Started(req.url), FetchStarted(req.url), FetchDone(0), Error(CHUNK)])
  {
    hide Chunks;
    CountIs(req, "");
    var m := Start(req);
    var m1 := Step(m, check);
    var m2 := Step(m1, page);
    assert ([check, page, again] + rest)[1..] == [page, again] + rest && ([page, again] + rest)[1..] == [again] + rest;
    assert ([again] + rest)[1..] == rest;
    ExecStep(m, [check, page, again] + rest);
    ExecStep(m1, [page, again] + rest);
    ExecStep(m2, [again] + rest);
    ExecOver(Step(m2, again), rest);
    assert m2.trace == [Started(req.url), FetchStarted(req.url), FetchDone(0)];
  }

  // ---------------------------------------------------------------------------
  // Failures and flags
  // ---------------------------------------------------------------------------

  /** What is reported when a suspended call fails. */
  function Reported(pc: Pc, fault: Fault): seq<Event> {
    match fault
    case TimeoutError => [Error(TIMEOUT)]
    case OtherError => [Error(UNKNOWN)]
    case CancelledError => []
    case FetchError => if pc.Fetching? then [Error(FETCH)] else []
    case SummarizeError =>
      if pc.ChatNext? || pc.ChatPoll? || pc.Summarizing? then [Error(SUMMARIZE)]
      else if pc.FinalNext? || pc.FinalPoll? then [Error(SYNTHESIZE)]
      else []
  }

  /** What is returned then. */
  function Returned(fault: Fault): Outcome {
    match fault
    case TimeoutError => TimedOut
    case OtherError => Reraised
    case CancelledError => Killed
    case FetchError => Errored
    case SummarizeError => Errored
  }

  /** The first failure of a call decides: what is reported and returned follows from its type and its place. */
  lemma FailureDecides(req: Request, script: seq<Answer>, pc: Pc, fault: Fault, rest: seq<Answer>)
    requires LeadsTo(req, script, pc)
    ensures Exec(Start(req), script + [Raises(fault)] + rest)
         == Machine(req, Over(Returned(fault)), After(Start(req), script).trace + Reported(pc, fault))
  {
    hide SoFar;
    var m := After(Start(req), script);
    assert script + [Raises(fault)] + rest == script + ([Raises(fault)] + rest);
    Compose(Start(req), script, [Raises(fault)] + rest);
    assert ([Raises(fault)] + rest)[1..] == rest;
    ExecStep(m, [Raises(fault)] + rest);
    ExecOver(Step(m, Raises(fault)), rest);
    assert m.trace + [] == m.trace;
    forall e: Event
      ensures m.trace + [e] + [] == m.trace + [e]
    {
    }
  }

  /** The suspension points that look for the flag. */
  predicate Checkpoint(pc: Pc) {
    || pc.CheckStart? || pc.ChatPoll? || pc.CheckChunk? || pc.CheckSummary? || pc.CheckFinal? || pc.FinalPoll?
  }

  /** A flag found at a checkpoint cancels the job there and then; nothing else looks at it. */
  lemma FlagDecides(req: Request, script: seq<Answer>, pc: Pc, text: string, more: bool, rest: seq<Answer>)
    requires LeadsTo(req, script, pc)
    ensures var flagged, clear := Value(true, text, more), Value(false, text, more);
            if Checkpoint(pc) then
              Exec(Start(req), script + [flagged] + rest)
              == Machine(req, Over(WasCancelled), After(Start(req), script).trace + [Cancelled])
            else Exec(Start(req), script + [flagged] + rest) == Exec(Start(req), script + [clear] + rest)
  {
    hide SoFar;
    var m, flagged, clear := After(Start(req), script), Value(true, text, more), Value(false, text, more);
    assert script + [flagged] + rest == script + ([flagged] + rest) && script + [clear] + rest == script + ([clear] + rest);
    Compose(Start(req), script, [flagged] + rest);
    Compose(Start(req), script, [clear] + rest);
    assert ([flagged] + rest)[1..] == rest && ([clear] + rest)[1..] == rest;
    ExecStep(m, [flagged] + rest);
    ExecStep(m, [clear] + rest);
    if Checkpoint(pc) {
      ExecOver(Step(m, flagged), rest);
    }
  }
}
