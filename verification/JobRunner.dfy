/** `run_job`, `_run_chat` and `_run_url_pipeline` as they are written, with their loops and handlers. Each is
    proved to do what the machine of module `Job` does, whatever the environment answers. */
module JobRunner {
  import opened Options
  import opened Events
  import opened Text
  import opened Job
  import opened JobGrammar
  import opened JobTheorems

  /** What leaves a coroutine by `raise`. */
  datatype Raise = Failed(fault: Fault) | TaskCancelled

  datatype Exit<T> = Returned(value: T) | Raised(raise: Raise)

  /** The handlers of `run_job`, for either kind of exception. */
  function Settled(m: Machine, r: Raise): Machine {
    match r case Failed(fault) => Handle(m, fault) case TaskCancelled => Cancel(m)
  }

  /** How `run_job` ends when a pipeline has left `trace` behind. */
  function Ended(req: Request, trace: seq<Event>, exit: Exit<(string, nat)>): Machine {
    match exit
    case Returned((summary, chunks)) => Machine(req, Over(Ok(summary, chunks)), trace)
    case Raised(why) => Settled(Machine(req, CheckStart, trace), why)
  }

  class Worker {
    /** The environment's remaining answers, and what has been handed to the publisher for this job. */
    var pending: seq<Answer>
    var emitted: seq<Event>

    /** The calls that were awaited, with their arguments. */
    var asked: seq<Question>

    /** Whether the publisher's entry for the session has been closed. */
    var closed: bool

    constructor (script: seq<Answer>)
      ensures pending == script && emitted == [] && asked == [] && !closed
    {
      pending, emitted, asked, closed := script, [], [], false;
    }

    /** The job is suspended at `pc`, is going to end as `end`, and will then have asked `all`. */
    ghost predicate Heading(req: Request, pc: Pc, end: Machine, all: seq<Question>)
      reads this
    {
      var m := Machine(req, pc, emitted);
      Fits(m) && Exec(m, pending) == end && asked + Asked(m, pending) == all
    }

    method Await(q: Question) returns (a: Answer)
      modifies this`pending, this`asked
      ensures a == Head(old(pending)) && pending == Tail(old(pending)) && asked == old(asked) + [q]
      ensures a.Value? ==> |pending| < |old(pending)|
    {
      asked := asked + [q];
      if pending == [] {
        return Raises(CancelledError);
      }
      a := pending[0];
      pending := pending[1..];
    }

    /** Nothing is emitted once the session is closed. */
    method Emit(e: Event)
      requires !closed
      modifies this`emitted
      ensures emitted == old(emitted) + [e]
    {
      emitted := emitted + [e];
    }

    /** `_check_cancel`. */
    method CheckCancel() returns (stop: Option<Raise>)
      modifies this`pending, this`asked
      ensures pending == Tail(old(pending)) && asked == old(asked) + [AskFlag]
      ensures stop == match Head(old(pending)) {
                case Raises(fault) => Some(Failed(fault))
                case Value(flag, _, _) => if flag then Some(TaskCancelled) else None
              }
    {
      var a := Await(AskFlag);
      if a.Raises? {
        return Some(Failed(a.fault));
      }
      stop := if a.flag then Some(TaskCancelled) else None;
    }

    /** `except SummarizeError`: report, then re-raise. */
    method Report(fault: Fault, reason: ErrorReason)
      requires !closed
      modifies this`emitted
      ensures emitted == if fault.SummarizeError? then old(emitted) + [Error(reason)] else old(emitted)
    {
      if fault.SummarizeError? {
        Emit(Error(reason));
      }
    }

    /** `_run_chat`. */
    method RunChat(prompt: string, ghost end: Machine, ghost all: seq<Question>) returns (exit: Exit<(string, nat)>)
      requires !closed && emitted == [] && end == Exec(Start(Chat(prompt)), pending)
      requires asked == [] && all == Asked(Start(Chat(prompt)), pending)
      modifies this`pending, this`asked, this`emitted
      ensures end == Ended(Chat(prompt), emitted, exit) && asked == all
    {
      hide Exec, Asked, Join;
      ghost var req := Chat(prompt);
      Emit(Started(Started200(prompt)));
      assert emitted == Start(req).trace;
      NextStep(Start(req), pending, asked);
      var stop := CheckCancel();
      if stop.Some? {
        exit := Raised(stop.value);
        NothingLeft(req, emitted, exit, pending, asked);
        return;
      }
      Emit(AnswerStarted);

      var parts;
      parts, stop := StreamAnswer(prompt, end, all);
      if stop.Some? {
        exit := Raised(stop.value);
        return;
      }
      var answer := Join(parts);
      ghost var before := emitted;
      Emit(AnswerDone(|answer|));
      Emit(Done(answer, 0));
      assert emitted == before + [AnswerDone(|answer|), Done(answer, 0)];
      exit := Returned((answer, 0));
    }

    /** The `async for` of the chat. */
    method StreamAnswer(prompt: string, ghost end: Machine, ghost all: seq<Question>)
      returns (parts: seq<string>, stop: Option<Raise>)
      requires !closed && Heading(Chat(prompt), ChatNext([]), end, all)
      modifies this`pending, this`asked, this`emitted
      ensures match stop {
                case Some(why) => end == Ended(Chat(prompt), emitted, Raised(why)) && asked == all
                case None =>
                  var answer := Join(parts);
                  end == Ended(Chat(prompt), emitted + [AnswerDone(|answer|), Done(answer, 0)], Returned((answer, 0)))
                  && asked == all
              }
    {
      hide Exec, Asked, Join;
      ghost var req := Chat(prompt);
      parts := [];
      while true
        invariant Heading(req, ChatNext(parts), end, all)
        decreases |pending|
      {
        NextStep(Machine(req, ChatNext(parts), emitted), pending, asked);
        var next := Await(AskDelta(prompt));
        if next.Raises? {
          Report(next.fault, SUMMARIZE);
          stop := Some(Failed(next.fault));
          NothingLeft(req, emitted, Raised(stop.value), pending, asked);
          return;
        }
        if !next.more {
          ghost var answer := Join(parts);
          NothingLeft(req, emitted + [AnswerDone(|answer|), Done(answer, 0)], Returned((answer, 0)), pending, asked);
          return parts, None;
        }
        var delta := next.text;
        NextStep(Machine(req, ChatPoll(parts, delta), emitted), pending, asked);
        var poll := Await(AskFlag);
        if poll.Raises? {
          Report(poll.fault, SUMMARIZE);
          stop := Some(Failed(poll.fault));
          NothingLeft(req, emitted, Raised(stop.value), pending, asked);
          return;
        }
        if poll.flag {
          stop := Some(TaskCancelled);
          NothingLeft(req, emitted, Raised(stop.value), pending, asked);
          return;
        }
        parts := parts + [delta];
        Emit(Token(delta));
      }
    }

    /** `_run_url_pipeline`: fetch, chunk, summarize each chunk, synthesize. */
    method RunUrlPipeline(url: string, size: nat, maxChunks: nat, ghost end: Machine, ghost all: seq<Question>)
      returns (exit: Exit<(string, nat)>)
      requires Valid(Url(url, size, maxChunks))
      requires !closed && emitted == [] && end == Exec(Start(Url(url, size, maxChunks)), pending)
      requires asked == [] && all == Asked(Start(Url(url, size, maxChunks)), pending)
      modifies this`pending, this`asked, this`emitted
      ensures end == Ended(Url(url, size, maxChunks), emitted, exit) && asked == all
    {
      hide Exec, Asked;
      ghost var req := Url(url, size, maxChunks);
      Emit(Started(url));
      assert emitted == Start(req).trace;

      // FETCH
      NextStep(Start(req), pending, asked);
      var stop := CheckCancel();
      if stop.Some? {
        exit := Raised(stop.value);
        NothingLeft(req, emitted, exit, pending, asked);
        return;
      }
      Emit(FetchStarted(url));
      NextStep(Machine(req, Fetching, emitted), pending, asked);
      var page := Await(AskPage(url));
      if page.Raises? {
        if page.fault.FetchError? {
          Emit(Error(FETCH));
        }
        exit := Raised(Failed(page.fault));
        NothingLeft(req, emitted, exit, pending, asked);
        return;
      }
      var text := page.text;
      Emit(FetchDone(|text|));

      // CHUNK
      NextStep(Machine(req, CheckChunk(text), emitted), pending, asked);
      stop := CheckCancel();
      if stop.Some? {
        exit := Raised(stop.value);
        NothingLeft(req, emitted, exit, pending, asked);
        return;
      }
      var chunks := Chunker.ChunkText(text, size, maxChunks);
      if chunks == [] {
        Emit(Error(CHUNK));
        exit := Raised(Failed(SummarizeError));
        NothingLeft(req, emitted, exit, pending, asked);
        return;
      }

      // SUMMARIZE EACH, then SYNTHESIZE
      var summaries;
      summaries, stop := SummarizeEach(req, text, chunks, end, all);
      if stop.Some? {
        exit := Raised(stop.value);
        return;
      }
      exit := Synthesize(req, text, summaries, end, all);
    }

    method SummarizeEach(ghost req: Request, ghost text: string, chunks: seq<string>, ghost end: Machine, ghost all: seq<Question>)
      returns (summaries: seq<string>, stop: Option<Raise>)
      requires !closed && req.Url? && Valid(req) && chunks == Chunks(req, text) && chunks != []
      requires Heading(req, CheckSummary(text, []), end, all)
      modifies this`pending, this`asked, this`emitted
      ensures match stop {
                case Some(why) => end == Ended(req, emitted, Raised(why)) && asked == all
                case None => Heading(req, CheckFinal(text, summaries), end, all)
              }
    {
      hide Exec, Asked;
      summaries := [];
      var index := 0;
      while index < |chunks|
        invariant 0 <= index <= |chunks| && |summaries| == index
        invariant Heading(req, if index < |chunks| then CheckSummary(text, summaries) else CheckFinal(text, summaries), end, all)
      {
        NextStep(Machine(req, CheckSummary(text, summaries), emitted), pending, asked);
        stop := CheckCancel();
        if stop.Some? {
          NothingLeft(req, emitted, Raised(stop.value), pending, asked);
          return;
        }
        NextStep(Machine(req, Summarizing(text, summaries), emitted), pending, asked);
        var summary := Await(AskSummary(chunks[index], index));
        if summary.Raises? {
          Report(summary.fault, SUMMARIZE);
          stop := Some(Failed(summary.fault));
          NothingLeft(req, emitted, Raised(stop.value), pending, asked);
          return;
        }
        summaries := summaries + [summary.text];
        Emit(ChunkSummarized(index, |chunks|, summary.text));
        index := index + 1;
      }
      stop := None;
    }

    method Synthesize(ghost req: Request, ghost text: string, summaries: seq<string>, ghost end: Machine, ghost all: seq<Question>)
      returns (exit: Exit<(string, nat)>)
      requires !closed && req.Url? && Valid(req) && Heading(req, CheckFinal(text, summaries), end, all)
      modifies this`pending, this`asked, this`emitted
      ensures end == Ended(req, emitted, exit) && asked == all
    {
      hide Exec, Asked, Join, Chunks;
      NextStep(Machine(req, CheckFinal(text, summaries), emitted), pending, asked);
      var stop := CheckCancel();
      if stop.Some? {
        exit := Raised(stop.value);
        NothingLeft(req, emitted, exit, pending, asked);
        return;
      }
      ghost var before := emitted;
      Emit(FinalStarted(|summaries|));
      Emit(AnswerStarted);
      assert emitted == before + [FinalStarted(|summaries|), AnswerStarted];

      var finalParts;
      finalParts, stop := StreamFinal(req, text, summaries, end, all);
      if stop.Some? {
        exit := Raised(stop.value);
        return;
      }
      var final := Join(finalParts);
      before := emitted;
      Emit(AnswerDone(|final|));
      Emit(FinalDone(|final|));
      Emit(Done(final, |summaries|));
      assert emitted == before + [AnswerDone(|final|), FinalDone(|final|), Done(final, |summaries|)];
      exit := Returned((final, |summaries|));
    }

    /** The `async for` of the synthesis stage. */
    method StreamFinal(ghost req: Request, ghost text: string, summaries: seq<string>, ghost end: Machine, ghost all: seq<Question>)
      returns (finalParts: seq<string>, stop: Option<Raise>)
      requires !closed && req.Url? && Valid(req) && Heading(req, FinalNext(text, summaries, []), end, all)
      modifies this`pending, this`asked, this`emitted
      ensures match stop {
                case Some(why) => end == Ended(req, emitted, Raised(why)) && asked == all
                case None =>
                  var final, n := Join(finalParts), |summaries|;
                  end == Ended(req, emitted + [AnswerDone(|final|), FinalDone(|final|), Done(final, n)],
                               Returned((final, n))) && asked == all
              }
    {
      hide Exec, Asked, Join, Chunks;
      finalParts := [];
      while true
        invariant Heading(req, FinalNext(text, summaries, finalParts), end, all)
        decreases |pending|
      {
        NextStep(Machine(req, FinalNext(text, summaries, finalParts), emitted), pending, asked);
        var next := Await(AskDelta(SYNTHESIS + Bullets(summaries)));
        if next.Raises? {
          Report(next.fault, SYNTHESIZE);
          stop := Some(Failed(next.fault));
          NothingLeft(req, emitted, Raised(stop.value), pending, asked);
          return;
        }
        if !next.more {
          ghost var final, n := Join(finalParts), |summaries|;
          NothingLeft(req, emitted + [AnswerDone(|final|), FinalDone(|final|), Done(final, n)],
                      Returned((final, n)), pending, asked);
          return finalParts, None;
        }
        var delta := next.text;
        NextStep(Machine(req, FinalPoll(text, summaries, finalParts, delta), emitted), pending, asked);
        var poll := Await(AskFlag);
        if poll.Raises? {
          Report(poll.fault, SYNTHESIZE);
          stop := Some(Failed(poll.fault));
          NothingLeft(req, emitted, Raised(stop.value), pending, asked);
          return;
        }
        if poll.flag {
          stop := Some(TaskCancelled);
          NothingLeft(req, emitted, Raised(stop.value), pending, asked);
          return;
        }
        finalParts := finalParts + [delta];
        Emit(Token(delta));
      }
    }

    /** `run_job`: without the lock nothing happens; with it, the run is the machine's, so it ends in one
        terminal event that matches what is returned, and the session is closed behind it. */
    method RunJob(req: Request, gotLock: bool) returns (outcome: Outcome)
      requires Valid(req) && emitted == [] && asked == [] && !closed
      modifies this
      ensures Machine(req, Over(outcome), emitted) == Delivered(req, gotLock, old(pending))
      ensures !gotLock ==> pending == old(pending)
      ensures asked == if gotLock then Asked(Start(req), old(pending)) else []
      ensures closed == gotLock
      ensures outcome.DuplicateDelivery? <==> emitted == []
      ensures outcome.DuplicateDelivery? <==> !gotLock
      ensures gotLock && !Stray(Start(req), old(pending)) ==> Conforms(req, emitted, outcome)
    {
      hide Exec, Asked, Conforms;
      ghost var script := pending;
      StatusMatchesOutcome(req, gotLock, script);
      if !gotLock {
        return DuplicateDelivery;
      }
      ghost var end, all := Exec(Start(req), pending), Asked(Start(req), pending);
      var exit;
      match req {
        case Chat(prompt) => exit := RunChat(prompt, end, all);
        case Url(url, size, maxChunks) => exit := RunUrlPipeline(url, size, maxChunks, end, all);
      }
      match exit {
        case Returned((summary, chunks)) => outcome := Ok(summary, chunks);
        case Raised(TaskCancelled) =>
          Emit(Cancelled);
          outcome := WasCancelled;
        case Raised(Failed(fault)) =>
          match fault {
            case TimeoutError =>
              Emit(Error(TIMEOUT));
              outcome := TimedOut;
            case FetchError => outcome := Errored;
            case SummarizeError => outcome := Errored;
            case OtherError =>
              Emit(Error(UNKNOWN));
              outcome := Reraised;
            case CancelledError => outcome := Killed;
          }
      }
      // finally: await publisher.close(session_id)
      closed := true;
      if !Stray(Start(req), script) {
        EveryRunConforms(req, script);
      }
    }
  }

  /** Once the handlers have run there is nothing left to execute or ask. */
  lemma NothingLeft(req: Request, trace: seq<Event>, exit: Exit<(string, nat)>, script: seq<Answer>, asked: seq<Question>)
    requires Valid(req)
    ensures Exec(Ended(req, trace, exit), script) == Ended(req, trace, exit)
    ensures asked + Asked(Ended(req, trace, exit), script) == asked
  {
  }

  /** One answer further. */
  lemma NextStep(m: Machine, script: seq<Answer>, asked: seq<Question>)
    requires Fits(m) && !m.pc.Over?
    ensures Exec(m, script) == Exec(Step(m, Head(script)), Tail(script))
    ensures asked + Asked(m, script) == (asked + [Asks(m)]) + Asked(Step(m, Head(script)), Tail(script))
  {
    hide Exec, Asked, Asks, Step;
    ExecStep(m, script);
    AskedStep(m, script);
  }
}
