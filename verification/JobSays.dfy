/** What every run of a job says and asks, whatever it is answered: each TOKEN, each CHUNK_SUMMARIZED and each question,
    read off the positions of the answers. */
module JobSays {
  import opened Events
  import opened TraceCounts
  import opened Text
  import opened Job
  import opened JobGrammar
  import opened JobTheorems
  import opened JobAnswers
  import Chunker

  /** The deltas of a stream that were followed by a clear checkpoint, up to the first that was not. */
  function Told(script: seq<Answer>): seq<string> {
    if |script| >= 2 && script[0].Value? && script[0].more && Clear(script[1])
    then [script[0].text] + Told(script[2..]) else []
  }

  /** The first summaries, at most `left`, each asked for after a clear checkpoint. */
  function Summarized(script: seq<Answer>, left: nat): seq<string> {
    if left > 0 && |script| >= 2 && Clear(script[0]) && script[1].Value?
    then [script[1].text] + Summarized(script[2..], left - 1) else []
  }

  /** What one move says. */
  lemma MoveSays(m: Machine, a: Answer)
    requires Fits(m)
    ensures TokensOf(Step(m, a).trace)
         == TokensOf(m.trace) + (if (m.pc.ChatPoll? || m.pc.FinalPoll?) && Clear(a) then [m.pc.delta] else [])
    ensures ChunksOf(Step(m, a).trace)
         == ChunksOf(m.trace) + (if m.pc.Summarizing? && a.Value?
              then [Summary(|m.pc.summaries|, |Chunks(m.req, m.pc.text)|, a.text)] else [])
  {
    hide TokensOf, ChunksOf;
    var events := Added(m, a);
    OfConcat(m.trace, events);
    if (m.pc.ChatPoll? || m.pc.FinalPoll?) && Clear(a) {
      assert events == [Token(m.pc.delta)];
      OfOne(events[0]);
    } else if m.pc.Summarizing? && a.Value? {
      assert events == [ChunkSummarized(|m.pc.summaries|, |Chunks(m.req, m.pc.text)|, a.text)];
      OfOne(events[0]);
    } else {
      OfPlain(events);
    }
  }

  lemma OfOne(e: Event)
    ensures TokensOf([e]) == TokenOf(e) && ChunksOf([e]) == ChunkOf(e)
  {
    assert [e][1..] == [];
    assert TokensOf([e]) == TokenOf(e) + [] && ChunksOf([e]) == ChunkOf(e) + [];
  }

  /** A run that is over says nothing more. */
  lemma OverSays(m: Machine, script: seq<Answer>)
    requires Fits(m) && m.pc.Over?
    ensures Exec(m, script) == m
  {
  }

  /** A stream says what it is told. */
  lemma {:induction false} StreamSays(m: Machine, script: seq<Answer>)
    requires Fits(m) && (m.pc.ChatNext? || m.pc.FinalNext?)
    ensures TokensOf(Exec(m, script).trace) == TokensOf(m.trace) + Told(script)
    ensures ChunksOf(Exec(m, script).trace) == ChunksOf(m.trace)
    decreases |script|
  {
    hide TokensOf, ChunksOf, Exec;
    var a := Head(script);
    ExecStep(m, script);
    MoveSays(m, a);
    var polled := Step(m, a);
    if polled.pc.Over? {
      OverSays(polled, Tail(script));
    } else {
      var b := Head(Tail(script));
      ExecStep(polled, Tail(script));
      MoveSays(polled, b);
      var next := Step(polled, b);
      if next.pc.Over? {
        OverSays(next, Tail(Tail(script)));
      } else {
        StreamSays(next, script[2..]);
        assert Tail(Tail(script)) == script[2..];
        assert TokensOf(m.trace) + [a.text] + Told(script[2..]) == TokensOf(m.trace) + ([a.text] + Told(script[2..]));
      }
    }
  }

  function Numbers(texts: seq<string>, from: nat, total: nat): seq<Summary> {
    seq(|texts|, i requires 0 <= i < |texts| => Summary(from + i, total, texts[i]))
  }

  /** The deltas told behind the chunk loop, if it was completed and the checkpoint behind it was clear. */
  function ToldAfter(script: seq<Answer>, left: nat): seq<string> {
    if |Summarized(script, left)| == left && |script| > 2 * left && Clear(script[2 * left])
    then Told(script[2 * left + 1..]) else []
  }

  lemma ToldAfterOne(script: seq<Answer>, left: nat)
    requires left > 0 && |script| >= 2 && Clear(script[0]) && script[1].Value?
    ensures ToldAfter(script, left) == ToldAfter(script[2..], left - 1)
  {
    hide Told;
    if |script| > 2 * left {
      assert script[2..][2 * (left - 1)] == script[2 * left];
      assert script[2..][2 * (left - 1) + 1..] == script[2 * left + 1..];
    }
  }

  /** Nothing is told behind a loop that stopped early. */
  lemma ToldNothing(script: seq<Answer>, left: nat)
    requires left > 0 && !(|script| >= 2 && Clear(script[0]) && script[1].Value?)
    ensures Summarized(script, left) == [] && ToldAfter(script, left) == []
  {
  }

  /** The machine in the chunk loop, with `left` chunks to go. */
  ghost predicate InLoop(m: Machine, left: nat) {
    && Fits(m)
    && if left == 0 then m.pc.CheckFinal?
       else m.pc.CheckSummary? && |m.pc.summaries| + left == |Chunks(m.req, m.pc.text)|
  }

  /** The checkpoint and the stream behind the chunk loop. */
  lemma FinalSays(m: Machine, script: seq<Answer>)
    requires InLoop(m, 0)
    ensures TokensOf(Exec(m, script).trace) == TokensOf(m.trace) + ToldAfter(script, 0)
    ensures ChunksOf(Exec(m, script).trace) == ChunksOf(m.trace)
  {
    hide TokensOf, ChunksOf, Exec, Told;
    ExecStep(m, script);
    MoveSays(m, Head(script));
    var next := Step(m, Head(script));
    if next.pc.Over? {
      OverSays(next, Tail(script));
    } else {
      StreamSays(next, script[1..]);
    }
  }

  /** The stream behind the chunk loop says what it is told. */
  lemma {:induction false} LoopTells(m: Machine, script: seq<Answer>, left: nat)
    requires InLoop(m, left)
    ensures TokensOf(Exec(m, script).trace) == TokensOf(m.trace) + ToldAfter(script, left)
    decreases left
  {
    hide TokensOf, ChunksOf, Exec, Told, Chunks, ToldAfter, Step;
    if left == 0 {
      FinalSays(m, script);
    } else if |script| >= 2 && Clear(script[0]) && script[1].Value? {
      LoopTurn(m, script, left);
      LoopTells(Step(Step(m, script[0]), script[1]), script[2..], left - 1);
      ToldAfterOne(script, left);
    } else {
      ToldNothing(script, left);
      LoopStops(m, script, left);
    }
  }

  /** The chunk loop says what it is answered. */
  lemma {:induction false} LoopSays(m: Machine, script: seq<Answer>, left: nat)
    requires InLoop(m, left) && left > 0
    ensures ChunksOf(Exec(m, script).trace)
         == ChunksOf(m.trace) + Numbers(Summarized(script, left), |m.pc.summaries|, |Chunks(m.req, m.pc.text)|)
    decreases left
  {
    hide TokensOf, ChunksOf, Exec, Told, Chunks, ToldAfter, Step, Numbers;
    var k, n := |m.pc.summaries|, |Chunks(m.req, m.pc.text)|;
    if |script| >= 2 && Clear(script[0]) && script[1].Value? {
      LoopTurn(m, script, left);
      var next, rest := Step(Step(m, script[0]), script[1]), Summarized(script[2..], left - 1);
      NumbersCons(script[1].text, rest, k, n);
      if left == 1 {
        FinalSays(next, script[2..]);
        NumbersNone(k + 1, n);
      } else {
        LoopSays(next, script[2..], left - 1);
      }
      TraceCounts.Associate(ChunksOf(m.trace), [Summary(k, n, script[1].text)], Numbers(rest, k + 1, n));
    } else {
      ToldNothing(script, left);
      LoopStops(m, script, left);
      NumbersNone(k, n);
    }
  }

  lemma NumbersNone(from: nat, total: nat)
    ensures Numbers([], from, total) == []
  {
  }

  lemma NumbersCons(text: string, rest: seq<string>, from: nat, total: nat)
    ensures Numbers([text] + rest, from, total) == [Summary(from, total, text)] + Numbers(rest, from + 1, total)
  {
  }

  lemma LoopTurn(m: Machine, script: seq<Answer>, left: nat)
    requires InLoop(m, left) && left > 0 && |script| >= 2 && Clear(script[0]) && script[1].Value?
    ensures var next := Step(Step(m, script[0]), script[1]);
            && InLoop(next, left - 1) && Exec(m, script) == Exec(next, script[2..])
            && TokensOf(next.trace) == TokensOf(m.trace)
            && ChunksOf(next.trace)
               == ChunksOf(m.trace) + [Summary(|m.pc.summaries|, |Chunks(m.req, m.pc.text)|, script[1].text)]
            && next.req == m.req && next.pc.text == m.pc.text && next.pc.summaries == m.pc.summaries + [script[1].text]
  {
    hide TokensOf, ChunksOf, Exec, Chunks;
    var asked := Step(m, script[0]);
    ExecStep(m, script);
    ExecStep(asked, script[1..]);
    assert script[1..][1..] == script[2..];
    MoveSays(m, script[0]);
    MoveSays(asked, script[1]);
  }

  lemma LoopStops(m: Machine, script: seq<Answer>, left: nat)
    requires InLoop(m, left) && left > 0 && !(|script| >= 2 && Clear(script[0]) && script[1].Value?)
    ensures TokensOf(Exec(m, script).trace) == TokensOf(m.trace) && ChunksOf(Exec(m, script).trace) == ChunksOf(m.trace)
  {
    hide TokensOf, ChunksOf, Exec, Chunks;
    ExecStep(m, script);
    MoveSays(m, Head(script));
    var asked := Step(m, Head(script));
    if asked.pc.Over? {
      OverSays(asked, Tail(script));
    } else {
      ExecStep(asked, Tail(script));
      MoveSays(asked, Head(Tail(script)));
      OverSays(Step(asked, Head(Tail(script))), Tail(Tail(script)));
    }
  }

  /** In a chat, whatever is answered: the TOKENs are, in order and unchanged, the deltas that were followed by a clear
      checkpoint. */
  lemma ChatSays(req: Request, script: seq<Answer>)
    requires Valid(req) && req.Chat?
    ensures var trace := Exec(Start(req), script).trace;
            && TokensOf(trace) == (if script != [] && Clear(script[0]) then Told(script[1..]) else [])
            && ChunksOf(trace) == []
  {
    hide Exec, Told, TokensOf, ChunksOf;
    var m := Start(req);
    OfOne(m.trace[0]);
    ExecStep(m, script);
    MoveSays(m, Head(script));
    if script != [] && Clear(script[0]) {
      StreamSays(Step(m, script[0]), script[1..]);
      NothingBefore([], Told(script[1..]));
    } else {
      OverSays(Step(m, Head(script)), Tail(script));
    }
  }

  /** A page has been fetched and found to have chunks. */
  predicate PageIsCut(script: seq<Answer>) {
    |script| >= 3 && Clear(script[0]) && script[1].Value? && script[1].text != "" && Clear(script[2])
  }

  /** The number of its chunks, by the length of the text. */
  function Total(req: Request, script: seq<Answer>): nat
    requires Valid(req) && req.Url? && PageIsCut(script)
  {
    Count(req, |script[1].text|)
  }

  lemma FrontSays(req: Request, script: seq<Answer>)
    requires Valid(req) && req.Url?
    ensures if PageIsCut(script) then
              var m := Step(Step(Step(Start(req), script[0]), script[1]), script[2]);
              && Exec(Start(req), script) == Exec(m, script[3..]) && TokensOf(m.trace) == [] && ChunksOf(m.trace) == []
              && m.req == req && m.pc == CheckSummary(script[1].text, []) && InLoop(m, Total(req, script))
            else TokensOf(Exec(Start(req), script).trace) == [] && ChunksOf(Exec(Start(req), script).trace) == []
  {
    hide TokensOf, ChunksOf, Exec, Chunks, Count;
    var m := Start(req);
    OfOne(m.trace[0]);
    ExecStep(m, script);
    MoveSays(m, Head(script));
    var m1, rest1 := Step(m, Head(script)), Tail(script);
    if m1.pc.Over? {
      OverSays(m1, rest1);
    } else {
      ExecStep(m1, rest1);
      MoveSays(m1, Head(rest1));
      var m2, rest2 := Step(m1, Head(rest1)), Tail(rest1);
      if m2.pc.Over? {
        OverSays(m2, rest2);
      } else {
        CountIs(req, m2.pc.text);
        ExecStep(m2, rest2);
        MoveSays(m2, Head(rest2));
        if Step(m2, Head(rest2)).pc.Over? {
          OverSays(Step(m2, Head(rest2)), Tail(rest2));
        }
        assert |script| >= 3 ==> rest2 == script[2..] && Tail(rest2) == script[3..];
      }
    }
  }

  /** In a URL job, whatever is answered: the CHUNK_SUMMARIZED events carry, in order and unchanged, the summaries
      that were answered after clear checkpoints, numbered from 0 with the number of chunks as total; and the TOKENs
      are the deltas that were followed by a clear checkpoint, once all chunks were summarized. */
  lemma UrlSays(req: Request, script: seq<Answer>)
    requires Valid(req) && req.Url?
    ensures var trace := Exec(Start(req), script).trace;
            if PageIsCut(script) then
              var total := Total(req, script);
              && ChunksOf(trace) == Numbers(Summarized(script[3..], total), 0, total)
              && TokensOf(trace) == ToldAfter(script[3..], total)
            else ChunksOf(trace) == [] && TokensOf(trace) == []
  {
    hide Exec, Summarized, Told, ToldAfter, Chunks, Count, TokensOf, ChunksOf;
    FrontSays(req, script);
    if PageIsCut(script) {
      var m := Step(Step(Step(Start(req), script[0]), script[1]), script[2]);
      var total := Total(req, script);
      CountIs(req, script[1].text);
      LoopSays(m, script[3..], total);
      LoopTells(m, script[3..], total);
      NothingBefore(Numbers(Summarized(script[3..], total), 0, total), ToldAfter(script[3..], total));
    }
  }

  lemma NothingBefore(a: seq<Summary>, b: seq<string>)
    ensures [] + a == a && [] + b == b
  {
  }

  /** STARTED carries the URL, or the first 200 characters of the prompt. */
  lemma StartsWithInput(req: Request, script: seq<Answer>)
    requires Valid(req)
    ensures var trace := Exec(Start(req), script).trace;
            && trace != [] && trace[0].Started?
            && (req.Url? ==> trace[0].input == req.url)
            && (req.Chat? ==> trace[0].input <= req.prompt && |trace[0].input| == Chunker.Min(200, |req.prompt|))
  {
    TraceGrows(Start(req), script);
  }

  lemma {:induction false} TraceGrows(m: Machine, script: seq<Answer>)
    requires Fits(m)
    ensures m.trace <= Exec(m, script).trace
    decreases |script|
  {
    hide Step;
    var events := Added(m, Head(script));
    if !m.pc.Over? && script != [] {
      TraceGrows(Step(m, script[0]), script[1..]);
    }
  }

  // ---------------------------------------------------------------------------
  // What is asked
  // ---------------------------------------------------------------------------

  /** The summaries asked for. */
  function SummaryAsks(questions: seq<Question>): seq<Question> {
    if questions == [] then []
    else (if questions[0].AskSummary? then [questions[0]] else []) + SummaryAsks(questions[1..])
  }

  lemma SummaryAsksStep(m: Machine, script: seq<Answer>)
    requires Fits(m) && !m.pc.Over?
    ensures SummaryAsks(Asked(m, script))
         == (if m.pc.Summarizing? then [Asks(m)] else []) + SummaryAsks(Asked(Step(m, Head(script)), Tail(script)))
    ensures forall q :: q in Asked(m, script) <==> q == Asks(m) || q in Asked(Step(m, Head(script)), Tail(script))
  {
    hide Asked, Step;
    AskedStep(m, script);
    var rest := Asked(Step(m, Head(script)), Tail(script));
    assert ([Asks(m)] + rest)[1..] == rest;
  }

  /** Call `i` asks for chunk `i`. */
  function ChunkAsks(chunks: seq<string>, from: nat): seq<Question>
    requires from <= |chunks|
  {
    seq(|chunks| - from, i requires 0 <= i < |chunks| - from => AskSummary(chunks[from + i], from + i))
  }

  /** A stream asks for deltas of one prompt, and for the flag. */
  lemma {:induction false} StreamAsks(m: Machine, script: seq<Answer>, prompt: string)
    requires Fits(m) && (m.pc.ChatNext? || m.pc.FinalNext?) && Asks(m) == AskDelta(prompt)
    ensures SummaryAsks(Asked(m, script)) == []
    ensures forall q :: q in Asked(m, script) ==> q == AskFlag || q == AskDelta(prompt)
    decreases |script|
  {
    hide Asked, SummaryAsks, Bullets;
    SummaryAsksStep(m, script);
    var polled := Step(m, Head(script));
    if polled.pc.Over? {
      OverAsks(polled, Tail(script));
    } else {
      SummaryAsksStep(polled, Tail(script));
      var next := Step(polled, Head(Tail(script)));
      if next.pc.Over? {
        OverAsks(next, Tail(Tail(script)));
      } else {
        StreamAsks(next, Tail(Tail(script)), prompt);
      }
    }
  }

  lemma OverAsks(m: Machine, script: seq<Answer>)
    requires Fits(m) && m.pc.Over?
    ensures Asked(m, script) == [] && SummaryAsks(Asked(m, script)) == []
  {
  }

  lemma AskOne(chunks: seq<string>, from: nat, rest: seq<Question>)
    requires from < |chunks| && rest <= ChunkAsks(chunks, from + 1)
    ensures [AskSummary(chunks[from], from)] + rest <= ChunkAsks(chunks, from)
  {
    assert ChunkAsks(chunks, from) == [AskSummary(chunks[from], from)] + ChunkAsks(chunks, from + 1);
  }

  /** What a question of the loop or of the synthesis can be. */
  predicate LoopQuestion(q: Question, script: seq<Answer>, left: nat, summaries: seq<string>) {
    || q == AskFlag || q.AskSummary?
    || (|Summarized(script, left)| == left && q == AskDelta(SYNTHESIS + Bullets(summaries + Summarized(script, left))))
  }

  lemma FinalAsks(m: Machine, script: seq<Answer>)
    requires InLoop(m, 0)
    ensures SummaryAsks(Asked(m, script)) == []
    ensures forall q :: q in Asked(m, script) ==> LoopQuestion(q, script, 0, m.pc.summaries)
  {
    hide Asked, SummaryAsks, Chunks, Bullets;
    SummaryAsksStep(m, script);
    var asked := Step(m, Head(script));
    assert m.pc.summaries + [] == m.pc.summaries;
    if asked.pc.Over? {
      OverAsks(asked, Tail(script));
    } else {
      StreamAsks(asked, Tail(script), SYNTHESIS + Bullets(m.pc.summaries));
    }
  }

  lemma LoopQuestionStep(q: Question, script: seq<Answer>, left: nat, summaries: seq<string>)
    requires left > 0 && |script| >= 2 && Clear(script[0]) && script[1].Value?
    requires LoopQuestion(q, script[2..], left - 1, summaries + [script[1].text])
    ensures LoopQuestion(q, script, left, summaries)
  {
    hide Bullets;
    var rest := Summarized(script[2..], left - 1);
    assert summaries + [script[1].text] + rest == summaries + ([script[1].text] + rest);
  }

  /** The chunk loop asks for its chunks in order, and the synthesis for the summaries it got. */
  lemma {:induction false} LoopAsks(m: Machine, script: seq<Answer>, left: nat)
    requires InLoop(m, left) && (left == 0 ==> |m.pc.summaries| == |Chunks(m.req, m.pc.text)|)
    ensures var chunks := Chunks(m.req, m.pc.text);
            && |m.pc.summaries| <= |chunks|
            && SummaryAsks(Asked(m, script)) <= ChunkAsks(chunks, |m.pc.summaries|)
            && |Summarized(script, left)| <= |SummaryAsks(Asked(m, script))|
    ensures forall q :: q in Asked(m, script) ==> LoopQuestion(q, script, left, m.pc.summaries)
    decreases left
  {
    hide Asked, SummaryAsks, Chunks, LoopQuestion, ChunkAsks;
    if left == 0 {
      FinalAsks(m, script);
    } else {
      EasyQuestions(script, left, m.pc.summaries);
      SummaryAsksStep(m, script);
      var asked := Step(m, Head(script));
      if asked.pc.Over? {
        OverAsks(asked, Tail(script));
      } else {
        var chunks, k := Chunks(m.req, m.pc.text), |m.pc.summaries|;
        SummaryAsksStep(asked, Tail(script));
        var next := Step(asked, Head(Tail(script)));
        if next.pc.Over? {
          OverAsks(next, Tail(Tail(script)));
          AskOne(chunks, k, []);
        } else {
          LoopAsks(next, script[2..], left - 1);
          assert Tail(Tail(script)) == script[2..];
          AskOne(chunks, k, SummaryAsks(Asked(next, script[2..])));
          forall q | q in Asked(next, script[2..])
            ensures LoopQuestion(q, script, left, m.pc.summaries)
          {
            LoopQuestionStep(q, script, left, m.pc.summaries);
          }
        }
      }
    }
  }

  lemma EasyQuestions(script: seq<Answer>, left: nat, summaries: seq<string>)
    ensures forall q: Question :: q == AskFlag || q.AskSummary? ==> LoopQuestion(q, script, left, summaries)
  {
  }

  /** A chat asks for deltas of its prompt, and for the flag. */
  lemma ChatAsks(req: Request, script: seq<Answer>)
    requires Valid(req) && req.Chat?
    ensures forall q :: q in Asked(Start(req), script) ==> q == AskFlag || q == AskDelta(req.prompt)
  {
    hide Asked, SummaryAsks;
    var m := Start(req);
    SummaryAsksStep(m, script);
    var next := Step(m, Head(script));
    if next.pc.Over? {
      OverAsks(next, Tail(script));
    } else {
      StreamAsks(next, Tail(script), req.prompt);
    }
  }

  /** A URL job asks for its page, then for summaries of the page's chunks, the i-th with index i, at least as many
      as it reports, and then for deltas of a synthesis of exactly the summaries it got. */
  lemma UrlAsks(req: Request, script: seq<Answer>)
    requires Valid(req) && req.Url?
    ensures var asks := SummaryAsks(Asked(Start(req), script));
            if PageIsCut(script) then
              && asks <= ChunkAsks(Chunker.ChunkText(script[1].text, req.size, req.maxChunks), 0)
              && |Summarized(script[3..], Total(req, script))| <= |asks|
            else asks == []
    ensures forall q :: q in Asked(Start(req), script) ==>
              match q
              case AskFlag => true
              case AskPage(url) => url == req.url
              case AskSummary(_, _) => PageIsCut(script)
              case AskDelta(prompt) =>
                && PageIsCut(script) && |Summarized(script[3..], Total(req, script))| == Total(req, script)
                && prompt == SYNTHESIS + Bullets(Summarized(script[3..], Total(req, script)))
  {
    hide Asked, SummaryAsks, Count, Bullets, Summarized;
    var m := Start(req);
    SummaryAsksStep(m, script);
    var m1, rest1 := Step(m, Head(script)), Tail(script);
    if m1.pc.Over? {
      OverAsks(m1, rest1);
    } else {
      SummaryAsksStep(m1, rest1);
      var m2, rest2 := Step(m1, Head(rest1)), Tail(rest1);
      if m2.pc.Over? {
        OverAsks(m2, rest2);
      } else {
        CutAsks(req, script);
      }
    }
  }

  /** From the checkpoint behind the page on. */
  lemma CutAsks(req: Request, script: seq<Answer>)
    requires Valid(req) && req.Url? && |script| >= 2 && Clear(script[0]) && script[1].Value?
    ensures var m2 := Step(Step(Start(req), script[0]), script[1]);
            var asks := SummaryAsks(Asked(m2, script[2..]));
            && (if PageIsCut(script) then
                  && asks <= ChunkAsks(Chunker.ChunkText(script[1].text, req.size, req.maxChunks), 0)
                  && |Summarized(script[3..], Total(req, script))| <= |asks|
                else asks == [])
            && (forall q :: q in Asked(m2, script[2..]) ==>
                  || q == AskFlag || (q.AskSummary? && PageIsCut(script))
                  || (PageIsCut(script) && |Summarized(script[3..], Total(req, script))| == Total(req, script)
                      && q == AskDelta(SYNTHESIS + Bullets(Summarized(script[3..], Total(req, script))))))
  {
    hide Asked, SummaryAsks, Count, Bullets, Summarized;
    var m2, rest := Step(Step(Start(req), script[0]), script[1]), script[2..];
    CountIs(req, script[1].text);
    SummaryAsksStep(m2, rest);
    var m3 := Step(m2, Head(rest));
    if m3.pc.Over? {
      OverAsks(m3, Tail(rest));
    } else {
      assert Tail(rest) == script[3..];
      LoopAsks(m3, script[3..], Total(req, script));
      assert [] + Summarized(script[3..], Total(req, script)) == Summarized(script[3..], Total(req, script));
    }
  }

  lemma BulletsSnoc(a: seq<string>, text: string)
    ensures Bullets(a + [text]) == (if a == [] then "" else Bullets(a) + "\n\n") + "- " + text
  {
    assert (a + [text])[..|a|] == a;
  }

  /** The bullets of the synthesis prompt: one for each summary, in order, a blank line between any two. */
  lemma {:induction false} BulletsConcat(a: seq<string>, b: seq<string>)
    requires a != [] && b != []
    ensures Bullets(a + b) == Bullets(a) + "\n\n" + Bullets(b)
    ensures |b| == 1 ==> Bullets(b) == "- " + b[0]
    decreases |b|
  {
    hide Bullets;
    var front, last := b[..|b| - 1], b[|b| - 1];
    assert b == front + [last];
    BulletsSnoc(front, last);
    BulletsSnoc(a + front, last);
    assert a + b == (a + front) + [last];
    if front == [] {
      assert a + front == a;
    } else {
      BulletsConcat(a, front);
      var gap, tail := "\n\n", "- " + last;
      Text.Associate(Bullets(a) + gap, Bullets(front) + gap, tail);
      Text.Associate(Bullets(a) + gap, Bullets(front), gap);
    }
  }
}
