/** From the job to the browser: what a client of the SSE endpoint sees of one job. */
module EndToEnd {
  import opened Options
  import opened Events
  import Protocol
  import Delivery
  import Ledger
  import Orphans
  import Progress
  import Job
  import JobGrammar
  import JobTheorems

  function EventsOf(items: seq<Protocol.Item>): seq<Event> {
    seq(|items|, i requires 0 <= i < |items| => items[i].event)
  }

  function Seen(r: Protocol.Reader): seq<Event> {
    EventsOf(Protocol.Items(Protocol.Shown(r.out)))
  }

  /** The trace of a job that holds the lock, and how it ended. */
  function JobTrace(req: Job.Request, script: seq<Job.Answer>): seq<Event>
    requires Job.Valid(req)
  {
    Job.Exec(Job.Start(req), script).trace
  }

  /** A session's run in which all that is emitted, by whatever coroutines, is the beginning of one job's trace. */
  ghost predicate Streams(s0: Protocol.State, actions: seq<Protocol.Action>, trace: seq<Event>) {
    && Protocol.Init(s0) && s0.events == [] && Ledger.OneRun(actions)
    && EventsOf(Ledger.Emits(actions)) <= trace
  }

  lemma EventsOfPrefix(a: seq<Protocol.Item>, b: seq<Protocol.Item>)
    requires a <= b
    ensures EventsOf(a) <= EventsOf(b)
  {
  }

  lemma ItemsPrefix(a: seq<Protocol.Msg>, b: seq<Protocol.Msg>)
    requires a <= b
    ensures Protocol.Items(a) <= Protocol.Items(b)
  {
  }

  lemma StreamsTidily(s0: Protocol.State, actions: seq<Protocol.Action>, trace: seq<Event>)
    requires Streams(s0, actions, trace)
    ensures Ledger.TidyRun(s0, actions)
  {
    Ledger.OneRunIsTidy(s0, actions);
  }

  lemma ListIsTracePrefix(s0: Protocol.State, actions: seq<Protocol.Action>, trace: seq<Event>)
    requires Streams(s0, actions, trace)
    ensures EventsOf(Protocol.Items(Protocol.Run(s0, actions).events)) <= trace
  {
    StreamsTidily(s0, actions, trace);
    var s := Protocol.Run(s0, actions);
    Ledger.InitInv(s0);
    Ledger.EmittedByRun(s0, actions);
    Ledger.Conservation(s0, actions);
    assert s.emitted == Ledger.Emits(actions);
    EventsOfPrefix(Protocol.Items(s.events), s.emitted);
  }

  /** At any moment a client has seen the beginning of the job's trace, each event once and in order. */
  lemma ClientSeesAPrefix(s0: Protocol.State, actions: seq<Protocol.Action>, trace: seq<Event>, r: nat)
    requires Streams(s0, actions, trace) && r in Protocol.Run(s0, actions).readers
    ensures Seen(Protocol.Run(s0, actions).readers[r]) <= trace
  {
    StreamsTidily(s0, actions, trace);
    var s := Protocol.Run(s0, actions);
    Ledger.InitInv(s0);
    Ledger.RunKeepsInv(s0, actions);
    Delivery.ExactlyOnceInOrder(s0, actions);
    ListIsTracePrefix(s0, actions, trace);
    ItemsPrefix(Protocol.Shown(s.readers[r].out), s.events);
    EventsOfPrefix(Protocol.Items(Protocol.Shown(s.readers[r].out)), Protocol.Items(s.events));
  }

  /** A stream that closed by itself has delivered the whole trace of the job, whenever the client attached:
      it conforms to the grammar for the job's outcome, and a completed job's stream adds up. */
  lemma FinishedClientSawTheJob(s0: Protocol.State, actions: seq<Protocol.Action>, req: Job.Request,
                                script: seq<Job.Answer>, r: nat)
    requires Job.Valid(req) && !JobGrammar.Stray(Job.Start(req), script)
    requires Streams(s0, actions, JobTrace(req, script))
    requires r in Protocol.Run(s0, actions).readers && Protocol.Run(s0, actions).readers[r].phase.Finished?
    ensures var seen := Seen(Protocol.Run(s0, actions).readers[r]);
            var end := Job.Exec(Job.Start(req), script);
            && seen == end.trace
            && JobGrammar.Conforms(req, seen, end.pc.outcome)
            && (end.pc.outcome.Ok? ==> JobTheorems.Balanced(req, seen))
  {
    hide JobGrammar.Conforms, JobTheorems.Balanced;
    var s, trace := Protocol.Run(s0, actions), JobTrace(req, script);
    var out := Protocol.Shown(s.readers[r].out);
    var seen := Seen(s.readers[r]);
    StreamsTidily(s0, actions, trace);
    ClientSeesAPrefix(s0, actions, trace, r);
    Ledger.InitInv(s0);
    Ledger.RunKeepsInv(s0, actions);
    Delivery.ExactlyOnceInOrder(s0, actions);
    assert Terminal(seen[|seen| - 1]);
    JobTheorems.ExactlyOneTerminalEvent(req, script);
    assert |seen| == |trace|;
    JobGrammar.EveryRunConforms(req, script);
    JobTheorems.CompletedRunsBalance(req, script);
  }

  /** A terminated job whose drainer has exited through the sentinel. */
  ghost predicate Delivered(s0: Protocol.State, actions: seq<Protocol.Action>, trace: seq<Event>) {
    && Streams(s0, actions, trace) && EventsOf(Ledger.Emits(actions)) == trace
    && trace != [] && Terminal(trace[|trace| - 1]) && JobTheorems.NoTerminalBeforeLast(trace)
    && var s := Protocol.Run(s0, actions);
       s.writer.Some? && s.writer.value in s.drainers && s.drainers[s.writer.value].stage.Stopped?
  }

  lemma DeliveredIsListed(s0: Protocol.State, actions: seq<Protocol.Action>, trace: seq<Event>)
    requires Delivered(s0, actions, trace)
    ensures var s := Protocol.Run(s0, actions);
            && Delivery.Inv(s) && Protocol.Lag(s) == 0
            && EventsOf(Protocol.Items(s.events)) == trace && |s.events| == |trace|
            && Protocol.IsTerminal(s.events[|s.events| - 1]) && Protocol.NoTerminal(s.events[..|s.events| - 1])
  {
    hide Protocol.Run, Delivery.Inv, Ledger.Inv, Ledger.TidyRun;
    StreamsTidily(s0, actions, trace);
    var s := Protocol.Run(s0, actions);
    Ledger.InitInv(s0);
    Delivery.InitInv(s0);
    Ledger.RunKeepsInv(s0, actions);
    Delivery.RunKeepsInv(s0, actions);
    Ledger.Conservation(s0, actions);
    Ledger.EmittedByRun(s0, actions);
    assert s0.emitted == [] && EventsOf(Protocol.Items(s.events)) == trace;
    assert s.channel == s.events;
    forall i | 0 <= i < |trace|
      ensures trace[i] == s.events[i].item.event
    {
      assert EventsOf(Protocol.Items(s.events))[i] == Protocol.Items(s.events)[i].event;
    }
  }

  /** A reader in its tail loop then still has the job's terminal event in its buffer, and has not replayed it. */
  lemma TerminalIsWaiting(s0: Protocol.State, actions: seq<Protocol.Action>, trace: seq<Event>, r: nat)
    requires Delivered(s0, actions, trace)
    requires var s := Protocol.Run(s0, actions); r in s.readers && s.readers[r].phase.Tailing?
    ensures var s := Protocol.Run(s0, actions);
            && s.events != [] && s.events[|s.events| - 1].item.event == trace[|trace| - 1]
            && s.events[|s.events| - 1] in s.readers[r].inbox
            && s.events[|s.events| - 1].seqNo !in s.readers[r].replayed
  {
    hide Protocol.Run, Delivery.Inv;
    DeliveredIsListed(s0, actions, trace);
    var s := Protocol.Run(s0, actions);
    assert EventsOf(Protocol.Items(s.events))[|trace| - 1] == s.events[|trace| - 1].item.event;
    Delivery.TailerHasMoreComing(s, r);
  }

  predicate OwnTurn(a: Protocol.Action, r: nat) {
    a == Protocol.Range(r) || a == Protocol.Yield(r) || a == Protocol.Poll(r)
  }

  /** ... so no client is left waiting: wherever its reader is, a bounded number of its own turns close its stream,
      and then the client has seen the job's whole trace. */
  lemma NobodyWaitsForever(s0: Protocol.State, actions: seq<Protocol.Action>, trace: seq<Event>, r: nat)
    returns (own: seq<Protocol.Action>)
    requires Delivered(s0, actions, trace)
    requires var s := Protocol.Run(s0, actions); r in s.readers && Protocol.Attached(s.readers[r])
    ensures forall a :: a in own ==> OwnTurn(a, r)
    ensures |own| <= |Protocol.Run(s0, actions).readers[r].inbox| + |trace| + 2
    ensures var t := Protocol.Run(s0, actions + own);
            r in t.readers && t.readers[r].phase.Finished? && Seen(t.readers[r]) == trace
  {
    hide Protocol.Run, Delivery.Inv;
    DeliveredIsListed(s0, actions, trace);
    var s := Protocol.Run(s0, actions);
    if s.readers[r].phase.Subscribed? {
      var t := Protocol.Next(s, Protocol.Range(r));
      Delivery.ReaderActionKeepsInv(s, Protocol.Range(r), r);
      var rest := ReaderFinishes(t, r);
      own := [Protocol.Range(r)] + rest;
      RunFrom(s, Protocol.Range(r), rest);
    } else {
      own := ReaderFinishes(s, r);
    }
    Protocol.RunConcat(s0, actions, own);
  }

  lemma RunFrom(s: Protocol.State, a: Protocol.Action, rest: seq<Protocol.Action>)
    ensures Protocol.Run(s, [a] + rest) == Protocol.Run(Protocol.Next(s, a), rest)
  {
    assert ([a] + rest)[1..] == rest;
  }

  /** A reader past its LRANGE gets to the terminal event that closes a fully published list. */
  lemma ReaderFinishes(s: Protocol.State, r: nat) returns (own: seq<Protocol.Action>)
    requires Delivery.Inv(s) && Protocol.Lag(s) == 0 && r in s.readers && Delivery.PastRange(s.readers[r])
    requires s.events != [] && Protocol.IsTerminal(s.events[|s.events| - 1])
    requires Protocol.NoTerminal(s.events[..|s.events| - 1])
    ensures forall a :: a in own ==> OwnTurn(a, r)
    ensures |own| <= |s.readers[r].inbox| + |s.events| + 1
    ensures var t := Protocol.Run(s, own);
            r in t.readers && t.readers[r].phase.Finished? && Protocol.Shown(t.readers[r].out) == s.events
  {
    hide Protocol.Run, Protocol.Shown, Delivery.Future, Orphans.InStep;
    var n := |s.events| - 1;
    Orphans.OwedIsInStep(s, r);
    assert Delivery.ReaderOk(s.events, Delivery.Pub(s), s.readers[r]);
    assert s.events[..|s.events|] == s.events == s.events[..n] + [s.events[n]];
    own := Orphans.Flush(s, r);
    Orphans.RestsAtTheEnd(Protocol.Run(s, own).readers[r], s.events[..n], s.events[n]);
    assert s.events[n] in s.events;
  }

  // ---------------------------------------------------------------------------
  // Jobs do get delivered
  // ---------------------------------------------------------------------------

  lemma {:induction false} MoreOfOneRun(a: seq<Protocol.Action>, b: seq<Protocol.Action>)
    requires Ledger.OneRun(a) && forall x :: x in b ==> !x.Emit?
    ensures Ledger.OneRun(a + b) && Ledger.Emits(a + b) == Ledger.Emits(a)
    decreases |a| + |b|
  {
    if a != [] {
      MoreOfOneRun(a[1..], b);
      assert (a + b)[1..] == a[1..] + b;
    } else {
      assert a + b == b;
      if b != [] {
        assert b[0] in b && forall x :: x in b[1..] ==> x in b;
        MoreOfOneRun([], b[1..]);
        assert [] + b[1..] == b[1..];
      }
    }
  }

  /** The end of a job's stream: all is emitted, the session is closed, and the drainer gets its steps. Then the job is
      delivered, so that no client is left waiting. */
  lemma ClosedJobIsDelivered(s0: Protocol.State, before: seq<Protocol.Action>, after: seq<Protocol.Action>,
                             trace: seq<Event>, id: nat)
    requires Streams(s0, before, trace) && EventsOf(Ledger.Emits(before)) == trace
    requires trace != [] && Terminal(trace[|trace| - 1]) && JobTheorems.NoTerminalBeforeLast(trace)
    requires Protocol.Run(s0, before).current == Some(id)
    requires id in Protocol.Run(s0, before).drainers && !Protocol.Dead(Protocol.Run(s0, before).drainers[id].stage)
    requires forall a :: a in after ==> Progress.Spares(a, id) && !a.Emit?
    requires var d := Protocol.Run(s0, before).drainers[id];
             Progress.StepsOf(after, id) >= Progress.StageWork(d.stage) + 7 * |Ledger.Queued(d.queue)| + 1
    ensures Delivered(s0, before + [Protocol.Close] + after, trace)
  {
    hide Protocol.Run, Progress.StepsOf, Progress.StageWork, Ledger.Queued, Ledger.TidyRun;
    StreamsTidily(s0, before, trace);
    Progress.CloseDrains(s0, before, after, id);
    assert before + [Protocol.Close] + after == before + ([Protocol.Close] + after);
    MoreOfOneRun(before, [Protocol.Close] + after);
  }

  function EmitAll(trace: seq<Event>): seq<Protocol.Action> {
    if trace == [] then [] else [Protocol.Emit(Protocol.Item(0, trace[0]), 0)] + EmitAll(trace[1..])
  }

  lemma {:induction false} AllEmitted(trace: seq<Event>)
    ensures Ledger.OneRun(EmitAll(trace)) && EventsOf(Ledger.Emits(EmitAll(trace))) == trace
  {
    if trace != [] {
      AllEmitted(trace[1..]);
      var first, rest := Protocol.Emit(Protocol.Item(0, trace[0]), 0), EmitAll(trace[1..]);
      assert ([first] + rest)[1..] == rest;
      assert Ledger.Emits([first] + rest) == [first.item] + Ledger.Emits(rest);
      assert EventsOf([first.item] + Ledger.Emits(rest)) == [trace[0]] + EventsOf(Ledger.Emits(rest));
    }
  }

  /** The first drainer of a new session, once something was emitted. */
  predicate IsOpen(s: Protocol.State) {
    s.current == Some(0) && 0 in s.drainers && s.drainers[0].stage == Protocol.Waiting
  }

  lemma {:induction false} EmittingOpens(s: Protocol.State, trace: seq<Event>)
    requires IsOpen(s) || (s.current.None? && 0 !in s.drainers && trace != [])
    ensures IsOpen(Protocol.Run(s, EmitAll(trace)))
    decreases |trace|
  {
    if trace != [] {
      var first, rest := Protocol.Emit(Protocol.Item(0, trace[0]), 0), EmitAll(trace[1..]);
      assert ([first] + rest)[1..] == rest;
      EmittingOpens(Protocol.Next(s, first), trace[1..]);
    }
  }

  /** Every job that is not killed and whose errors are its own can be delivered to a new session. */
  lemma TerminatedJobIsDelivered(s0: Protocol.State, req: Job.Request, script: seq<Job.Answer>)
    returns (actions: seq<Protocol.Action>)
    requires Protocol.Init(s0) && s0.events == [] && Job.Valid(req)
    requires !JobGrammar.Stray(Job.Start(req), script) && !Job.Exec(Job.Start(req), script).pc.outcome.Killed?
    ensures Delivered(s0, actions, JobTrace(req, script))
  {
    hide Protocol.Run, Progress.DrainWork, Progress.StageWork, Ledger.Queued, EmitAll;
    var trace := JobTrace(req, script);
    JobTheorems.ExactlyOneTerminalEvent(req, script);
    AllEmitted(trace);
    EmittingOpens(s0, trace);
    var d := Protocol.Run(s0, EmitAll(trace)).drainers[0];
    var n := Progress.StageWork(d.stage) + 7 * |Ledger.Queued(d.queue)| + 1;
    Progress.CountSteps(0, n);
    ClosedJobIsDelivered(s0, EmitAll(trace), Progress.Steps(0, n), trace, 0);
    actions := EmitAll(trace) + [Protocol.Close] + Progress.Steps(0, n);
  }
}
