/** Restarting after a halt: a drainer that dies between RPUSH and PUBLISH leaves a listed event that was
    never published. When that hurts a reader, exactly. */
module Orphans {
  import opened Protocol
  import opened Delivery

  /** A reader past its LRANGE that is still sending, and whose replay set matches its place in the backlog. */
  ghost predicate InStep(r: Reader) {
    && NoTerminal(Shown(r.out))
    && match r.phase {
         case Replaying(next) =>
           next <= |r.backlog| && r.replayed == Seqs(r.backlog[..next]) && Shown(r.out) == r.backlog[..next]
         case Tailing => r.replayed == Seqs(r.backlog)
         case _ => false
       }
  }

  ghost predicate OnlyReader(actions: seq<Action>, r: nat) {
    forall a :: a in actions ==> a == Yield(r) || a == Poll(r)
  }

  /** Own turns a reader needs for what it has coming. */
  function Work(r: Reader): nat {
    |r.inbox| + (if r.phase.Replaying? && r.phase.next <= |r.backlog| then |r.backlog| - r.phase.next + 1 else 0)
  }

  /** One own turn brings a reader closer to what it has coming, or to the first terminal event in it. */
  ghost predicate Progresses(r: Reader, t: Reader) {
    if t.phase.Finished? then StopsAtFirstTerminal(Shown(t.out), Future(r))
    else InStep(t) && Future(t) == Future(r)
  }

  lemma ReplayTurn(r: Reader)
    requires InStep(r) && r.phase.Replaying?
    ensures Progresses(r, YieldNext(r)) && Work(YieldNext(r)) < Work(r)
  {
    hide Fresh, Shown, Seqs;
    var next, after := r.phase.next, YieldNext(r);
    if next == |r.backlog| {
      assert r.backlog[..next] == r.backlog;
      FutureAfterReplay(r);
    } else {
      var m, sent := r.backlog[next], r.backlog[..next];
      ShownAppend(r.out, Frame(m));
      SeqsAppend(sent, m);
      assert sent + [m] == r.backlog[..next + 1];
      if IsTerminal(m) {
        assert (sent + [m])[..|sent|] == sent;
        assert Future(r) == sent + r.backlog[next..] + Fresh(r.inbox, Seqs(r.backlog));
        assert r.backlog[next..][0] == m;
      } else {
        FutureAfterYield(r);
      }
    }
  }

  lemma TailTurn(r: Reader)
    requires InStep(r) && r.phase.Tailing?
    ensures Progresses(r, PollNext(r)) && (r.inbox != [] ==> Work(PollNext(r)) < Work(r))
  {
    hide Fresh, Shown, Seqs, Future;
    FutureAfterPoll(r);
    if r.inbox == [] {
      ShownAppend(r.out, Keepalive);
    } else {
      ShownAppend(r.out, Frame(r.inbox[0]));
    }
    if PollNext(r).phase.Finished? {
      var sent := Shown(r.out);
      assert (sent + [r.inbox[0]])[..|sent|] == sent;
    }
  }

  /** A reader at rest has sent all it had coming, or has stopped at the first terminal event in it. */
  ghost predicate AtRest(r: Reader, future: seq<Msg>) {
    if NoTerminal(future) then r.phase.Tailing? && r.inbox == [] && Shown(r.out) == future
    else r.phase.Finished? && StopsAtFirstTerminal(Shown(r.out), future)
  }

  lemma RestOfTailer(r: Reader)
    requires InStep(r) && r.phase.Tailing? && r.inbox == []
    ensures AtRest(r, Future(r))
  {
    assert Future(r) == Shown(r.out);
  }

  lemma RestOfFinished(r: Reader, future: seq<Msg>)
    requires r.phase.Finished? && StopsAtFirstTerminal(Shown(r.out), future)
    ensures AtRest(r, future)
  {
    hide Shown;
    var out := Shown(r.out);
    assert out[|out| - 1] == future[|out| - 1] && future[|out| - 1] in future;
  }

  /** Left alone, a reader comes to rest within as many turns as it has work. */
  lemma {:induction false} Flush(s: State, r: nat) returns (actions: seq<Action>)
    requires r in s.readers && InStep(s.readers[r])
    ensures OnlyReader(actions, r) && |actions| <= Work(s.readers[r])
    ensures var t := Run(s, actions);
            t.events == s.events && r in t.readers && AtRest(t.readers[r], Future(s.readers[r]))
    decreases Work(s.readers[r])
  {
    hide InStep, Future, AtRest;
    var reader := s.readers[r];
    InStepIsPastRange(reader);
    if reader.phase.Tailing? && reader.inbox == [] {
      actions := [];
      RestOfTailer(reader);
    } else {
      var a := if reader.phase.Replaying? then Yield(r) else Poll(r);
      if reader.phase.Replaying? { ReplayTurn(reader); } else { TailTurn(reader); }
      var t := Next(s, a);
      if t.readers[r].phase.Finished? {
        RestOfFinished(t.readers[r], Future(reader));
        actions := [a];
        assert Run(t, [a][1..]) == t;
      } else {
        var rest := Flush(t, r);
        actions := [a] + rest;
        assert actions[1..] == rest;
      }
    }
  }

  lemma InStepIsPastRange(r: Reader)
    requires InStep(r)
    ensures PastRange(r)
  {
  }

  /** What the session invariant says of a reader past its LRANGE. */
  lemma OwedIsInStep(s: State, r: nat)
    requires Inv(s) && r in s.readers && PastRange(s.readers[r])
    ensures InStep(s.readers[r])
    ensures Future(s.readers[r]) == s.events[..Max(|s.readers[r].backlog|, Pub(s))]
  {
    hide Future, Shown;
    assert ReaderOk(s.events, Pub(s), s.readers[r]);
  }

  /** Every reader's output is a prefix of the list. */
  ghost predicate Faithful(s: State) {
    forall r :: r in s.readers ==> Shown(s.readers[r].out) <= s.events
  }

  /** After this emit, whatever happens next (short of overlapping drainers), readers stay faithful. */
  ghost predicate SafeRestart(s: State, item: Item, task: nat) {
    forall actions :: SerialRun(EmitNext(s, item, task), actions) ==>
                        Faithful(Run(EmitNext(s, item, task), actions))
  }

  /** The new drainer takes its first event through all the stages. */
  function WriteOnce(s: State, task: nat): State {
    Run(s, Repeat(Step(task), 6))
  }

  lemma WriteOnceIs(s: State, item: Item, task: nat)
    requires s.current.None? && task !in s.drainers
    ensures var m := Msg(s.counter + 1, item);
            var t := WriteOnce(EmitNext(s, item, task), task);
            t.events == s.events + [m] && t.readers == Deliver(s.readers, m)
  {
    var s0 := EmitNext(s, item, task);
    var s1 := Next(s0, Step(task));
    var s2 := Next(s1, Step(task));
    var s3 := Next(s2, Step(task));
    var s4 := Next(s3, Step(task));
    var s5 := Next(s4, Step(task));
    var s6 := Next(s5, Step(task));
    assert s6.events == s.events + [Msg(s.counter + 1, item)];
    RunSteps(s0, Step(task), 6);
    assert Iterate(s0, Step(task), 6) == s6;
  }

  function Repeat(a: Action, n: nat): (actions: seq<Action>)
    ensures forall x :: x in actions ==> x == a
  {
    if n == 0 then [] else [a] + Repeat(a, n - 1)
  }

  function Iterate(s: State, a: Action, n: nat): State
    decreases n
  {
    if n == 0 then s else Iterate(Next(s, a), a, n - 1)
  }

  lemma {:induction false} RunSteps(s: State, a: Action, n: nat)
    ensures Run(s, Repeat(a, n)) == Iterate(s, a, n)
    decreases n
  {
    if n > 0 {
      RunSteps(Next(s, a), a, n - 1);
      assert Repeat(a, n)[1..] == Repeat(a, n - 1);
    }
  }

  lemma {:induction false} NoEmitIsSerial(s: State, actions: seq<Action>)
    requires forall a :: a in actions ==> !a.Emit?
    ensures SerialRun(s, actions)
    decreases |actions|
  {
    if actions != [] {
      NoEmitIsSerial(Next(s, actions[0]), actions[1..]);
    }
  }

  /** A stranded reader does lose the event: here is the continuation. */
  lemma StrandedReaderLoses(s: State, r: nat, item: Item, task: nat) returns (actions: seq<Action>)
    requires Inv(s) && s.current.None? && task !in s.drainers
    requires r in s.readers && Stranded(s, s.readers[r]) && !EndedEarlier(s)
    ensures SerialRun(EmitNext(s, item, task), actions)
    ensures !Faithful(Run(EmitNext(s, item, task), actions))
  {
    hide Future, Fresh, InStep;
    var m := Msg(s.counter + 1, item);
    var begin := EmitNext(s, item, task);
    var steps := Repeat(Step(task), 6);
    var written := WriteOnce(begin, task);
    WriteOnceIs(s, item, task);
    StrandedFuture(s, r, m);
    var flush := Flush(written, r);
    actions := steps + flush;
    NoEmitIsSerial(begin, actions);
    RunConcat(begin, steps, flush);
    var n := |s.events| - 1;
    var t := Run(begin, actions);
    RestsAtTheEnd(t.readers[r], s.events[..n], m);
    assert Shown(t.readers[r].out)[n] == m && t.events[n] == s.events[n];
    assert s.events[n] in s.events;
  }

  lemma StrandedFuture(s: State, r: nat, m: Msg)
    requires Inv(s) && r in s.readers && Stranded(s, s.readers[r]) && m.seqNo == s.counter + 1
    ensures var after := DeliverTo(s.readers[r], m);
            InStep(after) && Future(after) == s.events[..|s.events| - 1] + [m]
  {
    hide Future, Shown;
    var reader := s.readers[r];
    OwedIsInStep(s, r);
    FutureAfterDelivery(reader, m);
    forall x | x in reader.backlog
      ensures x.seqNo != m.seqNo
    {
      assert ReaderOk(s.events, Pub(s), reader);
      assert x in s.events;
    }
  }

  lemma RestsAtTheEnd(r: Reader, front: seq<Msg>, m: Msg)
    requires NoTerminal(front) && AtRest(r, front + [m])
    ensures Shown(r.out) == front + [m]
  {
    hide Shown;
    assert forall k :: 0 <= k < |front| ==> (front + [m])[k] == front[k] && front[k] in front;
  }

  // ---------------------------------------------------------------------------
  // A list with a terminal event before its last
  // ---------------------------------------------------------------------------

  /** A terminal event is followed by another one in the list, so no reader gets as far as that one. */
  ghost predicate EndedEarlier(s: State) {
    s.events != [] && !NoTerminal(s.events[..|s.events| - 1])
  }

  /** The reader will stop at the end of `whole` at the latest. */
  ghost predicate Bounded(whole: seq<Msg>, events: seq<Msg>, r: Reader) {
    match r.phase
    case Subscribed => r.out == [] && r.replayed == {}
    case Finished => Shown(r.out) == whole
    case Gone => Shown(r.out) <= events
    case _ => InStep(r) && whole <= Future(r)
  }

  ghost predicate Ended(s: State, whole: seq<Msg>) {
    && StopsAtFirstTerminal(whole, s.events)
    && forall r :: r in s.readers ==> Bounded(whole, s.events, s.readers[r])
  }

  /** Only one prefix ends at the first terminal event, and what has none is shorter. */
  lemma FirstTerminalIsOne(a: seq<Msg>, b: seq<Msg>, all: seq<Msg>)
    requires a <= all && StopsAtFirstTerminal(b, all)
    ensures NoTerminal(a) ==> a <= b
    ensures EndsAtFirstTerminal(a) ==> a == b
  {
    if |a| < |b| {
      assert a == b[..|a|];
    } else {
      assert b == a[..|b|];
      assert b[|b| - 1] == a[|b| - 1] && a[|b| - 1] in a;
    }
  }

  lemma BoundedOutput(whole: seq<Msg>, events: seq<Msg>, r: Reader)
    requires Bounded(whole, events, r) && StopsAtFirstTerminal(whole, events)
    ensures Shown(r.out) <= events
  {
    if PastRange(r) {
      assert Shown(r.out) <= Future(r);
      FirstTerminalIsOne(Shown(r.out), whole, Future(r));
    }
  }

  lemma TurnStaysBounded(whole: seq<Msg>, r: Reader, a: Action, events: seq<Msg>)
    requires Bounded(whole, events, r) && StopsAtFirstTerminal(whole, events)
    ensures Bounded(whole, events, ReaderNext(r, a, events))
  {
    hide Future, Shown, Fresh, Seqs, InStep;
    var after := ReaderNext(r, a, events);
    match a {
      case Range(_) => if r.phase.Subscribed? { RangeIsBounded(whole, r, events); }
      case Yield(_) =>
        if r.phase.Replaying? {
          ReplayTurn(r);
          if after.phase.Finished? { FirstTerminalIsOne(Shown(after.out), whole, Future(r)); }
          TurnLeavesPhase(r);
        }
      case Poll(_) =>
        if r.phase.Tailing? {
          TailTurn(r);
          if after.phase.Finished? { FirstTerminalIsOne(Shown(after.out), whole, Future(r)); }
        }
      case Silent(_) => if r.phase.Tailing? { SilentKeepsStep(r); }
      case Leave(_) => if Attached(r) { BoundedOutput(whole, events, r); }
      case _ =>
    }
  }

  lemma RangeIsBounded(whole: seq<Msg>, r: Reader, events: seq<Msg>)
    requires r.phase.Subscribed? && r.out == [] && r.replayed == {} && whole <= events
    ensures Bounded(whole, events, RangeNext(r, events))
  {
    var after := RangeNext(r, events);
    assert events[0..] == events && events[..0] == [];
    assert events <= Future(after);
  }

  lemma TurnLeavesPhase(r: Reader)
    requires r.phase.Replaying?
    ensures var phase := YieldNext(r).phase; phase.Replaying? || phase.Tailing? || phase.Finished?
  {
  }

  lemma SilentKeepsStep(r: Reader)
    requires InStep(r) && r.phase.Tailing?
    ensures InStep(SilentNext(r)) && Future(SilentNext(r)) == Future(r)
  {
    hide Fresh, Seqs;
    ShownAppend(r.out, Keepalive);
  }

  lemma DeliveryStaysBounded(whole: seq<Msg>, events: seq<Msg>, r: Reader, m: Msg)
    requires Bounded(whole, events, r)
    ensures Bounded(whole, events, DeliverTo(r, m))
  {
    hide Future, Shown, Seqs;
    if PastRange(r) {
      FutureAfterDelivery(r, m);
    }
  }

  lemma StepStaysEnded(s: State, a: Action, whole: seq<Msg>)
    requires Ended(s, whole)
    ensures Ended(Next(s, a), whole)
  {
    hide Bounded, ReaderNext, DeliverTo;
    var t := Next(s, a);
    StepGrowsEvents(s, a);
    NewcomerIsBounded(whole, t.events);
    forall r | r in t.readers
      ensures Bounded(whole, t.events, t.readers[r])
    {
      if r in s.readers {
        MoreEventsStayBounded(whole, s.events, t.events, s.readers[r]);
        TurnStaysBounded(whole, s.readers[r], a, s.events);
        if a.Step? && a.drainer in s.drainers && s.drainers[a.drainer].stage.Snapped? {
          DeliveryStaysBounded(whole, s.events, s.readers[r], s.drainers[a.drainer].stage.msg);
        }
      }
    }
  }

  lemma NewcomerIsBounded(whole: seq<Msg>, events: seq<Msg>)
    ensures Bounded(whole, events, JUST_SUBSCRIBED)
  {
  }

  lemma MoreEventsStayBounded(whole: seq<Msg>, events: seq<Msg>, later: seq<Msg>, r: Reader)
    requires Bounded(whole, events, r) && events <= later
    ensures Bounded(whole, later, r)
  {
    hide Future, Shown, InStep;
  }

  /** Once every reader is bound to stop at the first terminal event, nothing can keep it from that: not even
      overlapping drainers. */
  lemma {:induction false} RunStaysEnded(s: State, actions: seq<Action>, whole: seq<Msg>)
    requires Ended(s, whole)
    ensures Ended(Run(s, actions), whole) && Faithful(Run(s, actions))
    decreases |actions|
  {
    hide Ended, Next;
    if actions == [] {
      EndedIsFaithful(s, whole);
    } else {
      StepStaysEnded(s, actions[0], whole);
      RunStaysEnded(Next(s, actions[0]), actions[1..], whole);
    }
  }

  lemma EndedIsFaithful(s: State, whole: seq<Msg>)
    requires Ended(s, whole)
    ensures Faithful(s)
  {
    hide Bounded;
    forall r | r in s.readers
      ensures Shown(s.readers[r].out) <= s.events
    {
      BoundedOutput(whole, s.events, s.readers[r]);
    }
  }

  lemma {:induction false} FirstTerminal(msgs: seq<Msg>) returns (whole: seq<Msg>)
    requires !NoTerminal(msgs)
    ensures StopsAtFirstTerminal(whole, msgs)
  {
    var n := |msgs| - 1;
    assert msgs == msgs[..n] + [msgs[n]];
    if NoTerminal(msgs[..n]) {
      whole := msgs;
    } else {
      whole := FirstTerminal(msgs[..n]);
    }
  }

  lemma EarlierEndIsEnded(s: State) returns (whole: seq<Msg>)
    requires Inv(s) && EndedEarlier(s)
    ensures Ended(s, whole)
  {
    hide Future, Shown, InStep;
    var front := s.events[..|s.events| - 1];
    whole := FirstTerminal(front);
    forall r | r in s.readers
      ensures Bounded(whole, s.events, s.readers[r])
    {
      var reader := s.readers[r];
      assert ReaderOk(s.events, Pub(s), reader);
      if PastRange(reader) {
        OwedIsInStep(s, r);
        assert front <= Future(reader);
      } else if reader.phase.Finished? {
        FirstTerminalIsOne(Shown(reader.out), whole, s.events);
      }
    }
  }

  /** In a session whose drainers are all dead, starting a new drainer keeps every continuation faithful exactly
      when no reader is stranded, or all stop before they would notice. The event left behind may be of any kind, the
      job's terminal one included. */
  lemma RestartIsSafeExactlyWhenSettled(s0: State, before: seq<Action>, item: Item, task: nat)
    requires Init(s0) && SerialRun(s0, before)
    requires var s := Run(s0, before);
             && s.current.None? && task !in s.drainers
             && forall id :: id in s.drainers ==> Dead(s.drainers[id].stage)
    ensures var s := Run(s0, before); SafeRestart(s, item, task) <==> Settled(s) || EndedEarlier(s)
  {
    var s := Run(s0, before);
    InitInv(s0);
    RunKeepsInv(s0, before);
    if Settled(s) {
      EmitKeepsInv(s, item, task);
      forall actions | SerialRun(EmitNext(s, item, task), actions)
        ensures Faithful(Run(EmitNext(s, item, task), actions))
      {
        InvIsFaithful(EmitNext(s, item, task), actions);
      }
    } else if EndedEarlier(s) {
      var whole := EarlierEndIsEnded(s);
      forall actions | SerialRun(EmitNext(s, item, task), actions)
        ensures Faithful(Run(EmitNext(s, item, task), actions))
      {
        assert Ended(EmitNext(s, item, task), whole);
        RunStaysEnded(EmitNext(s, item, task), actions, whole);
      }
    } else {
      var r :| r in s.readers && Stranded(s, s.readers[r]);
      var actions := StrandedReaderLoses(s, r, item, task);
      assert !SafeRestart(s, item, task);
    }
  }

  lemma InvIsFaithful(s: State, actions: seq<Action>)
    requires Inv(s) && SerialRun(s, actions)
    ensures Faithful(Run(s, actions))
  {
    RunKeepsInv(s, actions);
    var t := Run(s, actions);
    forall r | r in t.readers
      ensures Shown(t.readers[r].out) <= t.events
    {
      OutputIsPrefix(t.events, Pub(t), t.readers[r]);
    }
  }
}
