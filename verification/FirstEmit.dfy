/** Racing first emits: `_get_or_create` with its check, lock, second check and registration taken as
    separate steps, so that calls may be suspended anywhere between them. No `close` takes part. */
module FirstEmit {
  import opened Options

  /** Where a call of `emit` is. */
  datatype Pc = Check | AwaitLock | Recheck | Create | Register(queue: nat) | Found(queue: nat) | Returned

  datatype Call = Call(session: string, pc: Pc)

  /** A queue together with the drainer task started for it, and the calls whose event was put on it. */
  datatype Queue = Queue(session: string, items: seq<nat>)

  datatype State = State(
    sessions: map<string, nat>,
    queues: seq<Queue>,
    lock: Option<nat>,
    calls: map<nat, Call>,
    puts: seq<nat>)

  datatype Action = Invoke(call: nat, session: string) | Advance(call: nat)

  const NO_CALLS := State(map[], [], None, map[], [])

  function At(s: State, call: nat, pc: Pc): State
    requires call in s.calls
  {
    s.(calls := s.calls[call := s.calls[call].(pc := pc)])
  }

  function Step(s: State, call: nat): State
    requires call in s.calls
  {
    var Call(session, pc) := s.calls[call];
    match pc
    case Check => if session in s.sessions then At(s, call, Found(s.sessions[session])) else At(s, call, AwaitLock)
    case AwaitLock => if s.lock.None? then At(s, call, Recheck).(lock := Some(call)) else s
    case Recheck =>
      if session in s.sessions then At(s, call, Found(s.sessions[session])).(lock := None) else At(s, call, Create)
    case Create => At(s, call, Register(|s.queues|)).(queues := s.queues + [Queue(session, [])])
    case Register(q) => At(s, call, Found(q)).(sessions := s.sessions[session := q], lock := None)
    case Found(q) =>
      if q < |s.queues| then
        At(s, call, Returned).(queues := s.queues[q := s.queues[q].(items := s.queues[q].items + [call])],
                               puts := s.puts + [call])
      else s
    case Returned => s
  }

  function Next(s: State, a: Action): State {
    match a
    case Invoke(call, session) =>
      if call in s.calls then s else s.(calls := s.calls[call := Call(session, Check)])
    case Advance(call) => if call in s.calls then Step(s, call) else s
  }

  function Run(s: State, actions: seq<Action>): State
    decreases |actions|
  {
    if actions == [] then s else Run(Next(s, actions[0]), actions[1..])
  }

  /** The calls for one session, in the order in which their events were put. */
  function PutsOf(calls: map<nat, Call>, puts: seq<nat>, session: string): seq<nat> {
    if puts == [] then []
    else
      var n := |puts| - 1;
      PutsOf(calls, puts[..n], session)
      + (if puts[n] in calls && calls[puts[n]].session == session then [puts[n]] else [])
  }

  predicate HoldsLock(pc: Pc) {
    pc.Recheck? || pc.Create? || pc.Register?
  }

  ghost predicate LockOk(s: State) {
    forall c :: c in s.calls ==> (HoldsLock(s.calls[c].pc) <==> s.lock == Some(c))
  }

  ghost predicate CallOk(s: State, call: Call) {
    match call.pc
    case Create => call.session !in s.sessions && (forall q :: 0 <= q < |s.queues| ==> s.queues[q].session != call.session)
    case Register(q) => call.session !in s.sessions && q == |s.queues| - 1 && s.queues[q] == Queue(call.session, [])
    case Found(q) => call.session in s.sessions && s.sessions[call.session] == q
    case _ => true
  }

  /** A queue is the one its session is registered with, or the newest one, about to be registered. */
  ghost predicate QueueOk(s: State, q: nat)
    requires q < |s.queues|
  {
    var session := s.queues[q].session;
    if session in s.sessions then s.sessions[session] == q
    else q == |s.queues| - 1 && s.lock.Some? && s.lock.value in s.calls
         && s.calls[s.lock.value] == Call(session, Register(q))
  }

  ghost predicate Inv(s: State) {
    && LockOk(s)
    && (s.lock.Some? ==> s.lock.value in s.calls)
    && (forall c :: c in s.calls ==> CallOk(s, s.calls[c]))
    && (forall session :: session in s.sessions ==>
          s.sessions[session] < |s.queues| && s.queues[s.sessions[session]].session == session)
    && (forall q :: 0 <= q < |s.queues| ==> QueueOk(s, q))
  }

  ghost predicate PutsOk(s: State) {
    && (forall c :: c in s.puts ==> c in s.calls && s.calls[c].session in s.sessions)
    && (forall q :: 0 <= q < |s.queues| ==> s.queues[q].items == PutsOf(s.calls, s.puts, s.queues[q].session))
  }

  lemma {:induction false} PutsOfNothing(calls: map<nat, Call>, puts: seq<nat>, session: string)
    requires forall c :: c in puts ==> c in calls && calls[c].session != session
    ensures PutsOf(calls, puts, session) == []
    decreases |puts|
  {
    if puts != [] {
      PutsOfNothing(calls, puts[..|puts| - 1], session);
    }
  }

  lemma {:induction false} PutsOfFrame(calls: map<nat, Call>, later: map<nat, Call>, puts: seq<nat>, session: string)
    requires forall c :: c in puts ==> c in calls && c in later && calls[c].session == later[c].session
    ensures PutsOf(calls, puts, session) == PutsOf(later, puts, session)
    decreases |puts|
  {
    if puts != [] {
      PutsOfFrame(calls, later, puts[..|puts| - 1], session);
    }
  }

  /** While one call holds the lock no other call is between its locked steps. */
  lemma LockIsExclusive(s: State, a: nat, b: nat)
    requires LockOk(s) && a in s.calls && b in s.calls && HoldsLock(s.calls[a].pc) && HoldsLock(s.calls[b].pc)
    ensures a == b
  {
  }

  lemma NoQueueYet(s: State, call: nat)
    requires Inv(s) && call in s.calls && s.calls[call].pc.Recheck?
    ensures s.calls[call].session !in s.sessions ==>
              forall q :: 0 <= q < |s.queues| ==> s.queues[q].session != s.calls[call].session
  {
    assert s.lock == Some(call);
    forall q | 0 <= q < |s.queues| && s.queues[q].session == s.calls[call].session
      ensures s.calls[call].session in s.sessions
    {
      assert QueueOk(s, q);
    }
  }

  lemma CallsStayOk(s: State, call: nat)
    requires Inv(s) && call in s.calls
    ensures var t := Step(s, call); forall c :: c in t.calls ==> CallOk(t, t.calls[c])
  {
    var t := Step(s, call);
    if s.calls[call].pc.Recheck? {
      NoQueueYet(s, call);
    }
    forall c | c in t.calls
      ensures CallOk(t, t.calls[c])
    {
      assert CallOk(s, s.calls[c]) && CallOk(s, s.calls[call]);
      if c != call && HoldsLock(s.calls[call].pc) && HoldsLock(s.calls[c].pc) {
        LockIsExclusive(s, c, call);
      }
    }
  }

  lemma QueuesStayOk(s: State, call: nat)
    requires Inv(s) && call in s.calls
    ensures var t := Step(s, call); forall q :: 0 <= q < |t.queues| ==> QueueOk(t, q)
  {
    var t := Step(s, call);
    assert CallOk(s, s.calls[call]);
    forall q | 0 <= q < |t.queues|
      ensures QueueOk(t, q)
    {
      if q < |s.queues| {
        assert QueueOk(s, q);
      }
    }
  }

  lemma StepKeepsInv(s: State, call: nat)
    requires Inv(s) && call in s.calls
    ensures Inv(Step(s, call))
  {
    CallsStayOk(s, call);
    QueuesStayOk(s, call);
    assert CallOk(s, s.calls[call]);
  }

  lemma InvokeKeepsInv(s: State, call: nat, session: string)
    requires Inv(s)
    ensures Inv(Next(s, Invoke(call, session)))
  {
    var t := Next(s, Invoke(call, session));
    forall q | 0 <= q < |t.queues|
      ensures QueueOk(t, q)
    {
      assert QueueOk(s, q);
    }
  }

  lemma SessionsOnlyGrow(s: State, call: nat)
    requires Inv(s) && call in s.calls
    ensures forall session :: session in s.sessions ==> session in Step(s, call).sessions
    ensures forall c :: c in s.calls ==> c in Step(s, call).calls && Step(s, call).calls[c].session == s.calls[c].session
  {
  }

  lemma StepKeepsPuts(s: State, call: nat)
    requires Inv(s) && PutsOk(s) && call in s.calls
    ensures PutsOk(Step(s, call))
  {
    var t := Step(s, call);
    SessionsOnlyGrow(s, call);
    assert CallOk(s, s.calls[call]);
    forall session: string
      ensures PutsOf(s.calls, s.puts, session) == PutsOf(t.calls, s.puts, session)
    {
      PutsOfFrame(s.calls, t.calls, s.puts, session);
    }
    if s.calls[call].pc.Found? {
      PutLands(s, call);
    } else if s.calls[call].pc.Create? {
      PutsOfNothing(s.calls, s.puts, s.calls[call].session);
    }
  }

  lemma PutLands(s: State, call: nat)
    requires Inv(s) && PutsOk(s) && call in s.calls && s.calls[call].pc.Found?
    ensures PutsOk(Step(s, call))
  {
    var t, mine := Step(s, call), s.calls[call].pc.queue;
    SessionsOnlyGrow(s, call);
    assert CallOk(s, s.calls[call]);
    assert t.puts[..|t.puts| - 1] == s.puts;
    forall q | 0 <= q < |t.queues|
      ensures t.queues[q].items == PutsOf(t.calls, t.puts, t.queues[q].session)
    {
      PutsOfFrame(s.calls, t.calls, s.puts, s.queues[q].session);
      assert QueueOk(s, q);
    }
  }

  lemma InvokeKeepsPuts(s: State, call: nat, session: string)
    requires PutsOk(s)
    ensures PutsOk(Next(s, Invoke(call, session)))
  {
    forall any: string {
      PutsOfFrame(s.calls, Next(s, Invoke(call, session)).calls, s.puts, any);
    }
  }

  lemma {:induction false} RunKeepsInv(s: State, actions: seq<Action>)
    requires Inv(s) && PutsOk(s)
    ensures Inv(Run(s, actions)) && PutsOk(Run(s, actions))
    decreases |actions|
  {
    hide Inv, PutsOk, Step;
    if actions != [] {
      match actions[0] {
        case Invoke(call, session) =>
          InvokeKeepsInv(s, call, session);
          InvokeKeepsPuts(s, call, session);
        case Advance(call) =>
          if call in s.calls {
            StepKeepsInv(s, call);
            StepKeepsPuts(s, call);
          }
      }
      RunKeepsInv(Next(s, actions[0]), actions[1..]);
    }
  }

  /** For every interleaving there is at most one queue (and drainer) per session, every put has landed on the
      one its session is registered with, and that queue holds the session's puts in order: the outcome of
      emits that run one after the other. */
  lemma OneDrainerPerSession(actions: seq<Action>)
    ensures var s := Run(NO_CALLS, actions);
            && (forall p, q :: 0 <= p < |s.queues| && 0 <= q < |s.queues| && s.queues[p].session == s.queues[q].session
                  ==> p == q)
            && (forall c :: c in s.puts ==>
                  && c in s.calls && s.calls[c].session in s.sessions
                  && var q := s.sessions[s.calls[c].session];
                     q < |s.queues| && s.queues[q].session == s.calls[c].session
                     && s.queues[q].items == PutsOf(s.calls, s.puts, s.calls[c].session))
  {
    RunKeepsInv(NO_CALLS, actions);
    var s := Run(NO_CALLS, actions);
    forall p, q | 0 <= p < |s.queues| && 0 <= q < |s.queues| && s.queues[p].session == s.queues[q].session
      ensures p == q
    {
      assert QueueOk(s, p) && QueueOk(s, q);
    }
  }

  /** A call that has returned has put its event. */
  lemma {:induction false} ReturnedHasPut(s: State, actions: seq<Action>, call: nat)
    requires forall c :: c in s.calls && s.calls[c].pc.Returned? ==> c in s.puts
    ensures var t := Run(s, actions); call in t.calls && t.calls[call].pc.Returned? ==> call in t.puts
    decreases |actions|
  {
    if actions != [] {
      ReturnedHasPut(Next(s, actions[0]), actions[1..], call);
    }
  }

  // ---------------------------------------------------------------------------
  // Without the second check
  // ---------------------------------------------------------------------------

  /** `_get_or_create` without the check inside the lock. */
  function UncheckedStep(s: State, call: nat): State
    requires call in s.calls
  {
    if s.calls[call].pc.Recheck? then At(s, call, Create) else Step(s, call)
  }

  /** Six steps take a call through, and a call that is through does no more. */
  function Repeat(s: State, call: nat, checked: bool, n: nat): State
    requires call in s.calls
    decreases n
  {
    if n == 0 then s
    else
      var t := if checked then Step(s, call) else UncheckedStep(s, call);
      KeepsCall(s, call);
      Repeat(t, call, checked, n - 1)
  }

  lemma KeepsCall(s: State, call: nat)
    requires call in s.calls
    ensures call in Step(s, call).calls && call in UncheckedStep(s, call).calls
  {
  }

  /** As the event loop runs it: taking a free lock does not suspend, and neither does anything else on the way. */
  function Go(s: State, a: Action, checked: bool): State {
    match a
    case Invoke(_, _) => Next(s, a)
    case Advance(call) => if call in s.calls then Repeat(s, call, checked, 6) else s
  }

  function GoRun(s: State, actions: seq<Action>, checked: bool): State
    decreases |actions|
  {
    if actions == [] then s else GoRun(Go(s, actions[0], checked), actions[1..], checked)
  }

  /** Between two turns of the event loop no call is on its way. */
  ghost predicate BetweenTurns(s: State) {
    && Inv(s) && s.lock.None?
    && forall c :: c in s.calls ==> s.calls[c].pc.Check? || s.calls[c].pc.Returned?
  }

  lemma GoesThrough(s: State, call: nat)
    requires BetweenTurns(s) && call in s.calls
    ensures Repeat(s, call, true, 6) == Repeat(s, call, false, 6)
    ensures var t := Repeat(s, call, true, 6); BetweenTurns(t) && call in t.calls && t.calls[call].pc.Returned?
  {
    hide Inv, Repeat;
    if s.calls[call].pc.Returned? {
      StaysReturned(s, call, 6);
    } else if s.calls[call].session in s.sessions {
      GoesToKnown(s, call);
    } else {
      GoesToNew(s, call);
    }
  }

  lemma {:induction false} StaysReturned(s: State, call: nat, n: nat)
    requires call in s.calls && s.calls[call].pc.Returned?
    ensures Repeat(s, call, true, n) == s == Repeat(s, call, false, n)
    decreases n
  {
    if n > 0 {
      StaysReturned(s, call, n - 1);
    }
  }

  lemma GoesToKnown(s: State, call: nat)
    requires BetweenTurns(s) && call in s.calls && s.calls[call].pc.Check? && s.calls[call].session in s.sessions
    ensures Repeat(s, call, true, 6) == Repeat(s, call, false, 6)
    ensures var t := Repeat(s, call, true, 6); BetweenTurns(t) && call in t.calls && t.calls[call].pc.Returned?
  {
    hide Inv;
    var s1 := Step(s, call);
    var s2 := Step(s1, call);
    StepKeepsInv(s, call);
    StepKeepsInv(s1, call);
    FoundIsAQueue(s1, call);
    StaysReturned(s2, call, 4);
  }

  /** `call` is at `pc`, and the other calls are as they were. */
  ghost predicate Moved(s: State, call: nat, t: State, pc: Pc) {
    && call in s.calls && t.calls == s.calls[call := s.calls[call].(pc := pc)]
  }

  lemma Unfold(s: State, call: nat, n: nat)
    requires call in s.calls && Step(s, call) == UncheckedStep(s, call) && n > 0
    ensures call in Step(s, call).calls
    ensures forall b :: Repeat(s, call, b, n) == Repeat(Step(s, call), call, b, n - 1)
  {
    hide Step, UncheckedStep;
    KeepsCall(s, call);
  }

  lemma TwoSteps(s: State, call: nat)
    requires call in s.calls && s.calls[call].pc.Check? && s.calls[call].session !in s.sessions && s.lock.None?
    ensures var t := Step(Step(s, call), call);
            && Moved(s, call, t, Recheck) && t.lock == Some(call) && t.sessions == s.sessions
            && Repeat(s, call, true, 6) == Repeat(t, call, true, 4) && Repeat(s, call, false, 6) == Repeat(t, call, false, 4)
  {
    hide Repeat;
    Unfold(s, call, 6);
    Unfold(Step(s, call), call, 5);
  }

  lemma CreateIsNext(s: State, call: nat)
    requires call in s.calls && s.calls[call].pc.Recheck? && s.calls[call].session !in s.sessions
    ensures Step(s, call) == At(s, call, Create) == UncheckedStep(s, call)
  {
  }

  lemma RegisterIsNext(s: State, call: nat)
    requires call in s.calls && s.calls[call].pc.Create?
    ensures var t := Step(s, call); t == UncheckedStep(s, call) && Moved(s, call, t, Register(|s.queues|))
  {
  }

  lemma FoundIsNext(s: State, call: nat)
    requires call in s.calls && s.calls[call].pc.Register?
    ensures var t := Step(s, call);
            t == UncheckedStep(s, call) && Moved(s, call, t, Found(s.calls[call].pc.queue)) && t.lock.None?
  {
  }

  lemma ThreeMore(s: State, call: nat)
    requires call in s.calls && s.calls[call].pc.Recheck? && s.calls[call].session !in s.sessions
    ensures call in Step(s, call).calls && call in Step(Step(s, call), call).calls
    ensures var t := Step(Step(Step(s, call), call), call);
            && Moved(s, call, t, Found(|s.queues|)) && t.lock.None?
            && Repeat(s, call, true, 4) == Repeat(t, call, true, 1) && Repeat(s, call, false, 4) == Repeat(t, call, false, 1)
  {
    hide Repeat, Step, UncheckedStep;
    CreateIsNext(s, call);
    Unfold(s, call, 4);
    var s1 := Step(s, call);
    RegisterIsNext(s1, call);
    Unfold(s1, call, 3);
    var s2 := Step(s1, call);
    FoundIsNext(s2, call);
    Unfold(s2, call, 2);
  }

  lemma GoesToNew(s: State, call: nat)
    requires BetweenTurns(s) && call in s.calls && s.calls[call].pc.Check? && s.calls[call].session !in s.sessions
    ensures Repeat(s, call, true, 6) == Repeat(s, call, false, 6)
    ensures var t := Repeat(s, call, true, 6); BetweenTurns(t) && call in t.calls && t.calls[call].pc.Returned?
  {
    hide Inv, Repeat, Step;
    var s1 := Step(s, call);
    KeepsCall(s, call);
    var s2 := Step(s1, call);
    TwoSteps(s, call);
    var s3 := Step(s2, call);
    KeepsCall(s2, call);
    var s4 := Step(s3, call);
    KeepsCall(s3, call);
    var s5 := Step(s4, call);
    ThreeMore(s2, call);
    StepKeepsInv(s, call);
    StepKeepsInv(s1, call);
    StepKeepsInv(s2, call);
    StepKeepsInv(s3, call);
    StepKeepsInv(s4, call);
    FoundIsAQueue(s5, call);
    StepKeepsInv(s5, call);
    Returns(s5, call);
  }

  lemma Returns(s: State, call: nat)
    requires call in s.calls && s.calls[call].pc.Found? && s.calls[call].pc.queue < |s.queues|
    ensures Moved(s, call, Step(s, call), Returned) && Step(s, call).lock == s.lock
    ensures Repeat(s, call, true, 1) == Step(s, call) == Repeat(s, call, false, 1)
  {
    Unfold(s, call, 1);
  }

  lemma FoundIsAQueue(s: State, call: nat)
    requires Inv(s) && call in s.calls && s.calls[call].pc.Found?
    ensures s.calls[call].pc.queue < |s.queues|
  {
    assert CallOk(s, s.calls[call]);
  }

  /** Under the event loop's scheduling every emit goes through without waiting for the lock, and the check inside the
      lock never finds a session: dropping it would change nothing. */
  lemma {:induction false} NeverFoundInTheLock(s: State, actions: seq<Action>)
    requires BetweenTurns(s)
    ensures GoRun(s, actions, true) == GoRun(s, actions, false)
    ensures BetweenTurns(GoRun(s, actions, true))
    decreases |actions|
  {
    hide Inv, Step, Repeat;
    if actions != [] {
      match actions[0] {
        case Invoke(call, session) => InvokeKeepsInv(s, call, session);
        case Advance(call) => if call in s.calls { GoesThrough(s, call); }
      }
      NeverFoundInTheLock(Go(s, actions[0], true), actions[1..]);
    }
  }

  function UncheckedRun(s: State, calls: seq<nat>): State
    decreases |calls|
  {
    if calls == [] then s
    else UncheckedRun(if calls[0] in s.calls then UncheckedStep(s, calls[0]) else s, calls[1..])
  }

  /** Were a call to be stopped between the first check and the lock, as a preemptive scheduler would, two first emits
      could both fail the first check, and without the second one start two drainers for one session. */
  lemma SecondCheckIsNeeded(session: string)
    ensures var s0 := NO_CALLS.(calls := map[0 := Call(session, Check), 1 := Call(session, Check)]);
            var s := UncheckedRun(s0, [0, 1, 0, 0, 0, 0, 1, 1, 1]);
            |s.queues| == 2 && s.queues[0].session == s.queues[1].session == session
  {
    var s0 := NO_CALLS.(calls := map[0 := Call(session, Check), 1 := Call(session, Check)]);
    var s1 := UncheckedStep(s0, 0);
    var s2 := UncheckedStep(s1, 1);
    var s3 := UncheckedStep(s2, 0);
    var s4 := UncheckedStep(s3, 0);
    var s5 := UncheckedStep(s4, 0);
    var s6 := UncheckedStep(s5, 0);
    var s7 := UncheckedStep(s6, 1);
    var s8 := UncheckedStep(s7, 1);
    var s9 := UncheckedStep(s8, 1);
    assert s9.queues == [Queue(session, []), Queue(session, [])];
    assert UncheckedRun(s6, [1, 1, 1]) == s9;
    assert UncheckedRun(s3, [0, 0, 0, 1, 1, 1]) == UncheckedRun(s6, [1, 1, 1]) by {
      assert [0, 0, 0, 1, 1, 1][1..][1..][1..] == [1, 1, 1];
    }
    assert [0, 1, 0, 0, 0, 0, 1, 1, 1][1..][1..][1..] == [0, 0, 0, 1, 1, 1];
  }
}
