/** The idempotency lock: SET NX EX, never released, under any number of workers, redeliveries and retries. */
module JobLock {

  /** In seconds: the lock's time to live, and the longest a delivery may take from the SET to entering the
      pipeline, in the pipeline (`task_hard_timeout_seconds`), and waiting for the drainer in `close`. */
  datatype Limits = Limits(ttl: nat, start: nat, hard: nat, close: nat) {
    function Longest(): nat {
      start + hard + close
    }
  }

  /** The settings' defaults, and the limit of `close`. */
  function DefaultLimits(start: nat): Limits {
    Limits(600, start, 120, 5)
  }

  datatype Phase = Locked | Running | Closing

  /** A delivery that took the lock, until `run_job` returns. */
  datatype Body = Body(session: string, taken: nat, phase: Phase, since: nat)

  datatype Acquisition = Acquisition(session: string, time: nat)

  datatype State = State(now: nat, expiry: map<string, nat>, bodies: map<nat, Body>, log: seq<Acquisition>)

  const IDLE := State(0, map[], map[], [])

  datatype Action = Tick | Deliver(delivery: nat, session: string) | Enter(delivery: nat)
                  | Leave(delivery: nat) | Return(delivery: nat) | Kill(delivery: nat)

  function Limit(l: Limits, phase: Phase): nat {
    match phase case Locked => l.start case Running => l.hard case Closing => l.close
  }

  /** A lock that has not expired yet: SET NX fails. */
  predicate Held(s: State, session: string) {
    session in s.expiry && s.now < s.expiry[session]
  }

  function Next(l: Limits, s: State, a: Action): State {
    match a
    case Tick => s.(now := s.now + 1)
    case Deliver(d, session) =>
      if Held(s, session) || d in s.bodies then s
      else s.(expiry := s.expiry[session := s.now + l.ttl],
              bodies := s.bodies[d := Body(session, s.now, Locked, s.now)],
              log := s.log + [Acquisition(session, s.now)])
    case Enter(d) =>
      if d in s.bodies && s.bodies[d].phase.Locked?
      then s.(bodies := s.bodies[d := s.bodies[d].(phase := Running, since := s.now)]) else s
    case Leave(d) =>
      if d in s.bodies && s.bodies[d].phase.Running?
      then s.(bodies := s.bodies[d := s.bodies[d].(phase := Closing, since := s.now)]) else s
    case Return(d) => if d in s.bodies && s.bodies[d].phase.Closing? then s.(bodies := s.bodies - {d}) else s
    case Kill(d) => s.(bodies := s.bodies - {d})
  }

  function Run(l: Limits, s: State, actions: seq<Action>): State
    decreases |actions|
  {
    if actions == [] then s else Run(l, Next(l, s, actions[0]), actions[1..])
  }

  /** Time does not pass a limit: timeouts fire and cancellation is prompt. */
  predicate Prompt(l: Limits, s: State, a: Action) {
    a.Tick? ==> forall d :: d in s.bodies ==> s.now < s.bodies[d].since + Limit(l, s.bodies[d].phase)
  }

  predicate PromptRun(l: Limits, s: State, actions: seq<Action>)
    decreases |actions|
  {
    actions != [] ==> Prompt(l, s, actions[0]) && PromptRun(l, Next(l, s, actions[0]), actions[1..])
  }

  ghost predicate AtMostOneBody(s: State) {
    forall d, e :: d in s.bodies && e in s.bodies && s.bodies[d].session == s.bodies[e].session ==> d == e
  }

  /** Two acquisitions for one session are at least the time to live apart. */
  ghost predicate Apart(l: Limits, log: seq<Acquisition>) {
    forall i, j :: 0 <= i < j < |log| && log[i].session == log[j].session ==> log[i].time + l.ttl <= log[j].time
  }

  function Spent(l: Limits, phase: Phase): nat {
    match phase case Locked => 0 case Running => l.start case Closing => l.start + l.hard
  }

  ghost predicate LogOk(l: Limits, s: State) {
    && Apart(l, s.log)
    && (forall i :: 0 <= i < |s.log| ==>
          s.log[i].session in s.expiry && s.log[i].time + l.ttl <= s.expiry[s.log[i].session])
  }

  ghost predicate BodyOk(l: Limits, s: State, b: Body) {
    && b.since <= b.taken + Spent(l, b.phase) && b.since <= s.now <= b.since + Limit(l, b.phase)
    && b.session in s.expiry && b.taken + l.ttl <= s.expiry[b.session]
  }

  ghost predicate BodiesOk(l: Limits, s: State) {
    forall d :: d in s.bodies ==> BodyOk(l, s, s.bodies[d])
  }

  lemma StepKeepsLog(l: Limits, s: State, a: Action)
    requires LogOk(l, s)
    ensures LogOk(l, Next(l, s, a))
  {
  }

  lemma {:induction false} LogStaysOk(l: Limits, s: State, actions: seq<Action>)
    requires LogOk(l, s)
    ensures LogOk(l, Run(l, s, actions))
    decreases |actions|
  {
    hide LogOk, Next;
    if actions != [] {
      StepKeepsLog(l, s, actions[0]);
      LogStaysOk(l, Next(l, s, actions[0]), actions[1..]);
    }
  }

  /** Whatever the workers do and however often a message is redelivered. */
  lemma AcquisitionsApart(l: Limits, actions: seq<Action>)
    ensures Apart(l, Run(l, IDLE, actions).log)
  {
    assert LogOk(l, IDLE);
    LogStaysOk(l, IDLE, actions);
  }

  // ---------------------------------------------------------------------------
  // When a delivery gets the lock
  // ---------------------------------------------------------------------------

  /** Every expiry is that of a logged acquisition of its own session. */
  ghost predicate ExpiryOk(l: Limits, s: State) {
    forall session :: session in s.expiry ==>
      exists i :: 0 <= i < |s.log| && Sets(l, s.log[i], session, s.expiry[session])
  }

  predicate Sets(l: Limits, a: Acquisition, session: string, expiry: nat) {
    a.session == session && a.time + l.ttl == expiry
  }

  /** No logged acquisition of the session is younger than the time to live. */
  ghost predicate AllExpired(l: Limits, s: State, session: string) {
    forall i :: 0 <= i < |s.log| && s.log[i].session == session ==> s.log[i].time + l.ttl <= s.now
  }

  lemma StepKeepsExpiry(l: Limits, s: State, a: Action)
    requires ExpiryOk(l, s)
    ensures ExpiryOk(l, Next(l, s, a))
  {
    var t := Next(l, s, a);
    forall session | session in t.expiry
      ensures exists i :: 0 <= i < |t.log| && Sets(l, t.log[i], session, t.expiry[session])
    {
      if t.log != s.log && session == a.session {
        assert Sets(l, t.log[|s.log|], session, t.expiry[session]);
      } else {
        var i :| 0 <= i < |s.log| && Sets(l, s.log[i], session, s.expiry[session]);
        assert t.log[i] == s.log[i];
      }
    }
  }

  lemma {:induction false} ExpiryStaysOk(l: Limits, s: State, actions: seq<Action>)
    requires ExpiryOk(l, s)
    ensures ExpiryOk(l, Run(l, s, actions))
    decreases |actions|
  {
    hide Next, ExpiryOk;
    if actions != [] {
      StepKeepsExpiry(l, s, actions[0]);
      ExpiryStaysOk(l, Next(l, s, actions[0]), actions[1..]);
    }
  }

  lemma HeldMeansYoung(l: Limits, s: State, session: string)
    requires LogOk(l, s) && ExpiryOk(l, s)
    ensures Held(s, session) <==> !AllExpired(l, s, session)
  {
    hide Apart;
    if Held(s, session) {
      hide LogOk;
      var i :| 0 <= i < |s.log| && Sets(l, s.log[i], session, s.expiry[session]);
      assert s.log[i].session == session && s.log[i].time + l.ttl > s.now;
    } else {
      hide ExpiryOk;
      forall i | 0 <= i < |s.log| && s.log[i].session == session
        ensures s.log[i].time + l.ttl <= s.now
      {
        assert s.log[i].session in s.expiry && s.log[i].time + l.ttl <= s.expiry[s.log[i].session];
      }
    }
  }

  /** SET NX EX, read off the log: a new delivery takes its session's lock if and only if every acquisition of that
      session is at least the time to live old; otherwise it changes nothing. */
  lemma TakenExactlyWhenExpired(l: Limits, actions: seq<Action>, d: nat, session: string)
    requires d !in Run(l, IDLE, actions).bodies
    ensures var s := Run(l, IDLE, actions);
            var t := Next(l, s, Deliver(d, session));
            && (AllExpired(l, s, session) ==>
                  && t.log == s.log + [Acquisition(session, s.now)]
                  && t.bodies == s.bodies[d := Body(session, s.now, Locked, s.now)] && t.now == s.now)
            && (!AllExpired(l, s, session) ==> t == s)
  {
    hide LogOk, ExpiryOk, AllExpired;
    assert LogOk(l, IDLE) && ExpiryOk(l, IDLE) by { IdleIsOk(l); }
    LogStaysOk(l, IDLE, actions);
    ExpiryStaysOk(l, IDLE, actions);
    HeldMeansYoung(l, Run(l, IDLE, actions), session);
  }

  lemma IdleIsOk(l: Limits)
    ensures LogOk(l, IDLE) && ExpiryOk(l, IDLE)
  {
  }

  // ---------------------------------------------------------------------------
  // One session's lock does not notice the others
  // ---------------------------------------------------------------------------

  function LogOf(log: seq<Acquisition>, session: string): seq<Acquisition> {
    if log == [] then []
    else
      var n := |log| - 1;
      LogOf(log[..n], session) + (if log[n].session == session then [log[n]] else [])
  }

  function OnlyExpiry(expiry: map<string, nat>, session: string): map<string, nat> {
    map x | x in expiry && x == session :: expiry[x]
  }

  function OnlyBodies(bodies: map<nat, Body>, session: string): map<nat, Body> {
    map d | d in bodies && bodies[d].session == session :: bodies[d]
  }

  /** One session's share of the state. */
  function Only(s: State, session: string): State {
    State(s.now, OnlyExpiry(s.expiry, session), OnlyBodies(s.bodies, session), LogOf(s.log, session))
  }

  /** The deliveries of other sessions removed. */
  function Without(actions: seq<Action>, session: string): seq<Action> {
    if actions == [] then []
    else (if actions[0].Deliver? && actions[0].session != session then [] else [actions[0]]) + Without(actions[1..], session)
  }

  /** A delivery's id belongs to one session. */
  ghost predicate OwnIds(actions: seq<Action>, owner: nat -> string) {
    forall a :: a in actions && a.Deliver? ==> a.session == owner(a.delivery)
  }

  ghost predicate BodiesOwned(s: State, owner: nat -> string) {
    forall d :: d in s.bodies ==> s.bodies[d].session == owner(d)
  }

  lemma ExpiryUpdate(expiry: map<string, nat>, key: string, value: nat, session: string)
    ensures OnlyExpiry(expiry[key := value], session)
         == if key == session then OnlyExpiry(expiry, session)[key := value] else OnlyExpiry(expiry, session)
  {
  }

  lemma BodyUpdate(bodies: map<nat, Body>, d: nat, b: Body, session: string)
    requires d in bodies ==> bodies[d].session == b.session
    ensures OnlyBodies(bodies[d := b], session)
         == if b.session == session then OnlyBodies(bodies, session)[d := b] else OnlyBodies(bodies, session)
  {
  }

  lemma BodyRemove(bodies: map<nat, Body>, d: nat, session: string)
    ensures OnlyBodies(bodies - {d}, session) == OnlyBodies(bodies, session) - {d}
  {
  }

  lemma BodyLookup(bodies: map<nat, Body>, d: nat, session: string)
    ensures d in OnlyBodies(bodies, session) <==> d in bodies && bodies[d].session == session
    ensures d in OnlyBodies(bodies, session) ==> OnlyBodies(bodies, session)[d] == bodies[d]
  {
  }

  lemma LogUpdate(log: seq<Acquisition>, a: Acquisition, session: string)
    ensures LogOf(log + [a], session) == LogOf(log, session) + (if a.session == session then [a] else [])
  {
    assert (log + [a])[..|log|] == log;
  }

  lemma HeldAlone(s: State, session: string)
    ensures Held(Only(s, session), session) <==> Held(s, session)
  {
  }

  lemma DeliverIsolates(l: Limits, s: State, d: nat, target: string, session: string)
    requires d in s.bodies ==> s.bodies[d].session == target
    ensures Only(Next(l, s, Deliver(d, target)), session)
         == if target == session then Next(l, Only(s, session), Deliver(d, target)) else Only(s, session)
  {
    hide OnlyExpiry, OnlyBodies, LogOf, Held;
    HeldAlone(s, session);
    BodyLookup(s.bodies, d, session);
    ExpiryUpdate(s.expiry, target, s.now + l.ttl, session);
    BodyUpdate(s.bodies, d, Body(target, s.now, Locked, s.now), session);
    LogUpdate(s.log, Acquisition(target, s.now), session);
  }

  lemma OtherIsolates(l: Limits, s: State, a: Action, session: string)
    requires !a.Deliver?
    ensures Only(Next(l, s, a), session) == Next(l, Only(s, session), a)
  {
    hide OnlyExpiry, OnlyBodies, LogOf;
    if !a.Tick? {
      var d := a.delivery;
      BodyLookup(s.bodies, d, session);
      BodyRemove(s.bodies, d, session);
      NotThere(s.bodies, d, session);
      if d in s.bodies {
        BodyUpdate(s.bodies, d, s.bodies[d].(phase := Running, since := s.now), session);
        BodyUpdate(s.bodies, d, s.bodies[d].(phase := Closing, since := s.now), session);
      }
    }
  }

  lemma NotThere(bodies: map<nat, Body>, d: nat, session: string)
    ensures d !in OnlyBodies(bodies, session) ==> OnlyBodies(bodies, session) - {d} == OnlyBodies(bodies, session)
  {
  }

  lemma StepKeepsOwners(l: Limits, s: State, a: Action, owner: nat -> string)
    requires BodiesOwned(s, owner) && (a.Deliver? ==> a.session == owner(a.delivery))
    ensures BodiesOwned(Next(l, s, a), owner)
  {
  }

  /** Isolation of the lock: expiry, deliveries and acquisitions of one session are those of the run from which the
      deliveries of all other sessions have been removed. */
  lemma {:induction false} LockIsolation(l: Limits, s: State, actions: seq<Action>, session: string, owner: nat -> string)
    requires OwnIds(actions, owner) && BodiesOwned(s, owner)
    ensures Only(Run(l, s, actions), session) == Run(l, Only(s, session), Without(actions, session))
    decreases |actions|
  {
    hide Only, Next;
    if actions != [] {
      assert actions[0] in actions && forall a :: a in actions[1..] ==> a in actions;
      StepKeepsOwners(l, s, actions[0], owner);
      if actions[0].Deliver? {
        DeliverIsolates(l, s, actions[0].delivery, actions[0].session, session);
      } else {
        OtherIsolates(l, s, actions[0], session);
      }
      LockIsolation(l, Next(l, s, actions[0]), actions[1..], session, owner);
      var rest := Without(actions[1..], session);
      if actions[0].Deliver? && actions[0].session != session {
        assert [] + rest == rest;
      } else {
        assert ([actions[0]] + rest)[1..] == rest;
      }
    }
  }

  /** A delivery that got the lock goes through its phases and is gone; the lock stays until it expires. */
  lemma DeliveryRunsItsCourse(l: Limits, s: State, d: nat, session: string)
    requires d !in s.bodies && !Held(s, session)
    ensures var t := Run(l, s, [Deliver(d, session), Enter(d), Leave(d), Return(d)]);
            && t == s.(expiry := s.expiry[session := s.now + l.ttl], log := s.log + [Acquisition(session, s.now)])
            && Next(l, Next(l, s, Deliver(d, session)), Kill(d)) == t
  {
    var s1 := Next(l, s, Deliver(d, session));
    var s2 := Next(l, s1, Enter(d));
    var s3 := Next(l, s2, Leave(d));
    var s4 := Next(l, s3, Return(d));
    assert [Deliver(d, session), Enter(d), Leave(d), Return(d)][1..] == [Enter(d), Leave(d), Return(d)];
    assert [Enter(d), Leave(d), Return(d)][1..] == [Leave(d), Return(d)];
    assert [Leave(d), Return(d)][1..] == [Return(d)] && [Return(d)][1..] == [];
    assert Run(l, s3, [Return(d)]) == Run(l, s4, []) == s4;
    assert Run(l, s2, [Leave(d), Return(d)]) == s4;
    assert Run(l, s1, [Enter(d), Leave(d), Return(d)]) == s4;
    assert s4.bodies == s.bodies;
    assert Next(l, s1, Kill(d)).bodies == s.bodies;
  }

  // ---------------------------------------------------------------------------
  // How many bodies
  // ---------------------------------------------------------------------------

  lemma StepKeepsBodies(l: Limits, s: State, a: Action)
    requires BodiesOk(l, s) && Prompt(l, s, a)
    ensures BodiesOk(l, Next(l, s, a))
  {
    forall d | d in Next(l, s, a).bodies
      ensures BodyOk(l, Next(l, s, a), Next(l, s, a).bodies[d])
    {
      if d in s.bodies {
        assert BodyOk(l, s, s.bodies[d]);
      }
    }
  }

  lemma StepKeepsOne(l: Limits, s: State, a: Action)
    requires l.Longest() < l.ttl && BodiesOk(l, s) && AtMostOneBody(s)
    ensures AtMostOneBody(Next(l, s, a))
  {
    if a.Deliver? && !Held(s, a.session) {
      forall d | d in s.bodies
        ensures s.bodies[d].session != a.session
      {
        assert BodyOk(l, s, s.bodies[d]);
      }
    }
  }

  lemma {:induction false} OneBody(l: Limits, s: State, actions: seq<Action>)
    requires l.Longest() < l.ttl && BodiesOk(l, s) && AtMostOneBody(s) && PromptRun(l, s, actions)
    ensures AtMostOneBody(Run(l, s, actions))
    decreases |actions|
  {
    if actions != [] {
      StepKeepsBodies(l, s, actions[0]);
      StepKeepsOne(l, s, actions[0]);
      OneBody(l, Next(l, s, actions[0]), actions[1..]);
    }
  }

  lemma {:induction false} BodiesStayOk(l: Limits, s: State, actions: seq<Action>)
    requires BodiesOk(l, s) && PromptRun(l, s, actions)
    ensures BodiesOk(l, Run(l, s, actions))
    decreases |actions|
  {
    hide BodiesOk, Next, Prompt;
    if actions != [] {
      StepKeepsBodies(l, s, actions[0]);
      BodiesStayOk(l, Next(l, s, actions[0]), actions[1..]);
    }
  }

  /** Where a delivery can be, by the time since it took the lock. */
  lemma PhasesAreTimed(l: Limits, actions: seq<Action>, d: nat)
    requires PromptRun(l, IDLE, actions) && d in Run(l, IDLE, actions).bodies
    ensures var s := Run(l, IDLE, actions);
            s.now <= s.bodies[d].taken + match s.bodies[d].phase {
              case Locked => l.start
              case Running => l.start + l.hard
              case Closing => l.start + l.hard + l.close
            }
  {
    assert BodiesOk(l, IDLE);
    BodiesStayOk(l, IDLE, actions);
    assert BodyOk(l, Run(l, IDLE, actions), Run(l, IDLE, actions).bodies[d]);
  }

  // ---------------------------------------------------------------------------
  // Exactly when the timed lock excludes
  // ---------------------------------------------------------------------------

  function Ticks(n: nat): seq<Action> {
    if n == 0 then [] else [Tick] + Ticks(n - 1)
  }

  lemma {:induction false} RunConcat(l: Limits, s: State, a: seq<Action>, b: seq<Action>)
    ensures Run(l, s, a + b) == Run(l, Run(l, s, a), b)
    ensures PromptRun(l, s, a + b) <==> PromptRun(l, s, a) && PromptRun(l, Run(l, s, a), b)
    decreases |a|
  {
    if a == [] {
      assert a + b == b;
    } else {
      RunConcat(l, Next(l, s, a[0]), a[1..], b);
      assert (a + b)[1..] == a[1..] + b;
    }
  }

  lemma {:induction false} TicksWait(l: Limits, s: State, n: nat)
    requires forall d :: d in s.bodies ==> s.now + n <= s.bodies[d].since + Limit(l, s.bodies[d].phase)
    ensures PromptRun(l, s, Ticks(n)) && Run(l, s, Ticks(n)) == s.(now := s.now + n)
    decreases n
  {
    if n > 0 {
      assert Ticks(n)[1..] == Ticks(n - 1);
      TicksWait(l, s.(now := s.now + 1), n - 1);
    }
  }

  function Min(a: nat, b: nat): nat {
    if a <= b then a else b
  }

  /** Wait in one phase, then take one action. */
  lemma WaitThen(l: Limits, s: State, n: nat, a: Action)
    requires forall d :: d in s.bodies ==> s.now + n <= s.bodies[d].since + Limit(l, s.bodies[d].phase)
    requires !a.Tick?
    ensures PromptRun(l, s, Ticks(n) + [a]) && Run(l, s, Ticks(n) + [a]) == Next(l, s.(now := s.now + n), a)
  {
    TicksWait(l, s, n);
    RunConcat(l, s, Ticks(n), [a]);
    var t := s.(now := s.now + n);
    assert Run(l, Next(l, t, a), []) == Next(l, t, a);
    assert PromptRun(l, Next(l, t, a), []);
  }

  /** A body that uses up its limits is still alive when the lock runs out, if they reach that far. */
  lemma OverlapIsPossible(l: Limits, session: string) returns (actions: seq<Action>)
    requires l.ttl <= l.Longest()
    ensures PromptRun(l, IDLE, actions) && !AtMostOneBody(Run(l, IDLE, actions))
  {
    hide Run, PromptRun, Ticks;
    var inLocked := Min(l.ttl, l.start);
    var inRunning := Min(l.ttl - inLocked, l.hard);
    var inClosing := l.ttl - inLocked - inRunning;
    var s0 := Next(l, IDLE, Deliver(0, session));
    WaitThen(l, IDLE, 0, Deliver(0, session));
    WaitThen(l, s0, inLocked, Enter(0));
    var s1 := Next(l, s0.(now := inLocked), Enter(0));
    WaitThen(l, s1, inRunning, Leave(0));
    var s2 := Next(l, s1.(now := inLocked + inRunning), Leave(0));
    WaitThen(l, s2, inClosing, Deliver(1, session));
    var s3 := Next(l, s2.(now := l.ttl), Deliver(1, session));
    assert 0 in s3.bodies && 1 in s3.bodies && s3.bodies[0].session == s3.bodies[1].session;
    var a0, a1 := Ticks(0) + [Deliver(0, session)], Ticks(inLocked) + [Enter(0)];
    var a2, a3 := Ticks(inRunning) + [Leave(0)], Ticks(inClosing) + [Deliver(1, session)];
    actions := a0 + (a1 + (a2 + a3));
    RunConcat(l, IDLE, a0, a1 + (a2 + a3));
    RunConcat(l, s0, a1, a2 + a3);
    RunConcat(l, s1, a2, a3);
  }

  /** Exclusive execution from a timed lock holds exactly when the time limits fit below its time to live. */
  lemma ExclusiveExactlyWhenLimitsFit(l: Limits)
    ensures (forall actions :: PromptRun(l, IDLE, actions) ==> AtMostOneBody(Run(l, IDLE, actions)))
            <==> l.Longest() < l.ttl
  {
    if l.Longest() < l.ttl {
      forall actions | PromptRun(l, IDLE, actions)
        ensures AtMostOneBody(Run(l, IDLE, actions))
      {
        OneBody(l, IDLE, actions);
      }
    } else {
      var actions := OverlapIsPossible(l, "");
    }
  }

  /** The shipped settings exclude exactly when a delivery enters its pipeline less than 475 seconds after it took
      the lock. */
  lemma DefaultsExclude(start: nat)
    ensures (forall actions :: PromptRun(DefaultLimits(start), IDLE, actions) ==>
                                 AtMostOneBody(Run(DefaultLimits(start), IDLE, actions)))
            <==> start < 475
  {
    ExclusiveExactlyWhenLimitsFit(DefaultLimits(start));
  }
}
