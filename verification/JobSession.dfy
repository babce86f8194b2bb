/** The timed lock and the stream together: deliveries of one session's job to any number of workers, each with its own
    publisher, over the session's Redis keys. What the lock is for, and the exact condition under which it does it. */
module JobSession {
  import opened Options
  import opened Protocol
  import opened Restarts
  import L = JobLock
  import Delivery
  import Events
  import Ledger
  import Progress

  /** `workers` says where a delivery runs, `entries` which drainer a worker's publisher has registered for the session,
      `hosts` where a drainer runs, `closing` which drainer a delivery's `close` waits for. The stream's `current` is the
      entry of the worker that last used its publisher. */
  datatype Joint = Joint(
    lock: L.State,
    workers: map<nat, nat>,
    entries: map<nat, nat>,
    hosts: map<nat, nat>,
    closing: map<nat, nat>,
    stream: State)

  datatype Happening =
    | Tick
    | Deliver(delivery: nat, worker: nat, target: string)
    | Enter(delivery: nat)
    | Emits(delivery: nat, item: Item, task: nat)
    | Finish(delivery: nat)
    | Return(delivery: nat)
    | Lost(worker: nat)
    | Stream(action: Action)

  function Lookup(entries: map<nat, nat>, worker: nat): Option<nat> {
    if worker in entries then Some(entries[worker]) else None
  }

  /** A delivery of this session's job that holds the lock and has not returned. */
  predicate Mine(j: Joint, session: string, d: nat) {
    d in j.lock.bodies && j.lock.bodies[d].session == session
  }

  predicate Running(j: Joint, session: string, d: nat) {
    Mine(j, session, d) && j.lock.bodies[d].phase.Running? && d in j.workers
  }

  /** SET NX EX: who loses the race returns at once and touches nothing. */
  function DeliverNext(l: L.Limits, j: Joint, d: nat, worker: nat, target: string): Joint {
    if L.Held(j.lock, target) || d in j.lock.bodies then j
    else j.(lock := L.Next(l, j.lock, L.Deliver(d, target)), workers := j.workers[d := worker])
  }

  /** The publisher of the delivery's own worker, before and after an emit. */
  function Emitted(j: Joint, d: nat, item: Item, task: nat): State
    requires d in j.workers
  {
    Protocol.EmitNext(j.stream.(current := Lookup(j.entries, j.workers[d])), item, task)
  }

  function EmitsNext(j: Joint, session: string, d: nat, item: Item, task: nat): Joint {
    if !Running(j, session, d) then j
    else
      var worker, after := j.workers[d], Emitted(j, d, item, task);
      if after.current.None? then j
      else
        j.(stream := after,
           entries := j.entries[worker := after.current.value],
           hosts := if worker in j.entries then j.hosts else j.hosts[task := worker])
  }

  /** `finally: close`: the pipeline is left, the entry popped, the sentinel put. */
  function FinishNext(l: L.Limits, j: Joint, session: string, d: nat): Joint {
    var lock := L.Next(l, j.lock, L.Leave(d));
    if Running(j, session, d) && j.workers[d] in j.entries then
      var worker := j.workers[d];
      j.(lock := lock,
         stream := Protocol.CloseNext(j.stream.(current := Some(j.entries[worker]))),
         entries := j.entries - {worker},
         closing := j.closing[d := j.entries[worker]])
    else j.(lock := lock)
  }

  predicate Waits(j: Joint, d: nat) {
    d in j.closing && j.closing[d] in j.stream.drainers && !Dead(j.stream.drainers[j.closing[d]].stage)
  }

  /** `close` comes back once the drainer has exited or was cancelled. */
  function ReturnNext(l: L.Limits, j: Joint, d: nat): Joint {
    if Waits(j, d) then j
    else j.(lock := L.Next(l, j.lock, L.Return(d)), closing := j.closing - {d})
  }

  predicate In(places: map<nat, nat>, x: nat, worker: nat) {
    x in places && places[x] == worker
  }

  function HaltIn(j: Joint, worker: nat): State {
    j.stream.(
      current := if worker in j.entries then None else j.stream.current,
      drainers := map id | id in j.stream.drainers ::
        var d := j.stream.drainers[id];
        if In(j.hosts, id, worker) then d.(stage := HaltStage(d.stage)) else d)
  }

  /** A worker process is gone, with its deliveries, its publisher and its drainers. */
  function LostNext(j: Joint, worker: nat): Joint {
    var left := map d | d in j.lock.bodies && !In(j.workers, d, worker) :: j.lock.bodies[d];
    j.(lock := j.lock.(bodies := left),
       entries := j.entries - {worker},
       closing := map d | d in j.closing && d in left :: j.closing[d],
       stream := HaltIn(j, worker))
  }

  /** What drainers and readers do by themselves. */
  predicate OfStream(a: Action) {
    !a.Emit? && !a.Close? && !a.Crash?
  }

  function Next(l: L.Limits, session: string, j: Joint, h: Happening): Joint {
    match h
    case Tick => j.(lock := L.Next(l, j.lock, L.Tick))
    case Deliver(d, worker, target) => DeliverNext(l, j, d, worker, target)
    case Enter(d) => j.(lock := L.Next(l, j.lock, L.Enter(d)))
    case Emits(d, item, task) => EmitsNext(j, session, d, item, task)
    case Finish(d) => FinishNext(l, j, session, d)
    case Return(d) => ReturnNext(l, j, d)
    case Lost(worker) => LostNext(j, worker)
    case Stream(a) => if OfStream(a) then j.(stream := Protocol.Next(j.stream, a)) else j
  }

  function Run(l: L.Limits, session: string, j: Joint, hs: seq<Happening>): Joint
    decreases |hs|
  {
    if hs == [] then j else Run(l, session, Next(l, session, j, hs[0]), hs[1..])
  }

  /** Time limits are kept: those of `JobLock`. */
  predicate Prompt(l: L.Limits, j: Joint, h: Happening) {
    h.Tick? ==> L.Prompt(l, j.lock, L.Tick)
  }

  predicate PromptRun(l: L.Limits, session: string, j: Joint, hs: seq<Happening>)
    decreases |hs|
  {
    hs != [] ==> Prompt(l, j, hs[0]) && PromptRun(l, session, Next(l, session, j, hs[0]), hs[1..])
  }

  function Begin(s0: State): Joint {
    Joint(L.IDLE, map[], map[], map[], map[], s0)
  }

  /** What the session's stream notices. */
  function Induced(j: Joint, session: string, h: Happening): seq<Action> {
    match h
    case Emits(d, item, task) =>
      if Running(j, session, d) && Emitted(j, d, item, task).current.Some? then [Emit(item, task)] else []
    case Finish(d) => if Running(j, session, d) && j.workers[d] in j.entries then [Close] else []
    case Lost(worker) => if HaltIn(j, worker) == j.stream then [] else [Crash]
    case Stream(a) => if OfStream(a) then [a] else []
    case _ => []
  }

  function InducedRun(l: L.Limits, session: string, j: Joint, hs: seq<Happening>): seq<Action>
    decreases |hs|
  {
    if hs == [] then [] else Induced(j, session, hs[0]) + InducedRun(l, session, Next(l, session, j, hs[0]), hs[1..])
  }

  // ---------------------------------------------------------------------------
  // Who may be alive
  // ---------------------------------------------------------------------------

  predicate AllDead(s: State) {
    forall id :: id in s.drainers ==> Dead(s.drainers[id].stage)
  }

  /** Drainer `id` of worker `worker` may be alive, and no other. */
  predicate Only(j: Joint, id: nat, worker: nat) {
    && id in j.stream.drainers && In(j.hosts, id, worker)
    && forall x :: x in j.stream.drainers && x != id ==> Dead(j.stream.drainers[x].stage)
  }

  predicate AtRest(j: Joint) {
    j.entries == map[] && j.stream.current.None? && AllDead(j.stream)
  }

  /** What the session's one delivery answers for. */
  predicate Owns(j: Joint, d: nat)
    requires d in j.lock.bodies
  {
    && d in j.workers
    && var worker := j.workers[d];
       match j.lock.bodies[d].phase
       case Locked => d !in j.closing && AtRest(j)
       case Running =>
         && d !in j.closing
         && if worker in j.entries then
              && j.entries == map[worker := j.entries[worker]]
              && j.stream.current == Some(j.entries[worker]) && Only(j, j.entries[worker], worker)
            else AtRest(j)
       case Closing =>
         && j.entries == map[] && j.stream.current.None?
         && if d in j.closing then Only(j, j.closing[d], worker) else AllDead(j.stream)
  }

  ghost predicate Nobody(j: Joint, session: string) {
    forall d :: d in j.lock.bodies ==> !Mine(j, session, d)
  }

  ghost predicate Owned(j: Joint, session: string) {
    && (Nobody(j, session) ==> AtRest(j))
    && (forall d :: d in j.lock.bodies && Mine(j, session, d) ==> Owns(j, d))
    && (forall d :: d in j.closing ==> Mine(j, session, d))
  }

  ghost predicate LockOk(l: L.Limits, j: Joint) {
    L.BodiesOk(l, j.lock) && L.AtMostOneBody(j.lock)
  }

  ghost predicate Inv(l: L.Limits, session: string, j: Joint) {
    LockOk(l, j) && Owned(j, session)
  }

  /** No two drainers of the session are alive. */
  ghost predicate AtMostOneDrainer(s: State) {
    forall a, b :: a in s.drainers && b in s.drainers && !Dead(s.drainers[a].stage) && !Dead(s.drainers[b].stage) ==> a == b
  }

  /** A step that the stream notices as it should. */
  ghost predicate Follows(session: string, j: Joint, h: Happening, t: Joint) {
    && t.stream == Protocol.Run(j.stream, Induced(j, session, h))
    && ApartRun(j.stream, Induced(j, session, h))
  }

  lemma FollowsNothing(session: string, j: Joint, h: Happening, t: Joint)
    requires Induced(j, session, h) == [] && t.stream == j.stream
    ensures Follows(session, j, h, t)
  {
  }

  lemma FollowsOne(session: string, j: Joint, h: Happening, t: Joint, a: Action)
    requires Induced(j, session, h) == [a] && t.stream == Protocol.Next(j.stream, a) && ApartStep(j.stream, a)
    ensures Follows(session, j, h, t)
  {
    hide Protocol.Next;
    assert [a][1..] == [];
    assert Protocol.Run(t.stream, []) == t.stream && ApartRun(t.stream, []);
  }

  // Each happening

  lemma LockStepKeepsOk(l: L.Limits, j: Joint, a: L.Action)
    requires l.Longest() < l.ttl && LockOk(l, j) && L.Prompt(l, j.lock, a)
    ensures LockOk(l, j.(lock := L.Next(l, j.lock, a)))
  {
    hide L.BodiesOk, L.AtMostOneBody, L.Next;
    L.StepKeepsBodies(l, j.lock, a);
    L.StepKeepsOne(l, j.lock, a);
  }

  /** While a delivery of the session is alive its lock has not expired. */
  lemma AliveIsHeld(l: L.Limits, session: string, j: Joint)
    requires l.Longest() < l.ttl && LockOk(l, j) && !L.Held(j.lock, session)
    ensures Nobody(j, session)
  {
    forall d | d in j.lock.bodies
      ensures !Mine(j, session, d)
    {
      assert L.BodyOk(l, j.lock, j.lock.bodies[d]);
    }
  }

  lemma TickKeepsOwned(l: L.Limits, session: string, j: Joint)
    requires Owned(j, session)
    ensures Owned(Next(l, session, j, Tick), session)
  {
    var t := Next(l, session, j, Tick);
    forall d | d in t.lock.bodies && Mine(t, session, d)
      ensures Owns(t, d)
    {
      assert Mine(j, session, d) && Owns(j, d);
    }
  }

  lemma DeliverKeepsOwned(l: L.Limits, session: string, j: Joint, d: nat, worker: nat, target: string)
    requires l.Longest() < l.ttl && Inv(l, session, j)
    ensures Owned(DeliverNext(l, j, d, worker, target), session)
  {
    var t := DeliverNext(l, j, d, worker, target);
    if target == session && !L.Held(j.lock, target) {
      AliveIsHeld(l, session, j);
    }
    forall e | e in j.lock.bodies
      ensures e in t.lock.bodies && (Mine(t, session, e) <==> Mine(j, session, e))
    {
    }
    forall e | e in t.lock.bodies && Mine(t, session, e)
      ensures Owns(t, e)
    {
      if e in j.lock.bodies {
        assert Mine(j, session, e) && Owns(j, e);
      }
    }
  }

  lemma EnterKeepsOwned(l: L.Limits, session: string, j: Joint, d: nat)
    requires Owned(j, session)
    ensures Owned(Next(l, session, j, Enter(d)), session)
  {
    var t := Next(l, session, j, Enter(d));
    forall e | e in t.lock.bodies && Mine(t, session, e)
      ensures Owns(t, e)
    {
      assert Mine(j, session, e) && Owns(j, e);
    }
    forall e | e in j.lock.bodies
      ensures Mine(t, session, e) <==> Mine(j, session, e)
    {
    }
  }

  /** A delivery of the session that is alive is the only one. */
  lemma Alone(l: L.Limits, session: string, j: Joint, d: nat)
    requires LockOk(l, j) && Mine(j, session, d)
    ensures forall e :: e in j.lock.bodies && Mine(j, session, e) ==> e == d
  {
  }

  lemma EmitsKeepsInv(l: L.Limits, session: string, j: Joint, d: nat, item: Item, task: nat)
    requires Inv(l, session, j)
    ensures var t := EmitsNext(j, session, d, item, task);
            Owned(t, session) && Follows(session, j, Emits(d, item, task), t)
  {
    hide L.BodiesOk;
    var h, t := Emits(d, item, task), EmitsNext(j, session, d, item, task);
    if Running(j, session, d) {
      Alone(l, session, j, d);
      assert Owns(j, d);
      assert j.stream.(current := Lookup(j.entries, j.workers[d])) == j.stream;
      if Emitted(j, d, item, task).current.Some? {
        FollowsOne(session, j, h, t, Emit(item, task));
      }
    }
  }

  lemma FinishKeepsInv(l: L.Limits, session: string, j: Joint, d: nat)
    requires Inv(l, session, j)
    ensures var t := FinishNext(l, j, session, d);
            Owned(t, session) && Follows(session, j, Finish(d), t)
  {
    hide L.BodiesOk, Follows, L.Next;
    var t := FinishNext(l, j, session, d);
    FinishPhases(l, session, j, d);
    if Running(j, session, d) && j.workers[d] in j.entries {
      CloseKeepsInv(l, session, j, d);
    } else {
      FollowsNothing(session, j, Finish(d), t);
      forall e | e in j.lock.bodies
        ensures Mine(t, session, e) <==> Mine(j, session, e)
      {
      }
      forall e | e in t.lock.bodies && Mine(t, session, e)
        ensures Owns(t, e)
      {
        assert Mine(j, session, e) && Owns(j, e);
      }
    }
  }

  lemma CloseKeepsInv(l: L.Limits, session: string, j: Joint, d: nat)
    requires Inv(l, session, j) && Running(j, session, d) && j.workers[d] in j.entries
    ensures var t := FinishNext(l, j, session, d);
            Owned(t, session) && Follows(session, j, Finish(d), t)
  {
    hide L.BodiesOk, Follows, L.Next;
    var t := FinishNext(l, j, session, d);
    FinishPhases(l, session, j, d);
    Alone(l, session, j, d);
    assert Owns(j, d);
    assert j.stream.(current := Some(j.entries[j.workers[d]])) == j.stream;
    FollowsOne(session, j, Finish(d), t, Close);
    assert t.entries == map[];
    forall e | e in t.lock.bodies && Mine(t, session, e)
      ensures Owns(t, e)
    {
      assert Mine(j, session, e);
    }
  }

  /** Leaving changes the phase of one delivery at most. */
  lemma FinishPhases(l: L.Limits, session: string, j: Joint, d: nat)
    ensures var lock := L.Next(l, j.lock, L.Leave(d));
            && lock.bodies.Keys == j.lock.bodies.Keys
            && (forall e :: e in j.lock.bodies && e != d ==> lock.bodies[e] == j.lock.bodies[e])
            && (d in j.lock.bodies ==> lock.bodies[d].session == j.lock.bodies[d].session)
            && (d in j.lock.bodies && !j.lock.bodies[d].phase.Running? ==> lock.bodies[d] == j.lock.bodies[d])
            && (d in j.lock.bodies && j.lock.bodies[d].phase.Running? ==> lock.bodies[d].phase.Closing?)
  {
  }

  lemma ReturnKeepsOwned(l: L.Limits, session: string, j: Joint, d: nat)
    requires Inv(l, session, j)
    ensures Owned(ReturnNext(l, j, d), session)
  {
    hide L.BodiesOk;
    var t := ReturnNext(l, j, d);
    if !Waits(j, d) {
      if Mine(j, session, d) {
        Alone(l, session, j, d);
        assert Owns(j, d);
        if j.lock.bodies[d].phase.Closing? {
          assert AllDead(j.stream) && t.closing == map[];
          assert Nobody(t, session);
        } else {
          assert t == j;
        }
      } else {
        assert t.closing == j.closing;
        forall e | e in j.lock.bodies
          ensures Mine(t, session, e) <==> Mine(j, session, e)
        {
        }
        forall e | e in t.lock.bodies && Mine(t, session, e)
          ensures Owns(t, e)
        {
          assert Mine(j, session, e) && Owns(j, e);
        }
      }
    }
  }

  /** The stream after a loss that hits no live drainer. */
  lemma NoLoss(session: string, j: Joint, worker: nat)
    requires worker in j.entries ==> j.stream.current.None?
    requires forall id :: id in j.stream.drainers && In(j.hosts, id, worker) ==> Dead(j.stream.drainers[id].stage)
    ensures HaltIn(j, worker) == j.stream && Follows(session, j, Lost(worker), LostNext(j, worker))
  {
    assert HaltIn(j, worker).drainers == j.stream.drainers;
    FollowsNothing(session, j, Lost(worker), LostNext(j, worker));
  }

  /** The stream after the loss of the worker that runs the only live drainer. */
  lemma TotalLoss(session: string, j: Joint, worker: nat)
    requires HaltIn(j, worker).current.None?
    requires forall id :: id in j.stream.drainers && !In(j.hosts, id, worker) ==> Dead(j.stream.drainers[id].stage)
    ensures AllDead(HaltIn(j, worker)) && Follows(session, j, Lost(worker), LostNext(j, worker))
  {
    var s, t := j.stream, HaltIn(j, worker);
    assert t.drainers == Protocol.Next(s, Crash).drainers;
    assert t == Protocol.Next(s, Crash);
    if t == s {
      FollowsNothing(session, j, Lost(worker), LostNext(j, worker));
    } else {
      FollowsOne(session, j, Lost(worker), LostNext(j, worker), Crash);
    }
  }

  lemma LossKeepsLock(l: L.Limits, j: Joint, worker: nat)
    requires LockOk(l, j)
    ensures LockOk(l, LostNext(j, worker))
  {
    var t := LostNext(j, worker);
    forall d | d in t.lock.bodies
      ensures L.BodyOk(l, t.lock, t.lock.bodies[d])
    {
      assert L.BodyOk(l, j.lock, j.lock.bodies[d]);
    }
  }

  lemma OwnLoss(l: L.Limits, session: string, j: Joint, d: nat)
    requires Inv(l, session, j) && Mine(j, session, d) && d in j.workers
    ensures var t := LostNext(j, j.workers[d]); Owned(t, session) && Follows(session, j, Lost(j.workers[d]), t)
  {
    hide L.BodiesOk;
    var worker := j.workers[d];
    var t := LostNext(j, worker);
    Alone(l, session, j, d);
    assert Owns(j, d);
    TotalLoss(session, j, worker);
    assert t.entries == map[];
    assert Nobody(t, session);
  }

  lemma OtherLoss(l: L.Limits, session: string, j: Joint, worker: nat, d: nat)
    requires Inv(l, session, j) && Mine(j, session, d) && d in j.workers && j.workers[d] != worker
    ensures var t := LostNext(j, worker); Owned(t, session) && Follows(session, j, Lost(worker), t)
  {
    hide L.BodiesOk;
    var t := LostNext(j, worker);
    Alone(l, session, j, d);
    assert Owns(j, d);
    NoLoss(session, j, worker);
    assert t.entries == j.entries && t.closing == j.closing;
    assert Mine(t, session, d) && Owns(t, d);
  }

  lemma NobodysLoss(session: string, j: Joint, worker: nat)
    requires Owned(j, session) && Nobody(j, session)
    ensures var t := LostNext(j, worker); Owned(t, session) && Follows(session, j, Lost(worker), t)
  {
    var t := LostNext(j, worker);
    NoLoss(session, j, worker);
    assert t.entries == map[] && t.closing == map[];
    forall e | e in t.lock.bodies
      ensures !Mine(t, session, e)
    {
      assert !Mine(j, session, e);
    }
  }

  lemma LostKeepsInv(l: L.Limits, session: string, j: Joint, worker: nat)
    requires Inv(l, session, j)
    ensures var t := LostNext(j, worker);
            LockOk(l, t) && Owned(t, session) && Follows(session, j, Lost(worker), t)
  {
    hide L.BodiesOk, L.AtMostOneBody;
    LossKeepsLock(l, j, worker);
    if d :| d in j.lock.bodies && Mine(j, session, d) {
      assert Owns(j, d);
      if j.workers[d] == worker {
        OwnLoss(l, session, j, d);
      } else {
        OtherLoss(l, session, j, worker, d);
      }
    } else {
      NobodysLoss(session, j, worker);
    }
  }

  /** Drainers and readers leave roles alone: they create no drainer and wake none. */
  lemma StreamKeepsOwned(l: L.Limits, session: string, j: Joint, a: Action)
    requires Owned(j, session) && OfStream(a)
    ensures var t := j.(stream := Protocol.Next(j.stream, a)); Owned(t, session) && Follows(session, j, Stream(a), t)
  {
    hide Protocol.Next;
    var t := j.(stream := Protocol.Next(j.stream, a));
    StreamWakesNone(j.stream, a);
    forall d | d in t.lock.bodies && Mine(t, session, d)
      ensures Owns(t, d)
    {
      assert Mine(j, session, d) && Owns(j, d);
    }
    forall d | d in j.lock.bodies
      ensures Mine(t, session, d) <==> Mine(j, session, d)
    {
    }
    FollowsOne(session, j, Stream(a), t, a);
  }

  lemma StreamWakesNone(s: State, a: Action)
    requires OfStream(a)
    ensures var t := Protocol.Next(s, a);
            && t.current == s.current && t.drainers.Keys == s.drainers.Keys
            && forall id :: id in s.drainers && Dead(s.drainers[id].stage) ==> Dead(t.drainers[id].stage)
  {
    hide ReaderNext, Protocol.Deliver;
  }

  lemma StepKeepsInv(l: L.Limits, session: string, j: Joint, h: Happening)
    requires l.Longest() < l.ttl && Inv(l, session, j) && Prompt(l, j, h)
    ensures var t := Next(l, session, j, h); Inv(l, session, t) && Follows(session, j, h, t)
  {
    hide L.BodiesOk, L.AtMostOneBody, L.Next, Owned, Follows;
    var t := Next(l, session, j, h);
    match h {
      case Tick =>
        LockStepKeepsOk(l, j, L.Tick);
        TickKeepsOwned(l, session, j);
        FollowsNothing(session, j, h, t);
      case Deliver(d, worker, target) =>
        LockStepKeepsOk(l, j, L.Deliver(d, target));
        DeliverKeepsOwned(l, session, j, d, worker, target);
        FollowsNothing(session, j, h, t);
      case Enter(d) =>
        LockStepKeepsOk(l, j, L.Enter(d));
        EnterKeepsOwned(l, session, j, d);
        FollowsNothing(session, j, h, t);
      case Emits(d, item, task) => EmitsKeepsInv(l, session, j, d, item, task);
      case Finish(d) =>
        LockStepKeepsOk(l, j, L.Leave(d));
        FinishKeepsInv(l, session, j, d);
      case Return(d) =>
        LockStepKeepsOk(l, j, L.Return(d));
        ReturnKeepsOwned(l, session, j, d);
        FollowsNothing(session, j, h, t);
      case Lost(worker) => LostKeepsInv(l, session, j, worker);
      case Stream(a) =>
        if OfStream(a) {
          StreamKeepsOwned(l, session, j, a);
        } else {
          FollowsNothing(session, j, h, t);
        }
    }
  }

  lemma {:induction false} ApartConcat(s: State, a: seq<Action>, b: seq<Action>)
    requires ApartRun(s, a) && ApartRun(Protocol.Run(s, a), b)
    ensures ApartRun(s, a + b)
    decreases |a|
  {
    hide Protocol.Next;
    if a == [] {
      assert a + b == b;
    } else {
      ApartConcat(Protocol.Next(s, a[0]), a[1..], b);
      assert (a + b)[1..] == a[1..] + b;
    }
  }

  lemma {:induction false} RunKeepsInv(l: L.Limits, session: string, j: Joint, hs: seq<Happening>)
    requires l.Longest() < l.ttl && Inv(l, session, j) && PromptRun(l, session, j, hs)
    ensures var t, actions := Run(l, session, j, hs), InducedRun(l, session, j, hs);
            Inv(l, session, t) && t.stream == Protocol.Run(j.stream, actions) && ApartRun(j.stream, actions)
    decreases |hs|
  {
    hide Inv, Next, Induced;
    if hs != [] {
      var t, first := Next(l, session, j, hs[0]), Induced(j, session, hs[0]);
      StepKeepsInv(l, session, j, hs[0]);
      RunKeepsInv(l, session, t, hs[1..]);
      var rest := InducedRun(l, session, t, hs[1..]);
      Protocol.RunConcat(j.stream, first, rest);
      ApartConcat(j.stream, first, rest);
    }
  }

  lemma BeginInv(l: L.Limits, session: string, s0: State)
    requires Init(s0)
    ensures Inv(l, session, Begin(s0))
  {
  }

  lemma InvIsExclusive(l: L.Limits, session: string, j: Joint)
    requires Inv(l, session, j)
    ensures AtMostOneDrainer(j.stream)
  {
    hide L.BodiesOk, L.AtMostOneBody;
    if d :| d in j.lock.bodies && Mine(j, session, d) {
      assert Owns(j, d);
    } else {
      assert Nobody(j, session);
    }
  }

  /** With time limits that fit below the lock's time to live, under any redeliveries to any workers, losses of
      workers and halts of drainers: at most one body and one live drainer of the session, and what its stream sees is
      a run whose drainers do not overlap. */
  lemma OneBodyOneDrainer(l: L.Limits, session: string, s0: State, hs: seq<Happening>)
    requires l.Longest() < l.ttl && Init(s0) && PromptRun(l, session, Begin(s0), hs)
    ensures var j, actions := Run(l, session, Begin(s0), hs), InducedRun(l, session, Begin(s0), hs);
            && L.AtMostOneBody(j.lock) && AtMostOneDrainer(j.stream)
            && j.stream == Protocol.Run(s0, actions) && ApartRun(s0, actions)
  {
    BeginInv(l, session, s0);
    RunKeepsInv(l, session, Begin(s0), hs);
    InvIsExclusive(l, session, Run(l, session, Begin(s0), hs));
  }

  /** So no client of a session is sent anything twice or out of order, however often its job is redelivered. */
  lemma RedeliveriesKeepOrder(l: L.Limits, session: string, s0: State, hs: seq<Happening>)
    requires l.Longest() < l.ttl && Init(s0) && PromptRun(l, session, Begin(s0), hs)
    ensures var s := Run(l, session, Begin(s0), hs).stream;
            && Ascending(s.events)
            && forall r :: r in s.readers ==>
                 Ascending(Shown(s.readers[r].out)) && forall m :: m in Shown(s.readers[r].out) ==> m in s.events
  {
    hide Init, PromptRun, ApartRun, Protocol.Run, Run, InducedRun, Shown;
    OneBodyOneDrainer(l, session, s0, hs);
    AtMostOnceInOrder(s0, InducedRun(l, session, Begin(s0), hs));
  }

  // ---------------------------------------------------------------------------
  // Deliveries come back
  // ---------------------------------------------------------------------------

  function StreamSteps(id: nat, n: nat): seq<Happening> {
    if n == 0 then [] else [Stream(Step(id))] + StreamSteps(id, n - 1)
  }

  lemma {:induction false} StreamStepsRun(l: L.Limits, session: string, j: Joint, id: nat, n: nat)
    ensures Run(l, session, j, StreamSteps(id, n)) == j.(stream := Protocol.Run(j.stream, Progress.Steps(id, n)))
    decreases n
  {
    hide Protocol.Next;
    if n > 0 {
      assert StreamSteps(id, n)[1..] == StreamSteps(id, n - 1) && Progress.Steps(id, n)[1..] == Progress.Steps(id, n - 1);
      StreamStepsRun(l, session, j.(stream := Protocol.Next(j.stream, Step(id))), id, n - 1);
    }
  }

  /** A delivery in `close` returns, after as many steps of the drainer it waits for as that one has work. */
  lemma CloseComesBack(l: L.Limits, session: string, s0: State, hs: seq<Happening>, d: nat, n: nat)
    requires l.Longest() < l.ttl && Init(s0) && PromptRun(l, session, Begin(s0), hs)
    requires Mine(Run(l, session, Begin(s0), hs), session, d)
    requires Run(l, session, Begin(s0), hs).lock.bodies[d].phase.Closing?
    requires var j := Run(l, session, Begin(s0), hs);
             d in j.closing && j.closing[d] in j.stream.drainers
             && n >= Progress.DrainWork(j.stream.drainers[j.closing[d]])
    ensures var j := Run(l, session, Begin(s0), hs);
            var t := Next(l, session, Run(l, session, j, StreamSteps(j.closing[d], n)), Return(d));
            && t.lock.bodies == j.lock.bodies - {d} && t.lock.now == j.lock.now
            && j.closing[d] in t.stream.drainers && Dead(t.stream.drainers[j.closing[d]].stage)
  {
    hide Run, PromptRun, Protocol.Run, Progress.DrainWork, L.BodiesOk, L.AtMostOneBody;
    var j := Run(l, session, Begin(s0), hs);
    var id := j.closing[d];
    BeginInv(l, session, s0);
    RunKeepsInv(l, session, Begin(s0), hs);
    assert Owns(j, d);
    Progress.RunKeepsClosing(s0, InducedRun(l, session, Begin(s0), hs));
    StreamStepsRun(l, session, j, id, n);
    Progress.CountSteps(id, n);
    if Dead(j.stream.drainers[id].stage) {
      Progress.StaysDead(j.stream, Progress.Steps(id, n), id);
    } else {
      Progress.ClosingStops(j.stream, Progress.Steps(id, n), id);
    }
  }

  // ---------------------------------------------------------------------------
  // Which delivery gets the lock
  // ---------------------------------------------------------------------------

  lemma StepKeepsLock(l: L.Limits, session: string, j: Joint, h: Happening)
    requires L.LogOk(l, j.lock) && L.ExpiryOk(l, j.lock)
    ensures var t := Next(l, session, j, h); L.LogOk(l, t.lock) && L.ExpiryOk(l, t.lock)
  {
    hide L.LogOk, L.ExpiryOk, L.Next, Emitted, HaltIn, Protocol.Next;
    match h {
      case Tick => LockStepKeeps(l, j.lock, L.Tick);
      case Deliver(d, worker, target) => LockStepKeeps(l, j.lock, L.Deliver(d, target));
      case Enter(d) => LockStepKeeps(l, j.lock, L.Enter(d));
      case Finish(d) => LockStepKeeps(l, j.lock, L.Leave(d));
      case Return(d) => LockStepKeeps(l, j.lock, L.Return(d));
      case Lost(worker) => BodiesDoNotMatter(l, j.lock, LostNext(j, worker).lock);
      case _ =>
    }
  }

  lemma LockStepKeeps(l: L.Limits, s: L.State, a: L.Action)
    requires L.LogOk(l, s) && L.ExpiryOk(l, s)
    ensures L.LogOk(l, L.Next(l, s, a)) && L.ExpiryOk(l, L.Next(l, s, a))
  {
    hide L.LogOk, L.ExpiryOk, L.Next;
    L.StepKeepsLog(l, s, a);
    L.StepKeepsExpiry(l, s, a);
  }

  lemma BodiesDoNotMatter(l: L.Limits, s: L.State, t: L.State)
    requires L.LogOk(l, s) && L.ExpiryOk(l, s) && t.log == s.log && t.expiry == s.expiry
    ensures L.LogOk(l, t) && L.ExpiryOk(l, t)
  {
    assert L.LogOk(l, t) by { hide L.ExpiryOk, L.Apart; }
    assert L.ExpiryOk(l, t) by { hide L.LogOk, L.Sets; }
  }

  lemma {:induction false} RunKeepsLock(l: L.Limits, session: string, j: Joint, hs: seq<Happening>)
    requires L.LogOk(l, j.lock) && L.ExpiryOk(l, j.lock)
    ensures var t := Run(l, session, j, hs); L.LogOk(l, t.lock) && L.ExpiryOk(l, t.lock)
    decreases |hs|
  {
    hide L.LogOk, L.ExpiryOk, Next;
    if hs != [] {
      StepKeepsLock(l, session, j, hs[0]);
      RunKeepsLock(l, session, Next(l, session, j, hs[0]), hs[1..]);
    }
  }

  /** A new delivery takes its session's lock if and only if every acquisition of that session is at least the time to
      live old, and then runs in its worker; otherwise it changes nothing. Neither touches the stream. */
  lemma TakenExactlyWhenExpired(l: L.Limits, session: string, s0: State, hs: seq<Happening>, d: nat, worker: nat,
                                target: string)
    requires d !in Run(l, session, Begin(s0), hs).lock.bodies
    ensures var j := Run(l, session, Begin(s0), hs);
            var t := Next(l, session, j, Deliver(d, worker, target));
            && (L.AllExpired(l, j.lock, target) ==>
                  && t.lock.log == j.lock.log + [L.Acquisition(target, j.lock.now)]
                  && t.lock.bodies == j.lock.bodies[d := L.Body(target, j.lock.now, L.Locked, j.lock.now)]
                  && t.workers == j.workers[d := worker])
            && (!L.AllExpired(l, j.lock, target) ==> t == j)
            && t.stream == j.stream
  {
    hide L.LogOk, L.ExpiryOk, L.AllExpired, Run;
    L.IdleIsOk(l);
    RunKeepsLock(l, session, Begin(s0), hs);
    L.HeldMeansYoung(l, Run(l, session, Begin(s0), hs).lock, target);
  }

  /** So a delivery while the lock is held changes nothing. */
  lemma DuplicateChangesNothing(l: L.Limits, session: string, j: Joint, d: nat, worker: nat, target: string)
    ensures L.Held(j.lock, target) ==> Next(l, session, j, Deliver(d, worker, target)) == j
    ensures Next(l, session, j, Deliver(d, worker, target)).stream == j.stream
  {
  }

  // ---------------------------------------------------------------------------
  // One acquisition: one run
  // ---------------------------------------------------------------------------

  function Acquisitions(log: seq<L.Acquisition>, session: string): nat {
    if log == [] then 0
    else Acquisitions(log[..|log| - 1], session) + (if log[|log| - 1].session == session then 1 else 0)
  }

  function Taken(j: Joint, session: string): nat {
    Acquisitions(j.lock.log, session)
  }

  /** No delivery of the session can emit any more. */
  ghost predicate Silenced(j: Joint, session: string) {
    forall d :: d in j.lock.bodies && Mine(j, session, d) ==> j.lock.bodies[d].phase.Closing?
  }

  /** The deliveries alive after a step were alive before, and none gets back from closing. */
  ghost predicate Older(j: Joint, t: Joint) {
    forall d :: d in t.lock.bodies ==>
      && d in j.lock.bodies && t.lock.bodies[d].session == j.lock.bodies[d].session
      && (j.lock.bodies[d].phase.Closing? ==> t.lock.bodies[d].phase.Closing?)
  }

  lemma OthersAreOlder(l: L.Limits, session: string, j: Joint, h: Happening)
    requires !h.Deliver?
    ensures var t := Next(l, session, j, h); t.lock.log == j.lock.log && Older(j, t)
  {
    hide Protocol.Next, Emitted, HaltIn;
  }

  lemma DeliverTakes(l: L.Limits, session: string, j: Joint, d: nat, worker: nat, target: string)
    ensures var t := DeliverNext(l, j, d, worker, target);
            if target == session && t != j then Taken(t, session) == Taken(j, session) + 1
            else
              && Taken(t, session) == Taken(j, session)
              && (Nobody(j, session) ==> Nobody(t, session)) && (Silenced(j, session) ==> Silenced(t, session))
  {
    var t := DeliverNext(l, j, d, worker, target);
    if t != j {
      assert t.lock.log[..|t.lock.log| - 1] == j.lock.log;
      if target != session {
        forall e | e in t.lock.bodies && Mine(t, session, e)
          ensures Mine(j, session, e) && t.lock.bodies[e] == j.lock.bodies[e]
        {
        }
      }
    }
  }

  lemma StepTakes(l: L.Limits, session: string, j: Joint, h: Happening)
    ensures var t := Next(l, session, j, h);
            && Taken(j, session) <= Taken(t, session) <= Taken(j, session) + 1
            && (Taken(t, session) == Taken(j, session) ==>
                  && (Nobody(j, session) ==> Nobody(t, session)) && (Silenced(j, session) ==> Silenced(t, session)))
  {
    if h.Deliver? {
      hide DeliverNext, Acquisitions;
      DeliverTakes(l, session, j, h.delivery, h.worker, h.target);
    } else {
      hide Next, Acquisitions;
      OthersAreOlder(l, session, j, h);
      OlderKeeps(session, j, Next(l, session, j, h));
    }
  }

  lemma OlderKeeps(session: string, j: Joint, t: Joint)
    requires Older(j, t)
    ensures Nobody(j, session) ==> Nobody(t, session)
    ensures Silenced(j, session) ==> Silenced(t, session)
  {
    forall d | d in t.lock.bodies && Mine(t, session, d)
      ensures d in j.lock.bodies && Mine(j, session, d)
    {
    }
  }

  lemma {:induction false} RunTakes(l: L.Limits, session: string, j: Joint, hs: seq<Happening>)
    ensures Taken(j, session) <= Taken(Run(l, session, j, hs), session)
    decreases |hs|
  {
    hide Next, Taken;
    if hs != [] {
      StepTakes(l, session, j, hs[0]);
      RunTakes(l, session, Next(l, session, j, hs[0]), hs[1..]);
    }
  }

  lemma {:induction false} SilencedEmitsNothing(l: L.Limits, session: string, j: Joint, hs: seq<Happening>)
    requires Silenced(j, session) && Taken(Run(l, session, j, hs), session) == Taken(j, session)
    ensures forall a :: a in InducedRun(l, session, j, hs) ==> !a.Emit?
    decreases |hs|
  {
    hide Next, Taken;
    if hs != [] {
      var t := Next(l, session, j, hs[0]);
      StepTakes(l, session, j, hs[0]);
      RunTakes(l, session, t, hs[1..]);
      SilencedEmitsNothing(l, session, t, hs[1..]);
    }
  }

  /** The session is closed, or its worker lost, only with the delivery that was emitting. */
  lemma EndSilences(l: L.Limits, session: string, j: Joint, h: Happening)
    requires Inv(l, session, j) && (Induced(j, session, h) == [Close] || Induced(j, session, h) == [Crash])
    ensures !Nobody(j, session) && Silenced(Next(l, session, j, h), session)
  {
    hide L.BodiesOk, Protocol.Next, Emitted;
    if h.Finish? {
      Alone(l, session, j, h.delivery);
      FinishPhases(l, session, j, h.delivery);
    } else {
      assert h.Lost?;
      LossIsOwn(l, session, j, h.worker);
    }
  }

  lemma LossIsOwn(l: L.Limits, session: string, j: Joint, worker: nat)
    requires Inv(l, session, j) && HaltIn(j, worker) != j.stream
    ensures !Nobody(j, session) && Nobody(LostNext(j, worker), session)
  {
    hide L.BodiesOk, HaltIn;
    if d :| d in j.lock.bodies && Mine(j, session, d) {
      Alone(l, session, j, d);
      assert Owns(j, d);
      if j.workers[d] != worker {
        NoLoss(session, j, worker);
      }
    } else {
      assert Nobody(j, session);
      NoLoss(session, j, worker);
    }
  }

  /** Where the session can stand when its run is to have one acquisition in all. */
  ghost predicate OneLeft(j: Joint, session: string, last: Joint) {
    || Taken(last, session) == Taken(j, session)
    || (Taken(last, session) == Taken(j, session) + 1 && Nobody(j, session))
  }

  lemma {:induction false} OneAcquisitionIsOneRun(l: L.Limits, session: string, j: Joint, hs: seq<Happening>)
    requires l.Longest() < l.ttl && Inv(l, session, j) && PromptRun(l, session, j, hs)
    requires OneLeft(j, session, Run(l, session, j, hs))
    ensures Ledger.OneRun(InducedRun(l, session, j, hs))
    decreases |hs|
  {
    hide Next, Taken, Inv, Nobody, Silenced, Induced;
    if hs != [] {
      var t, first := Next(l, session, j, hs[0]), Induced(j, session, hs[0]);
      StepKeepsInv(l, session, j, hs[0]);
      StepTakes(l, session, j, hs[0]);
      RunTakes(l, session, t, hs[1..]);
      OneAcquisitionIsOneRun(l, session, t, hs[1..]);
      InducedIsShort(j, session, hs[0]);
      var rest := InducedRun(l, session, t, hs[1..]);
      if first == [] {
        assert first + rest == rest;
      } else {
        assert (first + rest)[1..] == rest;
        if first == [Close] || first == [Crash] {
          EndSilences(l, session, j, hs[0]);
          InducedTakesNothing(l, session, j, hs[0]);
          SilencedEmitsNothing(l, session, t, hs[1..]);
        }
      }
    }
  }

  lemma InducedIsShort(j: Joint, session: string, h: Happening)
    ensures |Induced(j, session, h)| <= 1
    ensures Induced(j, session, h) != [] && (Induced(j, session, h)[0].Close? || Induced(j, session, h)[0].Crash?) ==>
              Induced(j, session, h) == [Close] || Induced(j, session, h) == [Crash]
  {
    hide Emitted, HaltIn;
  }

  lemma InducedTakesNothing(l: L.Limits, session: string, j: Joint, h: Happening)
    requires Induced(j, session, h) == [Close] || Induced(j, session, h) == [Crash]
    ensures Taken(Next(l, session, j, h), session) == Taken(j, session)
  {
    hide Emitted, HaltIn, Protocol.Next;
  }

  /** A job that acquires its lock once, however often it is delivered: every client is sent a prefix of the list, and
      one whose stream closed by itself got all of it up to the terminal event. */
  lemma RedeliveredJobIsExact(l: L.Limits, session: string, s0: State, hs: seq<Happening>)
    requires l.Longest() < l.ttl && Init(s0) && PromptRun(l, session, Begin(s0), hs)
    requires Taken(Run(l, session, Begin(s0), hs), session) <= 1
    ensures Ledger.OneRun(InducedRun(l, session, Begin(s0), hs))
    ensures var s := Run(l, session, Begin(s0), hs).stream;
            && (forall r :: r in s.readers ==> Shown(s.readers[r].out) <= s.events)
            && (forall r :: r in s.readers && s.readers[r].phase.Finished? ==>
                  Delivery.StopsAtFirstTerminal(Shown(s.readers[r].out), s.events))
  {
    hide PromptRun, ApartRun, Protocol.Run, Run, InducedRun, Shown;
    var j, actions := Begin(s0), InducedRun(l, session, Begin(s0), hs);
    RunTakes(l, session, j, hs);
    BeginInv(l, session, s0);
    OneAcquisitionIsOneRun(l, session, j, hs);
    OneBodyOneDrainer(l, session, s0, hs);
    Ledger.OneRunIsTidy(s0, actions);
    Ledger.InitInv(s0);
    Ledger.RunKeepsInv(s0, actions);
    Delivery.ExactlyOnceInOrder(s0, actions);
  }

  // ---------------------------------------------------------------------------
  // Exactly when the lock keeps drainers apart
  // ---------------------------------------------------------------------------

  const NEW_SESSION := State(None, map[], None, 0, [], None, [], map[], [])

  function Ticks(n: nat): seq<Happening> {
    if n == 0 then [] else [Tick] + Ticks(n - 1)
  }

  function Later(j: Joint, n: nat): Joint {
    j.(lock := j.lock.(now := j.lock.now + n))
  }

  ghost predicate Reaches(l: L.Limits, session: string, hs: seq<Happening>, j: Joint) {
    PromptRun(l, session, Begin(NEW_SESSION), hs) && Run(l, session, Begin(NEW_SESSION), hs) == j
  }

  lemma {:induction false} RunConcat(l: L.Limits, session: string, j: Joint, a: seq<Happening>, b: seq<Happening>)
    ensures Run(l, session, j, a + b) == Run(l, session, Run(l, session, j, a), b)
    ensures PromptRun(l, session, j, a + b)
            <==> PromptRun(l, session, j, a) && PromptRun(l, session, Run(l, session, j, a), b)
    decreases |a|
  {
    hide Next, Prompt;
    if a == [] {
      assert a + b == b;
    } else {
      RunConcat(l, session, Next(l, session, j, a[0]), a[1..], b);
      assert (a + b)[1..] == a[1..] + b;
    }
  }

  /** Every delivery has that much time left in its phase. */
  predicate MayWait(l: L.Limits, j: Joint, n: nat) {
    forall d :: d in j.lock.bodies ==> j.lock.now + n <= j.lock.bodies[d].since + L.Limit(l, j.lock.bodies[d].phase)
  }

  lemma {:induction false} TicksWait(l: L.Limits, session: string, j: Joint, n: nat)
    requires MayWait(l, j, n)
    ensures PromptRun(l, session, j, Ticks(n)) && Run(l, session, j, Ticks(n)) == Later(j, n)
    decreases n
  {
    if n > 0 {
      assert Ticks(n)[1..] == Ticks(n - 1);
      TicksWait(l, session, Later(j, 1), n - 1);
    }
  }

  /** Wait, then take one step. */
  lemma WaitThen(l: L.Limits, session: string, hs: seq<Happening>, j: Joint, n: nat, h: Happening)
    returns (longer: seq<Happening>, t: Joint)
    requires Reaches(l, session, hs, j) && MayWait(l, j, n) && !h.Tick?
    ensures t == Next(l, session, Later(j, n), h) && Reaches(l, session, longer, t)
  {
    hide Next;
    t := Next(l, session, Later(j, n), h);
    longer := hs + (Ticks(n) + [h]);
    TicksWait(l, session, j, n);
    RunConcat(l, session, Begin(NEW_SESSION), hs, Ticks(n) + [h]);
    RunConcat(l, session, j, Ticks(n), [h]);
    assert Run(l, session, t, []) == t && PromptRun(l, session, t, []);
  }

  /** A delivery that took the lock at time 0 in worker 0 is alive in `phase`, and so is its drainer. */
  ghost predicate FirstIsAlive(l: L.Limits, session: string, j: Joint, phase: L.Phase, since: nat) {
    && j.lock.expiry == map[session := l.ttl] && j.lock.bodies == map[0 := L.Body(session, 0, phase, since)]
    && j.workers == map[0 := 0] && 1 !in j.entries
    && j.stream.drainers.Keys == {0} && !Dead(j.stream.drainers[0].stage)
  }

  lemma FirstDrainer(l: L.Limits, session: string, item: Item, inLocked: nat) returns (hs: seq<Happening>, j: Joint)
    requires inLocked <= l.start
    ensures Reaches(l, session, hs, j) && FirstIsAlive(l, session, j, L.Running, inLocked)
    ensures j.lock.now == inLocked && j.entries == map[0 := 0]
  {
    hide Reaches;
    j := Begin(NEW_SESSION);
    NothingYet(l, session);
    hs, j := WaitThen(l, session, [], j, 0, Deliver(0, 0, session));
    hs, j := WaitThen(l, session, hs, j, inLocked, Enter(0));
    hs, j := WaitThen(l, session, hs, j, 0, Emits(0, item, 0));
  }

  lemma FirstCloses(l: L.Limits, session: string, j: Joint, inLocked: nat, inRunning: nat)
    requires FirstIsAlive(l, session, j, L.Running, inLocked)
    requires j.lock.now == inLocked && j.entries == map[0 := 0]
    ensures var t := FinishNext(l, Later(j, inRunning), session, 0);
            && FirstIsAlive(l, session, t, L.Closing, inLocked + inRunning)
            && t.lock.now == inLocked + inRunning
  {
  }

  /** The second delivery has taken the lock at its expiry, in worker 1, and is in `phase`. */
  ghost predicate SecondIsIn(l: L.Limits, session: string, j: Joint, phase: L.Phase, since: nat) {
    && 1 in j.lock.bodies && j.lock.bodies[1] == L.Body(session, l.ttl, phase, l.ttl) && In(j.workers, 1, 1)
    && j.lock.bodies.Keys == {0, 1} && 0 in j.lock.bodies && j.lock.bodies[0] == L.Body(session, 0, L.Closing, since)
    && j.lock.now == l.ttl
  }

  lemma SecondTakes(l: L.Limits, session: string, j: Joint, since: nat)
    requires FirstIsAlive(l, session, j, L.Closing, since) && j.lock.now == since <= l.ttl
    ensures var t := DeliverNext(l, Later(j, l.ttl - since), 1, 1, session);
            SecondIsIn(l, session, t, L.Locked, since) && t.stream == j.stream && t.entries == j.entries
  {
  }

  lemma SecondEnters(l: L.Limits, session: string, j: Joint, since: nat)
    requires SecondIsIn(l, session, j, L.Locked, since)
    ensures var t := Next(l, session, Later(j, 0), Enter(1));
            SecondIsIn(l, session, t, L.Running, since) && t.stream == j.stream && t.entries == j.entries
  {
  }

  lemma SecondDrainer(session: string, j: Joint, item: Item)
    requires Running(j, session, 1) && j.workers[1] == 1 && 1 !in j.entries
    requires j.stream.drainers.Keys == {0} && !Dead(j.stream.drainers[0].stage)
    ensures !AtMostOneDrainer(EmitsNext(j, session, 1, item, 1).stream)
  {
    var s := EmitsNext(j, session, 1, item, 1).stream;
    assert 0 in s.drainers && 1 in s.drainers;
  }

  lemma MayWaitNow(l: L.Limits, session: string, j: Joint, phase: L.Phase, since: nat)
    requires SecondIsIn(l, session, j, phase, since) && l.ttl <= since + l.close
    ensures MayWait(l, j, 0)
  {
  }

  /** Limits that reach the time to live: a second worker's drainer joins the first one's. */
  lemma TwoDrainersArePossible(l: L.Limits, session: string, item: Item) returns (hs: seq<Happening>)
    requires l.ttl <= l.Longest()
    ensures PromptRun(l, session, Begin(NEW_SESSION), hs)
    ensures !AtMostOneDrainer(Run(l, session, Begin(NEW_SESSION), hs).stream)
  {
    hide FinishNext, DeliverNext, EmitsNext, AtMostOneDrainer;
    var inLocked := L.Min(l.ttl, l.start);
    var inRunning := L.Min(l.ttl - inLocked, l.hard);
    var since, j := inLocked + inRunning, Begin(NEW_SESSION);
    hs, j := FirstDrainer(l, session, item, inLocked);
    FirstCloses(l, session, j, inLocked, inRunning);
    hs, j := WaitThen(l, session, hs, j, inRunning, Finish(0));
    SecondTakes(l, session, j, since);
    hs, j := WaitThen(l, session, hs, j, l.ttl - since, Deliver(1, 1, session));
    MayWaitNow(l, session, j, L.Locked, since);
    SecondEnters(l, session, j, since);
    hs, j := WaitThen(l, session, hs, j, 0, Enter(1));
    MayWaitNow(l, session, j, L.Running, since);
    SecondDrainer(session, Later(j, 0), item);
    hs, j := WaitThen(l, session, hs, j, 0, Emits(1, item, 1));
  }

  lemma NothingYet(l: L.Limits, session: string)
    ensures Reaches(l, session, [], Begin(NEW_SESSION))
  {
  }

  /** The timed lock keeps a session to one live drainer in every prompt run exactly when the time limits fit below
      its time to live. */
  lemma OneDrainerExactlyWhenLimitsFit(l: L.Limits, session: string)
    ensures (forall hs :: PromptRun(l, session, Begin(NEW_SESSION), hs) ==>
                            AtMostOneDrainer(Run(l, session, Begin(NEW_SESSION), hs).stream))
            <==> l.Longest() < l.ttl
  {
    if l.Longest() < l.ttl {
      forall hs | PromptRun(l, session, Begin(NEW_SESSION), hs)
        ensures AtMostOneDrainer(Run(l, session, Begin(NEW_SESSION), hs).stream)
      {
        OneBodyOneDrainer(l, session, NEW_SESSION, hs);
      }
    } else {
      var hs := TwoDrainersArePossible(l, session, Item(0, Events.Queued));
    }
  }
}
