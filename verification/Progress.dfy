/** The drainer gets there: behind `close` it takes boundedly many steps to write out its queue and exit through the
    sentinel, whatever happens in between, as long as it is not halted. */
module Progress {
  import opened Options
  import opened Protocol
  import Ledger
  import W = World

  /** Steps from a stage back to the queue, at most. */
  function StageWork(stage: Stage): nat {
    match stage
    case Holding(_) => 6
    case Numbered(_) => 5
    case Pushed(_) => 4
    case Expired(_) => 3
    case Snapped(_) => 2
    case Published(_) => 1
    case _ => 0
  }

  /** Steps for the entries up to the sentinel: one to take an event and six to write it, one for the sentinel. */
  function QueueWork(queue: seq<Entry>): nat {
    if queue == [] then 0
    else match queue[0] {
      case Stop => 1
      case Put(_) => 7 + QueueWork(queue[1..])
    }
  }

  function DrainWork(d: Drainer): nat {
    StageWork(d.stage) + QueueWork(d.queue)
  }

  /** On its way to the sentinel. */
  predicate Closing(d: Drainer) {
    !Dead(d.stage) && Stop in d.queue
  }

  function StepsOf(actions: seq<Action>, id: nat): nat {
    if actions == [] then 0 else (if actions[0] == Step(id) then 1 else 0) + StepsOf(actions[1..], id)
  }

  predicate Spares(a: Action, id: nat) {
    a != Halt(id) && !a.Crash?
  }

  lemma {:induction false} MoreQueue(queue: seq<Entry>, e: Entry)
    requires Stop in queue
    ensures Stop in queue + [e] && QueueWork(queue + [e]) == QueueWork(queue)
  {
    if queue[0].Put? {
      MoreQueue(queue[1..], e);
      assert (queue + [e])[1..] == queue[1..] + [e];
    }
  }

  lemma {:induction false} ClosedQueue(queue: seq<Entry>)
    requires forall i :: 0 <= i < |queue| ==> queue[i].Put?
    ensures QueueWork(queue + [Stop]) == 7 * |Ledger.Queued(queue)| + 1 && Stop in queue + [Stop]
  {
    if queue == [] {
      assert queue + [Stop] == [Stop];
    } else {
      ClosedQueue(queue[1..]);
      assert (queue + [Stop])[1..] == queue[1..] + [Stop];
      assert Ledger.Queued(queue) == [queue[0].item] + Ledger.Queued(queue[1..]);
    }
  }

  /** An own step exits, or leaves less to do. */
  lemma OwnStep(s: State, id: nat)
    requires id in s.drainers && Closing(s.drainers[id])
    ensures var t := DrainNext(s, id);
            && id in t.drainers
            && (t.drainers[id].stage == Stopped
                || (Closing(t.drainers[id]) && DrainWork(t.drainers[id]) < DrainWork(s.drainers[id])))
  {
    hide Deliver;
  }

  /** Everybody else leaves it on its way. */
  lemma OtherStep(s: State, a: Action, id: nat)
    requires id in s.drainers && Spares(a, id) && a != Step(id)
    ensures var t := Next(s, a);
            && id in t.drainers && t.drainers[id].stage == s.drainers[id].stage
            && (Stop in s.drainers[id].queue ==>
                  Stop in t.drainers[id].queue && QueueWork(t.drainers[id].queue) == QueueWork(s.drainers[id].queue))
  {
    hide Deliver, ReaderNext, QueueWork;
    if Stop in s.drainers[id].queue {
      if a.Emit? {
        MoreQueue(s.drainers[id].queue, Put(a.item));
      } else if a.Close? {
        MoreQueue(s.drainers[id].queue, Stop);
      }
    }
  }

  lemma {:induction false} StaysStopped(s: State, actions: seq<Action>, id: nat)
    requires id in s.drainers && s.drainers[id].stage == Stopped
    ensures var t := Run(s, actions); id in t.drainers && t.drainers[id].stage == Stopped
    decreases |actions|
  {
    hide Next;
    if actions != [] {
      StoppedStep(s, actions[0], id);
      StaysStopped(Next(s, actions[0]), actions[1..], id);
    }
  }

  lemma StoppedStep(s: State, a: Action, id: nat)
    requires id in s.drainers && s.drainers[id].stage == Stopped
    ensures var t := Next(s, a); id in t.drainers && t.drainers[id].stage == Stopped
  {
    hide Deliver, ReaderNext;
  }

  lemma {:induction false} StaysDead(s: State, actions: seq<Action>, id: nat)
    requires id in s.drainers && Dead(s.drainers[id].stage)
    ensures var t := Run(s, actions); id in t.drainers && Dead(t.drainers[id].stage)
    decreases |actions|
  {
    hide Next;
    if actions != [] {
      DeadStep(s, actions[0], id);
      StaysDead(Next(s, actions[0]), actions[1..], id);
    }
  }

  lemma DeadStep(s: State, a: Action, id: nat)
    requires id in s.drainers && Dead(s.drainers[id].stage)
    ensures var t := Next(s, a); id in t.drainers && Dead(t.drainers[id].stage)
  {
    hide Deliver, ReaderNext;
  }

  /** A drainer with the sentinel in its queue has exited after as many own steps as it had work, whatever else
      happened, unless it was halted. */
  lemma {:induction false} ClosingStops(s: State, actions: seq<Action>, id: nat)
    requires id in s.drainers && Closing(s.drainers[id])
    requires (forall a :: a in actions ==> Spares(a, id)) && StepsOf(actions, id) >= DrainWork(s.drainers[id])
    ensures var t := Run(s, actions); id in t.drainers && t.drainers[id].stage == Stopped
    decreases |actions|
  {
    hide Next;
    if actions == [] {
      WorkIsLeft(s.drainers[id]);
    } else {
      assert actions[0] in actions && forall a :: a in actions[1..] ==> a in actions;
      var t := Next(s, actions[0]);
      if actions[0] == Step(id) {
        OwnStep(s, id);
        assert t == DrainNext(s, id) by { StepIsDrain(s, id); }
        if t.drainers[id].stage == Stopped {
          StaysStopped(t, actions[1..], id);
        } else {
          ClosingStops(t, actions[1..], id);
        }
      } else {
        OtherStep(s, actions[0], id);
        ClosingStops(t, actions[1..], id);
      }
    }
  }

  lemma StepIsDrain(s: State, id: nat)
    requires id in s.drainers
    ensures Next(s, Step(id)) == DrainNext(s, id)
  {
  }

  lemma WorkIsLeft(d: Drainer)
    requires Closing(d)
    ensures DrainWork(d) > 0
  {
  }

  // ---------------------------------------------------------------------------
  // Every drainer that is not registered any more is on its way
  // ---------------------------------------------------------------------------

  ghost predicate AllClosing(s: State) {
    forall id :: id in s.drainers && !Dead(s.drainers[id].stage) ==> s.current == Some(id) || Stop in s.drainers[id].queue
  }

  lemma StepKeepsClosing(s: State, a: Action)
    requires AllClosing(s)
    ensures AllClosing(Next(s, a))
  {
    hide Deliver, ReaderNext, QueueWork, Closing;
    var t := Next(s, a);
    forall id | id in t.drainers && !Dead(t.drainers[id].stage)
      ensures t.current == Some(id) || Stop in t.drainers[id].queue
    {
      if id in s.drainers {
        if a == Step(id) {
          if s.current != Some(id) { TakenInOrder(s, id); }
        } else if Spares(a, id) {
          OtherStep(s, a, id);
        }
      }
    }
  }

  lemma TakenInOrder(s: State, id: nat)
    requires id in s.drainers && Stop in s.drainers[id].queue && !Dead(s.drainers[id].stage)
    ensures DrainNext(s, id).drainers[id].stage == Stopped || Stop in DrainNext(s, id).drainers[id].queue
    ensures DrainNext(s, id).current == s.current
  {
    hide Deliver;
  }

  lemma {:induction false} RunKeepsClosing(s: State, actions: seq<Action>)
    requires AllClosing(s)
    ensures AllClosing(Run(s, actions))
    decreases |actions|
  {
    hide AllClosing, Next;
    if actions != [] {
      StepKeepsClosing(s, actions[0]);
      RunKeepsClosing(Next(s, actions[0]), actions[1..]);
    }
  }

  /** After any run, a live drainer that its publisher has let go of exits within bounded own steps, unless halted. */
  lemma ReleasedDrainerStops(s0: State, before: seq<Action>, after: seq<Action>, id: nat)
    requires Init(s0)
    requires var s := Run(s0, before);
             && id in s.drainers && !Dead(s.drainers[id].stage) && s.current != Some(id)
             && (forall a :: a in after ==> Spares(a, id)) && StepsOf(after, id) >= DrainWork(s.drainers[id])
    ensures var t := Run(s0, before + after); id in t.drainers && t.drainers[id].stage == Stopped
  {
    hide Run, DrainWork;
    assert AllClosing(s0);
    RunKeepsClosing(s0, before);
    RunConcat(s0, before, after);
    ClosingStops(Run(s0, before), after, id);
  }

  // ---------------------------------------------------------------------------
  // Closing a session
  // ---------------------------------------------------------------------------

  function Steps(id: nat, n: nat): (actions: seq<Action>)
    ensures forall a :: a in actions ==> a == Step(id)
    ensures |actions| == n
  {
    if n == 0 then [] else [Step(id)] + Steps(id, n - 1)
  }

  lemma {:induction false} CountSteps(id: nat, n: nat)
    ensures StepsOf(Steps(id, n), id) == n
    decreases n
  {
    if n > 0 {
      CountSteps(id, n - 1);
      assert Steps(id, n)[1..] == Steps(id, n - 1);
    }
  }

  lemma {:induction false} TidyConcat(s: State, a: seq<Action>, b: seq<Action>)
    requires Ledger.TidyRun(s, a) && forall x :: x in b ==> !x.Emit?
    ensures Ledger.TidyRun(s, a + b)
    decreases |a|
  {
    hide Next, Ledger.TidyStep;
    if a == [] {
      assert a + b == b;
      Ledger.QuietIsTidy(s, b);
    } else {
      TidyConcat(Next(s, a[0]), a[1..], b);
      assert (a + b)[1..] == a[1..] + b;
    }
  }

  /** What `close` leads to, from every state of a tidy run: within as many own steps as its stage and seven for each
      queued event need, and one, the drainer has exited, and everything emitted is listed and published, in order. */
  lemma CloseDrains(s0: State, before: seq<Action>, after: seq<Action>, id: nat)
    requires Init(s0) && Ledger.TidyRun(s0, before)
    requires Run(s0, before).current == Some(id)
    requires id in Run(s0, before).drainers && !Dead(Run(s0, before).drainers[id].stage)
    requires forall a :: a in after ==> Spares(a, id) && !a.Emit?
    requires var d := Run(s0, before).drainers[id];
             StepsOf(after, id) >= StageWork(d.stage) + 7 * |Ledger.Queued(d.queue)| + 1
    ensures var s, t := Run(s0, before), Run(s0, before + [Close] + after);
            && id in t.drainers && t.drainers[id].stage == Stopped && t.writer == Some(id)
            && Items(t.events) == t.emitted == s.emitted && t.channel == t.events
    ensures Ledger.TidyRun(s0, before + [Close] + after)
  {
    hide Run, QueueWork, StageWork, Ledger.TidyRun, Ledger.Queued;
    var s := Run(s0, before);
    var d := s.drainers[id];
    Ledger.InitInv(s0);
    Ledger.RunKeepsInv(s0, before);
    ClosedQueue(d.queue);
    CloseEnqueues(s, id);
    var closed := Next(s, Close);
    ClosingStops(closed, after, id);
    var all := before + [Close] + after;
    assert all == before + ([Close] + after);
    RunConcat(s0, before, [Close] + after);
    CloseFirst(s, after);
    TidyConcat(s0, before, [Close] + after);
    Ledger.Conservation(s0, all);
    NobodyEmits(closed, after);
  }

  lemma CloseEnqueues(s: State, id: nat)
    requires s.current == Some(id) && id in s.drainers
    ensures var t := Next(s, Close);
            && id in t.drainers && t.drainers[id] == s.drainers[id].(queue := s.drainers[id].queue + [Stop])
            && t.emitted == s.emitted && t.current.None? && t.writer == s.writer
  {
  }

  lemma CloseFirst(s: State, after: seq<Action>)
    ensures Run(s, [Close] + after) == Run(Next(s, Close), after)
  {
    assert ([Close] + after)[1..] == after;
  }

  lemma {:induction false} NobodyEmits(s: State, actions: seq<Action>)
    requires forall a :: a in actions ==> !a.Emit?
    ensures Run(s, actions).emitted == s.emitted && Run(s, actions).writer == s.writer
    decreases |actions|
  {
    hide Next;
    if actions != [] {
      assert actions[0] in actions && forall a :: a in actions[1..] ==> a in actions;
      StepEmits(s, actions[0]);
      NobodyEmits(Next(s, actions[0]), actions[1..]);
    }
  }

  lemma StepEmits(s: State, a: Action)
    requires !a.Emit?
    ensures Next(s, a).emitted == s.emitted && Next(s, a).writer == s.writer
  {
  }

  // ---------------------------------------------------------------------------
  // Among many sessions
  // ---------------------------------------------------------------------------

  function MoveSteps(moves: seq<W.Move>, id: nat): nat {
    if moves == [] then 0 else (if moves[0] == W.StepOf(id) then 1 else 0) + MoveSteps(moves[1..], id)
  }

  predicate MoveSpares(move: W.Move, id: nat) {
    move != W.HaltOf(id) && !move.CrashAll?
  }

  lemma {:induction false} StepsConcat(a: seq<Action>, b: seq<Action>, id: nat)
    ensures StepsOf(a + b, id) == StepsOf(a, id) + StepsOf(b, id)
  {
    if a == [] {
      assert a + b == b;
    } else {
      StepsConcat(a[1..], b, id);
      assert (a + b)[1..] == a[1..] + b;
    }
  }

  lemma OneMoveSteps(w: W.World, move: W.Move, session: string, id: nat)
    requires id in w.tasks && w.tasks[id].session == session && MoveSpares(move, id)
    ensures var actions := W.ActionsFor(w, move, session);
            && StepsOf(actions, id) == (if move == W.StepOf(id) then 1 else 0)
            && forall a :: a in actions ==> Spares(a, id)
  {
    var actions := W.ActionsFor(w, move, session);
    if actions != [] {
      assert actions[1..] == [];
      assert StepsOf(actions, id) == (if actions[0] == Step(id) then 1 else 0) + StepsOf([], id);
    }
  }

  lemma {:induction false} ProjectedSteps(w: W.World, moves: seq<W.Move>, session: string, id: nat)
    requires id in w.tasks && w.tasks[id].session == session && forall move :: move in moves ==> MoveSpares(move, id)
    ensures StepsOf(W.SessionRun(w, moves, session), id) == MoveSteps(moves, id)
    ensures forall a :: a in W.SessionRun(w, moves, session) ==> Spares(a, id)
    ensures var t := W.Run(w, moves); id in t.tasks && t.tasks[id].session == session
    decreases |moves|
  {
    hide W.Next, W.ActionsFor;
    if moves != [] {
      assert moves[0] in moves && forall move :: move in moves[1..] ==> move in moves;
      OneMoveSteps(w, moves[0], session, id);
      W.MoveKeepsTasks(w, moves[0]);
      ProjectedSteps(W.Next(w, moves[0]), moves[1..], session, id);
      StepsConcat(W.ActionsFor(w, moves[0], session), W.SessionRun(W.Next(w, moves[0]), moves[1..], session), id);
    }
  }

  /** The same in a world of many sessions. */
  lemma ClosingStopsAmongOthers(w: W.World, moves: seq<W.Move>, id: nat)
    requires id in w.tasks && Closing(w.tasks[id].drainer)
    requires (forall move :: move in moves ==> MoveSpares(move, id)) && MoveSteps(moves, id) >= DrainWork(w.tasks[id].drainer)
    ensures var t := W.Run(w, moves); id in t.tasks && t.tasks[id].drainer.stage == Stopped
  {
    hide W.Run, W.SessionRun, W.Drainers, W.Readers, Run, DrainWork, Closing;
    var session := w.tasks[id].session;
    ProjectedSteps(w, moves, session, id);
    W.Isolation(w, moves, session);
    W.TaskLookup(w.tasks, id, session);
    W.TaskLookup(W.Run(w, moves).tasks, id, session);
    ClosingStops(W.Proj(w, session), W.SessionRun(w, moves, session), id);
  }
}
