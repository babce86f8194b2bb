/** The publisher, its drainer loop and the SSE generator as they are written: objects whose fields the
    coroutines update between suspension points. At every await the rest of the system runs first, in any
    way the given schedule says. */
module Deployment {
  import opened Options
  import opened Events
  import opened Protocol
  import Delivery
  import Keys
  import Progress
  import W = World

  /** What has happened when a coroutine has taken `steps`, with `schedule[k]` before its k-th step. */
  function Woven(schedule: seq<seq<W.Move>>, steps: seq<W.Move>): seq<W.Move>
    requires |steps| <= |schedule|
  {
    if steps == [] then []
    else
      var n := |steps| - 1;
      Woven(schedule, steps[..n]) + schedule[n] + [steps[n]]
  }

  /** ... and, if it was cut off, when everybody else has run once more. */
  function WovenCut(schedule: seq<seq<W.Move>>, steps: seq<W.Move>, cut: bool): seq<W.Move>
    requires |steps| <= |schedule| && (cut ==> |steps| < |schedule|)
  {
    Woven(schedule, steps) + (if cut then schedule[|steps|] else [])
  }

  lemma WovenStep(w: W.World, schedule: seq<seq<W.Move>>, steps: seq<W.Move>, step: W.Move)
    requires |steps| < |schedule|
    ensures W.Run(w, Woven(schedule, steps + [step]))
         == W.Next(W.Run(W.Run(w, Woven(schedule, steps)), schedule[|steps|]), step)
  {
    assert (steps + [step])[..|steps|] == steps;
    RunConcat(w, Woven(schedule, steps), schedule[|steps|]);
    RunThen(w, Woven(schedule, steps) + schedule[|steps|], step);
  }

  /** Nobody else takes a drainer's steps. */
  ghost predicate Foreign(schedule: seq<seq<W.Move>>, id: nat) {
    forall batch, move :: batch in schedule && move in batch ==> move != W.StepOf(id)
  }

  lemma {:induction false} OthersKeepTask(w: W.World, batch: seq<W.Move>, id: nat)
    requires id in w.tasks && forall move :: move in batch ==> move != W.StepOf(id)
    ensures var t := W.Run(w, batch);
            && id in t.tasks
            && t.tasks[id].session == w.tasks[id].session
            && (t.tasks[id].drainer.stage == w.tasks[id].drainer.stage || Dead(t.tasks[id].drainer.stage))
    decreases |batch|
  {
    if batch != [] {
      assert batch[0] in batch && forall move :: move in batch[1..] ==> move in batch;
      OneKeepsTask(w, batch[0], id);
      OthersKeepTask(W.Next(w, batch[0]), batch[1..], id);
    }
  }

  lemma OneKeepsTask(w: W.World, move: W.Move, id: nat)
    requires id in w.tasks && move != W.StepOf(id)
    ensures var t := W.Next(w, move);
            && id in t.tasks
            && t.tasks[id].session == w.tasks[id].session
            && (t.tasks[id].drainer.stage == w.tasks[id].drainer.stage || Dead(t.tasks[id].drainer.stage))
  {
    hide W.DrainNext, W.GetLog, W.GetCounter, W.GetList;
    W.MoveKeepsTasks(w, move);
    if move.StepOf? && move.task in w.tasks {
      W.DrainChangesOneTask(w, move.task);
    }
  }

  lemma {:induction false} RunConcat(w: W.World, a: seq<W.Move>, b: seq<W.Move>)
    ensures W.Run(w, a + b) == W.Run(W.Run(w, a), b)
    decreases |a|
  {
    hide W.Next;
    if a == [] {
      assert a + b == b;
    } else {
      RunConcat(W.Next(w, a[0]), a[1..], b);
      assert (a + b)[1..] == a[1..] + b;
    }
  }

  lemma RunThen(w: W.World, moves: seq<W.Move>, move: W.Move)
    ensures W.Run(w, moves + [move]) == W.Next(W.Run(w, moves), move)
  {
    RunConcat(w, moves, [move]);
    assert W.Run(W.Next(W.Run(w, moves), move), []) == W.Next(W.Run(w, moves), move);
  }

  /** Nobody else acts for connection `r`. */
  ghost predicate Private(schedule: seq<seq<W.Move>>, r: nat) {
    forall batch, move :: batch in schedule && move in batch ==> !ActsFor(move, r)
  }

  predicate ActsFor(move: W.Move, r: nat) {
    (move.AttachTo? || move.Turn?) && move.connection == r
  }

  /** The same connection, but for what has been delivered to it. */
  predicate SameButInbox(c: W.Connection, d: W.Connection) {
    d == c.(reader := c.reader.(inbox := d.reader.inbox))
  }

  lemma OneKeepsConnection(w: W.World, move: W.Move, r: nat)
    requires r in w.connections && !ActsFor(move, r)
    ensures var t := W.Next(w, move);
            r in t.connections && SameButInbox(w.connections[r], t.connections[r])
  {
    hide W.GetLog, W.GetCounter, W.GetList, Keys.Sequence, Keys.EventsList, Keys.Snapshot, Keys.Channel;
  }

  lemma OneAttachesNoOther(w: W.World, move: W.Move, r: nat)
    requires r !in w.connections && !ActsFor(move, r)
    ensures r !in W.Next(w, move).connections
  {
  }

  lemma {:induction false} OthersKeepConnection(w: W.World, batch: seq<W.Move>, r: nat)
    requires forall move :: move in batch ==> !ActsFor(move, r)
    ensures var t := W.Run(w, batch);
            if r in w.connections then r in t.connections && SameButInbox(w.connections[r], t.connections[r])
            else r !in t.connections
    decreases |batch|
  {
    hide W.Next;
    if batch != [] {
      assert batch[0] in batch && forall move :: move in batch[1..] ==> move in batch;
      if r in w.connections { OneKeepsConnection(w, batch[0], r); } else { OneAttachesNoOther(w, batch[0], r); }
      OthersKeepConnection(W.Next(w, batch[0]), batch[1..], r);
    }
  }

  /** The delivery theorem for one connection of a deployment. */
  lemma ConnectionIsFaithful(w: W.World, moves: seq<W.Move>, session: string, r: nat)
    requires var t := W.Run(w, moves); r in t.connections && t.connections[r].session == session
    requires Delivery.Inv(W.Proj(w, session))
    requires SerialRun(W.Proj(w, session), W.SessionRun(w, moves, session))
    ensures var t := W.Run(w, moves);
            var out := Shown(t.connections[r].reader.out);
            var listed := W.GetList(t.kv, Keys.EventsList(session));
            && out <= listed
            && (t.connections[r].reader.phase.Finished? ==> Delivery.StopsAtFirstTerminal(out, listed))
  {
    var t := W.Run(w, moves);
    W.Isolation(w, moves, session);
    Delivery.RunKeepsInv(W.Proj(w, session), W.SessionRun(w, moves, session));
    var s := W.Proj(t, session);
    W.ConnectionLookup(t.connections, r, session);
    assert Delivery.ReaderOk(s.events, Delivery.Pub(s), s.readers[r]);
    Delivery.OutputIsPrefix(s.events, Delivery.Pub(s), s.readers[r]);
  }

  lemma KnownSession(w: W.World, session: string)
    requires W.AllKnown(w) && session in w.sessions
    ensures W.Known(w, session)
  {
  }

  class Longshot {
    var sessions: map<string, nat>
    var tasks: map<nat, W.Task>
    var kv: map<string, W.Value>
    var connections: map<nat, W.Connection>
    var logs: map<string, W.Log>

    constructor ()
      ensures W.AllKnown(View())
      ensures View() == W.World(map[], map[], map[], map[], map[])
    {
      sessions, tasks, kv, connections, logs := map[], map[], map[], map[], map[];
    }

    function View(): W.World
      reads this
    {
      W.World(sessions, tasks, kv, connections, logs)
    }

    /** Everybody else, while one coroutine is suspended. */
    method Others(batch: seq<W.Move>)
      modifies this
      ensures View() == W.Run(old(View()), batch)
    {
      for n := 0 to |batch|
        invariant W.Run(View(), batch[n..]) == W.Run(old(View()), batch)
      {
        assert batch[n..][0] == batch[n] && batch[n..][1..] == batch[n + 1..];
        var w := W.Next(View(), batch[n]);
        sessions, tasks, kv, connections, logs := w.sessions, w.tasks, w.kv, w.connections, w.logs;
      }
      assert batch[|batch|..] == [];
    }

    /** `_get_or_create`, which has no suspension point: a new task gets an id nobody uses. */
    method GetOrCreate(session: string, task: nat) returns (id: nat)
      requires session in sessions ==> W.Known(View(), session)
      requires session !in sessions ==> task !in tasks
      modifies this`sessions, this`tasks, this`logs
      ensures W.Known(View(), session) && sessions[session] == id
      ensures old(session in sessions) ==> View() == old(View())
      ensures old(session !in sessions) ==>
                && sessions == old(sessions)[session := task]
                && tasks == old(tasks)[task := W.Task(session, Drainer([], Waiting,
                     W.GetCounter(kv, Keys.Sequence(session)), |W.GetList(kv, Keys.EventsList(session))|))]
                && logs == old(logs)[session := W.GetLog(old(View()), session).(writer := Some(task))]
    {
      if session in sessions {
        return sessions[session];
      }
      var d := Drainer([], Waiting, W.GetCounter(kv, Keys.Sequence(session)),
                       |W.GetList(kv, Keys.EventsList(session))|);
      logs := logs[session := W.GetLog(View(), session).(writer := Some(task))];
      tasks := tasks[task := W.Task(session, d)];
      sessions := sessions[session := task];
      id := task;
    }

    /** `emit`: route by session id, then put on an unbounded queue; neither suspends. */
    method Emit(session: string, item: Item, task: nat)
      requires W.AllKnown(View()) && (session !in sessions ==> task !in tasks)
      modifies this`sessions, this`tasks, this`logs
      ensures W.AllKnown(View())
      ensures View() == W.Next(old(View()), W.EmitTo(session, item, task))
    {
      hide W.GetCounter, W.GetList, W.GetLog, Keys.Sequence, Keys.EventsList, W.AllKnown, W.EmitNext;
      ghost var before := View();
      W.MoveKeepsKnown(before, W.EmitTo(session, item, task));
      if session in sessions {
        KnownSession(before, session);
      }
      var id := GetOrCreate(session, task);
      ghost var found := View();
      tasks := tasks[id := W.Enqueue(tasks[id], Put(item))];
      SameLog(found, View(), session);
      var log := W.GetLog(View(), session);
      logs := logs[session := log.(emitted := log.emitted + [item])];
      EmitIs(before, found, session, item, task);
    }

    /** `close`: pop, put the sentinel, and wait for the drainer; `patience` is what the others do until the
        drainer is done or the limit strikes, in which case the drainer is cancelled. */
    method Close(session: string, patience: seq<W.Move>) returns (timedOut: bool)
      requires W.AllKnown(View())
      modifies this
      ensures W.AllKnown(View())
      ensures old(session !in sessions) ==> View() == old(View()) && !timedOut
      ensures old(session in sessions) ==>
                var id := old(sessions)[session];
                View() == W.Run(old(View()), [W.CloseOf(session)] + patience + (if timedOut then [W.HaltOf(id)] else []))
                && (id in tasks ==> Dead(tasks[id].drainer.stage))
      ensures old(session in sessions) ==>
                var id := old(sessions)[session];
                && id in old(tasks)
                && var d := old(tasks)[id].drainer;
                   !Dead(d.stage) && (forall move :: move in patience ==> Progress.MoveSpares(move, id))
                   && Progress.MoveSteps(patience, id) >= Progress.DrainWork(d.(queue := d.queue + [Stop]))
                   ==> !timedOut && id in tasks && tasks[id].drainer.stage == Stopped
    {
      if session !in sessions {
        return false;
      }
      var id := sessions[session];
      sessions := sessions - {session};
      tasks := tasks[id := W.Enqueue(tasks[id], Stop)];
      assert View() == W.Next(old(View()), W.CloseOf(session));
      ghost var d := tasks[id].drainer;
      if !Dead(d.stage) && (forall move :: move in patience ==> Progress.MoveSpares(move, id))
         && Progress.MoveSteps(patience, id) >= Progress.DrainWork(d) {
        Progress.ClosingStopsAmongOthers(View(), patience, id);
      }
      Others(patience);
      ghost var begin := [W.CloseOf(session)];
      assert begin + patience == [W.CloseOf(session)] + patience && (begin + patience)[1..] == patience;
      assert View() == W.Run(old(View()), begin + patience);
      timedOut := id in tasks && !Dead(tasks[id].drainer.stage);
      if timedOut {
        ghost var waited := View();
        tasks := tasks[id := W.Halt(tasks[id])];
        assert View() == W.Next(waited, W.HaltOf(id));
        RunThen(old(View()), begin + patience, W.HaltOf(id));
      } else {
        assert begin + patience + [] == begin + patience;
      }
      W.RunKeepsKnown(old(View()), begin + patience + (if timedOut then [W.HaltOf(id)] else []));
    }

    // Redis commands

    method Incr(key: string) returns (n: nat)
      modifies this`kv
      ensures n == W.GetCounter(old(kv), key) + 1 && kv == old(kv)[key := W.Counter(n)]
    {
      n := W.GetCounter(kv, key) + 1;
      kv := kv[key := W.Counter(n)];
    }

    method RPush(key: string, m: Msg)
      modifies this`kv
      ensures kv == old(kv)[key := W.List(W.GetList(old(kv), key) + [m])]
    {
      kv := kv[key := W.List(W.GetList(kv, key) + [m])];
    }

    method Set(key: string, m: Msg)
      modifies this`kv
      ensures kv == old(kv)[key := W.Text(m)]
    {
      kv := kv[key := W.Text(m)];
    }

    method Publish(session: string, m: Msg)
      modifies this`connections, this`logs
      ensures connections == W.Fanout(old(connections), Keys.Channel(session), m)
      ensures var log := W.GetLog(old(View()), session);
              logs == old(logs)[session := log.(channel := log.channel + [m])]
    {
      var log := W.GetLog(View(), session);
      logs := logs[session := log.(channel := log.channel + [m])];
      connections := W.Fanout(connections, Keys.Channel(session), m);
    }

    predicate Alive(id: nat)
      reads this
    {
      id in tasks && !Dead(tasks[id].drainer.stage)
    }

    /** An await of drainer `id`: the others run, and may have cancelled it when it is resumed. */
    method Suspend(id: nat, schedule: seq<seq<W.Move>>, k: nat) returns (cut: bool)
      requires Alive(id) && k < |schedule| && Foreign(schedule, id)
      modifies this
      ensures View() == W.Run(old(View()), schedule[k])
      ensures id in tasks && tasks[id].session == old(tasks[id].session)
      ensures cut == !Alive(id)
      ensures !cut ==> tasks[id].drainer.stage == old(tasks[id].drainer.stage)
    {
      OthersKeepTask(View(), schedule[k], id);
      Others(schedule[k]);
      cut := Dead(tasks[id].drainer.stage);
    }

    /** The program counter of drainer `id` after a command. */
    method Mark(id: nat, stage: Stage)
      requires id in tasks
      modifies this`tasks
      ensures tasks == old(tasks)[id := W.AtStage(old(tasks)[id], stage)]
    {
      tasks := tasks[id := W.AtStage(tasks[id], stage)];
    }

    /** Drainer `id` has taken `steps` since `start` and is at `stage`. */
    ghost predicate On(id: nat, stage: Stage, schedule: seq<seq<W.Move>>, steps: seq<W.Move>, start: W.World)
      reads this
    {
      && id in tasks && tasks[id].drainer.stage == stage && Foreign(schedule, id)
      && |steps| <= |schedule| && (forall step :: step in steps ==> step == W.StepOf(id))
      && View() == W.Run(start, Woven(schedule, steps))
    }

    /** ... and will take no more: it was cancelled while suspended, or the schedule has ended. */
    ghost predicate Off(id: nat, schedule: seq<seq<W.Move>>, steps: seq<W.Move>, cut: bool, start: W.World)
      reads this
    {
      && |steps| <= |schedule| && (if cut then |steps| < |schedule| else |steps| == |schedule|)
      && (forall step :: step in steps ==> step == W.StepOf(id))
      && View() == W.Run(start, WovenCut(schedule, steps, cut))
    }

    /** The suspension before a command. */
    method Resume(id: nat, stage: Stage, schedule: seq<seq<W.Move>>, before: seq<W.Move>, ghost start: W.World)
      returns (steps: seq<W.Move>, done: bool, cut: bool)
      requires On(id, stage, schedule, before, start) && !Dead(stage)
      modifies this
      ensures steps == before
      ensures if done then Off(id, schedule, steps, cut, start)
              else !cut && |steps| < |schedule| && id in tasks && tasks[id].drainer.stage == stage
                   && View() == W.Run(W.Run(start, Woven(schedule, steps)), schedule[|steps|])
    {
      hide W.Run, Woven;
      steps, cut := before, false;
      done := |steps| == |schedule|;
      WovenWhole(schedule, steps);
      if !done {
        cut := Suspend(id, schedule, |steps|);
        done := cut;
        WovenCutOff(start, schedule, steps);
      }
    }

    lemma Stepped(id: nat, schedule: seq<seq<W.Move>>, before: seq<W.Move>, was: W.World, start: W.World)
      requires |before| < |schedule|
      requires was == W.Run(W.Run(start, Woven(schedule, before)), schedule[|before|])
      ensures W.Run(start, Woven(schedule, before + [W.StepOf(id)])) == W.Next(was, W.StepOf(id))
    {
      WovenStep(start, schedule, before, W.StepOf(id));
    }

    /** `seq = int(await self._redis.incr(seq_key))`, and the event numbered with it. */
    method Number(id: nat, item: Item, schedule: seq<seq<W.Move>>, before: seq<W.Move>, ghost start: W.World)
      returns (m: Msg, steps: seq<W.Move>, done: bool, cut: bool)
      requires On(id, Holding(item), schedule, before, start)
      modifies this
      ensures if done then Off(id, schedule, steps, cut, start)
              else !cut && |before| < |steps| && m.item == item && On(id, Numbered(m), schedule, steps, start)
    {
      hide W.Run, Woven;
      m := Msg(0, item);
      steps, done, cut := Resume(id, Holding(item), schedule, before, start);
      if done {
        return;
      }
      ghost var was := View();
      var n := Incr(Keys.Sequence(tasks[id].session));
      m := Msg(n, item);
      Mark(id, Numbered(m));
      Stepped(id, schedule, before, was, start);
      steps := steps + [W.StepOf(id)];
    }

    /** `pipe.rpush(list_key, payload)`. */
    method PushToList(id: nat, m: Msg, schedule: seq<seq<W.Move>>, before: seq<W.Move>, ghost start: W.World)
      returns (steps: seq<W.Move>, done: bool, cut: bool)
      requires On(id, Numbered(m), schedule, before, start)
      modifies this
      ensures if done then Off(id, schedule, steps, cut, start)
              else !cut && |before| < |steps| && On(id, Pushed(m), schedule, steps, start)
    {
      hide W.Run, Woven;
      steps, done, cut := Resume(id, Numbered(m), schedule, before, start);
      if done {
        return;
      }
      ghost var was := View();
      RPush(Keys.EventsList(tasks[id].session), m);
      Mark(id, Pushed(m));
      Stepped(id, schedule, before, was, start);
      steps := steps + [W.StepOf(id)];
    }

    /** `pipe.expire(list_key, ttl)`. */
    method ExpireList(id: nat, m: Msg, schedule: seq<seq<W.Move>>, before: seq<W.Move>, ghost start: W.World)
      returns (steps: seq<W.Move>, done: bool, cut: bool)
      requires On(id, Pushed(m), schedule, before, start)
      modifies this
      ensures if done then Off(id, schedule, steps, cut, start)
              else !cut && |before| < |steps| && On(id, Expired(m), schedule, steps, start)
    {
      hide W.Run, Woven;
      steps, done, cut := Resume(id, Pushed(m), schedule, before, start);
      if done {
        return;
      }
      ghost var was := View();
      Mark(id, Expired(m));
      Stepped(id, schedule, before, was, start);
      steps := steps + [W.StepOf(id)];
    }

    /** `pipe.set(snap_key, payload, ex=ttl)`. */
    method SetSnapshot(id: nat, m: Msg, schedule: seq<seq<W.Move>>, before: seq<W.Move>, ghost start: W.World)
      returns (steps: seq<W.Move>, done: bool, cut: bool)
      requires On(id, Expired(m), schedule, before, start)
      modifies this
      ensures if done then Off(id, schedule, steps, cut, start)
              else !cut && |before| < |steps| && On(id, Snapped(m), schedule, steps, start)
    {
      hide W.Run, Woven;
      steps, done, cut := Resume(id, Expired(m), schedule, before, start);
      if done {
        return;
      }
      ghost var was := View();
      Set(Keys.Snapshot(tasks[id].session), m);
      Mark(id, Snapped(m));
      Stepped(id, schedule, before, was, start);
      steps := steps + [W.StepOf(id)];
    }

    /** `pipe.publish(chan_key, payload)`. */
    method PublishToChannel(id: nat, m: Msg, schedule: seq<seq<W.Move>>, before: seq<W.Move>, ghost start: W.World)
      returns (steps: seq<W.Move>, done: bool, cut: bool)
      requires On(id, Snapped(m), schedule, before, start)
      modifies this
      ensures if done then Off(id, schedule, steps, cut, start)
              else !cut && |before| < |steps| && On(id, if Terminal(m.item.event) then Published(m) else Waiting, schedule, steps, start)
    {
      hide W.Run, Woven;
      steps, done, cut := Resume(id, Snapped(m), schedule, before, start);
      if done {
        return;
      }
      ghost var was := View();
      Publish(tasks[id].session, m);
      Mark(id, if Terminal(m.item.event) then Published(m) else Waiting);
      Stepped(id, schedule, before, was, start);
      steps := steps + [W.StepOf(id)];
    }

    /** `await self._redis.expire(list_key, ttl)` after a terminal event. */
    method ExpireAgain(id: nat, m: Msg, schedule: seq<seq<W.Move>>, before: seq<W.Move>, ghost start: W.World)
      returns (steps: seq<W.Move>, done: bool, cut: bool)
      requires On(id, Published(m), schedule, before, start)
      modifies this
      ensures if done then Off(id, schedule, steps, cut, start)
              else !cut && |before| < |steps| && On(id, Waiting, schedule, steps, start)
    {
      hide W.Run, Woven;
      steps, done, cut := Resume(id, Published(m), schedule, before, start);
      if done {
        return;
      }
      ghost var was := View();
      Mark(id, Waiting);
      Stepped(id, schedule, before, was, start);
      steps := steps + [W.StepOf(id)];
    }

    /** `_drain`: one event at a time, INCR, then the pipeline's RPUSH, EXPIRE, SET and PUBLISH, then EXPIRE
        again after a terminal event. It runs until the sentinel, a cancellation, or the schedule's end. */
    method Drain(id: nat, schedule: seq<seq<W.Move>>) returns (steps: seq<W.Move>, cut: bool)
      requires id in tasks && tasks[id].drainer.stage == Waiting && Foreign(schedule, id)
      modifies this
      ensures |steps| <= |schedule| && (cut ==> |steps| < |schedule|)
      ensures forall step :: step in steps ==> step == W.StepOf(id)
      ensures View() == W.Run(old(View()), WovenCut(schedule, steps, cut))
      ensures cut || |steps| == |schedule| || (id in tasks && tasks[id].drainer.stage == Stopped)
    {
      hide W.Run, Woven;
      steps, cut := [], false;
      ghost var start := View();
      WovenNothing(start, schedule);
      while true
        invariant !cut && On(id, Waiting, schedule, steps, start)
        decreases |schedule| - |steps|
      {
        var done;
        ghost var before := steps;
        steps, done, cut := Resume(id, Waiting, schedule, steps, start);
        if done {
          return;
        }
        ghost var was := View();
        Stepped(id, schedule, before, was, start);
        var t := tasks[id];
        steps := steps + [W.StepOf(id)];
        if t.drainer.queue == [] {
          continue;
        }
        var entry := t.drainer.queue[0];
        tasks := tasks[id := t.(drainer := t.drainer.(queue := t.drainer.queue[1..]))];
        if entry.Stop? {
          Mark(id, Stopped);
          WovenWhole(schedule, steps);
          return;
        }
        Mark(id, Holding(entry.item));
        steps, done, cut := WriteOut(id, entry.item, schedule, steps, start);
        if done {
          return;
        }
      }
    }

    method WriteOut(id: nat, item: Item, schedule: seq<seq<W.Move>>, before: seq<W.Move>, ghost start: W.World)
      returns (steps: seq<W.Move>, done: bool, cut: bool)
      requires On(id, Holding(item), schedule, before, start)
      modifies this
      ensures if done then Off(id, schedule, steps, cut, start)
              else !cut && |before| < |steps| && On(id, Waiting, schedule, steps, start)
    {
      hide On, Off;
      var m;
      m, steps, done, cut := Number(id, item, schedule, before, start);
      if done { return; }
      steps, done, cut := PushToList(id, m, schedule, steps, start);
      if done { return; }
      steps, done, cut := ExpireList(id, m, schedule, steps, start);
      if done { return; }
      steps, done, cut := SetSnapshot(id, m, schedule, steps, start);
      if done { return; }
      steps, done, cut := PublishToChannel(id, m, schedule, steps, start);
      if done { return; }
      if Terminal(item.event) {
        steps, done, cut := ExpireAgain(id, m, schedule, steps, start);
      }
    }

    // SSE generator

    /** Connection `r` has taken `steps` since `start`, all of them its own. */
    ghost predicate Streaming(session: string, r: nat, schedule: seq<seq<W.Move>>, steps: seq<W.Move>, start: W.World)
      reads this
    {
      && r in connections && connections[r].session == session
      && |steps| <= |schedule| && (forall step :: step in steps ==> ActsFor(step, r))
      && View() == W.Run(start, Woven(schedule, steps))
    }

    /** An await or a yield: the others run; the client may be found gone afterwards. */
    method Wake(session: string, r: nat, schedule: seq<seq<W.Move>>, gone: seq<bool>, before: seq<W.Move>,
                ghost start: W.World)
      returns (steps: seq<W.Move>, done: bool)
      requires Streaming(session, r, schedule, before, start) && Private(schedule, r) && |gone| == |schedule|
      requires Attached(connections[r].reader)
      modifies this
      ensures |before| <= |steps|
      ensures done ==> Streaming(session, r, schedule, steps, start)
                       && (|steps| == |schedule| || connections[r].reader.phase.Gone?)
      ensures !done ==> steps == before && |steps| < |schedule| && r in connections
                        && SameButInbox(old(connections[r]), connections[r])
                        && View() == W.Run(W.Run(start, Woven(schedule, steps)), schedule[|steps|])
    {
      hide W.Run, Woven;
      steps, done := before, |before| == |schedule|;
      if done {
        return;
      }
      OthersKeepConnection(View(), schedule[|steps|], r);
      Others(schedule[|steps|]);
      if gone[|steps|] {
        var c := connections[r];
        ghost var was := View();
        connections := connections[r := c.(reader := c.reader.(phase := Gone))];
        assert View() == W.Next(was, W.Turn(r, Leave(r)));
        WovenStep(start, schedule, steps, W.Turn(r, Leave(r)));
        steps, done := steps + [W.Turn(r, Leave(r))], true;
      }
    }

    /** Write back the generator's frame. */
    method Save(r: nat, reader: Reader)
      requires r in connections
      modifies this`connections
      ensures connections == old(connections)[r := old(connections[r]).(reader := reader)]
    {
      connections := connections[r := connections[r].(reader := reader)];
    }

    /** Phase 1: replay the backlog. */
    method Replay(session: string, r: nat, schedule: seq<seq<W.Move>>, gone: seq<bool>, before: seq<W.Move>,
                  ghost start: W.World)
      returns (steps: seq<W.Move>, done: bool)
      requires Streaming(session, r, schedule, before, start) && Private(schedule, r) && |gone| == |schedule|
      requires connections[r].reader.phase == Replaying(0)
      modifies this
      ensures |before| <= |steps| && Streaming(session, r, schedule, steps, start)
      ensures if done then |steps| == |schedule| || !Attached(connections[r].reader)
              else connections[r].reader.phase.Tailing?
    {
      hide W.Run, Woven, W.Next;
      steps, done := before, false;
      var backlog := connections[r].reader.backlog;
      var n := 0;
      while n < |backlog|
        invariant n <= |backlog| && |before| <= |steps| && Streaming(session, r, schedule, steps, start)
        invariant connections[r].reader.phase == Replaying(n) && connections[r].reader.backlog == backlog
      {
        steps, done := Wake(session, r, schedule, gone, steps, start);
        if done {
          return;
        }
        var m := backlog[n];
        var reader := connections[r].reader;
        TurnIs(View(), r, Yield(r));
        WovenStep(start, schedule, steps, W.Turn(r, Yield(r)));
        steps := steps + [W.Turn(r, Yield(r))];
        reader := reader.(replayed := reader.replayed + {m.seqNo}, out := reader.out + [Frame(m)]);
        if Terminal(m.item.event) {
          Save(r, reader.(phase := Finished));
          done := true;
          return;
        }
        n := n + 1;
        Save(r, reader.(phase := Replaying(n)));
      }
      steps, done := Wake(session, r, schedule, gone, steps, start);
      if !done {
        TurnIs(View(), r, Yield(r));
        WovenStep(start, schedule, steps, W.Turn(r, Yield(r)));
        steps := steps + [W.Turn(r, Yield(r))];
        Save(r, connections[r].reader.(phase := Tailing));
      }
    }

    /** Phase 2: tail the connection's buffer; `silent[k]` says that the read at step k came back with nothing. */
    method Tail(session: string, r: nat, schedule: seq<seq<W.Move>>, gone: seq<bool>, silent: seq<bool>,
                before: seq<W.Move>, ghost start: W.World)
      returns (steps: seq<W.Move>)
      requires Streaming(session, r, schedule, before, start) && Private(schedule, r) && |gone| == |silent| == |schedule|
      requires connections[r].reader.phase.Tailing?
      modifies this
      ensures |before| <= |steps| && Streaming(session, r, schedule, steps, start)
      ensures |steps| == |schedule| || !Attached(connections[r].reader)
    {
      hide W.Run, Woven, W.Next;
      steps := before;
      while true
        invariant |before| <= |steps| && Streaming(session, r, schedule, steps, start)
        invariant connections[r].reader.phase.Tailing?
        decreases |schedule| - |steps|
      {
        var done;
        steps, done := Wake(session, r, schedule, gone, steps, start);
        if done {
          return;
        }
        var reader := connections[r].reader;
        var turn := if silent[|steps|] then Silent(r) else Poll(r);
        TurnIs(View(), r, turn);
        WovenStep(start, schedule, steps, W.Turn(r, turn));
        steps := steps + [W.Turn(r, turn)];
        if turn.Silent? || reader.inbox == [] {
          Save(r, reader.(out := reader.out + [Keepalive]));
          continue;
        }
        var m := reader.inbox[0];
        reader := reader.(inbox := reader.inbox[1..]);
        if m.seqNo in reader.replayed {
          Save(r, reader);
          continue;
        }
        reader := reader.(out := reader.out + [Frame(m)]);
        if Terminal(m.item.event) {
          Save(r, reader.(phase := Finished));
          return;
        }
        Save(r, reader);
      }
    }

    /** `event_source`: SUBSCRIBE, then LRANGE, then replay, then tail. Whatever the other coroutines do in
        between, and whenever the client leaves, what it was sent is a prefix of the list, and the generator
        ends by itself only after the first terminal event. */
    method EventSource(session: string, r: nat, schedule: seq<seq<W.Move>>, gone: seq<bool>, silent: seq<bool>)
      returns (steps: seq<W.Move>)
      requires r !in connections && Private(schedule, r) && |gone| == |silent| == |schedule|
      modifies this
      ensures |steps| <= |schedule| && (forall step :: step in steps ==> ActsFor(step, r))
      ensures View() == W.Run(old(View()), Woven(schedule, steps))
      ensures |steps| == |schedule| || (r in connections && !Attached(connections[r].reader))
      ensures steps != [] ==> r in connections && connections[r].session == session
      ensures steps != [] && Delivery.Inv(W.Proj(old(View()), session))
              && SerialRun(W.Proj(old(View()), session),
                           W.SessionRun(old(View()), Woven(schedule, steps), session)) ==>
                var out := Shown(connections[r].reader.out);
                var listed := W.GetList(kv, Keys.EventsList(session));
                && out <= listed
                && (connections[r].reader.phase.Finished? ==> Delivery.StopsAtFirstTerminal(out, listed))
    {
      hide W.Run, Woven, Delivery.Inv, SerialRun, Shown;
      ghost var start := View();
      steps := [];
      WovenNothing(start, schedule);
      if schedule == [] {
        return;
      }

      // await pubsub.subscribe(keys.channel(session_id))
      OthersKeepConnection(View(), schedule[0], r);
      Others(schedule[0]);
      ghost var was := View();
      connections := connections[r := W.Connection(session, JUST_SUBSCRIBED)];
      assert View() == W.Next(was, W.AttachTo(session, r));
      WovenStep(start, schedule, [], W.AttachTo(session, r));
      steps := [] + [W.AttachTo(session, r)];

      steps := Stream(session, r, schedule, gone, silent, steps, start);
      if Delivery.Inv(W.Proj(start, session))
         && SerialRun(W.Proj(start, session), W.SessionRun(start, Woven(schedule, steps), session)) {
        ConnectionIsFaithful(start, Woven(schedule, steps), session, r);
      }
    }

    method Stream(session: string, r: nat, schedule: seq<seq<W.Move>>, gone: seq<bool>, silent: seq<bool>,
                  before: seq<W.Move>, ghost start: W.World)
      returns (steps: seq<W.Move>)
      requires Streaming(session, r, schedule, before, start) && Private(schedule, r)
      requires |gone| == |silent| == |schedule|
      requires connections[r].reader.phase.Subscribed? && before != []
      modifies this
      ensures Streaming(session, r, schedule, steps, start) && steps != []
      ensures |steps| == |schedule| || !Attached(connections[r].reader)
    {
      hide W.Run, Woven, W.Next;
      var done;
      // await redis.lrange(keys.events_list(session_id), 0, -1)
      steps, done := Wake(session, r, schedule, gone, before, start);
      if done {
        return;
      }
      TurnIs(View(), r, Range(r));
      WovenStep(start, schedule, steps, W.Turn(r, Range(r)));
      steps := steps + [W.Turn(r, Range(r))];
      var backlog := W.GetList(kv, Keys.EventsList(session));
      Save(r, connections[r].reader.(phase := Replaying(0), backlog := backlog));
      steps, done := Replay(session, r, schedule, gone, steps, start);
      if !done {
        steps := Tail(session, r, schedule, gone, silent, steps, start);
      }
    }
  }

  /** The registered or newly registered queue, then the put. */
  ghost predicate Registered(before: W.World, found: W.World, session: string, task: nat) {
    if session in before.sessions then W.Known(before, session) && found == before
    else
      && task !in before.tasks
      && found == before.(
           sessions := before.sessions[session := task],
           tasks := before.tasks[task := W.Task(session, Drainer([], Waiting,
             W.GetCounter(before.kv, Keys.Sequence(session)), |W.GetList(before.kv, Keys.EventsList(session))|))],
           logs := before.logs[session := W.GetLog(before, session).(writer := Some(task))])
  }

  /** What a put makes of a world whose queue for the session is registered. */
  function PutOn(found: W.World, session: string, item: Item): W.World
    requires session in found.sessions && found.sessions[session] in found.tasks
  {
    var id, log := found.sessions[session], W.GetLog(found, session);
    found.(tasks := found.tasks[id := W.Enqueue(found.tasks[id], Put(item))],
           logs := found.logs[session := log.(emitted := log.emitted + [item])])
  }

  lemma EmitToNew(before: W.World, found: W.World, session: string, item: Item, task: nat)
    requires Registered(before, found, session, task) && session !in before.sessions
    ensures W.EmitNext(before, session, item, task) == PutOn(found, session, item)
  {
    hide W.GetCounter, W.GetList, Keys.Sequence, Keys.EventsList;
    assert [] + [Put(item)] == [Put(item)];
    var next, put := W.EmitNext(before, session, item, task), PutOn(found, session, item);
    assert next.tasks == put.tasks;
    assert next.logs == put.logs;
  }

  lemma EmitIs(before: W.World, found: W.World, session: string, item: Item, task: nat)
    requires Registered(before, found, session, task)
    ensures session in found.sessions && found.sessions[session] in found.tasks
    ensures W.EmitNext(before, session, item, task) == PutOn(found, session, item)
  {
    hide W.GetCounter, W.GetList, W.GetLog, Keys.Sequence, Keys.EventsList;
    if session !in before.sessions {
      EmitToNew(before, found, session, item, task);
    }
  }

  lemma SameLog(w: W.World, t: W.World, session: string)
    ensures w.logs == t.logs ==> W.GetLog(w, session) == W.GetLog(t, session)
  {
  }

  lemma TurnIs(w: W.World, r: nat, a: Action)
    requires r in w.connections
    ensures W.Next(w, W.Turn(r, a))
         == var c := w.connections[r];
            w.(connections := w.connections[r := c.(reader :=
                 ReaderNext(c.reader, a, W.GetList(w.kv, Keys.EventsList(c.session))))])
  {
  }

  lemma WovenNothing(w: W.World, schedule: seq<seq<W.Move>>)
    ensures W.Run(w, Woven(schedule, [])) == w
  {
  }

  lemma WovenWhole(schedule: seq<seq<W.Move>>, steps: seq<W.Move>)
    requires |steps| <= |schedule|
    ensures WovenCut(schedule, steps, false) == Woven(schedule, steps)
  {
  }

  lemma WovenCutOff(w: W.World, schedule: seq<seq<W.Move>>, steps: seq<W.Move>)
    requires |steps| < |schedule|
    ensures W.Run(w, WovenCut(schedule, steps, true)) == W.Run(W.Run(w, Woven(schedule, steps)), schedule[|steps|])
  {
    RunConcat(w, Woven(schedule, steps), schedule[|steps|]);
  }
}
