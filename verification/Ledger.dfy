/** The publisher's books: nothing emitted is lost or reordered on its way into the list. */
module Ledger {
  import opened Options
  import opened Protocol
  import opened Numbers
  import Delivery
  import Restarts

  /** The event a drainer has taken but not yet listed. */
  function Hand(stage: Stage): seq<Item> {
    match stage
    case Holding(item) => [item]
    case Numbered(m) => [m.item]
    case _ => []
  }

  function Queued(queue: seq<Entry>): seq<Item> {
    if queue == [] then []
    else (match queue[0] { case Stop => [] case Put(item) => [item] }) + Queued(queue[1..])
  }

  /** The sentinel is the last entry of a queue, and only of a queue no emit can reach any more. */
  ghost predicate QueueOk(s: State, d: Drainer) {
    && (forall i :: 0 <= i < |d.queue| - 1 ==> d.queue[i].Put?)
    && (s.current.Some? ==> (forall i :: 0 <= i < |d.queue| ==> d.queue[i].Put?) && !Under(d.stage).Stopped?)
    && (Under(d.stage).Stopped? ==> d.queue == [])
  }

  ghost predicate Writes(s: State, d: Drainer) {
    var u := Under(d.stage);
    && (Delivery.InFlight(u) ==> s.events != [] && u.msg == s.events[|s.events| - 1])
    && s.channel == (if Delivery.InFlight(u) then s.events[..|s.events| - 1] else s.events)
    && s.snapshot == Newest(if (u.Pushed? || u.Expired?) && s.events != [] then s.events[..|s.events| - 1] else s.events)
  }

  ghost predicate Books(s: State, d: Drainer) {
    && s.emitted == Items(s.events) + Hand(Under(d.stage)) + Queued(d.queue)
    && QueueOk(s, d) && Writes(s, d)
  }

  ghost predicate Inv(s: State) {
    && Delivery.RolesOk(s)
    && (s.writer.None? ==> s.emitted == Items(s.events) && s.channel == s.events && s.snapshot == Newest(s.events))
    && (s.writer.Some? ==> Books(s, s.drainers[s.writer.value]))
  }

  /** The drainer left nothing behind: no event in hand, in flight or queued. */
  predicate Exhausted(d: Drainer) {
    var u := Under(d.stage);
    Hand(u) == [] && !Delivery.InFlight(u) && Queued(d.queue) == []
  }

  /** A new drainer starts only after its predecessor is dead and exhausted, as one that exits through
      the sentinel is. */
  ghost predicate TidyStep(s: State, a: Action) {
    a.Emit? && s.current.None? ==>
      && (forall id :: id in s.drainers ==> Dead(s.drainers[id].stage))
      && (s.writer.Some? && s.writer.value in s.drainers ==> Exhausted(s.drainers[s.writer.value]))
      && a.task !in s.drainers
  }

  ghost predicate TidyRun(s: State, actions: seq<Action>)
    decreases |actions|
  {
    actions != [] ==> TidyStep(s, actions[0]) && TidyRun(Next(s, actions[0]), actions[1..])
  }

  lemma {:induction false} QueuedAppend(queue: seq<Entry>, e: Entry)
    ensures Queued(queue + [e]) == Queued(queue) + (if e.Put? then [e.item] else [])
  {
    if queue == [] {
      assert queue + [e] == [e];
    } else {
      QueuedAppend(queue[1..], e);
      assert (queue + [e])[1..] == queue[1..] + [e];
    }
  }

  lemma ItemsAppend(msgs: seq<Msg>, m: Msg)
    ensures Items(msgs + [m]) == Items(msgs) + [m.item]
  {
  }

  lemma InitInv(s: State)
    requires Init(s)
    ensures Inv(s)
  {
  }

  lemma PutKeepsInv(s: State, item: Item, task: nat)
    requires Inv(s) && s.current.Some?
    ensures Inv(EmitNext(s, item, task))
  {
    hide Items, Queued;
    QueuedAppend(s.drainers[s.current.value].queue, Put(item));
  }

  lemma FirstPutKeepsInv(s: State, item: Item, task: nat)
    requires Inv(s) && s.current.None? && TidyStep(s, Emit(item, task))
    ensures Inv(EmitNext(s, item, task))
  {
    hide Items, Queued;
    QueuedOne(item);
    if s.writer.Some? {
      LeftNothing(s, s.drainers[s.writer.value]);
    }
  }

  lemma EmitKeepsInv(s: State, item: Item, task: nat)
    requires Inv(s) && TidyStep(s, Emit(item, task))
    ensures Inv(EmitNext(s, item, task))
  {
    hide Inv, EmitNext;
    if s.current.Some? {
      PutKeepsInv(s, item, task);
    } else {
      FirstPutKeepsInv(s, item, task);
    }
  }

  lemma QueuedOne(item: Item)
    ensures Queued([Put(item)]) == [item]
  {
    assert Queued([Put(item)][1..]) == [];
  }

  lemma LeftNothing(s: State, d: Drainer)
    requires Books(s, d) && Exhausted(d)
    ensures s.emitted == Items(s.events) && s.channel == s.events && s.snapshot == Newest(s.events)
  {
    hide Items, Queued;
    var u := Under(d.stage);
    assert !u.Pushed? && !u.Expired?;
    assert Items(s.events) + [] + [] == Items(s.events);
  }

  lemma CloseKeepsInv(s: State)
    requires Inv(s)
    ensures Inv(CloseNext(s))
  {
    if s.current.Some? {
      QueuedAppend(s.drainers[s.current.value].queue, Stop);
    }
  }

  lemma TakeKeepsInv(s: State, id: nat)
    requires Inv(s) && s.writer == Some(id) && s.drainers[id].stage.Waiting?
    ensures Inv(DrainNext(s, id))
  {
    var d := s.drainers[id];
    if d.queue != [] {
      assert d.queue[0].Stop? ==> d.queue == [Stop];
    }
  }

  lemma PushKeepsInv(s: State, id: nat)
    requires Inv(s) && s.writer == Some(id) && s.drainers[id].stage.Numbered?
    ensures Inv(DrainNext(s, id))
  {
    var m := s.drainers[id].stage.msg;
    ItemsAppend(s.events, m);
    assert (s.events + [m])[..|s.events|] == s.events;
  }

  lemma PublishKeepsInv(s: State, id: nat)
    requires Inv(s) && s.writer == Some(id) && s.drainers[id].stage.Snapped?
    ensures Inv(DrainNext(s, id))
  {
    assert s.events[..|s.events| - 1] + [s.events[|s.events| - 1]] == s.events;
  }

  lemma NumberKeepsInv(s: State, id: nat)
    requires Inv(s) && s.writer == Some(id) && s.drainers[id].stage.Holding?
    ensures Inv(DrainNext(s, id))
  {
  }

  lemma WriteKeepsInv(s: State, id: nat)
    requires Inv(s) && s.writer == Some(id)
    requires var stage := s.drainers[id].stage; stage.Pushed? || stage.Expired? || stage.Published? || Dead(stage)
    ensures Inv(DrainNext(s, id))
  {
  }

  /** Halting changes neither what a drainer holds nor what it has written. */
  lemma HaltKeepsBooks(s: State, t: State, d: Drainer)
    requires Books(s, d)
    requires t.emitted == s.emitted && t.events == s.events && t.counter == s.counter
    requires t.channel == s.channel && t.snapshot == s.snapshot && (t.current == s.current || t.current.None?)
    ensures Books(t, d.(stage := HaltStage(d.stage)))
  {
    hide Items, Queued;
    assert Under(HaltStage(d.stage)) == Under(d.stage);
  }

  lemma HaltKeepsInv(s: State, a: Action)
    requires Inv(s) && (a.Halt? || a.Crash?)
    ensures Inv(Next(s, a))
  {
    hide Books;
    if s.writer.Some? {
      var d := s.drainers[s.writer.value];
      HaltKeepsBooks(s, Next(s, a), d);
      if a.Halt? { OthersKeepBooks(s, Next(s, a), d); }
    }
  }

  lemma OthersKeepBooks(s: State, t: State, d: Drainer)
    requires Books(s, d)
    requires t.emitted == s.emitted && t.events == s.events && t.counter == s.counter
    requires t.channel == s.channel && t.snapshot == s.snapshot && t.current == s.current
    ensures Books(t, d)
  {
  }

  /** Dead drainers do nothing, and all but the writer are dead. */
  lemma IdleUnlessWriter(s: State, id: nat)
    requires Inv(s)
    ensures s.writer == Some(id) ==> id in s.drainers
    ensures s.writer != Some(id) ==> Next(s, Step(id)) == s
  {
    hide Books;
  }

  lemma ReaderActionKeepsInv(s: State, a: Action)
    requires Inv(s) && (a.Attach? || a.Range? || a.Yield? || a.Poll? || a.Silent? || a.Leave?)
    ensures Inv(Next(s, a))
  {
    hide Books, ReaderNext;
    if s.writer.Some? {
      OthersKeepBooks(s, Next(s, a), s.drainers[s.writer.value]);
    }
  }

  lemma StepKeepsInv(s: State, a: Action)
    requires Inv(s) && TidyStep(s, a)
    ensures Inv(Next(s, a))
  {
    hide Inv, Books;
    match a {
      case Emit(item, task) => EmitKeepsInv(s, item, task);
      case Close => CloseKeepsInv(s);
      case Step(id) =>
        IdleUnlessWriter(s, id);
        if s.writer == Some(id) && id in s.drainers {
          if s.drainers[id].stage.Waiting? { TakeKeepsInv(s, id); }
          else if s.drainers[id].stage.Numbered? { PushKeepsInv(s, id); }
          else if s.drainers[id].stage.Holding? { NumberKeepsInv(s, id); }
          else if s.drainers[id].stage.Snapped? { PublishKeepsInv(s, id); }
          else { WriteKeepsInv(s, id); }
        }
      case Halt(_) => HaltKeepsInv(s, a);
      case Crash => HaltKeepsInv(s, a);
      case _ => ReaderActionKeepsInv(s, a);
    }
  }

  lemma TidyIsSerial(s: State, a: Action)
    requires Inv(s) && TidyStep(s, a)
    ensures SerialStep(s, a)
  {
    if a.Emit? && s.current.None? {
      assert s.channel == s.events;
      assert Lag(s) == 0;
    }
  }

  lemma {:induction false} RunKeepsInv(s: State, actions: seq<Action>)
    requires Inv(s) && TidyRun(s, actions)
    ensures Inv(Run(s, actions)) && SerialRun(s, actions) && Restarts.ApartRun(s, actions)
    decreases |actions|
  {
    if actions != [] {
      StepKeepsInv(s, actions[0]);
      TidyIsSerial(s, actions[0]);
      RunKeepsInv(Next(s, actions[0]), actions[1..]);
    }
  }

  /** One job's use of the publisher: nothing is emitted after `close` or a crash of the worker. */
  ghost predicate OneRun(actions: seq<Action>)
    decreases |actions|
  {
    actions != [] ==>
      && OneRun(actions[1..])
      && ((actions[0].Close? || actions[0].Crash?) ==> forall a :: a in actions[1..] ==> !a.Emit?)
  }

  lemma {:induction false} QuietIsTidy(s: State, actions: seq<Action>)
    requires forall a :: a in actions ==> !a.Emit?
    ensures TidyRun(s, actions)
    decreases |actions|
  {
    if actions != [] {
      assert actions[0] in actions && forall a :: a in actions[1..] ==> a in actions;
      QuietIsTidy(Next(s, actions[0]), actions[1..]);
    }
  }

  /** What the source's use of the publisher gives: one run is tidy, wherever its drainer halts. */
  lemma {:induction false} OneRunIsTidy(s: State, actions: seq<Action>)
    requires OneRun(actions)
    requires s.current.Some? || (s.drainers == map[] && s.writer.None?)
    ensures TidyRun(s, actions)
    decreases |actions|
  {
    if actions != [] {
      if actions[0].Close? || actions[0].Crash? {
        QuietIsTidy(Next(s, actions[0]), actions[1..]);
      } else {
        OneRunIsTidy(Next(s, actions[0]), actions[1..]);
      }
    }
  }

  // ---------------------------------------------------------------------------
  // Theorems
  // ---------------------------------------------------------------------------

  /** Conservation and order at every step: what was emitted is what is listed, then the event in the
      drainer's hand, then the queue; after the sentinel it is the list alone, and all of it is published. */
  lemma Conservation(s0: State, actions: seq<Action>)
    requires Init(s0) && TidyRun(s0, actions)
    ensures var s := Run(s0, actions);
            && (s.writer.Some? ==>
                  && s.writer.value in s.drainers
                  && var d := s.drainers[s.writer.value];
                     && s.emitted == Items(s.events) + Hand(Under(d.stage)) + Queued(d.queue)
                     && (d.stage.Stopped? ==> s.emitted == Items(s.events) && s.channel == s.events))
            && (s.writer.None? ==> s.emitted == Items(s.events))
  {
    InitInv(s0);
    RunKeepsInv(s0, actions);
  }

  /** The items one producer put into a sequence, in order. */
  function By(items: seq<Item>, producer: nat): seq<Item> {
    if items == [] then [] else If(items[0], producer) + By(items[1..], producer)
  }

  function If(item: Item, producer: nat): seq<Item> {
    if item.producer == producer then [item] else []
  }

  lemma Associate(a: seq<Item>, b: seq<Item>, c: seq<Item>)
    ensures a + (b + c) == (a + b) + c
  {
  }

  lemma ByCons(item: Item, rest: seq<Item>, producer: nat)
    ensures By([item] + rest, producer) == If(item, producer) + By(rest, producer)
  {
    assert ([item] + rest)[1..] == rest;
  }

  lemma {:induction false} ByConcat(a: seq<Item>, b: seq<Item>, producer: nat)
    ensures By(a + b, producer) == By(a, producer) + By(b, producer)
  {
    hide If;
    if a == [] {
      assert a + b == b;
    } else {
      hide By;
      ByCons(a[0], a[1..], producer);
      ByCons(a[0], a[1..] + b, producer);
      ByConcat(a[1..], b, producer);
      Associate(If(a[0], producer), By(a[1..], producer), By(b, producer));
      assert a == [a[0]] + a[1..] && a + b == [a[0]] + (a[1..] + b);
    }
  }

  /** The emits of a run, as its producers issued them. */
  function Emits(actions: seq<Action>): seq<Item> {
    if actions == [] then []
    else (if actions[0].Emit? then [actions[0].item] else []) + Emits(actions[1..])
  }

  lemma EmittedByStep(s: State, a: Action)
    requires Inv(s) && TidyStep(s, a)
    ensures Next(s, a).emitted == s.emitted + (if a.Emit? then [a.item] else [])
  {
  }

  lemma {:induction false} EmittedByRun(s: State, actions: seq<Action>)
    requires Inv(s) && TidyRun(s, actions)
    ensures Run(s, actions).emitted == s.emitted + Emits(actions)
    decreases |actions|
  {
    hide Next, TidyStep, Inv;
    if actions != [] {
      var next, rest := Next(s, actions[0]), actions[1..];
      StepKeepsInv(s, actions[0]);
      EmittedByStep(s, actions[0]);
      EmittedByRun(next, rest);
      var head := if actions[0].Emit? then [actions[0].item] else [];
      assert Emits(actions) == head + Emits(rest);
      assert s.emitted + (head + Emits(rest)) == (s.emitted + head) + Emits(rest);
      assert Run(next, rest).emitted == next.emitted + Emits(rest);
    }
  }

  /** Each producer's events are listed in the order it emitted them, whoever else was emitting. */
  lemma ProducerOrderKept(s0: State, actions: seq<Action>, producer: nat)
    requires Init(s0) && TidyRun(s0, actions)
    ensures By(Items(Run(s0, actions).events), producer) <= By(s0.emitted + Emits(actions), producer)
  {
    InitInv(s0);
    EmittedByRun(s0, actions);
    Conservation(s0, actions);
    var s := Run(s0, actions);
    var listed := Items(s.events);
    assert listed <= s.emitted;
    assert s.emitted == listed + s.emitted[|listed|..];
    ByConcat(listed, s.emitted[|listed|..], producer);
  }

  /** Once the drainer has exited through the sentinel and a reader has consumed its inbox, the reader's
      output is the whole sequence of emitted events. */
  lemma WholeSequence(s0: State, actions: seq<Action>, r: nat)
    requires Init(s0) && TidyRun(s0, actions)
    requires var s := Run(s0, actions);
             && s.writer.Some? && s.writer.value in s.drainers && s.drainers[s.writer.value].stage.Stopped?
             && r in s.readers && s.readers[r].phase.Tailing? && s.readers[r].inbox == []
    ensures Items(Shown(Run(s0, actions).readers[r].out)) == s0.emitted + Emits(actions)
  {
    hide Run, Init, TidyRun, Delivery.Inv, Inv;
    InitInv(s0);
    Delivery.InitInv(s0);
    RunKeepsInv(s0, actions);
    Delivery.RunKeepsInv(s0, actions);
    EmittedByRun(s0, actions);
    Conservation(s0, actions);
    Delivery.DrainedReaderIsCurrent(Run(s0, actions), r);
  }
}
