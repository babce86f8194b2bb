/** Drainers that follow one another without overlapping, wherever they halt: numbers never go back, and a
    reader gets exactly what was listed when it looked and what was published, each once and in order. */
module Restarts {
  import opened Options
  import opened Protocol
  import opened Delivery

  /** A new drainer starts only when the earlier ones are dead; what they left behind does not matter. */
  ghost predicate ApartStep(s: State, a: Action) {
    a.Emit? && s.current.None? ==> (forall id :: id in s.drainers ==> Dead(s.drainers[id].stage)) && a.task !in s.drainers
  }

  ghost predicate ApartRun(s: State, actions: seq<Action>)
    decreases |actions|
  {
    actions != [] ==> ApartStep(s, actions[0]) && ApartRun(Next(s, actions[0]), actions[1..])
  }

  /** What a reader past its LRANGE has sent or will send: its backlog, then all that is published. */
  ghost predicate Gets(channel: seq<Msg>, r: Reader) {
    && r.backlog <= Future(r) && Ascending(Future(r))
    && forall m :: m in Future(r) <==> m in r.backlog || m in channel
  }

  ghost predicate ReaderSafe(events: seq<Msg>, channel: seq<Msg>, r: Reader) {
    && (Attached(r) ==> forall m :: m in r.inbox ==> m in channel)
    && match r.phase {
         case Subscribed => r.out == [] && r.replayed == {}
         case Replaying(next) =>
           && r.backlog <= events && next <= |r.backlog| && r.replayed == Seqs(r.backlog[..next])
           && Shown(r.out) == r.backlog[..next] && Gets(channel, r)
         case Tailing => r.backlog <= events && r.replayed == Seqs(r.backlog) && Gets(channel, r)
         case _ => Ascending(Shown(r.out)) && forall m :: m in Shown(r.out) ==> m in events
       }
  }

  ghost predicate WriterOk(s: State, stage: Stage) {
    match stage
    case Numbered(m) => m.seqNo == s.counter && forall x :: x in s.events ==> x.seqNo < m.seqNo
    case _ => InFlight(stage) ==> s.events != [] && stage.msg == s.events[|s.events| - 1] && stage.msg !in s.channel
  }

  ghost predicate AllSafe(s: State) {
    forall r :: r in s.readers ==> ReaderSafe(s.events, s.channel, s.readers[r])
  }

  ghost predicate Inv(s: State) {
    && ListOk(s) && RolesOk(s) && AllSafe(s)
    && (forall m :: m in s.channel ==> m in s.events)
    && (s.writer.Some? ==> WriterOk(s, s.drainers[s.writer.value].stage))
  }

  /** Nothing is numbered twice, so a number names its event. */
  lemma SameSeq(events: seq<Msg>, a: Msg, b: Msg)
    requires Ascending(events) && a in events && b in events && a.seqNo == b.seqNo
    ensures a == b
  {
    var i :| 0 <= i < |events| && events[i] == a;
    var j :| 0 <= j < |events| && events[j] == b;
    assert !(i < j) && !(j < i);
  }

  lemma PrefixAscends(a: seq<Msg>, b: seq<Msg>)
    requires a <= b && Ascending(b)
    ensures Ascending(a) && forall m :: m in a ==> m in b
  {
  }

  // ---------------------------------------------------------------------------
  // One reader
  // ---------------------------------------------------------------------------

  lemma OutputIsSafe(events: seq<Msg>, channel: seq<Msg>, r: Reader)
    requires ReaderSafe(events, channel, r) && forall m :: m in channel ==> m in events
    ensures Ascending(Shown(r.out)) && forall m :: m in Shown(r.out) ==> m in events
  {
    hide Shown, Fresh, Seqs;
    if PastRange(r) {
      assert Shown(r.out) <= Future(r);
      PrefixAscends(Shown(r.out), Future(r));
    } else if r.phase.Subscribed? {
      assert Shown(r.out) == [] by { NothingShown(); }
    }
  }

  lemma NothingShown()
    ensures Shown([]) == []
  {
  }

  lemma AfterRange(events: seq<Msg>, channel: seq<Msg>, r: Reader)
    requires ReaderSafe(events, channel, r) && r.phase.Subscribed? && Ascending(events)
    requires forall m :: m in channel ==> m in events
    ensures ReaderSafe(events, channel, RangeNext(r, events))
  {
    var after := RangeNext(r, events);
    FreshNone(r.inbox, Seqs(events));
    assert Future(after) == events;
  }

  lemma AfterYield(events: seq<Msg>, channel: seq<Msg>, r: Reader)
    requires ReaderSafe(events, channel, r) && r.phase.Replaying?
    ensures ReaderSafe(events, channel, YieldNext(r))
  {
    hide Fresh, Shown, Seqs, Future;
    var after, next := YieldNext(r), r.phase.next;
    if next == |r.backlog| {
      assert r.backlog[..next] == r.backlog;
      FutureAfterReplay(r);
    } else {
      var m := r.backlog[next];
      ShownAppend(r.out, Frame(m));
      assert Shown(after.out) == r.backlog[..next] + [m] == r.backlog[..next + 1];
      if IsTerminal(m) {
        PrefixAscends(r.backlog[..next + 1], Future(r));
        assert forall x :: x in r.backlog[..next + 1] ==> x in events;
      } else {
        SeqsAppend(r.backlog[..next], m);
        FutureAfterYield(r);
      }
    }
  }

  lemma AfterPoll(events: seq<Msg>, channel: seq<Msg>, r: Reader)
    requires ReaderSafe(events, channel, r) && r.phase.Tailing? && forall m :: m in channel ==> m in events
    ensures ReaderSafe(events, channel, PollNext(r))
  {
    hide Fresh, Shown, Seqs, Future;
    var after := PollNext(r);
    FutureAfterPoll(r);
    if after.phase.Finished? {
      PrefixAscends(Shown(after.out), Future(r));
      assert forall m :: m in Future(r) ==> m in events;
    }
  }

  lemma AfterSilent(events: seq<Msg>, channel: seq<Msg>, r: Reader)
    requires ReaderSafe(events, channel, r) && r.phase.Tailing?
    ensures ReaderSafe(events, channel, SilentNext(r))
  {
    hide Fresh, Shown, Seqs;
    ShownAppend(r.out, Keepalive);
    assert Shown(SilentNext(r).out) == Shown(r.out);
    assert Future(SilentNext(r)) == Future(r);
  }

  lemma AfterTurn(events: seq<Msg>, channel: seq<Msg>, r: Reader, a: Action)
    requires ReaderSafe(events, channel, r) && IsReaderAction(a) && Ascending(events)
    requires forall m :: m in channel ==> m in events
    ensures ReaderSafe(events, channel, ReaderNext(r, a, events))
  {
    hide ReaderSafe;
    match a {
      case Range(_) => if r.phase.Subscribed? { AfterRange(events, channel, r); }
      case Yield(_) => if r.phase.Replaying? { AfterYield(events, channel, r); }
      case Poll(_) => if r.phase.Tailing? { AfterPoll(events, channel, r); }
      case Silent(_) => if r.phase.Tailing? { AfterSilent(events, channel, r); }
      case Leave(_) => if Attached(r) { AfterLeave(events, channel, r); }
    }
  }

  lemma AfterLeave(events: seq<Msg>, channel: seq<Msg>, r: Reader)
    requires ReaderSafe(events, channel, r) && Attached(r) && forall m :: m in channel ==> m in events
    ensures ReaderSafe(events, channel, LeaveNext(r))
  {
    OutputIsSafe(events, channel, r);
  }

  lemma AfterPush(events: seq<Msg>, channel: seq<Msg>, r: Reader, m: Msg)
    requires ReaderSafe(events, channel, r)
    ensures ReaderSafe(events + [m], channel, r)
  {
    hide Future, Shown, Seqs;
  }

  /** PUBLISH of the newest listed event. */
  lemma AfterPublish(events: seq<Msg>, channel: seq<Msg>, r: Reader, m: Msg)
    requires ReaderSafe(events, channel, r) && Ascending(events) && forall x :: x in channel ==> x in events
    requires events != [] && m == events[|events| - 1] && m !in channel
    ensures ReaderSafe(events, channel + [m], DeliverTo(r, m))
  {
    hide Future, Shown, Seqs;
    if PastRange(r) {
      var after, had := DeliverTo(r, m), Future(r);
      FutureAfterDelivery(r, m);
      if m in r.backlog {
        assert Future(after) == had;
      } else {
        NotReplayed(events, r.backlog, m);
        forall x | x in had
          ensures x.seqNo < m.seqNo
        {
          var i :| 0 <= i < |events| && events[i] == x;
          assert i != |events| - 1;
        }
      }
    }
  }

  lemma NotReplayed(events: seq<Msg>, backlog: seq<Msg>, m: Msg)
    requires Ascending(events) && backlog <= events && m in events && m !in backlog
    ensures m.seqNo !in Seqs(backlog)
  {
    forall x | x in backlog
      ensures x.seqNo != m.seqNo
    {
      if x.seqNo == m.seqNo { SameSeq(events, x, m); }
    }
  }

  // ---------------------------------------------------------------------------
  // The session
  // ---------------------------------------------------------------------------

  lemma PushKeepsInv(s: State, id: nat)
    requires Inv(s) && s.writer == Some(id) && s.drainers[id].stage.Numbered?
    ensures Inv(DrainNext(s, id))
  {
    hide ReaderSafe;
    forall r | r in s.readers
      ensures ReaderSafe(DrainNext(s, id).events, s.channel, s.readers[r])
    {
      AfterPush(s.events, s.channel, s.readers[r], s.drainers[id].stage.msg);
    }
  }

  lemma PublishKeepsInv(s: State, id: nat)
    requires Inv(s) && s.writer == Some(id) && s.drainers[id].stage.Snapped?
    ensures Inv(DrainNext(s, id))
  {
    hide ReaderSafe, DeliverTo;
    forall r | r in s.readers
      ensures ReaderSafe(s.events, DrainNext(s, id).channel, DeliverTo(s.readers[r], s.drainers[id].stage.msg))
    {
      AfterPublish(s.events, s.channel, s.readers[r], s.drainers[id].stage.msg);
    }
  }

  /** INCR. */
  lemma NumberKeepsInv(s: State, id: nat)
    requires Inv(s) && s.writer == Some(id) && s.drainers[id].stage.Holding?
    ensures Inv(DrainNext(s, id))
  {
    hide ReaderSafe, Deliver;
  }

  /** GET, EXPIRE, SET, and a drainer that has stopped. */
  lemma QuietDrainKeepsInv(s: State, id: nat)
    requires Inv(s) && s.writer == Some(id)
    requires var stage := s.drainers[id].stage; !stage.Holding? && !stage.Numbered? && !stage.Snapped?
    ensures Inv(DrainNext(s, id))
  {
    hide ReaderSafe, Deliver, ListOk;
    assert ListOk(DrainNext(s, id)) by { SameList(s, DrainNext(s, id)); }
  }

  lemma DrainKeepsInv(s: State, id: nat)
    requires Inv(s) && id in s.drainers
    ensures Inv(DrainNext(s, id))
  {
    hide ReaderSafe, ListOk, AllSafe, DrainNext;
    var stage := s.drainers[id].stage;
    if s.writer != Some(id) {
      OnlyWriterMoves(s, id);
    } else if stage.Holding? {
      NumberKeepsInv(s, id);
    } else if stage.Numbered? {
      PushKeepsInv(s, id);
    } else if stage.Snapped? {
      PublishKeepsInv(s, id);
    } else {
      QuietDrainKeepsInv(s, id);
    }
  }

  lemma ReaderActionKeepsInv(s: State, a: Action, r: nat)
    requires Inv(s) && r in s.readers
    requires a == Range(r) || a == Yield(r) || a == Poll(r) || a == Silent(r) || a == Leave(r)
    ensures Inv(Next(s, a))
  {
    hide ReaderSafe, ReaderNext, WriterOk, RolesOk;
    AfterTurn(s.events, s.channel, s.readers[r], a);
    SameWriter(s, Next(s, a));
  }

  /** An action that leaves list, channel, counter and drainers alone. */
  lemma SameWriter(s: State, t: State)
    requires Inv(s) && t.events == s.events && t.channel == s.channel && t.counter == s.counter
    requires t.drainers == s.drainers && t.writer == s.writer && t.current == s.current
    ensures RolesOk(t) && (t.writer.Some? ==> WriterOk(t, t.drainers[t.writer.value].stage))
  {
    hide AllSafe, ListOk;
  }

  lemma PublisherActionKeepsInv(s: State, a: Action)
    requires Inv(s) && ApartStep(s, a) && (a.Emit? || a.Close? || a.Halt? || a.Crash?)
    ensures Inv(Next(s, a))
  {
    hide ReaderSafe, ListOk;
    assert ListOk(Next(s, a)) by { SameList(s, Next(s, a)); }
  }

  lemma SameList(s: State, t: State)
    requires ListOk(s) && t.events == s.events && t.channel == s.channel && t.counter == s.counter
    ensures ListOk(t)
  {
  }

  lemma StepKeepsInv(s: State, a: Action)
    requires Inv(s) && ApartStep(s, a)
    ensures Inv(Next(s, a))
  {
    hide Inv, DrainNext, ReaderNext;
    match a {
      case Step(id) => if id in s.drainers { DrainKeepsInv(s, id); }
      case Attach(r) => AttachKeepsInv(s, r);
      case Range(r) => if r in s.readers { ReaderActionKeepsInv(s, a, r); }
      case Yield(r) => if r in s.readers { ReaderActionKeepsInv(s, a, r); }
      case Poll(r) => if r in s.readers { ReaderActionKeepsInv(s, a, r); }
      case Silent(r) => if r in s.readers { ReaderActionKeepsInv(s, a, r); }
      case Leave(r) => if r in s.readers { ReaderActionKeepsInv(s, a, r); }
      case _ => PublisherActionKeepsInv(s, a);
    }
  }

  lemma AttachKeepsInv(s: State, r: nat)
    requires Inv(s)
    ensures Inv(Next(s, Attach(r)))
  {
    hide ReaderSafe;
    AttachedIsSafe(s.events, s.channel);
  }

  lemma AttachedIsSafe(events: seq<Msg>, channel: seq<Msg>)
    ensures ReaderSafe(events, channel, JUST_SUBSCRIBED)
  {
  }

  lemma {:induction false} RunKeepsInv(s: State, actions: seq<Action>)
    requires Inv(s) && ApartRun(s, actions)
    ensures Inv(Run(s, actions))
    decreases |actions|
  {
    hide Inv, Next;
    if actions != [] {
      StepKeepsInv(s, actions[0]);
      RunKeepsInv(Next(s, actions[0]), actions[1..]);
    }
  }

  /** Over any number of drainers that do not overlap, each halting wherever it likes: the list's numbers
      strictly increase, and no reader is sent an event twice, out of order, or one that is not listed. */
  lemma AtMostOnceInOrder(s0: State, actions: seq<Action>)
    requires Init(s0) && ApartRun(s0, actions)
    ensures var s := Run(s0, actions);
            && Ascending(s.events)
            && forall r :: r in s.readers ==>
                 Ascending(Shown(s.readers[r].out)) && forall m :: m in Shown(s.readers[r].out) ==> m in s.events
  {
    RunKeepsInv(s0, actions);
    var s := Run(s0, actions);
    forall r | r in s.readers
      ensures Ascending(Shown(s.readers[r].out)) && forall m :: m in Shown(s.readers[r].out) ==> m in s.events
    {
      OutputIsSafe(s.events, s.channel, s.readers[r]);
    }
  }

  /** What a reader that has caught up was sent, exactly: the list as its LRANGE found it, and everything
      published. So all it can miss is an event whose drainer halted between RPUSH and PUBLISH. */
  lemma CaughtUpReaderHas(s0: State, actions: seq<Action>, r: nat)
    requires Init(s0) && ApartRun(s0, actions)
    requires var s := Run(s0, actions);
             r in s.readers && s.readers[r].phase.Tailing? && s.readers[r].inbox == []
    ensures var s := Run(s0, actions);
            var out := Shown(s.readers[r].out);
            && s.readers[r].backlog <= out && Ascending(out)
            && forall m :: m in out <==> m in s.readers[r].backlog || m in s.channel
  {
    RunKeepsInv(s0, actions);
    var s := Run(s0, actions);
    assert ReaderSafe(s.events, s.channel, s.readers[r]);
    assert Future(s.readers[r]) == Shown(s.readers[r].out);
  }
}
