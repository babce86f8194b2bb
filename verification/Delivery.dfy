/** The invariants of a session and the delivery theorems for its readers. */
module Delivery {
  import opened Options
  import opened Protocol

  // ---------------------------------------------------------------------------
  // One reader against the list
  // ---------------------------------------------------------------------------

  function Seqs(msgs: seq<Msg>): set<nat> {
    set m | m in msgs :: m.seqNo
  }

  /** The messages whose seq was not replayed. */
  function Fresh(msgs: seq<Msg>, seen: set<nat>): seq<Msg> {
    if msgs == [] then []
    else (if msgs[0].seqNo in seen then [] else [msgs[0]]) + Fresh(msgs[1..], seen)
  }

  function Max(a: int, b: int): int {
    if a >= b then a else b
  }

  predicate PastRange(r: Reader) {
    r.phase.Replaying? || r.phase.Tailing?
  }

  /** What a reader will have sent once it has replayed its backlog and drained its inbox. */
  function Future(r: Reader): seq<Msg> {
    Shown(r.out)
    + (if r.phase.Replaying? && r.phase.next <= |r.backlog| then r.backlog[r.phase.next..] else [])
    + Fresh(r.inbox, Seqs(r.backlog))
  }

  /** `pub` counts the listed events that have been published or will never be. */
  ghost predicate ReaderOk(events: seq<Msg>, pub: nat, r: Reader) {
    && pub <= |events|
    && (Attached(r) ==> NoTerminal(Shown(r.out)) && forall m :: m in r.inbox ==> m in events)
    && match r.phase {
         case Subscribed => r.out == []  && r.replayed == {}
         case Replaying(next) =>
           && r.backlog <= events && next <= |r.backlog|
           && r.replayed == Seqs(r.backlog[..next])
           && Shown(r.out) == r.backlog[..next]
           && Future(r) == events[..Max(|r.backlog|, pub)]
         case Tailing =>
           && r.backlog <= events
           && r.replayed == Seqs(r.backlog)
           && Future(r) == events[..Max(|r.backlog|, pub)]
         case Finished => Shown(r.out) <= events && EndsAtFirstTerminal(Shown(r.out))
         case Gone => Shown(r.out) <= events
       }
  }

  /** The reader has, or will get, everything listed so far. */
  ghost predicate Caught(events: seq<Msg>, pub: nat, r: Reader) {
    PastRange(r) ==> Max(|r.backlog|, pub) == |events|
  }

  lemma {:induction false} ShownAppend(out: seq<Frame>, f: Frame)
    ensures Shown(out + [f]) == Shown(out) + (if f.Frame? then [f.msg] else [])
  {
    if out == [] {
      assert out + [f] == [f];
    } else {
      ShownAppend(out[1..], f);
      assert (out + [f])[1..] == out[1..] + [f];
    }
  }

  lemma {:induction false} FreshAppend(msgs: seq<Msg>, m: Msg, seen: set<nat>)
    ensures Fresh(msgs + [m], seen) == Fresh(msgs, seen) + (if m.seqNo in seen then [] else [m])
  {
    if msgs == [] {
      assert msgs + [m] == [m];
    } else {
      FreshAppend(msgs[1..], m, seen);
      assert (msgs + [m])[1..] == msgs[1..] + [m];
    }
  }

  lemma {:induction false} FreshNone(msgs: seq<Msg>, seen: set<nat>)
    requires forall m :: m in msgs ==> m.seqNo in seen
    ensures Fresh(msgs, seen) == []
  {
    if msgs != [] {
      FreshNone(msgs[1..], seen);
    }
  }

  lemma OutputIsPrefix(events: seq<Msg>, pub: nat, r: Reader)
    requires ReaderOk(events, pub, r)
    ensures Shown(r.out) <= events
  {
    if PastRange(r) {
      assert Shown(r.out) <= Future(r) <= events;
    }
  }

  // Each of the ways a reader's situation can change

  lemma AfterRange(events: seq<Msg>, pub: nat, r: Reader)
    requires ReaderOk(events, pub, r) && r.phase.Subscribed?
    ensures ReaderOk(events, pub, RangeNext(r, events)) && Caught(events, pub, RangeNext(r, events))
  {
    FreshNone(r.inbox, Seqs(events));
    var after := RangeNext(r, events);
    assert Future(after) == events;
    assert events[..Max(|events|, pub)] == events;
  }

  lemma AfterYield(events: seq<Msg>, pub: nat, r: Reader)
    requires ReaderOk(events, pub, r) && r.phase.Replaying? && r.phase.next < |r.backlog|
    ensures ReaderOk(events, pub, YieldNext(r))
  {
    hide Fresh, Max, Future, Shown, Seqs;
    var after, next := YieldNext(r), r.phase.next;
    var m := r.backlog[next];
    ShownAppend(r.out, Frame(m));
    var sent := Shown(r.out);
    assert sent == r.backlog[..next] && Shown(after.out) == sent + [m] == r.backlog[..next + 1];
    if IsTerminal(m) {
      assert (sent + [m])[..|sent|] == sent;
    } else {
      SeqsAppend(sent, m);
      FutureAfterYield(r);
    }
  }

  lemma FutureAfterYield(r: Reader)
    requires r.phase.Replaying? && r.phase.next < |r.backlog| && !IsTerminal(r.backlog[r.phase.next])
    ensures Future(YieldNext(r)) == Future(r)
  {
    hide Fresh, Seqs;
    var next := r.phase.next;
    ShownAppend(r.out, Frame(r.backlog[next]));
    assert r.backlog[next..] == [r.backlog[next]] + r.backlog[next + 1..];
  }

  lemma SeqsAppend(msgs: seq<Msg>, m: Msg)
    ensures Seqs(msgs + [m]) == Seqs(msgs) + {m.seqNo}
  {
    forall x | x in msgs
      ensures x.seqNo in Seqs(msgs + [m])
    {
      assert x in msgs + [m];
    }
    assert m in msgs + [m];
  }

  lemma AfterReplay(events: seq<Msg>, pub: nat, r: Reader)
    requires ReaderOk(events, pub, r) && r.phase.Replaying? && r.phase.next == |r.backlog|
    ensures ReaderOk(events, pub, YieldNext(r))
  {
    hide Fresh, Max;
    var n := |r.backlog|;
    assert r.backlog[..n] == r.backlog && r.backlog[n..] == [];
    assert Future(YieldNext(r)) == Future(r);
  }

  lemma AfterPoll(events: seq<Msg>, pub: nat, r: Reader)
    requires ReaderOk(events, pub, r) && r.phase.Tailing?
    ensures ReaderOk(events, pub, PollNext(r))
  {
    hide Shown, Seqs, Fresh;
    var after := PollNext(r);
    if r.inbox == [] {
      ShownAppend(r.out, Keepalive);
      assert Shown(after.out) == Shown(r.out);
      assert Future(after) == Future(r);
    } else {
      var m, shown, seen := r.inbox[0], Shown(r.out), Seqs(r.backlog);
      var later := Fresh(r.inbox[1..], seen);
      FreshStep(r.inbox, seen);
      if m.seqNo in r.replayed {
        assert Future(after) == Future(r);
      } else {
        ShownAppend(r.out, Frame(m));
        assert Future(r) == (shown + [m]) + later;
        if IsTerminal(m) {
          assert (shown + [m])[..|shown|] == shown;
          assert shown + [m] <= Future(r) <= events;
        } else {
          assert Future(after) == (shown + [m]) + later;
        }
      }
    }
  }

  lemma AfterSilent(events: seq<Msg>, pub: nat, r: Reader)
    requires ReaderOk(events, pub, r)
    ensures ReaderOk(events, pub, SilentNext(r))
    ensures r.phase.Tailing? ==> SilentNext(r) == r.(out := r.out + [Keepalive])
    ensures r.phase.Tailing? && r.inbox == [] ==> PollNext(r) == SilentNext(r)
  {
    hide Shown, Seqs, Fresh;
    ShownAppend(r.out, Keepalive);
    if r.phase.Tailing? {
      assert Shown(SilentNext(r).out) == Shown(r.out);
      assert Future(SilentNext(r)) == Future(r);
    }
  }

  lemma FreshStep(msgs: seq<Msg>, seen: set<nat>)
    requires msgs != []
    ensures Fresh(msgs, seen) == if msgs[0].seqNo in seen then Fresh(msgs[1..], seen) else [msgs[0]] + Fresh(msgs[1..], seen)
  {
  }

  lemma FutureAfterReplay(r: Reader)
    requires r.phase == Replaying(|r.backlog|)
    ensures Future(YieldNext(r)) == Future(r)
  {
    hide Fresh, Shown, Seqs;
    assert r.backlog[|r.backlog|..] == [];
  }

  lemma FutureAfterPoll(r: Reader)
    requires r.phase.Tailing? && r.replayed == Seqs(r.backlog)
    ensures if PollNext(r).phase.Tailing? then Future(PollNext(r)) == Future(r) else Shown(PollNext(r).out) <= Future(r)
  {
    hide Fresh, Shown, Seqs;
    var after := PollNext(r);
    if r.inbox == [] {
      ShownAppend(r.out, Keepalive);
    } else {
      FreshStep(r.inbox, Seqs(r.backlog));
      ShownAppend(r.out, Frame(r.inbox[0]));
    }
  }

  lemma FutureAfterDelivery(r: Reader, m: Msg)
    requires PastRange(r)
    ensures Future(DeliverTo(r, m)) == if m.seqNo in Seqs(r.backlog) then Future(r) else Future(r) + [m]
    ensures m in r.backlog ==> m.seqNo in Seqs(r.backlog)
  {
    hide Shown;
    FreshAppend(r.inbox, m, Seqs(r.backlog));
  }

  lemma AfterLeave(events: seq<Msg>, pub: nat, r: Reader)
    requires ReaderOk(events, pub, r)
    ensures ReaderOk(events, pub, LeaveNext(r))
  {
    OutputIsPrefix(events, pub, r);
  }

  predicate IsReaderAction(a: Action) {
    a.Range? || a.Yield? || a.Poll? || a.Silent? || a.Leave?
  }

  lemma ReplayBounds(events: seq<Msg>, pub: nat, r: Reader)
    requires ReaderOk(events, pub, r) && r.phase.Replaying?
    ensures r.phase.next <= |r.backlog|
  {
  }

  lemma ReaderTurn(events: seq<Msg>, pub: nat, r: Reader, a: Action)
    requires ReaderOk(events, pub, r) && IsReaderAction(a)
    ensures ReaderOk(events, pub, ReaderNext(r, a, events))
  {
    hide ReaderOk;
    match a {
      case Range(_) => if r.phase.Subscribed? { AfterRange(events, pub, r); }
      case Yield(_) =>
        if r.phase.Replaying? {
          assert r.phase.next <= |r.backlog| by { ReplayBounds(events, pub, r); }
          if r.phase.next < |r.backlog| { AfterYield(events, pub, r); } else { AfterReplay(events, pub, r); }
        }
      case Poll(_) => if r.phase.Tailing? { AfterPoll(events, pub, r); }
      case Silent(_) => AfterSilent(events, pub, r);
      case Leave(_) => AfterLeave(events, pub, r);
    }
  }

  lemma TurnKeepsCaught(events: seq<Msg>, pub: nat, r: Reader, a: Action)
    requires IsReaderAction(a) && Caught(events, pub, r) && pub <= |events|
    ensures Caught(events, pub, ReaderNext(r, a, events))
  {
  }

  /** RPUSH of a new event, before its PUBLISH. */
  lemma AfterPush(events: seq<Msg>, pub: nat, r: Reader, m: Msg)
    requires ReaderOk(events, pub, r) && Caught(events, pub, r)
    ensures ReaderOk(events + [m], |events|, r)
  {
    assert (events + [m])[..|events|] == events;
    if PastRange(r) {
      assert events[..|events|] == events;
    }
  }

  /** PUBLISH of the newest listed event. */
  lemma AfterPublish(events: seq<Msg>, r: Reader)
    requires events != [] && Ascending(events) && ReaderOk(events, |events| - 1, r)
    ensures ReaderOk(events, |events|, DeliverTo(r, events[|events| - 1]))
  {
    var m := events[|events| - 1];
    if PastRange(r) {
      FreshAppend(r.inbox, m, Seqs(r.backlog));
      var after := DeliverTo(r, m);
      if |r.backlog| == |events| {
        assert m in r.backlog;
        assert Future(after) == Future(r);
      } else {
        SeqNotInPrefix(events, r.backlog);
        assert Future(after) == Future(r) + [m];
        assert events[..|events| - 1] + [m] == events[..|events|];
      }
    }
  }

  lemma SeqNotInPrefix(events: seq<Msg>, prefix: seq<Msg>)
    requires Ascending(events) && prefix <= events && |prefix| < |events|
    ensures events[|events| - 1].seqNo !in Seqs(prefix)
  {
    forall m | m in prefix
      ensures m.seqNo < events[|events| - 1].seqNo
    {
      var i :| 0 <= i < |prefix| && prefix[i] == m;
      assert events[i] == m;
    }
  }

  // ---------------------------------------------------------------------------
  // The session invariant
  // ---------------------------------------------------------------------------

  /** The message of a stage between RPUSH and PUBLISH. */
  predicate InFlight(stage: Stage) {
    stage.Pushed? || stage.Expired? || stage.Snapped?
  }

  function Pub(s: State): nat {
    if Lag(s) <= |s.events| then |s.events| - Lag(s) else 0
  }

  ghost predicate ListOk(s: State) {
    && Ascending(s.events)
    && (forall m :: m in s.events ==> m.seqNo <= s.counter)
    && (forall m :: m in s.channel ==> m.seqNo <= s.counter)
  }

  ghost predicate RolesOk(s: State) {
    && (s.current.Some? ==> s.current == s.writer)
    && (s.writer.Some? ==> s.writer.value in s.drainers)
    && (forall id :: id in s.drainers && Some(id) != s.writer ==> Dead(s.drainers[id].stage))
  }

  /** Dead drainers do nothing, and all but the writer are dead. */
  lemma OnlyWriterMoves(s: State, id: nat)
    requires RolesOk(s) && id in s.drainers && s.writer != Some(id)
    ensures DrainNext(s, id) == s
  {
  }

  ghost predicate AllCaught(s: State) {
    forall r :: r in s.readers ==> Caught(s.events, Pub(s), s.readers[r])
  }

  ghost predicate StageOk(s: State, stage: Stage) {
    match stage
    case Numbered(m) =>
      && AllCaught(s) && m.seqNo == s.counter
      && (forall x :: x in s.events ==> x.seqNo < m.seqNo)
      && (forall x :: x in s.channel ==> x.seqNo < m.seqNo)
    case Waiting => AllCaught(s)
    case Holding(_) => AllCaught(s)
    case Published(_) => Lag(s) == 0
    case Stopped => true
    case Halted(_) => true
    case _ => s.events != [] && stage.msg == s.events[|s.events| - 1] && Lag(s) == 1
  }

  ghost predicate ReadersOk(s: State) {
    forall r :: r in s.readers ==> ReaderOk(s.events, Pub(s), s.readers[r])
  }

  ghost predicate Inv(s: State) {
    && ListOk(s) && RolesOk(s) && ReadersOk(s)
    && (s.writer.Some? ==> StageOk(s, s.drainers[s.writer.value].stage))
  }

  lemma LagZeroCaught(s: State)
    requires Lag(s) == 0 && ReadersOk(s)
    ensures AllCaught(s)
  {
    forall r | r in s.readers
      ensures Caught(s.events, Pub(s), s.readers[r])
    {
      assert ReaderOk(s.events, Pub(s), s.readers[r]);
    }
  }

  lemma InitInv(s: State)
    requires Init(s)
    ensures Inv(s) && Lag(s) == 0
  {
  }

  /** An action that leaves the list, the channel and the readers alone. */
  lemma QuietStep(s: State, t: State)
    requires Inv(s) && RolesOk(t)
    requires t.events == s.events && t.channel == s.channel && t.readers == s.readers && t.counter == s.counter
    requires t.writer.Some? ==> StageOk(t, t.drainers[t.writer.value].stage)
    ensures Inv(t)
  {
    assert Pub(t) == Pub(s);
  }

  lemma EmitKeepsInv(s: State, item: Item, task: nat)
    requires Inv(s) && SerialStep(s, Emit(item, task))
    ensures Inv(EmitNext(s, item, task))
  {
    var t := EmitNext(s, item, task);
    if s.current.None? {
      forall r | r in s.readers
        ensures Caught(t.events, Pub(t), t.readers[r])
      {
        assert ReaderOk(s.events, Pub(s), s.readers[r]) && !Stranded(s, s.readers[r]);
      }
    }
    QuietStep(s, t);
  }

  lemma PushKeepsInv(s: State, id: nat)
    requires Inv(s) && s.writer == Some(id) && s.drainers[id].stage.Numbered?
    ensures Inv(DrainNext(s, id))
  {
    var t, m := DrainNext(s, id), s.drainers[id].stage.msg;
    assert t.events[|t.events| - 1] == m;
    assert Lag(t) == 1;
    forall r | r in t.readers
      ensures ReaderOk(t.events, Pub(t), t.readers[r])
    {
      AfterPush(s.events, Pub(s), s.readers[r], m);
    }
  }

  lemma PublishKeepsInv(s: State, id: nat)
    requires Inv(s) && s.writer == Some(id) && s.drainers[id].stage.Snapped?
    ensures Inv(DrainNext(s, id))
  {
    hide ReaderOk, Caught, DeliverTo;
    var t := DrainNext(s, id);
    assert t.channel[|t.channel| - 1] == s.events[|s.events| - 1];
    assert Lag(t) == 0 && Pub(s) == |s.events| - 1;
    forall r | r in t.readers
      ensures ReaderOk(t.events, Pub(t), t.readers[r])
    {
      AfterPublish(s.events, s.readers[r]);
    }
    LagZeroCaught(t);
  }

  lemma DrainKeepsInv(s: State, id: nat)
    requires Inv(s) && id in s.drainers
    ensures Inv(DrainNext(s, id))
  {
    hide ReaderOk, Caught, Deliver;
    var stage := s.drainers[id].stage;
    if stage.Numbered? && s.writer == Some(id) {
      PushKeepsInv(s, id);
    } else if stage.Snapped? && s.writer == Some(id) {
      PublishKeepsInv(s, id);
    } else if stage.Published? && s.writer == Some(id) {
      LagZeroCaught(s);
      QuietStep(s, DrainNext(s, id));
    } else if stage.Holding? && s.writer == Some(id) {
      assert Pub(DrainNext(s, id)) == Pub(s);
    } else if Dead(stage) {
    } else {
      QuietDrainKeepsInv(s, id);
    }
  }

  lemma QuietDrainKeepsInv(s: State, id: nat)
    requires Inv(s) && s.writer == Some(id)
    requires var stage := s.drainers[id].stage; stage.Waiting? || stage.Pushed? || stage.Expired?
    ensures Inv(DrainNext(s, id))
  {
    hide ReaderOk, Caught, AllCaught, ListOk, ReadersOk;
    var t := DrainNext(s, id);
    assert Pub(t) == Pub(s) && Lag(t) == Lag(s);
    SameCaught(s, t);
    QuietStep(s, t);
  }

  lemma ReaderActionKeepsInv(s: State, a: Action, r: nat)
    requires Inv(s) && r in s.readers
    requires a == Range(r) || a == Yield(r) || a == Poll(r) || a == Silent(r) || a == Leave(r)
    ensures Inv(Next(s, a))
  {
    hide ReaderOk, Caught, ReaderNext;
    var t := Next(s, a);
    assert t == s.(readers := s.readers[r := ReaderNext(s.readers[r], a, s.events)]);
    assert Pub(t) == Pub(s) <= |s.events|;
    ReaderTurn(s.events, Pub(s), s.readers[r], a);
    if AllCaught(s) {
      TurnKeepsCaught(s.events, Pub(s), s.readers[r], a);
      assert AllCaught(t);
    }
  }

  lemma AttachKeepsInv(s: State, r: nat)
    requires Inv(s)
    ensures Inv(Next(s, Attach(r)))
  {
    var t := Next(s, Attach(r));
    assert Pub(t) == Pub(s);
    assert AllCaught(s) ==> AllCaught(t);
  }

  lemma SameCaught(s: State, t: State)
    requires t.events == s.events && t.channel == s.channel && t.readers == s.readers
    ensures AllCaught(t) == AllCaught(s)
  {
    hide Caught;
    assert Pub(t) == Pub(s);
  }

  lemma HaltKeepsInv(s: State, a: Action)
    requires Inv(s) && (a.Halt? || a.Crash? || a.Close?)
    ensures Inv(Next(s, a))
  {
    hide ReaderOk, Caught, AllCaught, ListOk, ReadersOk;
    var t := Next(s, a);
    assert Pub(t) == Pub(s) && Lag(t) == Lag(s);
    SameCaught(s, t);
    QuietStep(s, t);
  }

  lemma StepKeepsInv(s: State, a: Action)
    requires Inv(s) && SerialStep(s, a)
    ensures Inv(Next(s, a))
  {
    hide Inv;
    match a {
      case Emit(item, task) => EmitKeepsInv(s, item, task);
      case Step(id) => if id in s.drainers { DrainKeepsInv(s, id); }
      case Attach(r) => AttachKeepsInv(s, r);
      case Range(r) => if r in s.readers { ReaderActionKeepsInv(s, a, r); }
      case Yield(r) => if r in s.readers { ReaderActionKeepsInv(s, a, r); }
      case Poll(r) => if r in s.readers { ReaderActionKeepsInv(s, a, r); }
      case Silent(r) => if r in s.readers { ReaderActionKeepsInv(s, a, r); }
      case Leave(r) => if r in s.readers { ReaderActionKeepsInv(s, a, r); }
      case _ => HaltKeepsInv(s, a);
    }
  }

  lemma {:induction false} RunKeepsInv(s: State, actions: seq<Action>)
    requires Inv(s) && SerialRun(s, actions)
    ensures Inv(Run(s, actions))
    decreases |actions|
  {
    if actions != [] {
      StepKeepsInv(s, actions[0]);
      RunKeepsInv(Next(s, actions[0]), actions[1..]);
    }
  }

  // ---------------------------------------------------------------------------
  // The delivery theorems
  // ---------------------------------------------------------------------------

  /** `out` is the list up to and including its first terminal event. */
  ghost predicate StopsAtFirstTerminal(out: seq<Msg>, events: seq<Msg>) {
    out <= events && EndsAtFirstTerminal(out)
  }

  /** Exactly once and in order, under every interleaving of single commands: every reader's output is a
      prefix of the list, whose seqs strictly increase, and a reader that stopped by itself stopped at the
      first terminal event. */
  lemma ExactlyOnceInOrder(s0: State, actions: seq<Action>)
    requires Init(s0) && SerialRun(s0, actions)
    ensures var s := Run(s0, actions);
            && Ascending(s.events)
            && (forall r :: r in s.readers ==> Shown(s.readers[r].out) <= s.events)
            && (forall r :: r in s.readers && s.readers[r].phase.Finished? ==>
                  StopsAtFirstTerminal(Shown(s.readers[r].out), s.events))
  {
    InitInv(s0);
    RunKeepsInv(s0, actions);
    var s := Run(s0, actions);
    forall r | r in s.readers
      ensures Shown(s.readers[r].out) <= s.events
    {
      OutputIsPrefix(s.events, Pub(s), s.readers[r]);
    }
  }

  lemma StepGrowsEvents(s: State, a: Action)
    ensures s.events <= Next(s, a).events
  {
  }

  lemma {:induction false} RunGrowsEvents(s: State, actions: seq<Action>)
    ensures s.events <= Run(s, actions).events
    decreases |actions|
  {
    if actions != [] {
      StepGrowsEvents(s, actions[0]);
      RunGrowsEvents(Next(s, actions[0]), actions[1..]);
    }
  }

  /** Reconnects agree: any two outputs for a session, taken at any two moments, are prefix-comparable. */
  lemma ReconnectsAgree(s0: State, before: seq<Action>, after: seq<Action>, r: nat, q: nat)
    requires Init(s0) && SerialRun(s0, before) && SerialRun(s0, before + after)
    requires r in Run(s0, before).readers && q in Run(s0, before + after).readers
    ensures var first := Shown(Run(s0, before).readers[r].out);
            var second := Shown(Run(s0, before + after).readers[q].out);
            first <= second || second <= first
  {
    ExactlyOnceInOrder(s0, before);
    ExactlyOnceInOrder(s0, before + after);
    RunConcat(s0, before, after);
    RunGrowsEvents(Run(s0, before), after);
    var early, late := Run(s0, before).events, Run(s0, before + after).events;
    var first := Shown(Run(s0, before).readers[r].out);
    var second := Shown(Run(s0, before + after).readers[q].out);
    assert first <= early <= late && second <= late;
    if |first| <= |second| {
      assert first == late[..|first|] == second[..|first|];
    } else {
      assert second == late[..|second|] == first[..|second|];
    }
  }

  /** A tailing reader with an empty inbox has sent everything that is listed and published. */
  lemma DrainedReaderIsCurrent(s: State, r: nat)
    requires Inv(s) && r in s.readers && Lag(s) == 0
    requires s.readers[r].phase.Tailing? && s.readers[r].inbox == []
    ensures Shown(s.readers[r].out) == s.events
  {
    assert ReaderOk(s.events, Pub(s), s.readers[r]);
    assert Future(s.readers[r]) == Shown(s.readers[r].out);
    assert s.events[..|s.events|] == s.events;
  }

  lemma {:induction false} FreshIsBuffered(msgs: seq<Msg>, seen: set<nat>)
    ensures forall m :: m in Fresh(msgs, seen) ==> m in msgs && m.seqNo !in seen
  {
    if msgs != [] {
      FreshIsBuffered(msgs[1..], seen);
    }
  }

  /** While the published list ends in a terminal event, a reader that is still tailing has that very event in
      its buffer, and its dedupe set will not drop it. */
  lemma TailerHasMoreComing(s: State, r: nat)
    requires Inv(s) && r in s.readers && Lag(s) == 0 && s.readers[r].phase.Tailing?
    requires s.events != [] && IsTerminal(s.events[|s.events| - 1])
    ensures var m := s.events[|s.events| - 1]; m in s.readers[r].inbox && m.seqNo !in s.readers[r].replayed
  {
    hide Fresh, Shown, Seqs;
    var reader := s.readers[r];
    var m, shown, coming := s.events[|s.events| - 1], Shown(reader.out), Fresh(reader.inbox, Seqs(reader.backlog));
    assert ReaderOk(s.events, Pub(s), reader);
    assert shown + coming == Future(reader) == s.events;
    assert m in shown + coming && m !in shown;
    FreshIsBuffered(reader.inbox, Seqs(reader.backlog));
  }

  /** A reader that has stopped or left is sent nothing more, and leaving is for good. */
  lemma {:induction false} SilentForGood(s: State, actions: seq<Action>, r: nat)
    requires r in s.readers && (!Attached(s.readers[r]) || (actions != [] && actions[0] == Leave(r)))
    ensures var t := Run(s, actions);
            r in t.readers && t.readers[r].out == s.readers[r].out && (!Attached(s.readers[r]) ==> t.readers[r] == s.readers[r])
    ensures !Attached(Run(s, actions).readers[r])
    decreases |actions|
  {
    hide Next;
    if actions != [] {
      SilentStep(s, actions[0], r);
      SilentForGood(Next(s, actions[0]), actions[1..], r);
    }
  }

  lemma SilentStep(s: State, a: Action, r: nat)
    requires r in s.readers && (!Attached(s.readers[r]) || a == Leave(r))
    ensures var t := Next(s, a);
            && r in t.readers && !Attached(t.readers[r]) && t.readers[r].out == s.readers[r].out
            && (!Attached(s.readers[r]) ==> t.readers[r] == s.readers[r])
  {
    hide RolesOk;
  }
}
