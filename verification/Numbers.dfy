/** Sequence numbers and write stages, over drainers that follow one another without overlapping: whatever a halted
    predecessor left behind, and whatever Redis has let expire. */
module Numbers {
  import opened Options
  import opened Protocol
  import opened Delivery
  import opened Restarts

  /** The stage a drainer is in, or was in when it halted. */
  function Under(stage: Stage): Stage {
    if stage.Halted? then Under(stage.at) else stage
  }

  function Newest(msgs: seq<Msg>): Option<Msg> {
    if msgs == [] then None else Some(msgs[|msgs| - 1])
  }

  /** How far a key has come since the drainer found the counter at `floor`. */
  function Reached(newest: Option<Msg>, floor: nat): nat {
    match newest { case None => floor case Some(m) => if m.seqNo > floor then m.seqNo else floor }
  }

  /** The numbers handed out since the drainer was created, one by one from the counter it found. */
  ghost predicate Numbering(s: State, d: Drainer) {
    var u := Under(d.stage);
    && d.listed0 <= |s.events|
    && s.counter == d.counter0 + (|s.events| - d.listed0) + (if u.Numbered? then 1 else 0)
    && (forall i :: d.listed0 <= i < |s.events| ==> s.events[i].seqNo == d.counter0 + (i - d.listed0) + 1)
    && (u.Numbered? || InFlight(u) ==> u.msg.seqNo == s.counter)
  }

  /** How far channel, snapshot, list and counter are at each stage. */
  ghost predicate Chain(s: State, d: Drainer) {
    var u, floor := Under(d.stage), d.counter0;
    var published, shot, pushed := Reached(Newest(s.channel), floor), Reached(s.snapshot, floor), Reached(Newest(s.events), floor);
    match u
    case Numbered(_) => published == shot == pushed && pushed + 1 == s.counter
    case Pushed(_) => published == shot && shot + 1 == pushed == s.counter
    case Expired(_) => published == shot && shot + 1 == pushed == s.counter
    case Snapped(_) => published + 1 == shot == pushed == s.counter
    case _ => published == shot == pushed == s.counter
  }

  ghost predicate Counted(s: State) {
    && (forall m :: m in s.events ==> m.seqNo <= s.counter)
    && (forall m :: m in s.channel ==> m.seqNo <= s.counter)
    && (s.snapshot.Some? ==> s.snapshot.value.seqNo <= s.counter)
  }

  ghost predicate Inv(s: State) {
    && RolesOk(s) && Counted(s)
    && (s.writer.Some? ==> Numbering(s, s.drainers[s.writer.value]) && Chain(s, s.drainers[s.writer.value]))
  }

  lemma EmitKeepsInv(s: State, item: Item, task: nat)
    requires Inv(s) && ApartStep(s, Emit(item, task))
    ensures Inv(EmitNext(s, item, task))
  {
  }

  /** Halting, closing and reading change neither what was numbered nor what was written. */
  lemma QuietKeepsInv(s: State, t: State)
    requires Inv(s) && RolesOk(t) && t.writer == s.writer
    requires t.events == s.events && t.counter == s.counter && t.channel == s.channel && t.snapshot == s.snapshot
    requires s.writer.Some? ==>
      var d, e := s.drainers[s.writer.value], t.drainers[s.writer.value];
      Under(e.stage) == Under(d.stage) && e.counter0 == d.counter0 && e.listed0 == d.listed0
    ensures Inv(t)
  {
  }

  lemma WriterKeepsInv(s: State, id: nat)
    requires Inv(s) && s.writer == Some(id)
    ensures Inv(DrainNext(s, id))
  {
    hide Counted, Numbering, Chain, Deliver;
    match s.drainers[id].stage {
      case Holding(_) => NumberKeepsInv(s, id);
      case Numbered(_) => PushKeepsInv(s, id);
      case Snapped(_) => PublishKeepsInv(s, id);
      case Waiting => TakeKeepsInv(s, id);
      case Pushed(_) => ExpireKeepsInv(s, id);
      case Expired(_) => SetKeepsInv(s, id);
      case Published(_) => ExpireKeepsInv(s, id);
      case _ =>
    }
  }

  lemma NumberKeepsInv(s: State, id: nat)
    requires Inv(s) && s.writer == Some(id) && s.drainers[id].stage.Holding?
    ensures Inv(DrainNext(s, id))
  {
  }

  lemma PushKeepsInv(s: State, id: nat)
    requires Inv(s) && s.writer == Some(id) && s.drainers[id].stage.Numbered?
    ensures Inv(DrainNext(s, id))
  {
  }

  lemma PublishKeepsInv(s: State, id: nat)
    requires Inv(s) && s.writer == Some(id) && s.drainers[id].stage.Snapped?
    ensures Inv(DrainNext(s, id))
  {
    hide Deliver;
  }

  lemma TakeKeepsInv(s: State, id: nat)
    requires Inv(s) && s.writer == Some(id) && s.drainers[id].stage.Waiting?
    ensures Inv(DrainNext(s, id))
  {
    hide Counted, Reached, Newest;
    assert Counted(DrainNext(s, id)) by { SameCounted(s, DrainNext(s, id)); }
  }

  /** EXPIRE, either one. */
  lemma ExpireKeepsInv(s: State, id: nat)
    requires Inv(s) && s.writer == Some(id)
    requires var stage := s.drainers[id].stage; stage.Pushed? || stage.Published?
    ensures Inv(DrainNext(s, id))
  {
    hide Counted, Reached, Newest;
    assert Counted(DrainNext(s, id)) by { SameCounted(s, DrainNext(s, id)); }
  }

  lemma SetKeepsInv(s: State, id: nat)
    requires Inv(s) && s.writer == Some(id) && s.drainers[id].stage.Expired?
    ensures Inv(DrainNext(s, id))
  {
  }

  lemma SameCounted(s: State, t: State)
    requires Counted(s)
    requires t.events == s.events && t.counter == s.counter && t.channel == s.channel && t.snapshot == s.snapshot
    ensures Counted(t)
  {
  }

  lemma StepKeepsInv(s: State, a: Action)
    requires Inv(s) && ApartStep(s, a)
    ensures Inv(Next(s, a))
  {
    hide Counted, Numbering, Chain, DrainNext, EmitNext, ReaderNext;
    match a {
      case Emit(item, task) => EmitKeepsInv(s, item, task);
      case Step(id) =>
        if s.writer == Some(id) {
          WriterKeepsInv(s, id);
        } else if id in s.drainers {
          OnlyWriterMoves(s, id);
        }
      case _ => OthersKeepInv(s, a);
    }
  }

  lemma OthersKeepInv(s: State, a: Action)
    requires Inv(s) && !a.Emit? && !a.Step?
    ensures Inv(Next(s, a))
  {
    hide Counted, Numbering, Chain, ReaderNext;
    QuietKeepsInv(s, Next(s, a));
  }

  lemma InitInv(s: State)
    requires Init(s)
    ensures Inv(s)
  {
  }

  lemma {:induction false} RunKeepsInv(s: State, actions: seq<Action>)
    requires Inv(s) && ApartRun(s, actions)
    ensures Inv(Run(s, actions))
    decreases |actions|
  {
    hide Inv, Next;
    if actions != [] {
      StepKeepsInv(s, actions[0]);
      RunKeepsInv(Next(s, actions[0]), actions[1..]);
    }
  }

  /** The numbers one drainer hands out are contiguous, also when it halts on the way, and also when it takes over
      from one that halted. */
  lemma ContiguousRun(s0: State, actions: seq<Action>)
    requires Init(s0) && ApartRun(s0, actions)
    ensures var s := Run(s0, actions);
            s.writer.Some? ==>
              && s.writer.value in s.drainers
              && var d := s.drainers[s.writer.value];
                 forall i :: d.listed0 <= i < |s.events| ==> s.events[i].seqNo == d.counter0 + (i - d.listed0) + 1
  {
    InitInv(s0);
    RunKeepsInv(s0, actions);
  }

  /** The write-stage chain, measured from the start of the drainer's run:
      published <= snapshot <= pushed <= counter, and the counter is at most one ahead of the channel. */
  lemma WriteStageChain(s0: State, actions: seq<Action>)
    requires Init(s0) && ApartRun(s0, actions)
    ensures var s := Run(s0, actions);
            s.writer.Some? ==>
              && s.writer.value in s.drainers
              && var floor := s.drainers[s.writer.value].counter0;
                 && Reached(Newest(s.channel), floor) <= Reached(s.snapshot, floor)
                    <= Reached(Newest(s.events), floor) <= s.counter <= Reached(Newest(s.channel), floor) + 1
  {
    InitInv(s0);
    RunKeepsInv(s0, actions);
  }

  // ---------------------------------------------------------------------------
  // Keys that expire
  // ---------------------------------------------------------------------------

  /** A session whose list and snapshot may expire at any time; `pushed` is all that was ever listed. */
  datatype Aged = Aged(s: State, pushed: seq<Msg>)

  datatype Happening = Act(action: Action) | Expire

  function NextAged(x: Aged, e: Happening): Aged {
    match e
    case Act(a) =>
      StepGrowsEvents(x.s, a);
      var t := Next(x.s, a);
      Aged(t, x.pushed + t.events[|x.s.events|..])
    case Expire => Aged(x.s.(events := [], snapshot := None), x.pushed)
  }

  function RunAged(x: Aged, happenings: seq<Happening>): Aged
    decreases |happenings|
  {
    if happenings == [] then x else RunAged(NextAged(x, happenings[0]), happenings[1..])
  }

  ghost predicate ApartAged(x: Aged, happenings: seq<Happening>)
    decreases |happenings|
  {
    happenings != [] ==>
      (happenings[0].Act? ==> ApartStep(x.s, happenings[0].action)) && ApartAged(NextAged(x, happenings[0]), happenings[1..])
  }

  ghost predicate AgedInv(x: Aged) {
    && RolesOk(x.s) && Ascending(x.pushed)
    && (forall m :: m in x.pushed ==> m.seqNo <= x.s.counter)
    && |x.s.events| <= |x.pushed| && x.s.events == x.pushed[|x.pushed| - |x.s.events|..]
    && (x.s.writer.Some? ==>
          var stage := x.s.drainers[x.s.writer.value].stage;
          stage.Numbered? ==> stage.msg.seqNo == x.s.counter && forall m :: m in x.pushed ==> m.seqNo < x.s.counter)
  }

  lemma RolesStayOk(s: State, a: Action)
    requires RolesOk(s) && ApartStep(s, a)
    ensures RolesOk(Next(s, a))
  {
    hide ReaderNext, Deliver;
  }

  /** An action that numbers and lists nothing. */
  lemma QuietKeepsAged(x: Aged, t: State)
    requires AgedInv(x) && RolesOk(t) && t.events == x.s.events && t.counter == x.s.counter
    requires t.writer.Some? && t.drainers[t.writer.value].stage.Numbered? ==>
               t.writer == x.s.writer && t.drainers[t.writer.value].stage == x.s.drainers[t.writer.value].stage
    ensures AgedInv(Aged(t, x.pushed + t.events[|x.s.events|..]))
  {
    hide RolesOk;
    assert x.pushed + t.events[|x.s.events|..] == x.pushed;
  }

  lemma NumberKeepsAged(x: Aged, id: nat)
    requires AgedInv(x) && x.s.writer == Some(id) && x.s.drainers[id].stage.Holding?
    ensures AgedInv(NextAged(x, Act(Step(id))))
  {
    assert x.pushed + x.s.events[|x.s.events|..] == x.pushed;
  }

  lemma PushKeepsAged(x: Aged, id: nat)
    requires AgedInv(x) && x.s.writer == Some(id) && x.s.drainers[id].stage.Numbered?
    ensures AgedInv(NextAged(x, Act(Step(id))))
  {
    var t, m := DrainNext(x.s, id), x.s.drainers[id].stage.msg;
    assert t.events[|x.s.events|..] == [m];
    assert t.events == (x.pushed + [m])[|x.pushed| - |x.s.events|..];
  }

  lemma DrainKeepsAged(x: Aged, id: nat)
    requires AgedInv(x) && id in x.s.drainers && RolesOk(DrainNext(x.s, id))
    ensures AgedInv(NextAged(x, Act(Step(id))))
  {
    hide AgedInv, RolesOk, Deliver;
    assert RolesOk(x.s) by { RolesOfAged(x); }
    var stage := x.s.drainers[id].stage;
    if x.s.writer == Some(id) && stage.Holding? {
      NumberKeepsAged(x, id);
    } else if x.s.writer == Some(id) && stage.Numbered? {
      PushKeepsAged(x, id);
    } else {
      if x.s.writer != Some(id) { OnlyWriterMoves(x.s, id); }
      QuietKeepsAged(x, DrainNext(x.s, id));
    }
  }

  lemma RolesOfAged(x: Aged)
    requires AgedInv(x)
    ensures RolesOk(x.s)
  {
  }

  lemma ActKeepsAged(x: Aged, a: Action)
    requires AgedInv(x) && ApartStep(x.s, a)
    ensures AgedInv(NextAged(x, Act(a)))
  {
    hide AgedInv, DrainNext, ReaderNext;
    assert RolesOk(x.s) by { RolesOfAged(x); }
    RolesStayOk(x.s, a);
    if a.Step? && a.drainer in x.s.drainers {
      DrainKeepsAged(x, a.drainer);
    } else {
      QuietKeepsAged(x, Next(x.s, a));
    }
  }

  lemma {:induction false} RunKeepsAged(x: Aged, happenings: seq<Happening>)
    requires AgedInv(x) && ApartAged(x, happenings)
    ensures AgedInv(RunAged(x, happenings))
    decreases |happenings|
  {
    hide AgedInv;
    if happenings != [] {
      if happenings[0].Act? { ActKeepsAged(x, happenings[0].action); } else { ExpiryKeepsAged(x); }
      RunKeepsAged(NextAged(x, happenings[0]), happenings[1..]);
    }
  }

  lemma ExpiryKeepsAged(x: Aged)
    requires AgedInv(x)
    ensures AgedInv(NextAged(x, Expire))
  {
  }

  /** The counter has no time to live, so the numbers never go back, however often the list expires under them:
      all that was ever listed ascends, and what is listed now is the end of it. */
  lemma NeverGoesBack(s0: State, happenings: seq<Happening>)
    requires Init(s0) && ApartAged(Aged(s0, s0.events), happenings)
    ensures var x := RunAged(Aged(s0, s0.events), happenings);
            && Ascending(x.pushed)
            && |x.s.events| <= |x.pushed| && x.s.events == x.pushed[|x.pushed| - |x.s.events|..]
  {
    RunKeepsAged(Aged(s0, s0.events), happenings);
  }

  /** Were the counter to expire with the list, the next event listed would go back. */
  lemma ExpiringCounterGoesBack(x: Aged, id: nat)
    requires AgedInv(x) && x.s.writer == Some(id) && x.s.drainers[id].stage.Holding?
    requires x.pushed != [] && x.pushed[|x.pushed| - 1].seqNo >= 1
    ensures var gone := Aged(x.s.(events := [], snapshot := None, counter := 0), x.pushed);
            !Ascending(NextAged(NextAged(gone, Act(Step(id))), Act(Step(id))).pushed)
  {
    var gone := Aged(x.s.(events := [], snapshot := None, counter := 0), x.pushed);
    var later := NextAged(NextAged(gone, Act(Step(id))), Act(Step(id)));
    var n := |x.pushed|;
    assert later.pushed[n - 1] == x.pushed[n - 1] && later.pushed[n].seqNo == 1;
  }
}
