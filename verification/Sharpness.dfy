/** The two orderings the delivery theorem rests on. With either one swapped, every session that is about
    to list an event has a run in which a reader tails an idle, fully published channel without it. */
module Sharpness {
  import opened Options
  import opened Protocol
  import opened Delivery
  import opened Orphans

  /** PUBLISH before RPUSH. */
  function PublishFirst(s: State, id: nat): State
    requires id in s.drainers && s.drainers[id].stage.Numbered?
  {
    var m := s.drainers[id].stage.msg;
    s.(channel := s.channel + [m], readers := Deliver(s.readers, m))
  }

  function ThenPush(s: State, id: nat): State
    requires id in s.drainers && s.drainers[id].stage.Numbered?
  {
    var d := s.drainers[id];
    s.(events := s.events + [d.stage.msg], drainers := s.drainers[id := d.(stage := Waiting)])
  }

  /** LRANGE before SUBSCRIBE: the backlog is read by a connection that is not attached yet. */
  function RangeFirst(s: State): Reader {
    JUST_SUBSCRIBED.(phase := Replaying(0), backlog := s.events)
  }

  function ThenSubscribe(s: State, r: nat, reader: Reader): State {
    s.(readers := s.readers[r := reader])
  }

  /** The reader has sent all it will ever send, and the newest event is not in it. */
  ghost predicate Lost(s: State, r: nat, m: Msg) {
    && r in s.readers && s.readers[r].phase.Tailing? && s.readers[r].inbox == []
    && Lag(s) == 0 && m in s.events && m !in Shown(s.readers[r].out)
  }

  lemma FreshBacklog(events: seq<Msg>)
    ensures var reader := JUST_SUBSCRIBED.(phase := Replaying(0), backlog := events);
            InStep(reader) && Future(reader) == events
  {
    assert events[..0] == [] && events[0..] == events;
  }

  lemma PublishFirstLoses(s: State, id: nat, r: nat) returns (flush: seq<Action>)
    requires Inv(s) && s.writer == Some(id) && s.drainers[id].stage.Numbered?
    requires r !in s.readers && NoTerminal(s.events)
    ensures OnlyReader(flush, r)
    ensures var raced := Run(PublishFirst(s, id), [Attach(r), Range(r)]);
            && id in raced.drainers && raced.drainers[id].stage.Numbered?
            && Lost(Run(ThenPush(raced, id), flush), r, s.drainers[id].stage.msg)
  {
    hide Future;
    var m := s.drainers[id].stage.msg;
    var published := PublishFirst(s, id);
    var attached := Next(published, Attach(r));
    var raced := Next(attached, Range(r));
    assert [Attach(r), Range(r)][1..] == [Range(r)] && [Range(r)][1..] == [];
    assert Run(attached, [Range(r)]) == Run(raced, []) == raced;
    var pushed := ThenPush(raced, id);
    FreshBacklog(s.events);
    flush := Flush(pushed, r);
    FlushKeepsChannel(pushed, flush, r);
  }

  lemma RangeFirstLoses(s: State, id: nat, r: nat) returns (flush: seq<Action>)
    requires Inv(s) && s.writer == Some(id) && s.drainers[id].stage.Numbered?
    requires r !in s.readers && NoTerminal(s.events)
    ensures OnlyReader(flush, r)
    ensures var written := Iterate(s, Step(id), 4);
            Lost(Run(ThenSubscribe(written, r, RangeFirst(s)), flush), r, s.drainers[id].stage.msg)
  {
    hide Future;
    var m := s.drainers[id].stage.msg;
    var s1 := Next(s, Step(id));
    var s2 := Next(s1, Step(id));
    var s3 := Next(s2, Step(id));
    var written := Next(s3, Step(id));
    assert Iterate(s, Step(id), 4) == written;
    var joined := ThenSubscribe(written, r, RangeFirst(s));
    FreshBacklog(s.events);
    flush := Flush(joined, r);
    FlushKeepsChannel(joined, flush, r);
    assert joined.events[|joined.events| - 1] == m == joined.channel[|joined.channel| - 1];
  }

  lemma {:induction false} FlushKeepsChannel(s: State, actions: seq<Action>, r: nat)
    requires OnlyReader(actions, r)
    ensures Run(s, actions).channel == s.channel && Run(s, actions).events == s.events
    decreases |actions|
  {
    if actions != [] {
      assert actions[0] in actions && forall a :: a in actions[1..] ==> a in actions;
      FlushKeepsChannel(Next(s, actions[0]), actions[1..], r);
    }
  }

  /** What an overlap does: if an emit starts a second drainer while the first one, its session already popped by
      `close`, still holds a number, the list can end up out of order. No job does that: it emits nothing once it is in
      `close`, and the next delivery gets the lock only after the drainer is dead (module `JobSession`). */
  lemma OverlapReorders(s: State, id: nat, item: Item, task: nat)
    requires s.current.None? && id in s.drainers && s.drainers[id].stage.Numbered? && task !in s.drainers
    requires s.drainers[id].stage.msg.seqNo <= s.counter
    ensures var overtaken := Iterate(EmitNext(s, item, task), Step(task), 3);
            !Ascending(Next(overtaken, Step(id)).events)
  {
    var s0 := EmitNext(s, item, task);
    var s1 := Next(s0, Step(task));
    var s2 := Next(s1, Step(task));
    var s3 := Next(s2, Step(task));
    assert Iterate(s0, Step(task), 3) == s3;
    var late := Next(s3, Step(id)).events;
    var n := |late|;
    assert late[n - 2].seqNo == s.counter + 1 && late[n - 1] == s.drainers[id].stage.msg;
  }
}
