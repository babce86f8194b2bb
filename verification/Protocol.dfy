/** One session as a step relation: producers, the publisher's queue and drainers (`app/publish.py`),
    the session's Redis keys, and any number of SSE readers (`app/api.py`). Every action is one Redis
    command or one await-free stretch of code, so a run is an arbitrary interleaving of them. */
module Protocol {
  import opened Options
  import opened Events

  /** An event and the coroutine that emitted it. The tag is for the statements below; it is not sent. */
  datatype Item = Item(producer: nat, event: Event)

  /** A queue entry: an event, or the typed sentinel that tells the drainer to exit. */
  datatype Entry = Put(item: Item) | Stop

  /** A payload, numbered by INCR. */
  datatype Msg = Msg(seqNo: nat, item: Item)

  /** Where a drainer is: each stage names the last command that took effect. */
  datatype Stage =
    | Waiting
    | Holding(item: Item)
    | Numbered(msg: Msg)
    | Pushed(msg: Msg)
    | Expired(msg: Msg)
    | Snapped(msg: Msg)
    | Published(msg: Msg)
    | Stopped
    | Halted(at: Stage)

  /** `counter0` and `listed0` record the counter and the list length when the drainer was created. */
  datatype Drainer = Drainer(queue: seq<Entry>, stage: Stage, counter0: nat, listed0: nat)

  datatype Frame = Frame(msg: Msg) | Keepalive

  datatype Phase = Subscribed | Replaying(next: nat) | Tailing | Finished | Gone

  datatype Reader = Reader(phase: Phase, inbox: seq<Msg>, backlog: seq<Msg>, replayed: set<nat>, out: seq<Frame>)

  /** `current` is the session's entry in the publisher's dictionary. `writer` (the last drainer created),
      `channel` (everything published) and `emitted` are history variables. */
  datatype State = State(
    current: Option<nat>,
    drainers: map<nat, Drainer>,
    writer: Option<nat>,
    counter: nat,
    events: seq<Msg>,
    snapshot: Option<Msg>,
    channel: seq<Msg>,
    readers: map<nat, Reader>,
    emitted: seq<Item>)

  datatype Action =
    | Emit(item: Item, task: nat)
    | Close
    | Step(drainer: nat)
    | Halt(drainer: nat)
    | Crash
    | Attach(reader: nat)
    | Range(reader: nat)
    | Yield(reader: nat)
    | Poll(reader: nat)
    | Silent(reader: nat)
    | Leave(reader: nat)

  // ---------------------------------------------------------------------------
  // Publisher
  // ---------------------------------------------------------------------------

  /** `emit`: find or create the session's queue and drainer, then put. */
  function EmitNext(s: State, item: Item, task: nat): State {
    if s.current.Some? then
      if s.current.value !in s.drainers then s
      else
        var d := s.drainers[s.current.value];
        s.(drainers := s.drainers[s.current.value := d.(queue := d.queue + [Put(item)])],
           emitted := s.emitted + [item])
    else if task in s.drainers then s
    else
      s.(current := Some(task),
         writer := Some(task),
         drainers := s.drainers[task := Drainer([Put(item)], Waiting, s.counter, |s.events|)],
         emitted := s.emitted + [item])
  }

  /** `close`: pop the session and put the sentinel. The wait for the drainer is the steps that follow;
      giving up on it after the limit is `Halt`. */
  function CloseNext(s: State): State {
    if s.current.None? || s.current.value !in s.drainers then s
    else
      var d := s.drainers[s.current.value];
      s.(current := None, drainers := s.drainers[s.current.value := d.(queue := d.queue + [Stop])])
  }

  predicate Dead(stage: Stage) {
    stage.Stopped? || stage.Halted?
  }

  function HaltStage(stage: Stage): Stage {
    if Dead(stage) then stage else Halted(stage)
  }

  predicate Attached(r: Reader) {
    r.phase.Subscribed? || r.phase.Replaying? || r.phase.Tailing?
  }

  function DeliverTo(r: Reader, m: Msg): Reader {
    if Attached(r) then r.(inbox := r.inbox + [m]) else r
  }

  function Deliver(readers: map<nat, Reader>, m: Msg): map<nat, Reader> {
    map r | r in readers :: DeliverTo(readers[r], m)
  }

  /** The next command of a drainer, in the order GET, INCR, RPUSH, EXPIRE, SET, PUBLISH and, after a
      terminal event, EXPIRE again. */
  function DrainNext(s: State, id: nat): State
    requires id in s.drainers
  {
    var d := s.drainers[id];
    match d.stage
    case Waiting =>
      if d.queue == [] then s
      else
        var stage := match d.queue[0] { case Stop => Stopped case Put(item) => Holding(item) };
        s.(drainers := s.drainers[id := d.(queue := d.queue[1..], stage := stage)])
    case Holding(item) =>
      s.(counter := s.counter + 1, drainers := s.drainers[id := d.(stage := Numbered(Msg(s.counter + 1, item)))])
    case Numbered(m) =>
      s.(events := s.events + [m], drainers := s.drainers[id := d.(stage := Pushed(m))])
    case Pushed(m) =>
      s.(drainers := s.drainers[id := d.(stage := Expired(m))])
    case Expired(m) =>
      s.(snapshot := Some(m), drainers := s.drainers[id := d.(stage := Snapped(m))])
    case Snapped(m) =>
      var stage := if Terminal(m.item.event) then Published(m) else Waiting;
      s.(channel := s.channel + [m],
         readers := Deliver(s.readers, m),
         drainers := s.drainers[id := d.(stage := stage)])
    case Published(m) =>
      s.(drainers := s.drainers[id := d.(stage := Waiting)])
    case Stopped => s
    case Halted(_) => s
  }

  // ---------------------------------------------------------------------------
  // SSE reader
  // ---------------------------------------------------------------------------

  /** SUBSCRIBE: from here on every published payload reaches the connection's buffer. */
  const JUST_SUBSCRIBED := Reader(Subscribed, [], [], {}, [])

  /** LRANGE. */
  function RangeNext(r: Reader, events: seq<Msg>): Reader {
    if r.phase.Subscribed? then r.(phase := Replaying(0), backlog := events) else r
  }

  /** One turn of the replay loop. */
  function YieldNext(r: Reader): Reader {
    if !r.phase.Replaying? then r
    else if r.phase.next >= |r.backlog| then r.(phase := Tailing)
    else
      var m := r.backlog[r.phase.next];
      r.(replayed := r.replayed + {m.seqNo},
         out := r.out + [Frame(m)],
         phase := if Terminal(m.item.event) then Finished else Replaying(r.phase.next + 1))
  }

  /** One turn of the tail loop: a keepalive when no message came in time, else dedupe by seq. */
  function PollNext(r: Reader): Reader {
    if !r.phase.Tailing? then r
    else if r.inbox == [] then r.(out := r.out + [Keepalive])
    else
      var m := r.inbox[0];
      if m.seqNo in r.replayed then r.(inbox := r.inbox[1..])
      else
        r.(inbox := r.inbox[1..],
           out := r.out + [Frame(m)],
           phase := if Terminal(m.item.event) then Finished else Tailing)
  }

  /** `get_message` came back with nothing for the client: time ran out, or all it read was the confirmation of
      the subscription, whatever else is waiting. */
  function SilentNext(r: Reader): Reader {
    if r.phase.Tailing? then r.(out := r.out + [Keepalive]) else r
  }

  /** The client is gone; the worker is not told. */
  function LeaveNext(r: Reader): Reader {
    if Attached(r) then r.(phase := Gone) else r
  }

  function ReaderNext(r: Reader, a: Action, events: seq<Msg>): Reader {
    match a
    case Range(_) => RangeNext(r, events)
    case Yield(_) => YieldNext(r)
    case Poll(_) => PollNext(r)
    case Silent(_) => SilentNext(r)
    case Leave(_) => LeaveNext(r)
    case _ => r
  }

  // ---------------------------------------------------------------------------
  // Runs
  // ---------------------------------------------------------------------------

  function Next(s: State, a: Action): State {
    match a
    case Emit(item, task) => EmitNext(s, item, task)
    case Close => CloseNext(s)
    case Step(id) => if id in s.drainers then DrainNext(s, id) else s
    case Halt(id) =>
      if id in s.drainers
      then s.(drainers := s.drainers[id := s.drainers[id].(stage := HaltStage(s.drainers[id].stage))])
      else s
    case Crash =>
      s.(current := None,
         drainers := map id | id in s.drainers :: s.drainers[id].(stage := HaltStage(s.drainers[id].stage)))
    case Attach(r) => if r in s.readers then s else s.(readers := s.readers[r := JUST_SUBSCRIBED])
    case Range(r) => if r in s.readers then s.(readers := s.readers[r := ReaderNext(s.readers[r], a, s.events)]) else s
    case Yield(r) => if r in s.readers then s.(readers := s.readers[r := ReaderNext(s.readers[r], a, s.events)]) else s
    case Poll(r) => if r in s.readers then s.(readers := s.readers[r := ReaderNext(s.readers[r], a, s.events)]) else s
    case Silent(r) => if r in s.readers then s.(readers := s.readers[r := ReaderNext(s.readers[r], a, s.events)]) else s
    case Leave(r) => if r in s.readers then s.(readers := s.readers[r := ReaderNext(s.readers[r], a, s.events)]) else s
  }

  function Run(s: State, actions: seq<Action>): State
    decreases |actions|
  {
    if actions == [] then s else Run(Next(s, actions[0]), actions[1..])
  }

  lemma {:induction false} RunConcat(s: State, a: seq<Action>, b: seq<Action>)
    ensures Run(s, a + b) == Run(Run(s, a), b)
    decreases |a|
  {
    if a == [] {
      assert a + b == b;
    } else {
      RunConcat(Next(s, a[0]), a[1..], b);
      assert (a + b)[1..] == a[1..] + b;
    }
  }

  // ---------------------------------------------------------------------------
  // What a run is about
  // ---------------------------------------------------------------------------

  /** The events a reader was sent, keepalives erased. */
  function Shown(out: seq<Frame>): seq<Msg> {
    if out == [] then []
    else (if out[0].Frame? then [out[0].msg] else []) + Shown(out[1..])
  }

  function Items(msgs: seq<Msg>): seq<Item> {
    seq(|msgs|, i requires 0 <= i < |msgs| => msgs[i].item)
  }

  predicate IsTerminal(m: Msg) {
    Terminal(m.item.event)
  }

  ghost predicate NoTerminal(msgs: seq<Msg>) {
    forall m :: m in msgs ==> !IsTerminal(m)
  }

  /** The list up to and including its first terminal event. */
  ghost predicate EndsAtFirstTerminal(msgs: seq<Msg>) {
    msgs != [] && IsTerminal(msgs[|msgs| - 1]) && NoTerminal(msgs[..|msgs| - 1])
  }

  /** 1 when the newest listed event has not been published, else 0. */
  function Lag(s: State): nat {
    if s.events != [] && (s.channel == [] || s.channel[|s.channel| - 1] != s.events[|s.events| - 1]) then 1 else 0
  }

  /** A reader past its LRANGE that can no longer get the unpublished newest event. */
  predicate Stranded(s: State, r: Reader) {
    (r.phase.Replaying? || r.phase.Tailing?) && Lag(s) == 1 && |r.backlog| < |s.events|
  }

  /** A new drainer may start: the earlier ones are dead, and nobody waits for an event they never published. */
  ghost predicate Settled(s: State) {
    && (forall id :: id in s.drainers ==> Dead(s.drainers[id].stage))
    && (forall r :: r in s.readers ==> !Stranded(s, s.readers[r]))
  }

  ghost predicate SerialStep(s: State, a: Action) {
    a.Emit? && s.current.None? ==> Settled(s) && a.task !in s.drainers
  }

  /** Drainer runs do not overlap: an emit creates a drainer only in a settled session. */
  ghost predicate SerialRun(s: State, actions: seq<Action>)
    decreases |actions|
  {
    actions != [] ==> SerialStep(s, actions[0]) && SerialRun(Next(s, actions[0]), actions[1..])
  }

  ghost predicate Ascending(msgs: seq<Msg>) {
    forall i, j :: 0 <= i < j < |msgs| ==> msgs[i].seqNo < msgs[j].seqNo
  }

  /** A session that may have history: its list is in order, fully published, and nobody is attached. */
  ghost predicate Init(s: State) {
    && s.current.None? && s.drainers == map[] && s.writer.None? && s.readers == map[]
    && Ascending(s.events) && (forall m :: m in s.events ==> m.seqNo <= s.counter)
    && s.channel == s.events && s.emitted == Items(s.events)
    && s.snapshot == if s.events == [] then None else Some(s.events[|s.events| - 1])
  }
}
