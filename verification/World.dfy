/** Many sessions in one publisher over one Redis keyspace: every session runs as if it were alone. */
module World {
  import opened Options
  import opened Events
  import opened Protocol
  import Keys

  datatype Value = Counter(n: nat) | List(msgs: seq<Msg>) | Text(msg: Msg) | Flag

  /** A drainer task with the session id it was started for. */
  datatype Task = Task(session: string, drainer: Drainer)

  /** An SSE connection with the session id in its URL. */
  datatype Connection = Connection(session: string, reader: Reader)

  /** The history of one session. */
  datatype Log = Log(writer: Option<nat>, channel: seq<Msg>, emitted: seq<Item>)

  /** `sessions` is the publisher's dictionary, `tasks` the event loop's drainers, `kv` the Redis keyspace. */
  datatype World = World(
    sessions: map<string, nat>,
    tasks: map<nat, Task>,
    kv: map<string, Value>,
    connections: map<nat, Connection>,
    logs: map<string, Log>)

  /** One thing that happens in the world. */
  datatype Move = EmitTo(session: string, item: Item, task: nat)
                | CloseOf(session: string)
                | StepOf(task: nat)
                | HaltOf(task: nat)
                | CrashAll
                | CancelOf(session: string)
                | ExpireFlagOf(session: string)
                | AttachTo(session: string, connection: nat)
                | Turn(connection: nat, action: Action)

  function GetCounter(kv: map<string, Value>, key: string): nat {
    if key in kv && kv[key].Counter? then kv[key].n else 0
  }

  function GetList(kv: map<string, Value>, key: string): seq<Msg> {
    if key in kv && kv[key].List? then kv[key].msgs else []
  }

  function GetText(kv: map<string, Value>, key: string): Option<Msg> {
    if key in kv && kv[key].Text? then Some(kv[key].msg) else None
  }

  function GetLog(w: World, session: string): Log {
    if session in w.logs then w.logs[session] else Log(None, [], [])
  }

  function Drainers(tasks: map<nat, Task>, session: string): map<nat, Drainer> {
    map id | id in tasks && tasks[id].session == session :: tasks[id].drainer
  }

  function Readers(connections: map<nat, Connection>, session: string): map<nat, Reader> {
    map r | r in connections && connections[r].session == session :: connections[r].reader
  }

  /** One session's share of the world. */
  function Proj(w: World, session: string): State {
    State(
      if session in w.sessions then Some(w.sessions[session]) else None,
      Drainers(w.tasks, session),
      GetLog(w, session).writer,
      GetCounter(w.kv, Keys.Sequence(session)),
      GetList(w.kv, Keys.EventsList(session)),
      GetText(w.kv, Keys.Snapshot(session)),
      GetLog(w, session).channel,
      Readers(w.connections, session),
      GetLog(w, session).emitted)
  }

  predicate Known(w: World, session: string) {
    session in w.sessions && w.sessions[session] in w.tasks && w.tasks[w.sessions[session]].session == session
  }

  /** The dictionary only refers to drainers started for the session in question. */
  ghost predicate AllKnown(w: World) {
    forall session :: session in w.sessions ==> Known(w, session)
  }

  function Enqueue(t: Task, e: Entry): Task {
    t.(drainer := t.drainer.(queue := t.drainer.queue + [e]))
  }

  function EmitNext(w: World, session: string, item: Item, task: nat): World {
    var log := GetLog(w, session);
    if session in w.sessions then
      if !Known(w, session) then w
      else
        var id := w.sessions[session];
        w.(tasks := w.tasks[id := Enqueue(w.tasks[id], Put(item))],
           logs := w.logs[session := log.(emitted := log.emitted + [item])])
    else if task in w.tasks then w
    else
      var counter0 := GetCounter(w.kv, Keys.Sequence(session));
      var listed0 := |GetList(w.kv, Keys.EventsList(session))|;
      w.(sessions := w.sessions[session := task],
         tasks := w.tasks[task := Task(session, Drainer([Put(item)], Waiting, counter0, listed0))],
         logs := w.logs[session := Log(Some(task), log.channel, log.emitted + [item])])
  }

  function CloseNext(w: World, session: string): World {
    if !Known(w, session) then w
    else
      var id := w.sessions[session];
      w.(sessions := w.sessions - {session}, tasks := w.tasks[id := Enqueue(w.tasks[id], Stop)])
  }

  function AtStage(t: Task, stage: Stage): Task {
    t.(drainer := t.drainer.(stage := stage))
  }

  /** Redis hands a published payload to every connection subscribed to that channel. */
  function Fanout(connections: map<nat, Connection>, channel: string, m: Msg): map<nat, Connection> {
    map r | r in connections ::
      if Keys.Channel(connections[r].session) == channel
      then connections[r].(reader := DeliverTo(connections[r].reader, m))
      else connections[r]
  }

  /** The next command of a drainer, on the keys of the session it was started for. */
  function DrainNext(w: World, id: nat): World
    requires id in w.tasks
  {
    var t := w.tasks[id];
    var d := t.drainer;
    match d.stage
    case Waiting =>
      if d.queue == [] then w
      else
        var stage := match d.queue[0] { case Stop => Stopped case Put(item) => Holding(item) };
        w.(tasks := w.tasks[id := t.(drainer := d.(queue := d.queue[1..], stage := stage))])
    case Holding(item) =>
      var key := Keys.Sequence(t.session);
      var n := GetCounter(w.kv, key) + 1;
      w.(kv := w.kv[key := Counter(n)], tasks := w.tasks[id := AtStage(t, Numbered(Msg(n, item)))])
    case Numbered(m) =>
      var key := Keys.EventsList(t.session);
      w.(kv := w.kv[key := List(GetList(w.kv, key) + [m])], tasks := w.tasks[id := AtStage(t, Pushed(m))])
    case Pushed(m) =>
      w.(tasks := w.tasks[id := AtStage(t, Expired(m))])
    case Expired(m) =>
      w.(kv := w.kv[Keys.Snapshot(t.session) := Text(m)], tasks := w.tasks[id := AtStage(t, Snapped(m))])
    case Snapped(m) =>
      var log := GetLog(w, t.session);
      w.(connections := Fanout(w.connections, Keys.Channel(t.session), m),
         logs := w.logs[t.session := log.(channel := log.channel + [m])],
         tasks := w.tasks[id := AtStage(t, if Terminal(m.item.event) then Published(m) else Waiting)])
    case Published(m) =>
      w.(tasks := w.tasks[id := AtStage(t, Waiting)])
    case Stopped => w
    case Halted(_) => w
  }

  function Halt(t: Task): Task {
    AtStage(t, HaltStage(t.drainer.stage))
  }

  function Next(w: World, e: Move): World {
    match e
    case EmitTo(session, item, task) => EmitNext(w, session, item, task)
    case CloseOf(session) => CloseNext(w, session)
    case StepOf(id) => if id in w.tasks then DrainNext(w, id) else w
    case HaltOf(id) => if id in w.tasks then w.(tasks := w.tasks[id := Halt(w.tasks[id])]) else w
    case CrashAll => w.(sessions := map[], tasks := map id | id in w.tasks :: Halt(w.tasks[id]))
    case CancelOf(session) => w.(kv := w.kv[Keys.CancelFlag(session) := Flag])
    case ExpireFlagOf(session) => w.(kv := w.kv - {Keys.CancelFlag(session)})
    case AttachTo(session, r) =>
      if r in w.connections then w else w.(connections := w.connections[r := Connection(session, JUST_SUBSCRIBED)])
    case Turn(r, action) =>
      if r in w.connections then
        var c := w.connections[r];
        var events := GetList(w.kv, Keys.EventsList(c.session));
        w.(connections := w.connections[r := c.(reader := ReaderNext(c.reader, action, events))])
      else w
  }

  function Run(w: World, moves: seq<Move>): World
    decreases |moves|
  {
    if moves == [] then w else Run(Next(w, moves[0]), moves[1..])
  }

  predicate IsTurn(a: Action) {
    a.Range? || a.Yield? || a.Poll? || a.Silent? || a.Leave?
  }

  function Renamed(a: Action, r: nat): Action
    requires IsTurn(a)
  {
    match a
    case Range(_) => Range(r)
    case Yield(_) => Yield(r)
    case Poll(_) => Poll(r)
    case Silent(_) => Silent(r)
    case Leave(_) => Leave(r)
  }

  /** What a session notices of one world event. */
  function ActionsFor(w: World, e: Move, session: string): seq<Action> {
    match e
    case EmitTo(target, item, task) =>
      if target != session || (target !in w.sessions && task in w.tasks) then [] else [Emit(item, task)]
    case CloseOf(target) => if target != session then [] else [Close]
    case StepOf(id) => if id in w.tasks && w.tasks[id].session == session then [Step(id)] else []
    case HaltOf(id) => if id in w.tasks && w.tasks[id].session == session then [Protocol.Action.Halt(id)] else []
    case CrashAll => [Crash]
    case CancelOf(_) => []
    case ExpireFlagOf(_) => []
    case AttachTo(target, r) => if target != session || r in w.connections then [] else [Attach(r)]
    case Turn(r, a) =>
      if r in w.connections && w.connections[r].session == session && IsTurn(a) then [Renamed(a, r)] else []
  }

  function SessionRun(w: World, moves: seq<Move>, session: string): seq<Action>
    decreases |moves|
  {
    if moves == [] then []
    else ActionsFor(w, moves[0], session) + SessionRun(Next(w, moves[0]), moves[1..], session)
  }

  /** No move forgets a task or gives it to another session. */
  ghost predicate KeepsTasks(w: World, t: World) {
    forall id :: id in w.tasks ==> id in t.tasks && t.tasks[id].session == w.tasks[id].session
  }

  lemma DrainKeepsTasks(w: World, id: nat)
    requires id in w.tasks
    ensures KeepsTasks(w, DrainNext(w, id)) && DrainNext(w, id).sessions == w.sessions
  {
    hide DrainNext;
    DrainChangesOneTask(w, id);
    if DrainNext(w, id).tasks != w.tasks {
      OneTaskChanges(w.tasks, id, DrainNext(w, id).tasks[id]);
    }
  }

  /** A drain step changes one task, and not whose it is. */
  ghost predicate ChangesOneTask(w: World, t: World, id: nat) {
    && t.sessions == w.sessions && id in w.tasks && id in t.tasks && t.tasks[id].session == w.tasks[id].session
    && (t.tasks == w.tasks || t.tasks == w.tasks[id := t.tasks[id]])
  }

  lemma LocalStepChangesOneTask(w: World, id: nat)
    requires id in w.tasks
    requires var stage := w.tasks[id].drainer.stage; !stage.Holding? && !stage.Numbered? && !stage.Expired? && !stage.Snapped?
    ensures ChangesOneTask(w, DrainNext(w, id), id)
  {
  }

  lemma RedisStepChangesOneTask(w: World, id: nat)
    requires id in w.tasks
    requires var stage := w.tasks[id].drainer.stage; stage.Holding? || stage.Numbered? || stage.Expired? || stage.Snapped?
    ensures ChangesOneTask(w, DrainNext(w, id), id)
  {
    hide GetCounter, GetList, GetLog, Fanout, Keys.Sequence, Keys.EventsList, Keys.Snapshot, Keys.Channel;
  }

  lemma DrainChangesOneTask(w: World, id: nat)
    requires id in w.tasks
    ensures ChangesOneTask(w, DrainNext(w, id), id)
  {
    hide DrainNext, ChangesOneTask;
    var stage := w.tasks[id].drainer.stage;
    if stage.Holding? || stage.Numbered? || stage.Expired? || stage.Snapped? {
      RedisStepChangesOneTask(w, id);
    } else {
      LocalStepChangesOneTask(w, id);
    }
  }

  lemma OneTaskChanges(tasks: map<nat, Task>, id: nat, t: Task)
    requires id in tasks && t.session == tasks[id].session
    ensures forall other :: other in tasks ==> other in tasks[id := t] && tasks[id := t][other].session == tasks[other].session
  {
  }

  lemma MoveKeepsTasks(w: World, move: Move)
    ensures KeepsTasks(w, Next(w, move))
  {
    hide DrainNext;
    if move.StepOf? && move.task in w.tasks {
      DrainKeepsTasks(w, move.task);
    }
  }

  lemma MoveKeepsKnown(w: World, move: Move)
    requires AllKnown(w)
    ensures AllKnown(Next(w, move))
  {
    hide DrainNext;
    var t := Next(w, move);
    MoveKeepsTasks(w, move);
    if move.StepOf? && move.task in w.tasks {
      DrainKeepsTasks(w, move.task);
    }
    forall session | session in t.sessions
      ensures Known(t, session)
    {
      if session in w.sessions {
        assert Known(w, session) && t.sessions[session] == w.sessions[session];
      }
    }
  }

  lemma {:induction false} RunKeepsKnown(w: World, moves: seq<Move>)
    requires AllKnown(w)
    ensures AllKnown(Run(w, moves))
    decreases |moves|
  {
    hide AllKnown, Next;
    if moves != [] {
      MoveKeepsKnown(w, moves[0]);
      RunKeepsKnown(Next(w, moves[0]), moves[1..]);
    }
  }

  // ---------------------------------------------------------------------------
  // Isolation
  // ---------------------------------------------------------------------------

  lemma RunOne(s: State, a: Action)
    ensures Protocol.Run(s, [a]) == Protocol.Next(s, a)
  {
    assert Protocol.Run(Protocol.Next(s, a), []) == Protocol.Next(s, a);
  }

  lemma TaskUpdate(tasks: map<nat, Task>, id: nat, t: Task, session: string)
    requires id in tasks ==> tasks[id].session == t.session
    ensures Drainers(tasks[id := t], session)
         == if t.session == session then Drainers(tasks, session)[id := t.drainer] else Drainers(tasks, session)
  {
  }

  lemma TaskLookup(tasks: map<nat, Task>, id: nat, session: string)
    ensures id in Drainers(tasks, session) <==> id in tasks && tasks[id].session == session
    ensures id in Drainers(tasks, session) ==> Drainers(tasks, session)[id] == tasks[id].drainer
  {
  }

  lemma ConnectionUpdate(connections: map<nat, Connection>, r: nat, c: Connection, session: string)
    requires r in connections ==> connections[r].session == c.session
    ensures Readers(connections[r := c], session)
         == if c.session == session then Readers(connections, session)[r := c.reader] else Readers(connections, session)
  {
  }

  lemma ConnectionLookup(connections: map<nat, Connection>, r: nat, session: string)
    ensures r in Readers(connections, session) <==> r in connections && connections[r].session == session
    ensures r in Readers(connections, session) ==> Readers(connections, session)[r] == connections[r].reader
  {
  }

  /** A payload published on one session's channel reaches that session's readers and no others. */
  lemma FanoutProjects(connections: map<nat, Connection>, target: string, m: Msg, session: string)
    ensures Readers(Fanout(connections, Keys.Channel(target), m), session)
         == if target == session then Deliver(Readers(connections, session), m) else Readers(connections, session)
  {
    forall r | r in connections
      ensures Keys.Channel(connections[r].session) == Keys.Channel(target) <==> connections[r].session == target
    {
      Keys.KeysDisjoint(connections[r].session, target);
    }
  }

  lemma EmitProjects(w: World, session: string, target: string, item: Item, task: nat)
    ensures Proj(EmitNext(w, target, item, task), session)
         == if target != session || (target !in w.sessions && task in w.tasks) then Proj(w, session)
            else Protocol.EmitNext(Proj(w, session), item, task)
  {
    hide Drainers, Readers;
    TaskLookup(w.tasks, task, session);
    if Known(w, target) {
      var id := w.sessions[target];
      TaskLookup(w.tasks, id, session);
      TaskUpdate(w.tasks, id, Enqueue(w.tasks[id], Put(item)), session);
    } else if target in w.sessions {
      TaskLookup(w.tasks, w.sessions[target], session);
    } else if task !in w.tasks {
      TaskUpdate(w.tasks, task, EmitNext(w, target, item, task).tasks[task], session);
    }
  }

  lemma CloseProjects(w: World, session: string, target: string)
    ensures Proj(CloseNext(w, target), session)
         == if target != session then Proj(w, session) else Protocol.CloseNext(Proj(w, session))
  {
    hide Drainers, Readers;
    if Known(w, target) {
      var id := w.sessions[target];
      TaskLookup(w.tasks, id, session);
      TaskUpdate(w.tasks, id, Enqueue(w.tasks[id], Stop), session);
    } else if target in w.sessions {
      TaskLookup(w.tasks, w.sessions[target], session);
    }
  }

  ghost predicate DrainOk(w: World, session: string, id: nat)
    requires id in w.tasks
  {
    if w.tasks[id].session != session then Proj(DrainNext(w, id), session) == Proj(w, session)
    else
      && id in Proj(w, session).drainers
      && Proj(DrainNext(w, id), session) == Protocol.DrainNext(Proj(w, session), id)
  }

  lemma LocalStepProjects(w: World, session: string, id: nat)
    requires id in w.tasks && var stage := w.tasks[id].drainer.stage; stage.Pushed? || stage.Published?
    ensures DrainOk(w, session, id)
  {
    hide Drainers, Readers, Fanout, Keys.Sequence, Keys.EventsList, Keys.Snapshot, Keys.Channel;
    var t := w.tasks[id];
    TaskLookup(w.tasks, id, session);
    TaskUpdate(w.tasks, id, DrainNext(w, id).tasks[id], session);
  }

  lemma TakeProjects(w: World, session: string, id: nat)
    requires id in w.tasks && var stage := w.tasks[id].drainer.stage; stage.Waiting? || Dead(stage)
    ensures DrainOk(w, session, id)
  {
    hide Drainers, Readers, Keys.Sequence, Keys.EventsList, Keys.Snapshot;
    var t := w.tasks[id];
    TaskLookup(w.tasks, id, session);
    if t.drainer.stage.Waiting? && t.drainer.queue != [] {
      TaskUpdate(w.tasks, id, DrainNext(w, id).tasks[id], session);
    }
  }

  lemma IncrProjects(w: World, session: string, id: nat)
    requires id in w.tasks && var stage := w.tasks[id].drainer.stage; stage.Holding?
    ensures DrainOk(w, session, id)
  {
    hide Drainers, Readers, Fanout, Keys.Sequence, Keys.EventsList, Keys.Snapshot, Keys.Channel;
    var t := w.tasks[id];
    Keys.KeysDisjoint(t.session, session);
    Keys.KeysDisjoint(session, t.session);
    Keys.KeysDisjoint(session, session);
    TaskLookup(w.tasks, id, session);
    TaskUpdate(w.tasks, id, DrainNext(w, id).tasks[id], session);
  }

  lemma PushProjects(w: World, session: string, id: nat)
    requires id in w.tasks && var stage := w.tasks[id].drainer.stage; stage.Numbered?
    ensures DrainOk(w, session, id)
  {
    hide Drainers, Readers, Fanout, Keys.Sequence, Keys.EventsList, Keys.Snapshot, Keys.Channel;
    var t := w.tasks[id];
    Keys.KeysDisjoint(t.session, session);
    Keys.KeysDisjoint(session, t.session);
    Keys.KeysDisjoint(session, session);
    TaskLookup(w.tasks, id, session);
    TaskUpdate(w.tasks, id, DrainNext(w, id).tasks[id], session);
  }

  lemma SetProjects(w: World, session: string, id: nat)
    requires id in w.tasks && var stage := w.tasks[id].drainer.stage; stage.Expired?
    ensures DrainOk(w, session, id)
  {
    hide Drainers, Readers, Fanout, Keys.Sequence, Keys.EventsList, Keys.Snapshot, Keys.Channel;
    var t := w.tasks[id];
    Keys.KeysDisjoint(t.session, session);
    Keys.KeysDisjoint(session, t.session);
    Keys.KeysDisjoint(session, session);
    TaskLookup(w.tasks, id, session);
    TaskUpdate(w.tasks, id, DrainNext(w, id).tasks[id], session);
  }

  lemma PublishProjects(w: World, session: string, id: nat)
    requires id in w.tasks && var stage := w.tasks[id].drainer.stage; stage.Snapped?
    ensures DrainOk(w, session, id)
  {
    hide Drainers, Readers, Fanout, Keys.Sequence, Keys.EventsList, Keys.Snapshot, Keys.Channel;
    var t := w.tasks[id];
    FanoutProjects(w.connections, t.session, t.drainer.stage.msg, session);
    TaskLookup(w.tasks, id, session);
    TaskUpdate(w.tasks, id, DrainNext(w, id).tasks[id], session);
  }

  lemma DrainProjects(w: World, session: string, id: nat)
    requires id in w.tasks
    ensures DrainOk(w, session, id)
  {
    hide DrainOk;
    match w.tasks[id].drainer.stage {
      case Holding(_) => IncrProjects(w, session, id);
      case Numbered(_) => PushProjects(w, session, id);
      case Pushed(_) => LocalStepProjects(w, session, id);
      case Expired(_) => SetProjects(w, session, id);
      case Snapped(_) => PublishProjects(w, session, id);
      case Published(_) => LocalStepProjects(w, session, id);
      case _ => TakeProjects(w, session, id);
    }
  }

  lemma HaltProjects(w: World, session: string, id: nat)
    requires id in w.tasks
    ensures Proj(Next(w, HaltOf(id)), session)
         == if w.tasks[id].session == session then Protocol.Next(Proj(w, session), Protocol.Action.Halt(id))
            else Proj(w, session)
  {
    hide Drainers, Readers;
    TaskLookup(w.tasks, id, session);
    TaskUpdate(w.tasks, id, Halt(w.tasks[id]), session);
  }

  lemma CrashProjects(w: World, session: string)
    ensures Proj(Next(w, CrashAll), session) == Protocol.Next(Proj(w, session), Crash)
  {
  }

  /** `cancel_job` writes a key that no session's stream is made of, and so does its expiry. */
  lemma CancelProjects(w: World, session: string, target: string)
    ensures Proj(Next(w, CancelOf(target)), session) == Proj(w, session)
    ensures Proj(Next(w, ExpireFlagOf(target)), session) == Proj(w, session)
  {
    hide Drainers, Readers, Keys.Sequence, Keys.EventsList, Keys.Snapshot, Keys.CancelFlag;
    Keys.KeysDisjoint(session, target);
  }

  lemma AttachProjects(w: World, session: string, target: string, r: nat)
    ensures Proj(Next(w, AttachTo(target, r)), session)
         == if target != session || r in w.connections then Proj(w, session)
            else Protocol.Next(Proj(w, session), Attach(r))
  {
    hide Drainers, Readers;
    ConnectionLookup(w.connections, r, session);
    if r !in w.connections {
      ConnectionUpdate(w.connections, r, Connection(target, JUST_SUBSCRIBED), session);
    }
  }

  lemma TurnProjects(w: World, session: string, r: nat, a: Action)
    ensures Proj(Next(w, Turn(r, a)), session)
         == if r in w.connections && w.connections[r].session == session && IsTurn(a)
            then Protocol.Next(Proj(w, session), Renamed(a, r)) else Proj(w, session)
  {
    hide Drainers, Readers, RangeNext, YieldNext, PollNext, SilentNext, LeaveNext;
    if r in w.connections {
      ConnectionLookup(w.connections, r, session);
      ConnectionUpdate(w.connections, r, Next(w, Turn(r, a)).connections[r], session);
      assert !IsTurn(a) ==> Next(w, Turn(r, a)).connections == w.connections;
    }
  }

  /** One world event is at most one action of each session. */
  lemma MoveProjects(w: World, move: Move, session: string)
    ensures Proj(Next(w, move), session) == Protocol.Run(Proj(w, session), ActionsFor(w, move, session))
  {
    hide Proj, DrainNext, Drainers, Readers;
    var s, actions := Proj(w, session), ActionsFor(w, move, session);
    if actions != [] {
      RunOne(s, actions[0]);
    }
    match move {
      case EmitTo(target, item, task) => EmitProjects(w, session, target, item, task);
      case CloseOf(target) => CloseProjects(w, session, target);
      case StepOf(id) => if id in w.tasks { DrainProjects(w, session, id); }
      case HaltOf(id) => if id in w.tasks { HaltProjects(w, session, id); }
      case CrashAll => CrashProjects(w, session);
      case CancelOf(target) => CancelProjects(w, session, target);
      case ExpireFlagOf(target) => CancelProjects(w, session, target);
      case AttachTo(target, r) => AttachProjects(w, session, target, r);
      case Turn(r, a) => TurnProjects(w, session, r, a);
    }
  }

  /** Session isolation: with any number of sessions interleaved, each session's dictionary entry, drainers,
      counter, list, snapshot and readers are those of the run projected onto that session alone. */
  lemma {:induction false} Isolation(w: World, moves: seq<Move>, session: string)
    ensures Proj(Run(w, moves), session) == Protocol.Run(Proj(w, session), SessionRun(w, moves, session))
    decreases |moves|
  {
    hide Proj, Next, ActionsFor;
    if moves != [] {
      MoveProjects(w, moves[0], session);
      Isolation(Next(w, moves[0]), moves[1..], session);
      RunConcat(Proj(w, session), ActionsFor(w, moves[0], session),
                SessionRun(Next(w, moves[0]), moves[1..], session));
    }
  }

  // ---------------------------------------------------------------------------
  // The cancel flag
  // ---------------------------------------------------------------------------

  /** What EXISTS on the cancel key answers. */
  predicate CancelRequested(w: World, session: string) {
    Keys.CancelFlag(session) in w.kv
  }

  lemma DrainLeavesFlags(w: World, id: nat, session: string)
    requires id in w.tasks
    ensures CancelRequested(DrainNext(w, id), session) == CancelRequested(w, session)
  {
    hide GetCounter, GetList, GetLog, Fanout, Keys.Sequence, Keys.EventsList, Keys.Snapshot, Keys.Channel,
         Keys.CancelFlag;
    Keys.KeysDisjoint(w.tasks[id].session, session);
  }

  lemma OnlyCancelFlags(w: World, move: Move, session: string)
    ensures CancelRequested(Next(w, move), session)
            <==> move == CancelOf(session) || (CancelRequested(w, session) && move != ExpireFlagOf(session))
  {
    hide DrainNext, Keys.CancelFlag;
    if move.StepOf? && move.task in w.tasks {
      DrainLeavesFlags(w, move.task, session);
    }
    if move.CancelOf? || move.ExpireFlagOf? {
      Keys.KeysDisjoint(move.session, session);
    }
  }

  /** The session was cancelled, and that flag has not expired since. */
  ghost predicate Standing(moves: seq<Move>, session: string) {
    exists n :: 0 <= n < |moves| && moves[n] == CancelOf(session) && ExpireFlagOf(session) !in moves[n..]
  }

  lemma StandingStep(moves: seq<Move>, session: string)
    requires moves != []
    ensures Standing(moves, session) <==>
              Standing(moves[1..], session) || (moves[0] == CancelOf(session) && ExpireFlagOf(session) !in moves[1..])
  {
    if moves[0] == CancelOf(session) && ExpireFlagOf(session) !in moves[1..] {
      assert moves[0..] == [moves[0]] + moves[1..];
      assert ExpireFlagOf(session) !in moves[0..];
    }
    forall n | 0 <= n < |moves| - 1
      ensures moves[1..][n] == moves[n + 1] && moves[1..][n..] == moves[n + 1..]
    {
    }
    if Standing(moves, session) {
      var n :| 0 <= n < |moves| && moves[n] == CancelOf(session) && ExpireFlagOf(session) !in moves[n..];
      if n > 0 {
        assert moves[1..][n - 1] == CancelOf(session) && ExpireFlagOf(session) !in moves[1..][n - 1..];
      } else {
        assert moves[0..] == [moves[0]] + moves[1..];
      }
    }
    if Standing(moves[1..], session) {
      var n :| 0 <= n < |moves[1..]| && moves[1..][n] == CancelOf(session) && ExpireFlagOf(session) !in moves[1..][n..];
      assert moves[n + 1] == CancelOf(session) && ExpireFlagOf(session) !in moves[n + 1..];
    }
  }

  /** Only an explicit cancel of this session raises its flag, until it expires: no disconnect, crash or other
      session does. */
  lemma {:induction false} OnlyAnExplicitCancelFlags(w: World, moves: seq<Move>, session: string)
    ensures CancelRequested(Run(w, moves), session)
            <==> Standing(moves, session) || (CancelRequested(w, session) && ExpireFlagOf(session) !in moves)
    decreases |moves|
  {
    hide Next, CancelRequested, Standing;
    if moves != [] {
      OnlyCancelFlags(w, moves[0], session);
      OnlyAnExplicitCancelFlags(Next(w, moves[0]), moves[1..], session);
      StandingStep(moves, session);
      assert ExpireFlagOf(session) in moves <==> moves[0] == ExpireFlagOf(session) || ExpireFlagOf(session) in moves[1..];
    } else {
      NothingStands(session);
    }
  }

  lemma NothingStands(session: string)
    ensures !Standing([], session)
  {
  }
}
