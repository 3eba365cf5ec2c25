/**
 The fleet protocol as a state machine. Messages, config pushes, connection closes and the sweeper
 run concurrently; each transition is one critical section of the registry or the store, and any
 store write may fail. A message is hear, then advertise if it carries a description, then store; a
 push is lookup, record, store, send; a sweep is list, read the clock, then one visit per agent. A
 restart may come at any moment; it keeps what a durable store holds and nothing else.
 */
module Protocol {
  import opened Common
  import opened Agents
  import opened Registry
  import opened Store
  import opened Handler
  import Sqlite

  /**
   What does not change during a run. `owner` is the one agent a connection speaks for; `durable`
   says whether the store is the SQLite one, which outlives the server and keeps whole seconds, or
   the one in memory.
   */
  datatype Env = Env(
    hash: string -> Digest, owner: Conn -> Uid, staleAfter: int, disconnectedAfter: int, durable: bool, start: int)

  // What the store gives back of what was written to it.

  function KeptTime(env: Env, t: int): int {
    if env.durable then Sqlite.Floored(t) else t
  }

  function KeptAgent(env: Env, a: Agent): Agent {
    if env.durable then Sqlite.FlooredAgent(a) else a
  }

  function KeptPush(env: Env, push: ConfigPush): ConfigPush {
    push.(timestamp := KeptTime(env, push.timestamp))
  }

  /** By how much a kept time can lie before the time itself. */
  function Lag(env: Env): nat {
    if env.durable then Sqlite.SECOND - 1 else 0
  }

  /** An operation between two of its critical sections. */
  datatype Task =
    | MessageSet(uid: Uid, msg: AgentToServer, port: nat)
    | MessageHeard(uid: Uid, msg: AgentToServer)
    | PushFound(to: Uid, conn: Option<Conn>, yaml: string, pushedBy: string, note: string, since: int)
    | PushRecorded(conn: Option<Conn>, push: ConfigPush, digest: Digest)
    | PushStored(conn: Option<Conn>, push: ConfigPush, digest: Digest)

  datatype Sweep = Sweep(listed: Records, listedAt: int, todo: set<Uid>, now: Option<int>)

  datatype Server = Server(
    clock: int,
    conns: Conns,
    agents: Records,
    pushes: Histories,
    tasks: map<nat, Task>,
    sweep: Option<Sweep>)

  /** History variables: they record the run and influence nothing. */
  datatype Trail = Trail(
    log: map<Uid, seq<Entry>>,     // what reached each record, in the order of the store writes
    sent: seq<Delivery>,           // what pushes sent, and on which connection
    closed: set<Conn>,
    stranded: set<Uid>,            // agents whose entry was made by a port without a connection
    ports: map<Uid, seq<nat>>,     // ports advertised since the registry entry was created
    touched: set<Uid>,             // agents whose message was stored since the latest listing
    missed: set<Uid>,              // agents whose write failed in the running sweep
    settled: map<Uid, int>)        // agents silent since a sweep classified them, with that sweep's clock

  datatype State = State(server: Server, trail: Trail)

  datatype Step =
    | Tick(now: int)
    | Hear(id: nat, conn: Conn, msg: AgentToServer)
    | Advertise(id: nat)
    | StoreMessage(id: nat, ok: bool)
    | LookUp(id: nat, uid: Uid, yaml: string, pushedBy: string, note: string)
    | RecordPush(id: nat, pushId: string, at: int, ok: bool)
    | StorePush(id: nat, ok: bool)
    | Send(id: nat)
    | Close(conn: Conn, victim: Option<Uid>)
    | BeginSweep
    | ReadClock
    | Visit(uid: Uid, ok: bool)
    | EndSweep
    | Restart

  /** A server over an empty store, at some time after the epoch's first second. */
  function Fresh(clock: int, closed: set<Conn>): State {
    State(Server(clock, map[], map[], map[], map[], None), Trail(map[], [], closed, {}, map[], {}, {}, map[]))
  }

  /** A restart over the in-memory store, which loses everything. */
  predicate Loses(env: Env, step: Step) {
    step.Restart? && !env.durable
  }

  function LogOf(t: Trail, uid: Uid): seq<Entry> {
    if uid in t.log then t.log[uid] else []
  }

  function Logged(t: Trail, uid: Uid, e: Entry): map<Uid, seq<Entry>> {
    t.log[uid := LogOf(t, uid) + [e]]
  }

  predicate Enabled(env: Env, s: State, step: Step) {
    var v, t := s.server, s.trail;
    match step
    case Tick(now) => v.clock <= now
    case Hear(id, conn, msg) => id !in v.tasks && conn !in t.closed && msg.instanceUid == Some(env.owner(conn))
    case Advertise(id) => id in v.tasks && v.tasks[id].MessageSet?
    case StoreMessage(id, ok) =>
      && id in v.tasks && v.tasks[id].MessageHeard?
      && (ok && env.durable ==> v.tasks[id].msg.capabilities <= MAX_INT64)
    case LookUp(id, uid, _, _, _) => id !in v.tasks && uid in v.conns
    case RecordPush(id, _, at, _) => id in v.tasks && v.tasks[id].PushFound? && v.tasks[id].since <= at <= v.clock
    case StorePush(id, _) => id in v.tasks && v.tasks[id].PushRecorded?
    case Send(id) => id in v.tasks && v.tasks[id].PushStored?
    case Close(conn, victim) =>
      && conn !in t.closed
      && if victim.Some? then Holds(v.conns, victim.value, conn)
         else forall u :: u in v.conns ==> !Holds(v.conns, u, conn)
    case BeginSweep => v.sweep.None?
    case ReadClock => v.sweep.Some? && v.sweep.value.now.None?
    case Visit(uid, _) =>
      v.sweep.Some? && v.sweep.value.now.Some? && uid in v.sweep.value.todo && uid in v.sweep.value.listed
    case EndSweep => v.sweep.Some? && v.sweep.value.now.Some? && v.sweep.value.todo == {}
    case Restart => true
  }

  /** A message goes on to its port if it carries a description, else to the store. */
  function Registering(uid: Uid, msg: AgentToServer): Task {
    match msg.description
    case Some(d) => MessageSet(uid, msg, ParsePort(At(Flattened(d), SelfMetricsPort)))
    case None => MessageHeard(uid, msg)
  }

  /** The state the visiting sweep wants for an agent. */
  function Want(env: Env, sw: Sweep, uid: Uid): ConnectionState
    requires uid in sw.listed && sw.now.Some?
  {
    ClassOf(sw.now.value - sw.listed[uid].lastSeen, env.staleAfter, env.disconnectedAfter)
  }

  function NextServer(env: Env, s: State, step: Step): Server
    requires Enabled(env, s, step)
  {
    var v := s.server;
    match step
    case Tick(now) => v.(clock := now)
    case Hear(id, conn, msg) =>
      var uid := env.owner(conn);
      v.(conns := Registered(v.conns, uid, conn), tasks := v.tasks[id := Registering(uid, msg)])
    case Advertise(id) =>
      var k := v.tasks[id];
      v.(conns := Advertised(v.conns, k.uid, k.port), tasks := v.tasks[id := MessageHeard(k.uid, k.msg)])
    case StoreMessage(id, ok) =>
      var uid, msg := v.tasks[id].uid, v.tasks[id].msg;
      v.(tasks := v.tasks - {id},
         agents := if ok then v.agents[uid := KeptAgent(env, WithMessage(Record(v.agents, uid), msg, v.clock))]
                    else v.agents)
    case LookUp(id, uid, yaml, pushedBy, note) =>
      v.(tasks := v.tasks[id := PushFound(uid, v.conns[uid].conn, yaml, pushedBy, note, v.clock)])
    case RecordPush(id, pushId, at, ok) =>
      var k := v.tasks[id];
      var push := ConfigPush(pushId, k.to, at, k.yaml, k.pushedBy, k.note, false, "");
      if ok
      then v.(pushes := Appended(v.pushes, KeptPush(env, push)),
              tasks := v.tasks[id := PushRecorded(k.conn, push, env.hash(k.yaml))])
      else v.(tasks := v.tasks - {id})
    case StorePush(id, ok) =>
      var k := v.tasks[id];
      var uid := k.push.agentUid;
      if ok
      then v.(agents := v.agents[uid := KeptAgent(env, WithPush(Record(v.agents, uid), k.push, k.digest))],
              tasks := v.tasks[id := PushStored(k.conn, k.push, k.digest)])
      else v.(tasks := v.tasks - {id})
    case Send(id) => v.(tasks := v.tasks - {id})
    case Close(conn, victim) => if victim.Some? then v.(conns := v.conns - {victim.value}) else v
    case BeginSweep => v.(sweep := Some(Sweep(v.agents, v.clock, v.agents.Keys, None)))
    case ReadClock => v.(sweep := Some(v.sweep.value.(now := Some(v.clock))))
    case Visit(uid, ok) =>
      var sw := v.sweep.value;
      var want := Want(env, sw, uid);
      v.(sweep := Some(sw.(todo := sw.todo - {uid})),
         agents := if want != sw.listed[uid].connectionState && ok
                   then v.agents[uid := KeptAgent(env, Record(v.agents, uid).(connectionState := want))] else v.agents)
    case EndSweep => v.(sweep := None)
    case Restart =>
      if env.durable then v.(conns := map[], tasks := map[], sweep := None) else Fresh(v.clock, {}).server
  }

  /** The ports advertised for the agent's present entry. */
  function PortsOf(s: State, uid: Uid): seq<nat> {
    if uid in s.server.conns && uid in s.trail.ports then s.trail.ports[uid] else []
  }

  function OpenConns(conns: Conns): set<Conn> {
    set uid | uid in conns && conns[uid].conn.Some? :: conns[uid].conn.value
  }

  function NextTrail(env: Env, s: State, step: Step): Trail
    requires Enabled(env, s, step)
  {
    var v, t := s.server, s.trail;
    match step
    case Hear(_, conn, _) =>
      var uid := env.owner(conn);
      t.(ports := t.ports[uid := PortsOf(s, uid)], stranded := t.stranded - {uid})
    case Advertise(id) =>
      var uid, port := v.tasks[id].uid, v.tasks[id].port;
      t.(ports := t.ports[uid := PortsOf(s, uid) + [port]],
         stranded := if uid in v.conns then t.stranded else t.stranded + {uid})
    case StoreMessage(id, ok) =>
      var uid, msg := v.tasks[id].uid, v.tasks[id].msg;
      if ok
      then t.(log := Logged(t, uid, Told(msg, v.clock)), touched := t.touched + {uid}, settled := t.settled - {uid})
      else t
    case StorePush(id, ok) =>
      var k := v.tasks[id];
      if ok then t.(log := Logged(t, k.push.agentUid, Pushed(k.push, k.digest))) else t
    case Send(id) =>
      var k := v.tasks[id];
      t.(sent := t.sent + [Delivery(k.conn, k.push.agentUid, k.push, k.digest)])
    case Close(conn, _) => t.(closed := t.closed + {conn})
    case BeginSweep => t.(touched := {}, missed := {})
    case Visit(uid, ok) =>
      var sw := v.sweep.value;
      if Want(env, sw, uid) != sw.listed[uid].connectionState && !ok then t.(missed := t.missed + {uid})
      else if uid in t.touched then t
      else t.(settled := t.settled[uid := sw.now.value])
    case Restart =>
      var closed := t.closed + OpenConns(v.conns);
      if env.durable then t.(closed := closed, stranded := {}) else Fresh(v.clock, closed).trail
    case _ => t
  }

  function Next(env: Env, s: State, step: Step): State
    requires Enabled(env, s, step)
  {
    State(NextServer(env, s, step), NextTrail(env, s, step))
  }

  /** A run: from the fresh server, every step is enabled and leads to the next state. */
  ghost predicate Run(env: Env, states: seq<State>, steps: seq<Step>) {
    && |states| == |steps| + 1
    && states[0] == Fresh(env.start, {}) && env.start >= Sqlite.SECOND
    && forall i :: 0 <= i < |steps| ==>
         Enabled(env, states[i], steps[i]) && states[i + 1] == Next(env, states[i], steps[i])
  }
}
