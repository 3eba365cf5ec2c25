/**
 One operation at a time. The callbacks of the handler do what the steps of the protocol do when
 nothing comes between them.
 */
module Sequential {
  import opened Common
  import opened Agents
  import opened Registry
  import opened Store
  import opened Handler
  import opened Protocol

  /** The steps can be taken one after the other, and lead there. */
  ghost predicate Leads(env: Env, s: State, steps: seq<Step>, end: State)
    decreases |steps|
  {
    if steps == [] then s == end
    else Enabled(env, s, steps[0]) && Leads(env, Next(env, s, steps[0]), steps[1..], end)
  }

  /** One more step at the end. */
  lemma {:induction false} AndThen(env: Env, s: State, steps: seq<Step>, end: State, step: Step)
    returns (longer: seq<Step>, after: State)
    requires Leads(env, s, steps, end) && Enabled(env, end, step)
    ensures Leads(env, s, longer, after) && after == Next(env, end, step)
    decreases |steps|
  {
    after := Next(env, end, step);
    longer := steps + [step];
    if steps == [] {
      assert longer[1..] == [];
    } else {
      var rest, _ := AndThen(env, Next(env, s, steps[0]), steps[1..], end, step);
      longer := [steps[0]] + rest;
      assert longer[1..] == rest;
    }
  }

  // ---------------------------------------------------------------- a message

  lemma HeardInOneGo(env: Env, s: State, id: nat, conn: Conn, msg: AgentToServer)
    returns (steps: seq<Step>, end: State)
    requires Enabled(env, s, Hear(id, conn, msg))
    ensures Leads(env, s, steps, end)
    ensures var uid, v := env.owner(conn), s.server;
            end.server == v.(conns := Heard(v.conns, conn, uid, msg), tasks := v.tasks[id := MessageHeard(uid, msg)])
  {
    steps, end := [], s;
    steps, end := AndThen(env, s, steps, end, Hear(id, conn, msg));
    if msg.description.Some? {
      steps, end := AndThen(env, s, steps, end, Advertise(id));
    }
  }

  /** Hearing a message, advertising its port if it has one, and storing it. */
  lemma MessageInOneGo(env: Env, s: State, id: nat, conn: Conn, msg: AgentToServer, ok: bool)
    returns (steps: seq<Step>, end: State)
    requires Enabled(env, s, Hear(id, conn, msg)) && (ok && env.durable ==> msg.capabilities <= MAX_INT64)
    ensures Leads(env, s, steps, end)
    ensures var uid, v := env.owner(conn), s.server;
            end.server == v.(
              conns := Heard(v.conns, conn, uid, msg),
              agents := if ok then v.agents[uid := KeptAgent(env, WithMessage(Record(v.agents, uid), msg, v.clock))]
                        else v.agents)
  {
    steps, end := HeardInOneGo(env, s, id, conn, msg);
    steps, end := AndThen(env, s, steps, end, StoreMessage(id, ok));
    assert end.server.tasks == s.server.tasks;
  }

  /** The message callback has that effect on the registry and the in-memory store. */
  method MessageCallback(h: Handler, env: Env, s: State, id: nat, conn: Conn, msg: AgentToServer, storeUp: bool)
    returns (ghost steps: seq<Step>, ghost end: State)
    requires !env.durable && Enabled(env, s, Hear(id, conn, msg))
    requires h.conns.byUid == s.server.conns && h.store.agents == s.server.agents && h.store.pushes == s.server.pushes
    modifies h.conns, h.store
    ensures Leads(env, s, steps, end) && end.server.tasks == s.server.tasks
    ensures h.conns.byUid == end.server.conns && h.store.agents == end.server.agents
    ensures h.store.pushes == end.server.pushes
  {
    h.OnMessage(conn, msg, s.server.clock, storeUp);
    steps, end := MessageInOneGo(env, s, id, conn, msg, storeUp);
  }

  // ---------------------------------------------------------------- a push

  /** Looking the agent up, recording the push, storing it and sending it, as far as the store lets it. */
  lemma PushInOneGo(env: Env, s: State, id: nat, uid: Uid, yaml: string, pushedBy: string, note: string,
                    pushId: string, appendOk: bool, upsertOk: bool) returns (steps: seq<Step>, end: State)
    requires Enabled(env, s, LookUp(id, uid, yaml, pushedBy, note))
    ensures Leads(env, s, steps, end)
    ensures var v := s.server;
            var push := ConfigPush(pushId, uid, v.clock, yaml, pushedBy, note, false, "");
            var stored := appendOk && upsertOk;
            && end.server == v.(
                 pushes := if appendOk then Appended(v.pushes, KeptPush(env, push)) else v.pushes,
                 agents := if stored
                           then v.agents[uid := KeptAgent(env, WithPush(Record(v.agents, uid), push, env.hash(yaml)))]
                           else v.agents)
            && end.trail.sent == s.trail.sent +
                 if stored then [Delivery(v.conns[uid].conn, uid, push, env.hash(yaml))] else []
  {
    steps, end := [], s;
    steps, end := AndThen(env, s, steps, end, LookUp(id, uid, yaml, pushedBy, note));
    steps, end := AndThen(env, s, steps, end, RecordPush(id, pushId, s.server.clock, appendOk));
    if appendOk {
      steps, end := AndThen(env, s, steps, end, StorePush(id, upsertOk));
      if upsertOk {
        steps, end := AndThen(env, s, steps, end, Send(id));
      }
    }
    assert end.server.tasks == s.server.tasks;
  }

  /** A push by the API has that effect, and a push to an unregistered agent none. */
  method PushCall(h: Handler, env: Env, s: State, id: nat, uid: Uid, yaml: string, pushedBy: string, note: string,
                  pushId: string, appendOk: bool, upsertOk: bool, sendOk: bool)
    returns (ghost steps: seq<Step>, ghost end: State, sent: Option<Delivery>)
    requires !env.durable && id !in s.server.tasks && h.configHash == env.hash
    requires uid in s.server.conns ==> h.parsesAsUuid(uid)
    requires h.conns.byUid == s.server.conns && h.store.agents == s.server.agents && h.store.pushes == s.server.pushes
    modifies h.store
    ensures Leads(env, s, steps, end) && end.server.tasks == s.server.tasks
    ensures h.store.agents == end.server.agents && h.store.pushes == end.server.pushes
    ensures end.trail.sent == s.trail.sent + if sent.Some? then [sent.value] else []
  {
    var _, d := h.PushConfig(uid, yaml, pushedBy, note, pushId, s.server.clock, appendOk, upsertOk, sendOk);
    sent := d;
    if uid in s.server.conns {
      steps, end := PushInOneGo(env, s, id, uid, yaml, pushedBy, note, pushId, appendOk, upsertOk);
    } else {
      steps, end := [], s;
    }
  }

  // ---------------------------------------------------------------- a sweep

  /** The sweep has visited the listed agents that are not in `todo`. */
  ghost predicate Halfway(env: Env, was: State, s: State, written: Uid -> bool) {
    var v, listed, now := s.server, was.server.agents, was.server.clock;
    && v.sweep.Some? && v.sweep.value == Sweep(listed, now, v.sweep.value.todo, Some(now))
    && v.sweep.value.todo <= listed.Keys && v.agents.Keys == listed.Keys
    && v == was.server.(agents := v.agents, sweep := v.sweep)
    && forall uid :: uid in listed ==>
         v.agents[uid] == if uid !in v.sweep.value.todo && written(uid)
                          then Classified(listed[uid], now, env.staleAfter, env.disconnectedAfter) else listed[uid]
  }

  /** The store gives back what it was given, under its own uid. */
  ghost predicate KeptRecords(env: Env, agents: Records) {
    forall uid :: uid in agents ==> agents[uid].instanceUid == uid && KeptAgent(env, agents[uid]) == agents[uid]
  }

  lemma KeptClassified(env: Env, a: Agent, now: int)
    requires KeptAgent(env, a) == a
    ensures var c := Classified(a, now, env.staleAfter, env.disconnectedAfter); KeptAgent(env, c) == c
  {
  }

  lemma VisitOne(env: Env, was: State, s: State, written: Uid -> bool, uid: Uid)
    requires KeptRecords(env, was.server.agents) && Halfway(env, was, s, written) && uid in s.server.sweep.value.todo
    ensures Enabled(env, s, Visit(uid, written(uid)))
    ensures var s' := Next(env, s, Visit(uid, written(uid)));
            Halfway(env, was, s', written) && s'.server.sweep.value.todo == s.server.sweep.value.todo - {uid}
  {
    var a, now := was.server.agents[uid], was.server.clock;
    var v, v' := s.server, NextServer(env, s, Visit(uid, written(uid)));
    KeptClassified(env, a, now);
    assert v.agents[uid] == a == Record(v.agents, uid);
    var c := if written(uid) then Classified(a, now, env.staleAfter, env.disconnectedAfter) else a;
    assert v'.agents == v.agents[uid := c];
  }

  lemma {:induction false} VisitAll(env: Env, was: State, s: State, written: Uid -> bool, steps: seq<Step>, mid: State)
    returns (longer: seq<Step>, end: State)
    requires KeptRecords(env, was.server.agents) && Leads(env, s, steps, mid) && Halfway(env, was, mid, written)
    ensures Leads(env, s, longer, end) && Halfway(env, was, end, written) && end.server.sweep.value.todo == {}
    decreases mid.server.sweep.value.todo
  {
    if mid.server.sweep.value.todo == {} {
      longer, end := steps, mid;
    } else {
      var uid :| uid in mid.server.sweep.value.todo;
      VisitOne(env, was, mid, written, uid);
      var steps', mid' := AndThen(env, s, steps, mid, Visit(uid, written(uid)));
      longer, end := VisitAll(env, was, s, written, steps', mid');
    }
  }

  /** Listing the agents, reading the clock and visiting every one. */
  lemma SweepInOneGo(env: Env, s: State, written: Uid -> bool) returns (steps: seq<Step>, end: State)
    requires s.server.sweep.None? && KeptRecords(env, s.server.agents)
    ensures Leads(env, s, steps, end)
    ensures end.server == s.server.(agents := end.server.agents) && end.server.agents.Keys == s.server.agents.Keys
    ensures forall uid :: uid in s.server.agents ==>
              var a := s.server.agents[uid];
              end.server.agents[uid] ==
              if written(uid) then Classified(a, s.server.clock, env.staleAfter, env.disconnectedAfter) else a
  {
    steps, end := [], s;
    steps, end := AndThen(env, s, steps, end, BeginSweep);
    steps, end := AndThen(env, s, steps, end, ReadClock);
    assert Halfway(env, s, end, written);
    steps, end := VisitAll(env, s, s, written, steps, end);
    steps, end := AndThen(env, s, steps, end, EndSweep);
  }

  /** A tick of the sweeper has that effect on the in-memory store; one that cannot list the agents has none. */
  method SweeperTick(store: MemoryStore, env: Env, s: State, listOk: bool, upsertOk: Uid -> bool)
    returns (ghost steps: seq<Step>, ghost end: State)
    requires !env.durable && s.server.sweep.None? && KeptRecords(env, s.server.agents)
    requires store.agents == s.server.agents && store.pushes == s.server.pushes
    modifies store
    ensures Leads(env, s, steps, end) && end.server == s.server.(agents := end.server.agents)
    ensures store.agents == end.server.agents && store.pushes == end.server.pushes
  {
    SweepOnce(store, env.staleAfter, env.disconnectedAfter, s.server.clock, listOk, upsertOk);
    if listOk {
      steps, end := SweepInOneGo(env, s, upsertOk);
    } else {
      steps, end := [], s;
    }
  }
}
