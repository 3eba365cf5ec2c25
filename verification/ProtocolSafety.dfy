/** What every reachable state of the fleet protocol satisfies. */
module ProtocolSafety {
  import opened Common
  import opened Agents
  import opened Registry
  import opened Store
  import opened Handler
  import opened Protocol
  import Sqlite

  // ---------------------------------------------------------------- no update is lost

  ghost predicate SameButConnection(a: Agent, b: Agent) {
    a == b.(connectionState := a.connectionState)
  }

  ghost predicate SerialAt(env: Env, s: State, uid: Uid) {
    && (uid in s.server.agents <==> uid in s.trail.log)
    && (uid in s.server.agents ==>
          SameButConnection(s.server.agents[uid], KeptAgent(env, Fold(Newborn(uid), s.trail.log[uid]))))
  }

  /**
   Every record is the fold of what reached it, one entry after the other; the sweeper shows only in
   the connection state.
   */
  ghost predicate Serial(env: Env, s: State) {
    forall uid :: SerialAt(env, s, uid)
  }

  lemma {:induction false} FoldKeepsUid(a: Agent, log: seq<Entry>)
    ensures Fold(a, log).instanceUid == a.instanceUid
  {
    if log != [] { FoldKeepsUid(a, log[..|log| - 1]); }
  }

  lemma KeptOnce(env: Env, a: Agent)
    ensures KeptAgent(env, KeptAgent(env, a)) == KeptAgent(env, a)
  {
    Sqlite.FlooredIsStartOfSecond(a.lastSeen);
    Sqlite.FlooredIsStartOfSecond(a.startTime);
    Sqlite.FlooredIsStartOfSecond(a.lastPushedAt);
  }

  /** An entry folded into what the store gave back, and kept, is as good as folded into the record itself. */
  lemma KeptEntry(env: Env, a: Agent, b: Agent, e: Entry)
    requires SameButConnection(a, KeptAgent(env, b))
    ensures SameButConnection(KeptAgent(env, WithEntry(a, e)), KeptAgent(env, WithEntry(b, e)))
  {
    KeptOnce(env, b);
  }

  lemma EntryOnRecord(env: Env, s: State, uid: Uid, e: Entry)
    requires Serial(env, s)
    ensures SameButConnection(KeptAgent(env, WithEntry(Record(s.server.agents, uid), e)),
                              KeptAgent(env, Fold(Newborn(uid), LogOf(s.trail, uid) + [e])))
  {
    var before := LogOf(s.trail, uid);
    var log := before + [e];
    assert log[..|log| - 1] == before;
    assert SerialAt(env, s, uid);
    FoldKeepsUid(Newborn(uid), before);
    KeptEntry(env, Record(s.server.agents, uid), Fold(Newborn(uid), before), e);
  }

  lemma SerialWrite(env: Env, s: State, step: Step, uid: Uid)
    requires Enabled(env, s, step) && Serial(env, s) && (step.StoreMessage? || step.StorePush?) && step.ok
    ensures SerialAt(env, Next(env, s, step), uid)
  {
    assert SerialAt(env, s, uid);
    var k := s.server.tasks[step.id];
    if step.StoreMessage? {
      EntryOnRecord(env, s, k.uid, Told(k.msg, s.server.clock));
    } else {
      EntryOnRecord(env, s, k.push.agentUid, Pushed(k.push, k.digest));
    }
  }

  lemma KeptState(env: Env, a: Agent, b: Agent, c: ConnectionState)
    requires SameButConnection(a, KeptAgent(env, b))
    ensures SameButConnection(KeptAgent(env, a.(connectionState := c)), KeptAgent(env, b))
  {
    KeptOnce(env, b);
  }

  /** A state written over a record that is the kept fold leaves it that, the state aside. */
  lemma SerialRecord(env: Env, a: Agent, uid: Uid, log: seq<Entry>, c: ConnectionState)
    requires SameButConnection(a, KeptAgent(env, Fold(Newborn(uid), log)))
    ensures var a' := KeptAgent(env, a.(instanceUid := uid, connectionState := c));
            SameButConnection(a', KeptAgent(env, Fold(Newborn(uid), log)))
  {
    FoldKeepsUid(Newborn(uid), log);
    KeptState(env, a, Fold(Newborn(uid), log), c);
  }

  lemma SerialVisit(env: Env, s: State, visited: Uid, ok: bool, uid: Uid)
    requires Enabled(env, s, Visit(visited, ok)) && Serial(env, s) && visited in s.server.agents
    ensures SerialAt(env, Next(env, s, Visit(visited, ok)), uid)
  {
    assert SerialAt(env, s, uid);
    if uid == visited {
      var a, want := s.server.agents[uid], Want(env, s.server.sweep.value, uid);
      SerialRecord(env, a, uid, s.trail.log[uid], want);
      var after := NextServer(env, s, Visit(visited, ok)).agents[uid];
      assert after == a || after == KeptAgent(env, a.(instanceUid := uid, connectionState := want));
    }
  }

  lemma SerialStep(env: Env, s: State, step: Step)
    requires Enabled(env, s, step) && Serial(env, s)
    requires step.Visit? ==> step.uid in s.server.agents
    ensures Serial(env, Next(env, s, step))
  {
    forall uid ensures SerialAt(env, Next(env, s, step), uid) {
      if (step.StoreMessage? || step.StorePush?) && step.ok {
        SerialWrite(env, s, step, uid);
      } else if step.Visit? {
        SerialVisit(env, s, step.uid, step.ok, uid);
      } else {
        assert SerialAt(env, s, uid);
      }
    }
  }

  // ---------------------------------------------------------------- pushes and their history

  /** The push is in its agent's history, under its hash. */
  ghost predicate OnRecord(env: Env, s: State, push: ConfigPush, digest: Digest) {
    KeptPush(env, push) in History(s.server.pushes, push.agentUid) && digest == env.hash(push.configYaml)
  }

  /** The push is on record and has been stored as its agent's current one. */
  ghost predicate Effective(env: Env, s: State, push: ConfigPush, digest: Digest) {
    OnRecord(env, s, push, digest) && Pushed(push, digest) in LogOf(s.trail, push.agentUid)
  }

  /** The agent's own connection, or none. */
  ghost predicate ReachesOwner(env: Env, conn: Option<Conn>, uid: Uid) {
    conn.Some? ==> env.owner(conn.value) == uid
  }

  ghost predicate TaskCoupled(env: Env, s: State, k: Task) {
    match k
    case MessageSet(_, _, _) => true
    case MessageHeard(_, _) => true
    case PushFound(to, conn, _, _, _, _) => ReachesOwner(env, conn, to)
    case PushRecorded(conn, push, digest) => ReachesOwner(env, conn, push.agentUid) && OnRecord(env, s, push, digest)
    case PushStored(conn, push, digest) => ReachesOwner(env, conn, push.agentUid) && Effective(env, s, push, digest)
  }

  ghost predicate LogCoupled(env: Env, s: State, uid: Uid) {
    forall e :: e in LogOf(s.trail, uid) && e.Pushed? ==> e.push.agentUid == uid && OnRecord(env, s, e.push, e.digest)
  }

  ghost predicate Delivered(env: Env, s: State, d: Delivery) {
    d.uid == d.push.agentUid && ReachesOwner(env, d.conn, d.uid) && Effective(env, s, d.push, d.digest)
  }

  ghost predicate Coupled(env: Env, s: State) {
    && (forall uid :: uid in s.server.conns ==> ReachesOwner(env, s.server.conns[uid].conn, uid))
    && (forall id :: id in s.server.tasks ==> TaskCoupled(env, s, s.server.tasks[id]))
    && (forall uid :: LogCoupled(env, s, uid))
    && (forall d :: d in s.trail.sent ==> Delivered(env, s, d))
  }

  /** Histories, logs and the list of deliveries only ever grow at their end. */
  lemma OnlyGrows(env: Env, s: State, step: Step, uid: Uid)
    requires Enabled(env, s, step) && !Loses(env, step)
    ensures var s' := Next(env, s, step);
            && History(s.server.pushes, uid) <= History(s'.server.pushes, uid)
            && LogOf(s.trail, uid) <= LogOf(s'.trail, uid)
            && s.trail.sent <= s'.trail.sent
            && s.trail.closed <= s'.trail.closed
            && s.server.clock <= s'.server.clock
  {
  }

  lemma StaysEffective(env: Env, s: State, step: Step, push: ConfigPush, digest: Digest)
    requires Enabled(env, s, step) && !Loses(env, step)
    ensures OnRecord(env, s, push, digest) ==> OnRecord(env, Next(env, s, step), push, digest)
    ensures Effective(env, s, push, digest) ==> Effective(env, Next(env, s, step), push, digest)
  {
    OnlyGrows(env, s, step, push.agentUid);
  }

  /** A task that the step leaves alone stays coupled. */
  lemma CoupledTaskKept(env: Env, s: State, step: Step, k: Task)
    requires Enabled(env, s, step) && !Loses(env, step) && TaskCoupled(env, s, k)
    ensures TaskCoupled(env, Next(env, s, step), k)
  {
    if k.PushRecorded? || k.PushStored? { StaysEffective(env, s, step, k.push, k.digest); }
  }

  /** The task that a step creates or advances is coupled. */
  lemma CoupledTaskMade(env: Env, s: State, step: Step)
    requires Enabled(env, s, step) && Coupled(env, s)
    requires step.LookUp? || (step.RecordPush? && step.ok) || (step.StorePush? && step.ok)
    ensures TaskCoupled(env, Next(env, s, step), Next(env, s, step).server.tasks[step.id])
  {
    if !step.LookUp? {
      var k := s.server.tasks[step.id];
      assert TaskCoupled(env, s, k);
      if step.StorePush? { StaysEffective(env, s, step, k.push, k.digest); }
    }
  }

  lemma CoupledTasksStep(env: Env, s: State, step: Step, id: nat)
    requires Enabled(env, s, step) && Coupled(env, s)
    requires id in NextServer(env, s, step).tasks
    ensures TaskCoupled(env, Next(env, s, step), Next(env, s, step).server.tasks[id])
  {
    var k := NextServer(env, s, step).tasks[id];
    if id in s.server.tasks && s.server.tasks[id] == k {
      CoupledTaskKept(env, s, step, k);
    } else if !k.MessageHeard? && !k.MessageSet? {
      assert id == step.id;
      CoupledTaskMade(env, s, step);
    }
  }

  lemma CoupledLogStep(env: Env, s: State, step: Step, uid: Uid)
    requires Enabled(env, s, step) && Coupled(env, s)
    ensures LogCoupled(env, Next(env, s, step), uid)
  {
    var s' := Next(env, s, step);
    assert LogCoupled(env, s, uid);
    if Loses(env, step) { return; }
    forall e | e in LogOf(s'.trail, uid) && e.Pushed?
      ensures e.push.agentUid == uid && OnRecord(env, s', e.push, e.digest)
    {
      StaysEffective(env, s, step, e.push, e.digest);
      if e !in LogOf(s.trail, uid) {
        assert step.StorePush? && TaskCoupled(env, s, s.server.tasks[step.id]);
      }
    }
  }

  lemma CoupledSentStep(env: Env, s: State, step: Step, d: Delivery)
    requires Enabled(env, s, step) && Coupled(env, s)
    requires d in Next(env, s, step).trail.sent
    ensures Delivered(env, Next(env, s, step), d)
  {
    StaysEffective(env, s, step, d.push, d.digest);
    if d !in s.trail.sent {
      assert step.Send? && TaskCoupled(env, s, s.server.tasks[step.id]);
    }
  }

  lemma CoupledStep(env: Env, s: State, step: Step)
    requires Enabled(env, s, step) && Coupled(env, s)
    ensures Coupled(env, Next(env, s, step))
  {
    var s' := Next(env, s, step);
    forall id | id in s'.server.tasks ensures TaskCoupled(env, s', s'.server.tasks[id]) {
      CoupledTasksStep(env, s, step, id);
    }
    forall uid ensures LogCoupled(env, s', uid) {
      CoupledLogStep(env, s, step, uid);
    }
    forall d | d in s'.trail.sent ensures Delivered(env, s', d) {
      CoupledSentStep(env, s, step, d);
    }
  }

  // ---------------------------------------------------------------- the registry

  function LastPort(ports: seq<nat>): nat {
    if ports == [] then 0 else ports[|ports| - 1]
  }

  ghost predicate EntryLive(env: Env, s: State, uid: Uid) {
    if uid !in s.server.conns then uid !in s.trail.stranded
    else
      var e := s.server.conns[uid];
      && (e.conn.None? <==> uid in s.trail.stranded)
      && (e.conn.None? ==> e.remoteIp == "")
      && (e.conn.Some? ==>
            e.conn.value !in s.trail.closed && env.owner(e.conn.value) == uid && e.remoteIp == e.conn.value.peer)
      && uid in s.trail.ports && e.metricsPort == LastPort(s.trail.ports[uid])
  }

  /**
   Every entry holds an open connection of its own agent and that connection's peer, or it was
   stranded; either way it holds the port last advertised.
   */
  ghost predicate Live(env: Env, s: State) {
    forall uid :: EntryLive(env, s, uid)
  }

  lemma LiveStep(env: Env, s: State, step: Step)
    requires Enabled(env, s, step) && Live(env, s)
    ensures Live(env, Next(env, s, step))
  {
    var s' := Next(env, s, step);
    forall uid
      ensures EntryLive(env, s', uid)
    {
      assert EntryLive(env, s, uid);
      if step.Close? && step.victim.Some? { assert EntryLive(env, s, step.victim.value); }
    }
  }

  /** A close removes its own entry and leaves an entry that a newer connection has taken over as it is. */
  lemma CloseKeepsNewer(env: Env, s: State, step: Step, uid: Uid)
    requires Live(env, s) && Enabled(env, s, step) && step.Close?
    ensures var before, after := s.server.conns, Next(env, s, step).server.conns;
            && (Holds(before, uid, step.conn) ==> uid !in after)
            && (!Holds(before, uid, step.conn) ==>
                  (uid in after <==> uid in before) && (uid in before ==> after[uid] == before[uid]))
  {
    assert EntryLive(env, s, uid);
    if step.victim.Some? { assert EntryLive(env, s, step.victim.value); }
  }

  // ---------------------------------------------------------------- the sweeper

  ghost predicate SettledAt(env: Env, s: State, uid: Uid) {
    uid in s.trail.settled ==>
      && uid in s.server.agents
      && uid !in s.trail.touched
      && s.trail.settled[uid] <= s.server.clock
      && (s.server.sweep.Some? && s.server.sweep.value.now.Some? ==>
            s.trail.settled[uid] <= s.server.sweep.value.now.value)
      && s.server.agents[uid].connectionState ==
         ClassOf(s.trail.settled[uid] - s.server.agents[uid].lastSeen, env.staleAfter, env.disconnectedAfter)
  }

  /** What the running sweep knows about a listed agent. */
  ghost predicate ListedAt(env: Env, s: State, sw: Sweep, uid: Uid) {
    && (uid in sw.todo ==> uid in sw.listed)
    && (uid in sw.listed ==>
          && uid in s.server.agents
          && (uid !in s.trail.touched ==>
                && s.server.agents[uid].lastSeen == sw.listed[uid].lastSeen
                && (uid in sw.todo ==> s.server.agents[uid].connectionState == sw.listed[uid].connectionState))
          && (uid in s.trail.touched ==>
                && s.server.agents[uid].lastSeen >= sw.listedAt - Lag(env)
                && (uid in sw.todo ==> s.server.agents[uid].connectionState == Connected))
          && (uid !in sw.todo && uid !in s.trail.touched && uid !in s.trail.missed ==>
                sw.now.Some? && uid in s.trail.settled && s.trail.settled[uid] == sw.now.value))
  }

  ghost predicate SweepKnows(env: Env, s: State) {
    s.server.clock >= Sqlite.SECOND && (s.server.sweep.Some? ==>
      var sw := s.server.sweep.value;
      && sw.listedAt <= s.server.clock
      && (sw.now.Some? ==> sw.listedAt <= sw.now.value <= s.server.clock)
      && (sw.now.None? ==> sw.todo == sw.listed.Keys)
      && forall uid :: ListedAt(env, s, sw, uid))
  }

  ghost predicate Swept(env: Env, s: State) {
    && (forall uid :: SettledAt(env, s, uid))
    && SweepKnows(env, s)
  }

  /** Keeping a record leaves its last contact as it is, and a time kept now is at most a lag behind. */
  lemma ContactIsKept(env: Env, s: State, uid: Uid)
    requires Serial(env, s) && s.server.clock >= Sqlite.SECOND
    ensures KeptTime(env, Record(s.server.agents, uid).lastSeen) == Record(s.server.agents, uid).lastSeen
    ensures s.server.clock - Lag(env) <= KeptTime(env, s.server.clock) <= s.server.clock
  {
    assert SerialAt(env, s, uid);
    Sqlite.FlooredIsStartOfSecond(s.server.clock);
    if uid in s.server.agents { KeptOnce(env, Fold(Newborn(uid), s.trail.log[uid])); }
  }

  lemma SettledVisit(env: Env, s: State, step: Step, uid: Uid)
    requires Enabled(env, s, step) && Serial(env, s) && Swept(env, s) && step.Visit?
    ensures SettledAt(env, Next(env, s, step), uid)
  {
    ContactIsKept(env, s, uid);
    assert SettledAt(env, s, uid);
    assert ListedAt(env, s, s.server.sweep.value, step.uid);
  }

  lemma SettledWrite(env: Env, s: State, step: Step, uid: Uid)
    requires Enabled(env, s, step) && Serial(env, s) && Swept(env, s) && (step.StoreMessage? || step.StorePush?)
    ensures SettledAt(env, Next(env, s, step), uid)
  {
    ContactIsKept(env, s, uid);
    assert SettledAt(env, s, uid);
  }

  lemma SettledOther(env: Env, s: State, step: Step, uid: Uid)
    requires Enabled(env, s, step) && Swept(env, s) && !step.Visit? && !step.StoreMessage? && !step.StorePush?
    ensures SettledAt(env, Next(env, s, step), uid)
  {
    assert SettledAt(env, s, uid);
  }

  lemma ListedVisit(env: Env, s: State, step: Step, uid: Uid)
    requires Enabled(env, s, step) && Serial(env, s) && Swept(env, s) && step.Visit?
    ensures ListedAt(env, Next(env, s, step), NextServer(env, s, step).sweep.value, uid)
  {
    ContactIsKept(env, s, uid);
    assert ListedAt(env, s, s.server.sweep.value, uid);
  }

  lemma ListedBegin(env: Env, s: State, step: Step, uid: Uid)
    requires Enabled(env, s, step) && step.BeginSweep?
    ensures ListedAt(env, Next(env, s, step), NextServer(env, s, step).sweep.value, uid)
  {
  }

  lemma ListedWrite(env: Env, s: State, step: Step, uid: Uid)
    requires Enabled(env, s, step) && Serial(env, s) && Swept(env, s) && (step.StoreMessage? || step.StorePush?)
    requires s.server.sweep.Some?
    ensures ListedAt(env, Next(env, s, step), s.server.sweep.value, uid)
  {
    ContactIsKept(env, s, uid);
    assert ListedAt(env, s, s.server.sweep.value, uid);
  }

  lemma ListedOther(env: Env, s: State, step: Step, uid: Uid)
    requires Enabled(env, s, step) && Swept(env, s)
    requires !step.Visit? && !step.BeginSweep? && !step.StoreMessage? && !step.StorePush?
    requires NextServer(env, s, step).sweep.Some?
    ensures ListedAt(env, Next(env, s, step), NextServer(env, s, step).sweep.value, uid)
  {
    assert ListedAt(env, s, s.server.sweep.value, uid);
  }

  lemma SweptStep(env: Env, s: State, step: Step)
    requires Enabled(env, s, step) && Serial(env, s) && Swept(env, s)
    ensures Swept(env, Next(env, s, step))
  {
    var s' := Next(env, s, step);
    forall uid ensures SettledAt(env, s', uid) {
      if step.Visit? { SettledVisit(env, s, step, uid); }
      else if step.StoreMessage? || step.StorePush? { SettledWrite(env, s, step, uid); }
      else { SettledOther(env, s, step, uid); }
    }
    if s'.server.sweep.Some? {
      forall uid ensures ListedAt(env, s', s'.server.sweep.value, uid) {
        if step.Visit? { ListedVisit(env, s, step, uid); }
        else if step.BeginSweep? { ListedBegin(env, s, step, uid); }
        else if step.StoreMessage? || step.StorePush? { ListedWrite(env, s, step, uid); }
        else { ListedOther(env, s, step, uid); }
      }
    }
  }

  // ---------------------------------------------------------------- every reachable state

  ghost predicate Inv(env: Env, s: State) {
    Serial(env, s) && Coupled(env, s) && Live(env, s) && Swept(env, s)
  }

  lemma InvInit(env: Env)
    requires env.start >= Sqlite.SECOND
    ensures Inv(env, Fresh(env.start, {}))
  {
  }

  lemma InvStep(env: Env, s: State, step: Step)
    requires Enabled(env, s, step) && Inv(env, s)
    ensures Inv(env, Next(env, s, step))
  {
    if step.Visit? { assert ListedAt(env, s, s.server.sweep.value, step.uid); }
    SerialStep(env, s, step);
    CoupledStep(env, s, step);
    LiveStep(env, s, step);
    SweptStep(env, s, step);
  }

  lemma {:induction false} InvHolds(env: Env, states: seq<State>, steps: seq<Step>, n: nat)
    requires Run(env, states, steps) && n < |states|
    ensures Inv(env, states[n])
  {
    if n == 0 {
      InvInit(env);
    } else {
      InvHolds(env, states, steps, n - 1);
      InvStep(env, states[n - 1], steps[n - 1]);
    }
  }
}
