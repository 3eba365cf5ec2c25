/** The guarantees of the fleet protocol, for every run and every interleaving. */
module FleetTheorems {
  import opened Common
  import opened Agents
  import opened Registry
  import opened Store
  import opened Handler
  import opened Protocol
  import opened ProtocolSafety
  import Sqlite

  /** One more enabled step makes a run longer. */
  lemma LongerRun(env: Env, states: seq<State>, steps: seq<Step>, step: Step)
    returns (states': seq<State>, steps': seq<Step>, s: State)
    requires Run(env, states, steps) && Enabled(env, states[|states| - 1], step)
    ensures Run(env, states', steps') && s == states'[|states'| - 1] == Next(env, states[|states| - 1], step)
  {
    s := Next(env, states[|states| - 1], step);
    states', steps' := states + [s], steps + [step];
  }

  // ---------------------------------------------------------------- no lost update

  /**
   Whatever interleaves, a record is what folding its stored reports and pushes one after the other
   gives, as the store keeps it; only the connection state may differ, and a record exists exactly when
   something was stored.
   */
  lemma RecordsAreSerial(env: Env, states: seq<State>, steps: seq<Step>, n: nat, uid: Uid)
    requires Run(env, states, steps) && n < |states|
    ensures uid in states[n].server.agents <==> uid in states[n].trail.log
    ensures uid in states[n].server.agents ==>
              SameButConnection(states[n].server.agents[uid],
                                KeptAgent(env, Fold(Newborn(uid), states[n].trail.log[uid])))
  {
    InvHolds(env, states, steps, n);
    assert SerialAt(env, states[n], uid);
  }

  // ---------------------------------------------------------------- configuration

  /** In every reachable state the sync state of a record is determined by what reached the record. */
  lemma SyncTellsTheTruth(env: Env, states: seq<State>, steps: seq<Step>, n: nat, uid: Uid)
    requires Run(env, states, steps) && n < |states| && uid in states[n].server.agents
    ensures var sync, log := states[n].server.agents[uid].configSync, LogOf(states[n].trail, uid);
            && (sync == Synced <==> AppliedLatest(log))
            && (sync == Drifted <==> Reported(log, Applied) && !AppliedLatest(log))
            && (sync == Failed <==> Reported(log, FailedStatus))
            && (sync == Pending <==>
                  Reported(log, Applying) || exists i: nat :: LatestDecision(log, i) && log[i].Pushed?)
            && (sync == NoSync <==> forall i: nat :: !LatestDecision(log, i))
  {
    InvHolds(env, states, steps, n);
    assert SerialAt(env, states[n], uid);
    SyncIsDetermined(uid, LogOf(states[n].trail, uid));
  }

  /** A record's hash, pusher and push time come from one entry of that agent's own push history. */
  lemma HashIsOfRecordedPush(env: Env, states: seq<State>, steps: seq<Step>, n: nat, uid: Uid) returns (i: nat)
    requires Run(env, states, steps) && n < |states| && uid in states[n].server.agents
    requires states[n].server.agents[uid].lastRemoteConfigHash != []
    ensures var a, history := states[n].server.agents[uid], History(states[n].server.pushes, uid);
            && i < |history| && history[i].agentUid == uid
            && a.lastRemoteConfigHash == env.hash(history[i].configYaml)
            && a.pushedBy == history[i].pushedBy
            && a.lastPushedAt == history[i].timestamp
  {
    InvHolds(env, states, steps, n);
    var s := states[n];
    assert SerialAt(env, s, uid) && LogCoupled(env, s, uid);
    var log := s.trail.log[uid];
    LatestPushIsRemembered(Newborn(uid), log);
    var e := log[PushIndex(log).value];
    assert e in LogOf(s.trail, uid);
    i :| i < |History(s.server.pushes, uid)| && History(s.server.pushes, uid)[i] == KeptPush(env, e.push);
  }

  /** An agent shown as synced has applied a configuration from its own push history, and no push was stored since. */
  lemma SyncedMeansHistoryApplied(env: Env, states: seq<State>, steps: seq<Step>, n: nat, uid: Uid)
    returns (i: nat, j: nat, push: ConfigPush)
    requires Run(env, states, steps) && n < |states| && uid in states[n].server.agents
    requires states[n].server.agents[uid].configSync == Synced
    ensures var log := LogOf(states[n].trail, uid);
            && j < i < |log| && log[j] == Pushed(push, env.hash(push.configYaml))
            && log[i].Told? && log[i].msg.remoteConfigStatus.Some?
            && log[i].msg.remoteConfigStatus.value.kind == Applied
            && log[i].msg.remoteConfigStatus.value.hash == env.hash(push.configYaml)
            && (forall k :: j < k < |log| ==> !log[k].Pushed?)
            && KeptPush(env, push) in History(states[n].server.pushes, uid)
  {
    SyncTellsTheTruth(env, states, steps, n, uid);
    InvHolds(env, states, steps, n);
    var log := LogOf(states[n].trail, uid);
    i, j :|
      && LatestDecision(log, i) && log[i].Told? && log[i].msg.remoteConfigStatus.value.kind == Applied
      && LatestPush(log, j) && log[j].digest != []
      && log[i].msg.remoteConfigStatus.value.hash == log[j].digest;
    push := log[j].push;
    assert LogCoupled(env, states[n], uid) && log[j] in log;
    if j >= i { assert false; }
  }

  /** What one state holds is kept, in place, by a later one. */
  ghost predicate Extends(s: State, later: State, uid: Uid) {
    && History(s.server.pushes, uid) <= History(later.server.pushes, uid)
    && LogOf(s.trail, uid) <= LogOf(later.trail, uid)
    && s.trail.sent <= later.trail.sent
    && s.server.clock <= later.server.clock
  }

  /** Push histories, logs and deliveries are never rewritten, as long as no restart loses the store. */
  lemma {:induction false} HistoryOnlyGrows(env: Env, states: seq<State>, steps: seq<Step>, m: nat, n: nat, uid: Uid)
    requires Run(env, states, steps) && m <= n < |states|
    requires forall i :: m <= i < n ==> !Loses(env, steps[i])
    ensures Extends(states[m], states[n], uid)
    decreases n
  {
    if m < n {
      HistoryOnlyGrows(env, states, steps, m, n - 1, uid);
      OnlyGrows(env, states[n - 1], steps[n - 1], uid);
    }
  }

  // ---------------------------------------------------------------- connections

  /**
   Step `i` records a port of the agent and finds no entry for it: the connection was replaced and
   closed meanwhile.
   */
  ghost predicate TornAt(states: seq<State>, steps: seq<Step>, i: nat, uid: Uid)
    requires i < |steps| < |states|
  {
    && steps[i].Advertise? && steps[i].id in states[i].server.tasks
    && states[i].server.tasks[steps[i].id].MessageSet? && states[i].server.tasks[steps[i].id].uid == uid
    && uid !in states[i].server.conns
  }

  /** Step `i` registers a connection of the agent, or empties the registry. */
  ghost predicate ReplacedAt(states: seq<State>, steps: seq<Step>, i: nat, uid: Uid)
    requires i < |steps| < |states|
  {
    steps[i].Restart? || (steps[i].Hear? && steps[i].msg.instanceUid == Some(uid))
  }

  /** A torn update has left an entry behind, and nothing has replaced it since. */
  ghost predicate Stranded(states: seq<State>, steps: seq<Step>, n: nat, uid: Uid)
    requires n < |states| == |steps| + 1
  {
    exists i :: 0 <= i < n && TornAt(states, steps, i, uid) &&
      forall j :: i < j < n ==> !ReplacedAt(states, steps, j, uid)
  }

  lemma StrandedLonger(states: seq<State>, steps: seq<Step>, n: nat, uid: Uid)
    requires n < |steps| && |states| == |steps| + 1
    ensures Stranded(states, steps, n + 1, uid) <==>
            TornAt(states, steps, n, uid) || (Stranded(states, steps, n, uid) && !ReplacedAt(states, steps, n, uid))
  {
  }

  lemma StrandedStep(env: Env, states: seq<State>, steps: seq<Step>, n: nat, uid: Uid)
    requires Run(env, states, steps) && n < |steps|
    ensures uid in states[n + 1].trail.stranded <==>
            TornAt(states, steps, n, uid)
            || (uid in states[n].trail.stranded && !ReplacedAt(states, steps, n, uid))
  {
    assert Enabled(env, states[n], steps[n]) && states[n + 1] == Next(env, states[n], steps[n]);
  }

  /** The history variable changes as torn and replaced entries do. */
  ghost predicate TrailFollows(states: seq<State>, steps: seq<Step>, uid: Uid)
    requires |states| == |steps| + 1
  {
    && uid !in states[0].trail.stranded
    && forall i :: 0 <= i < |steps| ==>
         (uid in states[i + 1].trail.stranded <==>
            TornAt(states, steps, i, uid)
            || (uid in states[i].trail.stranded && !ReplacedAt(states, steps, i, uid)))
  }

  lemma {:induction false} StrandedFollows(states: seq<State>, steps: seq<Step>, n: nat, uid: Uid)
    requires n < |states| == |steps| + 1 && TrailFollows(states, steps, uid)
    ensures uid in states[n].trail.stranded <==> Stranded(states, steps, n, uid)
  {
    if n > 0 {
      StrandedFollows(states, steps, n - 1, uid);
      StrandedLonger(states, steps, n - 1, uid);
      assert TornAt(states, steps, n - 1, uid) || !TornAt(states, steps, n - 1, uid);
    }
  }

  lemma StrandedMeaning(env: Env, states: seq<State>, steps: seq<Step>, n: nat, uid: Uid)
    requires Run(env, states, steps) && n < |states|
    ensures uid in states[n].trail.stranded <==> Stranded(states, steps, n, uid)
  {
    forall i | 0 <= i < |steps|
      ensures uid in states[i + 1].trail.stranded <==>
              TornAt(states, steps, i, uid)
              || (uid in states[i].trail.stranded && !ReplacedAt(states, steps, i, uid))
    {
      StrandedStep(env, states, steps, i, uid);
    }
    StrandedFollows(states, steps, n, uid);
  }

  /**
   A registered entry holds a connection exactly when no torn update stranded it. The connection is
   open, its agent's own, and scrapes go to its peer, on the port last advertised.
   */
  lemma RegistryIsLive(env: Env, states: seq<State>, steps: seq<Step>, n: nat, uid: Uid)
    requires Run(env, states, steps) && n < |states| && uid in states[n].server.conns
    ensures var e := states[n].server.conns[uid];
            && (e.conn.None? <==> Stranded(states, steps, n, uid))
            && (e.conn.None? ==> e.remoteIp == "")
            && (e.conn.Some? ==>
                  && e.conn.value !in states[n].trail.closed && env.owner(e.conn.value) == uid
                  && e.remoteIp == e.conn.value.peer)
            && uid in states[n].trail.ports && e.metricsPort == LastPort(states[n].trail.ports[uid])
  {
    InvHolds(env, states, steps, n);
    StrandedMeaning(env, states, steps, n, uid);
    assert EntryLive(env, states[n], uid);
  }

  /**
   Torn updates do happen: another connection of the agent comes and goes between the two registry
   updates of a message.
   */
  lemma TornMessageStrandsEntry(env: Env, first: Conn, second: Conn, msg: AgentToServer)
    returns (states: seq<State>, steps: seq<Step>, uid: Uid)
    requires first != second && env.owner(first) == env.owner(second) && env.start >= Sqlite.SECOND
    requires msg.instanceUid == Some(env.owner(first)) && msg.description.Some?
    ensures Run(env, states, steps) && Stranded(states, steps, |steps|, uid)
    ensures uid == env.owner(first)
    ensures var v := states[|steps|].server;
            && uid in v.conns && v.conns[uid].conn.None? && v.tasks.Keys == {0, 1} && v.clock == env.start
            && v.pushes == map[] && states[|steps|].trail.sent == []
  {
    uid := env.owner(first);
    var bare := msg.(description := None);
    var s;
    states, steps := [Fresh(env.start, {})], [];
    states, steps, s := LongerRun(env, states, steps, Hear(0, first, msg));
    states, steps, s := LongerRun(env, states, steps, Hear(1, second, bare));
    states, steps, s := LongerRun(env, states, steps, Close(second, Some(uid)));
    states, steps, s := LongerRun(env, states, steps, Advertise(0));
    StrandedMeaning(env, states, steps, |steps|, uid);
  }

  /**
   The scraper's targets are the agents whose own open connection has a readable peer and that last
   advertised a port.
   */
  lemma ScrapeTargetsAreLive(env: Env, states: seq<State>, steps: seq<Step>, n: nat, uid: Uid)
    requires Run(env, states, steps) && n < |states|
    ensures var v, t := states[n].server, states[n].trail;
            Scrapable(v.conns, uid) <==>
            && uid in v.conns && v.conns[uid].conn.Some? && v.conns[uid].conn.value.peer != ""
            && uid in t.ports && t.ports[uid] != [] && t.ports[uid][|t.ports[uid]| - 1] != 0
  {
    InvHolds(env, states, steps, n);
    assert EntryLive(env, states[n], uid);
  }

  /** Closing a connection ends its own entry and no other; a late close of an old connection is harmless. */
  lemma CloseIsPrecise(env: Env, states: seq<State>, steps: seq<Step>, n: nat, uid: Uid)
    requires Run(env, states, steps) && n < |steps| && steps[n].Close?
    ensures var before, after := states[n].server.conns, states[n + 1].server.conns;
            && (Holds(before, uid, steps[n].conn) ==> uid !in after)
            && (!Holds(before, uid, steps[n].conn) ==>
                  (uid in after <==> uid in before) && (uid in before ==> after[uid] == before[uid]))
  {
    InvHolds(env, states, steps, n);
    CloseKeepsNewer(env, states[n], steps[n], uid);
  }

  // ---------------------------------------------------------------- what is sent, and where to

  /** A push as its caller asked for it, and the connection that the lookup found. */
  datatype Order = Order(to: Uid, conn: Option<Conn>, yaml: string, pushedBy: string, note: string)

  function Ordered(push: ConfigPush, conn: Option<Conn>): Order {
    Order(push.agentUid, conn, push.configYaml, push.pushedBy, push.note)
  }

  function OrderOf(k: Task): Option<Order> {
    match k
    case PushFound(to, conn, yaml, pushedBy, note, _) => Some(Order(to, conn, yaml, pushedBy, note))
    case PushRecorded(conn, push, _) => Some(Ordered(push, conn))
    case PushStored(conn, push, _) => Some(Ordered(push, conn))
    case _ => None
  }

  /** Step `i` is the latest lookup that began an operation with this id before state `n`. */
  ghost predicate BeganAt(steps: seq<Step>, i: nat, n: nat, id: nat) {
    && i < n <= |steps| && steps[i].LookUp? && steps[i].id == id
    && forall j :: i < j < n ==> !(steps[j].LookUp? && steps[j].id == id)
  }

  /** The order that a lookup begins. */
  ghost predicate OrderedBy(s: State, step: Step, order: Order) {
    && step.LookUp? && step.uid in s.server.conns
    && order == Order(step.uid, s.server.conns[step.uid].conn, step.yaml, step.pushedBy, step.note)
  }

  lemma OrderStep(env: Env, s: State, step: Step, id: nat)
    requires Enabled(env, s, step) && id in NextServer(env, s, step).tasks
    requires OrderOf(NextServer(env, s, step).tasks[id]).Some?
    ensures var order := OrderOf(NextServer(env, s, step).tasks[id]).value;
            if step.LookUp? && step.id == id then OrderedBy(s, step, order)
            else id in s.server.tasks && OrderOf(s.server.tasks[id]) == Some(order)
  {
  }

  /** A push in progress is the one its own lookup began. */
  lemma {:induction false} PushBegan(env: Env, states: seq<State>, steps: seq<Step>, n: nat, id: nat) returns (i: nat)
    requires Run(env, states, steps) && n < |states|
    requires id in states[n].server.tasks && OrderOf(states[n].server.tasks[id]).Some?
    ensures BeganAt(steps, i, n, id) && OrderedBy(states[i], steps[i], OrderOf(states[n].server.tasks[id]).value)
  {
    OrderStep(env, states[n - 1], steps[n - 1], id);
    if steps[n - 1].LookUp? && steps[n - 1].id == id {
      i := n - 1;
    } else {
      i := PushBegan(env, states, steps, n - 1, id);
    }
  }

  /**
   Whatever is sent is what its lookup's caller asked for, was on record and had been stored as the
   agent's config. It goes to the connection that the lookup found, one of its own agent; there is
   none exactly when the agent's entry was stranded at the lookup.
   */
  lemma NothingIsSentUnrecorded(env: Env, states: seq<State>, steps: seq<Step>, n: nat) returns (i: nat, d: Delivery)
    requires Run(env, states, steps) && n < |steps| && steps[n].Send?
    ensures states[n + 1].trail.sent == states[n].trail.sent + [d]
    ensures d.uid == d.push.agentUid && d.digest == env.hash(d.push.configYaml)
    ensures KeptPush(env, d.push) in History(states[n].server.pushes, d.uid)
    ensures Pushed(d.push, d.digest) in LogOf(states[n].trail, d.uid)
    ensures BeganAt(steps, i, n, steps[n].id) && OrderedBy(states[i], steps[i], Ordered(d.push, d.conn))
    ensures d.conn.Some? ==> env.owner(d.conn.value) == d.uid
    ensures d.conn.None? <==> Stranded(states, steps, i, d.uid)
  {
    var s := states[n];
    var k := s.server.tasks[steps[n].id];
    d := Delivery(k.conn, k.push.agentUid, k.push, k.digest);
    InvHolds(env, states, steps, n);
    assert TaskCoupled(env, s, k);
    i := PushBegan(env, states, steps, n, steps[n].id);
    RegistryIsLive(env, states, steps, i, d.uid);
  }

  /** What was sent stays on record and in the agent's history of stored pushes. */
  lemma SentStaysRecorded(env: Env, states: seq<State>, steps: seq<Step>, n: nat, d: Delivery)
    requires Run(env, states, steps) && n < |states| && d in states[n].trail.sent
    ensures d.uid == d.push.agentUid && (d.conn.Some? ==> env.owner(d.conn.value) == d.uid)
    ensures KeptPush(env, d.push) in History(states[n].server.pushes, d.uid) && d.digest == env.hash(d.push.configYaml)
    ensures Pushed(d.push, d.digest) in LogOf(states[n].trail, d.uid)
  {
    InvHolds(env, states, steps, n);
    assert Delivered(env, states[n], d);
  }

  /** A push looked up then is recorded and stored, and sent without a connection. */
  lemma StrandedPushHasNoConnection(env: Env, first: Conn, second: Conn, msg: AgentToServer, yaml: string)
    returns (states: seq<State>, steps: seq<Step>, d: Delivery)
    requires first != second && env.owner(first) == env.owner(second) && env.start >= Sqlite.SECOND
    requires msg.instanceUid == Some(env.owner(first)) && msg.description.Some?
    ensures Run(env, states, steps)
    ensures states[|steps|].trail.sent == [d] && d.conn.None? && d.push.configYaml == yaml && d.uid == env.owner(first)
  {
    var uid, s;
    states, steps, uid := TornMessageStrandsEntry(env, first, second, msg);
    states, steps, s := LongerRun(env, states, steps, LookUp(2, uid, yaml, "", ""));
    states, steps, s := LongerRun(env, states, steps, RecordPush(2, "", env.start, true));
    states, steps, s := LongerRun(env, states, steps, StorePush(2, true));
    states, steps, s := LongerRun(env, states, steps, Send(2));
    d := s.trail.sent[0];
  }

  // ---------------------------------------------------------------- the sweeper

  predicate IsSweeperStep(step: Step) {
    step.BeginSweep? || step.ReadClock? || step.Visit? || step.EndSweep?
  }

  lemma VisitOnlyClassifies(env: Env, s: State, step: Step)
    requires Enabled(env, s, step) && Inv(env, s) && step.Visit?
    ensures var v, v' := s.server, NextServer(env, s, step);
            && v' == v.(agents := v'.agents, sweep := v'.sweep)
            && step.uid in v.agents
            && v'.agents == v.agents[step.uid := v'.agents[step.uid]]
            && SameButConnection(v.agents[step.uid], v'.agents[step.uid])
  {
    var uid := step.uid;
    assert ListedAt(env, s, s.server.sweep.value, uid) && SerialAt(env, s, uid);
    FoldKeepsUid(Newborn(uid), s.trail.log[uid]);
    KeptOnce(env, Fold(Newborn(uid), s.trail.log[uid]));
  }

  /** Whatever runs beside it, the sweeper writes nothing but connection states. */
  lemma SweeperOnlyClassifies(env: Env, states: seq<State>, steps: seq<Step>, n: nat, uid: Uid)
    requires Run(env, states, steps) && n < |steps| && IsSweeperStep(steps[n])
    ensures var v, v' := states[n].server, states[n + 1].server;
            && v'.conns == v.conns && v'.pushes == v.pushes && v'.tasks == v.tasks && v'.clock == v.clock
            && (uid in v'.agents <==> uid in v.agents)
            && (uid in v.agents ==> SameButConnection(v.agents[uid], v'.agents[uid]))
  {
    InvHolds(env, states, steps, n);
    if steps[n].Visit? { VisitOnlyClassifies(env, states[n], steps[n]); }
  }

  /** Steps `b` and `n` begin and end one sweep. */
  ghost predicate OneSweep(steps: seq<Step>, b: nat, n: nat) {
    && b < n < |steps| && steps[b].BeginSweep? && steps[n].EndSweep?
    && forall i :: b < i < n ==> !steps[i].EndSweep? && !steps[i].Restart?
  }

  predicate StoresMessageOf(s: State, step: Step, uid: Uid) {
    && step.StoreMessage? && step.ok && step.id in s.server.tasks
    && s.server.tasks[step.id].MessageHeard? && s.server.tasks[step.id].uid == uid
  }

  /** No message of the agent is stored, and its record is not lost. */
  ghost predicate SilentBetween(env: Env, states: seq<State>, steps: seq<Step>, m: nat, n: nat, uid: Uid)
    requires m <= n < |states| && |states| == |steps| + 1
  {
    forall i :: m <= i < n ==> !Loses(env, steps[i]) && !StoresMessageOf(states[i], steps[i], uid)
  }

  /** A sweep has a state to write for the agent and cannot. */
  predicate WriteFails(env: Env, s: State, step: Step, uid: Uid) {
    && step == Visit(uid, false) && s.server.sweep.Some?
    && var sw := s.server.sweep.value;
       && sw.now.Some? && uid in sw.listed
       && Want(env, sw, uid) != sw.listed[uid].connectionState
  }

  ghost predicate WritesWork(env: Env, states: seq<State>, steps: seq<Step>, m: nat, n: nat, uid: Uid)
    requires m <= n < |states| && |states| == |steps| + 1
  {
    forall i :: m <= i < n ==> !WriteFails(env, states[i], steps[i], uid)
  }

  /** What the sweep begun at step `b` knows of a silent agent. */
  ghost predicate Tracked(begin: State, s: State, uid: Uid) {
    && s.server.sweep.Some?
    && s.server.sweep.value.listed == begin.server.agents && s.server.sweep.value.listedAt == begin.server.clock
    && uid !in s.trail.touched && uid !in s.trail.missed
  }

  lemma TrackedStep(env: Env, begin: State, s: State, step: Step, uid: Uid)
    requires Enabled(env, s, step) && !step.EndSweep? && !step.Restart?
    requires Tracked(begin, s, uid) && !StoresMessageOf(s, step, uid) && !WriteFails(env, s, step, uid)
    ensures Tracked(begin, Next(env, s, step), uid)
  {
  }

  lemma {:induction false} SweepTracks(env: Env, states: seq<State>, steps: seq<Step>, b: nat, n: nat, uid: Uid)
    requires Run(env, states, steps) && b < n <= |steps| && steps[b].BeginSweep?
    requires forall i :: b < i < n ==> !steps[i].EndSweep? && !steps[i].Restart?
    requires SilentBetween(env, states, steps, b, n, uid) && WritesWork(env, states, steps, b, n, uid)
    ensures Tracked(states[b], states[n], uid)
    decreases n
  {
    if n > b + 1 {
      SweepTracks(env, states, steps, b, n - 1, uid);
      TrackedStep(env, states[b], states[n - 1], steps[n - 1], uid);
    }
  }

  /** The agent was in the store when the sweep began, stayed silent and could be written. */
  ghost predicate SweptSilently(env: Env, states: seq<State>, steps: seq<Step>, b: nat, n: nat, uid: Uid)
    requires |states| == |steps| + 1
  {
    && OneSweep(steps, b, n) && uid in states[b].server.agents
    && SilentBetween(env, states, steps, b, n, uid) && WritesWork(env, states, steps, b, n, uid)
  }

  /**
   A sweep classifies every agent that it found, that stayed silent and whose write worked, by its age
   at some time `t` during the sweep. One that had been silent long enough is disconnected.
   */
  lemma SweepClassifies(env: Env, states: seq<State>, steps: seq<Step>, b: nat, n: nat, uid: Uid) returns (t: int)
    requires Run(env, states, steps) && SweptSilently(env, states, steps, b, n, uid)
    ensures states[b].server.clock <= t <= states[n].server.clock
    ensures uid in states[n + 1].server.agents && uid in states[n + 1].trail.settled
    ensures var a := states[n + 1].server.agents[uid];
            && a.lastSeen == states[b].server.agents[uid].lastSeen
            && (a.connectionState == Disconnected <==> t - a.lastSeen >= env.disconnectedAfter)
            && (a.connectionState == Stale <==> env.staleAfter <= t - a.lastSeen < env.disconnectedAfter)
            && (a.connectionState == Connected <==>
                  t - a.lastSeen < env.staleAfter && t - a.lastSeen < env.disconnectedAfter)
            && (env.staleAfter <= env.disconnectedAfter
                && states[b].server.clock >= a.lastSeen + env.disconnectedAfter ==>
                  a.connectionState == Disconnected)
  {
    SweepTracks(env, states, steps, b, n, uid);
    InvHolds(env, states, steps, n);
    var s := states[n];
    t := s.server.sweep.value.now.value;
    assert SettledAt(env, s, uid) && ListedAt(env, s, s.server.sweep.value, uid);
  }

  lemma SilentVisitOnlyAges(env: Env, s: State, step: Step)
    requires Inv(env, s) && Enabled(env, s, step) && step.Visit? && env.staleAfter <= env.disconnectedAfter
    requires step.uid in s.trail.settled
    ensures var uid, s' := step.uid, Next(env, s, step);
            && uid in s.server.agents && uid in s'.server.agents && uid in s'.trail.settled
            && RankOf(s.server.agents[uid].connectionState) <= RankOf(s'.server.agents[uid].connectionState)
  {
    assert SettledAt(env, s, step.uid) && ListedAt(env, s, s.server.sweep.value, step.uid);
  }

  lemma SilentStepOnlyAges(env: Env, s: State, step: Step, uid: Uid)
    requires Inv(env, s) && Enabled(env, s, step) && env.staleAfter <= env.disconnectedAfter
    requires uid in s.trail.settled && !Loses(env, step) && !StoresMessageOf(s, step, uid)
    ensures var s' := Next(env, s, step);
            && uid in s.server.agents && uid in s'.server.agents && uid in s'.trail.settled
            && RankOf(s.server.agents[uid].connectionState) <= RankOf(s'.server.agents[uid].connectionState)
  {
    assert SettledAt(env, s, uid);
    if step.Visit? && step.uid == uid { SilentVisitOnlyAges(env, s, step); }
  }

  lemma {:induction false} SettledOnlyAges(env: Env, states: seq<State>, steps: seq<Step>, m: nat, n: nat, uid: Uid)
    requires Run(env, states, steps) && m <= n < |states| && env.staleAfter <= env.disconnectedAfter
    requires uid in states[m].trail.settled && SilentBetween(env, states, steps, m, n, uid)
    ensures uid in states[m].server.agents && uid in states[n].server.agents && uid in states[n].trail.settled
    ensures 1 <= RankOf(states[m].server.agents[uid].connectionState)
            <= RankOf(states[n].server.agents[uid].connectionState)
    decreases n
  {
    InvHolds(env, states, steps, m);
    assert SettledAt(env, states[m], uid);
    if m < n {
      SettledOnlyAges(env, states, steps, m, n - 1, uid);
      InvHolds(env, states, steps, n - 1);
      SilentStepOnlyAges(env, states[n - 1], steps[n - 1], uid);
    }
  }

  /**
   Once one sweep has classified a silent agent, it only moves from connected to stale to disconnected,
   whatever later sweeps, pushes and restarts do.
   */
  lemma SilentAgentsOnlyAge(env: Env, states: seq<State>, steps: seq<Step>, b: nat, e: nat, m: nat, n: nat, uid: Uid)
    requires Run(env, states, steps) && env.staleAfter <= env.disconnectedAfter
    requires SweptSilently(env, states, steps, b, e, uid) && e < m <= n < |states|
    requires SilentBetween(env, states, steps, e, n, uid)
    ensures uid in states[m].server.agents && uid in states[n].server.agents
    ensures 1 <= RankOf(states[m].server.agents[uid].connectionState)
            <= RankOf(states[n].server.agents[uid].connectionState)
  {
    var t := SweepClassifies(env, states, steps, b, e, uid);
    SettledOnlyAges(env, states, steps, e + 1, m, uid);
    SettledOnlyAges(env, states, steps, m, n, uid);
  }

  // ---------------------------------------------------------------- the race between a message and a sweep

  /**
   A message stored between the listing and the visit makes the visit wrong exactly when it writes
   a state that the message's own age does not call for, or writes none although the message has aged
   as well. When the visit comes well within a stale period of the listing, that is exactly when it writes
   an aged state: the listed age calls for one that the listing does not already show.
   */
  lemma RacingVisitIsWrongIff(env: Env, states: seq<State>, steps: seq<Step>, n: nat)
    requires Run(env, states, steps) && n < |steps| && steps[n].Visit?
    requires steps[n].uid in states[n].trail.touched
    ensures var uid, v, sw := steps[n].uid, states[n].server, states[n].server.sweep.value;
            && uid in v.agents && uid in states[n + 1].server.agents
            && var right := ClassOf(sw.now.value - v.agents[uid].lastSeen, env.staleAfter, env.disconnectedAfter);
               var writes := steps[n].ok && Want(env, sw, uid) != sw.listed[uid].connectionState;
               var wrong := states[n + 1].server.agents[uid].connectionState != right;
               && (wrong <==> if writes then Want(env, sw, uid) != right else right != Connected)
               && (sw.now.value - sw.listedAt + Lag(env) < env.staleAfter <= env.disconnectedAfter ==>
                     (wrong <==> writes && Want(env, sw, uid) != Connected))
  {
    InvHolds(env, states, steps, n);
    assert ListedAt(env, states[n], states[n].server.sweep.value, steps[n].uid);
  }

  /** An agent reports once and then stays silent until it counts as disconnected. */
  lemma AgentGrowsOld(env: Env, conn: Conn, msg: AgentToServer) returns (states: seq<State>, steps: seq<Step>, s: State)
    requires env.start >= Sqlite.SECOND && 0 < env.staleAfter <= env.disconnectedAfter
    requires msg == AgentToServer(Some(env.owner(conn)), 0, None, None, None, None)
    ensures Run(env, states, steps) && s == states[|states| - 1]
    ensures var uid, v := env.owner(conn), s.server;
            && v.clock == env.start + env.disconnectedAfter && v.tasks == map[] && v.sweep.None? && s.trail.closed == {}
            && v.agents.Keys == {uid} && v.agents[uid].lastSeen == KeptTime(env, env.start)
            && v.agents[uid].connectionState == Connected
  {
    states, steps := [Fresh(env.start, {})], [];
    states, steps, s := LongerRun(env, states, steps, Hear(0, conn, msg));
    states, steps, s := LongerRun(env, states, steps, StoreMessage(0, true));
    states, steps, s := LongerRun(env, states, steps, Tick(env.start + env.disconnectedAfter));
  }

  /** A sweep lists it in that state, with its next report already heard. */
  lemma SweepListsOldAgent(env: Env, conn: Conn, msg: AgentToServer, states0: seq<State>, steps0: seq<Step>, s0: State)
    returns (states: seq<State>, steps: seq<Step>, s: State)
    requires Run(env, states0, steps0) && s0 == states0[|states0| - 1]
    requires msg == AgentToServer(Some(env.owner(conn)), 0, None, None, None, None)
    requires var uid, v := env.owner(conn), s0.server;
             && v.clock == env.start + env.disconnectedAfter && v.tasks == map[] && v.sweep.None?
             && s0.trail.closed == {}
             && v.agents.Keys == {uid} && v.agents[uid].lastSeen == KeptTime(env, env.start)
             && v.agents[uid].connectionState == Connected
    ensures Run(env, states, steps) && s == states[|states| - 1]
    ensures var uid, v := env.owner(conn), s.server;
            && v.clock == env.start + env.disconnectedAfter && v.tasks == map[0 := MessageHeard(uid, msg)]
            && Holds(v.conns, uid, conn) && uid in v.agents
            && v.sweep == Some(Sweep(s0.server.agents, v.clock, {uid}, Some(v.clock)))
  {
    states, steps, s := LongerRun(env, states0, steps0, Hear(0, conn, msg));
    states, steps, s := LongerRun(env, states, steps, BeginSweep);
    states, steps, s := LongerRun(env, states, steps, ReadClock);
  }

  /** The report is stored between the listing and the visit. */
  lemma SweepOverrunsMessage(env: Env, conn: Conn, msg: AgentToServer,
                             states0: seq<State>, steps0: seq<Step>, s0: State, listed: Agent)
    returns (states: seq<State>, steps: seq<Step>, s: State)
    requires Run(env, states0, steps0) && s0 == states0[|states0| - 1]
    requires env.start >= Sqlite.SECOND && 0 < env.staleAfter <= env.disconnectedAfter && msg.capabilities == 0
    requires var uid, v := env.owner(conn), s0.server;
             && v.clock == env.start + env.disconnectedAfter && v.tasks == map[0 := MessageHeard(uid, msg)]
             && Holds(v.conns, uid, conn) && uid in v.agents
             && v.sweep == Some(Sweep(map[uid := listed], v.clock, {uid}, Some(v.clock)))
             && listed.lastSeen == KeptTime(env, env.start) && listed.connectionState == Connected
    ensures Run(env, states, steps) && s == states[|states| - 1]
    ensures var uid, v := env.owner(conn), s.server;
            && uid in v.agents && Holds(v.conns, uid, conn)
            && v.agents[uid].lastSeen == KeptTime(env, v.clock) && v.agents[uid].connectionState == Disconnected
  {
    states, steps, s := LongerRun(env, states0, steps0, StoreMessage(0, true));
    states, steps, s := LongerRun(env, states, steps, Visit(env.owner(conn), true));
  }

  /** The race is real: a run that ends with an agent disconnected in the store at the very moment of its message. */
  lemma LiveAgentCanLookDisconnected(env: Env, conn: Conn) returns (states: seq<State>, steps: seq<Step>, uid: Uid)
    requires env.start >= Sqlite.SECOND && 0 < env.staleAfter <= env.disconnectedAfter
    ensures Run(env, states, steps)
    ensures var v := states[|states| - 1].server;
            && uid in v.agents && Holds(v.conns, uid, conn)
            && v.agents[uid].lastSeen == KeptTime(env, v.clock) && v.agents[uid].connectionState == Disconnected
  {
    uid := env.owner(conn);
    var msg := AgentToServer(Some(uid), 0, None, None, None, None);
    var states1, steps1, s1 := AgentGrowsOld(env, conn, msg);
    var states2, steps2, s2 := SweepListsOldAgent(env, conn, msg, states1, steps1, s1);
    assert s1.server.agents == map[uid := s1.server.agents[uid]];
    var s;
    states, steps, s := SweepOverrunsMessage(env, conn, msg, states2, steps2, s2, s1.server.agents[uid]);
  }
}
