/**
 The OpAMP handler: admission of connections, the message callback, config pushes and the stale
 sweeper. The outcomes of I/O (a store write, a socket write, the clock) are parameters.
 */
module Handler {
  import opened Common
  import opened Agents
  import opened Registry
  import opened Store
  import Limiter

  const MAX_AUTH_FAILURES := 10

  const AUTH_FAILURE_WINDOW := 60_000_000_000

  datatype Admission = Accepted | Throttled | Unauthorized

  /** A failed send reports the push all the same: it is recorded and stored. */
  datatype PushError = NotConnected | InvalidUid | NotRecorded | NotStored | NotSent(push: ConfigPush)

  /** A config handed to a connection, if the registry entry had one. */
  datatype Delivery = Delivery(conn: Option<Conn>, uid: Uid, push: ConfigPush, digest: Digest)

  /** The classification of an agent by the time since its last message. */
  function ClassOf(age: int, staleAfter: int, disconnectedAfter: int): ConnectionState {
    if age >= disconnectedAfter then Disconnected else if age >= staleAfter then Stale else Connected
  }

  /** Connection states in the order in which a silent agent passes through them. */
  function RankOf(c: ConnectionState): nat {
    match c case NoState => 0 case Connected => 1 case Stale => 2 case Disconnected => 3
  }

  function Classified(a: Agent, now: int, staleAfter: int, disconnectedAfter: int): Agent {
    a.(connectionState := ClassOf(now - a.lastSeen, staleAfter, disconnectedAfter))
  }

  /** The registry after a message: the connection, and the port if the message carries a description. */
  function Heard(conns: Conns, conn: Conn, uid: Uid, msg: AgentToServer): Conns {
    var c := Registered(conns, uid, conn);
    if msg.description.Some?
    then Advertised(c, uid, ParsePort(At(Flattened(msg.description.value), SelfMetricsPort)))
    else c
  }

  class Handler {
    const store: MemoryStore
    const conns: ConnRegistry
    const authLimiter: Limiter.FailureLimiter
    const configHash: string -> Digest
    const parsesAsUuid: Uid -> bool

    constructor (store: MemoryStore, configHash: string -> Digest, parsesAsUuid: Uid -> bool)
      ensures this.store == store && this.configHash == configHash && this.parsesAsUuid == parsesAsUuid
      ensures fresh(conns) && conns.byUid == map[]
      ensures fresh(authLimiter) && authLimiter.buckets == map[]
      ensures authLimiter.max == 10 && authLimiter.window == 60_000_000_000
    {
      this.store := store;
      this.configHash := configHash;
      this.parsesAsUuid := parsesAsUuid;
      conns := new ConnRegistry();
      authLimiter := new Limiter.FailureLimiter(MAX_AUTH_FAILURES, AUTH_FAILURE_WINDOW);
    }

    /** A throttled peer never reaches the token check; a checked one always leaves its outcome behind. */
    method OnConnecting(remoteIp: string, tokenValid: bool, now: int) returns (r: Admission)
      modifies authLimiter
      ensures r == if !Limiter.Allows(old(authLimiter.buckets), remoteIp, authLimiter.max, authLimiter.window, now)
                   then Throttled
                   else if tokenValid then Accepted else Unauthorized
      ensures authLimiter.buckets ==
              if r == Throttled then old(authLimiter.buckets)
              else if tokenValid then old(authLimiter.buckets) - {remoteIp}
              else Limiter.Failed(old(authLimiter.buckets), remoteIp, authLimiter.window, now)
    {
      var allowed := authLimiter.Allow(remoteIp, now);
      if !allowed {
        return Throttled;
      }
      if !tokenValid {
        authLimiter.RecordFailure(remoteIp, now);
        return Unauthorized;
      }
      authLimiter.RecordSuccess(remoteIp);
      return Accepted;
    }

    /**
     A message with a malformed uid changes nothing; any other registers its connection and, if the store
     works, its content.
     */
    method OnMessage(conn: Conn, msg: AgentToServer, now: int, storeUp: bool)
      modifies conns, store
      ensures msg.instanceUid.None? ==> conns.byUid == old(conns.byUid) && store.agents == old(store.agents)
      ensures msg.instanceUid.Some? ==> conns.byUid == Heard(old(conns.byUid), conn, msg.instanceUid.value, msg)
      ensures msg.instanceUid.Some? ==>
        var uid := msg.instanceUid.value;
        store.agents == if storeUp then old(store.agents)[uid := WithMessage(Record(old(store.agents), uid), msg, now)]
                        else old(store.agents)
      ensures store.pushes == old(store.pushes)
    {
      if msg.instanceUid.None? {
        return;
      }
      var uid := msg.instanceUid.value;
      conns.Set(uid, conn);
      if msg.description.Some? {
        var attrs := FlattenAttributes(msg.description.value);
        conns.SetMetricsPort(uid, ParsePort(At(attrs, SelfMetricsPort)));
      }
      if storeUp {
        var _ := store.UpsertAgent(uid, a => WithMessage(a, msg, now));
      }
    }

    method OnConnectionClose(conn: Conn)
      modifies conns
      ensures Removed(old(conns.byUid), conns.byUid, conn)
    {
      conns.RemoveByConn(conn);
    }

    /**
     A push in one go. What was recorded stays recorded whatever fails later; the config reaches the
     connection only after both writes, and the caller learns of a failed send together with the push.
     */
    method PushConfig(uid: Uid, yaml: string, pushedBy: string, note: string, id: string, now: int,
                      appendOk: bool, upsertOk: bool, sendOk: bool)
      returns (r: Result<ConfigPush, PushError>, sent: Option<Delivery>)
      modifies store
      ensures var push := ConfigPush(id, uid, now, yaml, pushedBy, note, false, "");
              var valid := uid in conns.byUid && parsesAsUuid(uid);
              var stored := valid && appendOk && upsertOk;
              && r == (if uid !in conns.byUid then Err(NotConnected) else if !valid then Err(InvalidUid)
                       else if !appendOk then Err(NotRecorded) else if !upsertOk then Err(NotStored)
                       else if !sendOk then Err(NotSent(push)) else Ok(push))
              && store.pushes == (if valid && appendOk then Appended(old(store.pushes), push) else old(store.pushes))
              && store.agents == (if stored
                                  then var record := WithPush(Record(old(store.agents), uid), push, configHash(yaml));
                                       old(store.agents)[uid := record]
                                  else old(store.agents))
              && sent == (if stored then Some(Delivery(conns.byUid[uid].conn, uid, push, configHash(yaml))) else None)
    {
      var conn, ok := conns.Get(uid);
      if !ok {
        return Err(NotConnected), None;
      }
      if !parsesAsUuid(uid) {
        return Err(InvalidUid), None;
      }
      var hash := configHash(yaml);
      var push := ConfigPush(id, uid, now, yaml, pushedBy, note, false, "");
      if !appendOk {
        return Err(NotRecorded), None;
      }
      store.AppendConfigPush(push);
      if !upsertOk {
        return Err(NotStored), None;
      }
      var _ := store.UpsertAgent(uid, a => WithPush(a, push, hash));
      sent := Some(Delivery(conn, uid, push, hash));
      if !sendOk {
        return Err(NotSent(push)), sent;
      }
      return Ok(push), sent;
    }
  }

  /** The sweeper's visit to one listed agent: no write when the listed state is the wanted one already. */
  method SweepAgent(store: MemoryStore, a: Agent, staleAfter: int, disconnectedAfter: int, now: int, upsertOk: bool)
    modifies store
    ensures var want := ClassOf(now - a.lastSeen, staleAfter, disconnectedAfter);
            store.agents == if want != a.connectionState && upsertOk
                            then
                              var record := Record(old(store.agents), a.instanceUid);
                              old(store.agents)[a.instanceUid := record.(connectionState := want)]
                            else old(store.agents)
    ensures store.pushes == old(store.pushes)
  {
    var age := now - a.lastSeen;
    var want := Connected;
    if age >= disconnectedAfter {
      want := Disconnected;
    } else if age >= staleAfter {
      want := Stale;
    }
    if want == a.connectionState {
      return;
    }
    if upsertOk {
      var _ := store.UpsertAgent(a.instanceUid, (agent: Agent) => agent.(connectionState := want));
    }
  }

  /** The records `after` the first `n` of the listed agents have been visited. */
  ghost predicate Swept(was: map<Uid, Agent>, after: map<Uid, Agent>, uids: seq<Uid>, n: nat,
                        classified: Agent -> Agent, upsertOk: Uid -> bool) {
    && after.Keys == was.Keys
    && forall j :: 0 <= j < |uids| ==>
         && uids[j] in was
         && after[uids[j]] ==
            if j < n && upsertOk(uids[j]) then classified(was[uids[j]]) else was[uids[j]]
  }

  /** `visited` is what a visit leaves: the listed record, or the classified one in its place. */
  lemma SweptStep(was: map<Uid, Agent>, before: map<Uid, Agent>, visited: map<Uid, Agent>, uids: seq<Uid>, n: nat,
                  classified: Agent -> Agent, upsertOk: Uid -> bool)
    requires n < |uids| && Swept(was, before, uids, n, classified, upsertOk)
    requires forall i, j :: 0 <= i < j < |uids| ==> uids[i] != uids[j]
    requires var a := was[uids[n]];
             visited == if classified(a) != a && upsertOk(uids[n]) then before[uids[n] := classified(a)] else before
    ensures Swept(was, visited, uids, n + 1, classified, upsertOk)
  {
  }

  lemma SweptAll(was: map<Uid, Agent>, after: map<Uid, Agent>, uids: seq<Uid>,
                 classified: Agent -> Agent, upsertOk: Uid -> bool, uid: Uid)
    requires Swept(was, after, uids, |uids|, classified, upsertOk) && uid in uids
    ensures uid in was && after[uid] == if upsertOk(uid) then classified(was[uid]) else was[uid]
  {
  }

  /**
   A sweep nobody interrupts classifies every agent whose write succeeds by its age and changes
   nothing else.
   */
  method SweepOnce(store: MemoryStore, staleAfter: int, disconnectedAfter: int, now: int,
                   listOk: bool, upsertOk: Uid -> bool)
    requires forall uid :: uid in store.agents ==> store.agents[uid].instanceUid == uid
    modifies store
    ensures store.pushes == old(store.pushes) && store.agents.Keys == old(store.agents).Keys
    ensures forall uid :: uid in store.agents ==>
      var a := old(store.agents)[uid];
      store.agents[uid] == if listOk && upsertOk(uid) then Classified(a, now, staleAfter, disconnectedAfter) else a
  {
    if !listOk {
      return;
    }
    ghost var was := store.agents;
    ghost var classified := (a: Agent) => Classified(a, now, staleAfter, disconnectedAfter);
    var agents, uids := store.ListAgents();
    for i := 0 to |agents|
      invariant store.pushes == old(store.pushes)
      invariant Swept(was, store.agents, uids, i, classified, upsertOk)
    {
      ghost var before := store.agents;
      assert before[uids[i]] == was[uids[i]] == agents[i];
      assert agents[i].instanceUid == uids[i] && Record(before, uids[i]) == agents[i];
      SweepAgent(store, agents[i], staleAfter, disconnectedAfter, now, upsertOk(agents[i].instanceUid));
      SweptStep(was, before, store.agents, uids, i, classified, upsertOk);
    }
    forall uid | uid in was ensures store.agents[uid] == if upsertOk(uid) then classified(was[uid]) else was[uid] {
      SweptAll(was, store.agents, uids, classified, upsertOk, uid);
    }
  }
}
