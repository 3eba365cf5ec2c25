/** What the records of a running fleet say, in terms of the reports that reached the store. */
module FleetRecords {
  import opened Common
  import opened Agents
  import opened Registry
  import opened Protocol
  import opened ProtocolSafety
  import opened FleetTheorems
  import opened RecordMeaning

  /** The identity fields come from the latest descriptions that name them. */
  ghost predicate ShowsIdentity(r: Identity, log: seq<Entry>) {
    && Latest(log, Naming(["service.name"]), r.serviceName, "")
    && Latest(log, Naming(["k8s.namespace.name", "service.namespace"]), r.namespace, "")
    && Latest(log, Naming(["service.version"]), r.version, "")
    && Latest(log, Naming(["k8s.node.name"]), r.nodeName, "")
    && Latest(log, Naming(["k8s.pod.name"]), r.podName, "")
  }

  /** The other reported fields come from the latest reports that carry them. */
  ghost predicate ShowsBlocks(a: Agent, log: seq<Entry>) {
    && Latest(log, Describing(), a.attributes, map[])
    && Latest(log, TellsHealth, a.healthy, false)
    && Latest(log, TellsError, a.lastError, "")
    && Latest(log, TellsConfig, a.effectiveConfigYaml, "")
    && Latest(log, TellsCapabilities, a.capabilities, 0)
  }

  lemma NewbornShows(uid: Uid, log: seq<Entry>)
    ensures var r := Fold(Newborn(uid), log);
            && ShowsIdentity(r.identity, log) && ShowsBlocks(r, log)
            && Latest(log, TellsStart, r.startTime, ZERO_TIME) && Latest(log, TellsTime, r.lastSeen, ZERO_TIME)
  {
    IdentityIsReported(Newborn(uid), log);
    BlocksAreReported(Newborn(uid), log);
  }

  /** Only times and the connection state can look different through the store. */
  lemma ShownThroughStore(env: Env, a: Agent, r: Agent, log: seq<Entry>)
    requires SameButConnection(a, KeptAgent(env, r)) && ShowsIdentity(r.identity, log) && ShowsBlocks(r, log)
    ensures a.instanceUid == r.instanceUid && ShowsIdentity(a.identity, log) && ShowsBlocks(a, log)
    ensures a.startTime == KeptTime(env, r.startTime) && a.lastSeen == KeptTime(env, r.lastSeen)
  {
  }

  /**
   What a record says of itself is what the latest stored report that carries it says, each field from
   its own part of the report; a record without such a report says nothing.
   */
  lemma RecordShowsReports(env: Env, states: seq<State>, steps: seq<Step>, n: nat, uid: Uid)
    returns (started: int, seen: int)
    requires Run(env, states, steps) && n < |states| && uid in states[n].server.agents
    ensures var a, log := states[n].server.agents[uid], LogOf(states[n].trail, uid);
            && a.instanceUid == uid && ShowsIdentity(a.identity, log) && ShowsBlocks(a, log)
            && Latest(log, TellsStart, started, ZERO_TIME) && a.startTime == KeptTime(env, started)
            && Latest(log, TellsTime, seen, ZERO_TIME) && a.lastSeen == KeptTime(env, seen)
  {
    RecordsAreSerial(env, states, steps, n, uid);
    var log := LogOf(states[n].trail, uid);
    var r := Fold(Newborn(uid), log);
    FoldKeepsUid(Newborn(uid), log);
    NewbornShows(uid, log);
    started, seen := r.startTime, r.lastSeen;
    ShownThroughStore(env, states[n].server.agents[uid], r, log);
  }

  /**
   The port a message advertises is the number in its own attribute; none if the attribute is missing
   or its number has more than 16 bits.
   */
  lemma PortIsReported(uid: Uid, msg: AgentToServer, k: nat)
    requires msg.description.Some?
    ensures Registering(uid, msg).MessageSet?
    ensures Says(msg.description.value, "opamp.fleetserver.self_metrics_port", Digits(k)) ==>
              Registering(uid, msg).port == if k <= 65535 then k else 0
    ensures (forall raw :: !Says(msg.description.value, "opamp.fleetserver.self_metrics_port", raw)) ==>
              Registering(uid, msg).port == 0
  {
    var d := msg.description.value;
    var raw := At(Flattened(d), SelfMetricsPort);
    PortReadsBack(k);
    FlattenedSays(d, SelfMetricsPort, Digits(k));
    FlattenedSays(d, SelfMetricsPort, raw);
  }
}
