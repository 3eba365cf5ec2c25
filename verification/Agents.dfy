/**
 The fleet's records, what an agent can report, and how one report or one config push changes a
 record. Times are nanoseconds since the Unix epoch.
 */
module Agents {
  import opened Common

  type Uid = string

  type Digest = seq<bv8>

  /** Go's zero `time.Time`: the first instant of year 1, UTC. */
  const ZERO_TIME: int := -62135596800_000_000_000

  const MAX_INT64: int := 0x7fff_ffff_ffff_ffff

  /** `NoState` and `NoSync` are the empty strings a fresh record starts with. */
  datatype ConnectionState = NoState | Connected | Stale | Disconnected

  datatype ConfigSync = NoSync | Synced | Pending | Drifted | Failed

  /** What the well-known attributes say about an agent. */
  datatype Identity = Identity(
    serviceName: string, namespace: string, version: string, nodeName: string, podName: string)

  datatype Agent = Agent(
    instanceUid: Uid,
    identity: Identity,
    attributes: map<AttrKey, string>,
    capabilities: nat,
    connectionState: ConnectionState,
    lastSeen: int,
    startTime: int,
    healthy: bool,
    lastError: string,
    effectiveConfigYaml: string,
    configSync: ConfigSync,
    lastRemoteConfigHash: Digest,
    pushedBy: string,
    lastPushedAt: int)

  const FRESH :=
    Agent("", Identity("", "", "", "", ""), map[], 0, NoState, ZERO_TIME, ZERO_TIME, false, "", "",
          NoSync, [], "", ZERO_TIME)

  datatype ConfigPush = ConfigPush(
    id: string,
    agentUid: Uid,
    timestamp: int,
    configYaml: string,
    pushedBy: string,
    note: string,
    succeeded: bool,
    errorMessage: string)

  // ---------------------------------------------------------------- what an agent reports

  type AttrKey = string

  // The attribute keys the server knows by name.

  const ServiceName: AttrKey := "service.name"
  const ServiceNamespace: AttrKey := "service.namespace"
  const K8sNamespace: AttrKey := "k8s.namespace.name"
  const ServiceVersion: AttrKey := "service.version"
  const K8sNodeName: AttrKey := "k8s.node.name"
  const K8sPodName: AttrKey := "k8s.pod.name"
  const SelfMetricsPort: AttrKey := "opamp.fleetserver.self_metrics_port"

  type Attributes = seq<(AttrKey, string)>

  datatype Description = Description(identifying: Attributes, nonIdentifying: Attributes)

  datatype Health = Health(healthy: bool, lastError: string, startTimeUnixNano: nat)

  /** `UnsetStatus` also stands for any value the status switch does not name. */
  datatype StatusKind = UnsetStatus | Applied | Applying | FailedStatus

  datatype RemoteConfigStatus = RemoteConfigStatus(kind: StatusKind, hash: Digest, errorMessage: string)

  /** Named config bodies, in the order in which iterating the reported map yields them. */
  type ConfigFiles = seq<(string, string)>

  /** Every block of a report is optional; the uid is absent when its bytes are not 16. */
  datatype AgentToServer = AgentToServer(
    instanceUid: Option<Uid>,
    capabilities: nat,
    description: Option<Description>,
    health: Option<Health>,
    effectiveConfig: Option<ConfigFiles>,
    remoteConfigStatus: Option<RemoteConfigStatus>)

  // ---------------------------------------------------------------- attributes

  /** The value of the last pair with this key. */
  function LastValue(pairs: Attributes, key: AttrKey): Option<string> {
    if pairs == [] then None
    else
      var last := pairs[|pairs| - 1];
      if last.0 == key then Some(last.1) else LastValue(pairs[..|pairs| - 1], key)
  }

  /** The value of the first pair with this key. */
  function FirstValue(pairs: Attributes, key: AttrKey): Option<string> {
    if pairs == [] then None
    else if pairs[0].0 == key then Some(pairs[0].1)
    else FirstValue(pairs[1..], key)
  }

  function Keys(d: Description): set<AttrKey> {
    (set i | 0 <= i < |d.identifying| :: d.identifying[i].0) +
    (set i | 0 <= i < |d.nonIdentifying| :: d.nonIdentifying[i].0)
  }

  /** An identifying attribute wins over a non-identifying one; the former's last value counts, the latter's first. */
  function Precedent(d: Description, key: AttrKey): Option<string> {
    var v := LastValue(d.identifying, key);
    if v.Some? then v else FirstValue(d.nonIdentifying, key)
  }

  function Flattened(d: Description): map<AttrKey, string> {
    map key | key in Keys(d) && Precedent(d, key).Some? :: Precedent(d, key).value
  }

  lemma {:induction false} LastValueExists(pairs: Attributes, key: AttrKey)
    ensures LastValue(pairs, key).Some? <==> exists i :: 0 <= i < |pairs| && pairs[i].0 == key
  {
    if pairs != [] { LastValueExists(pairs[..|pairs| - 1], key); }
  }

  lemma {:induction false} FirstValueExists(pairs: Attributes, key: AttrKey)
    ensures FirstValue(pairs, key).Some? <==> exists i :: 0 <= i < |pairs| && pairs[i].0 == key
  {
    if pairs != [] {
      FirstValueExists(pairs[1..], key);
      if exists i :: 0 <= i < |pairs| && pairs[i].0 == key {
        var i :| 0 <= i < |pairs| && pairs[i].0 == key;
        if i > 0 { assert pairs[1..][i - 1].0 == key; }
      }
    }
  }

  lemma {:induction false} FirstValueOfLonger(pairs: Attributes, next: (AttrKey, string), key: AttrKey)
    ensures FirstValue(pairs + [next], key) ==
            if FirstValue(pairs, key).Some? then FirstValue(pairs, key)
            else if next.0 == key then Some(next.1) else None
  {
    if pairs == [] {
      assert (pairs + [next])[1..] == [];
    } else {
      assert (pairs + [next])[1..] == pairs[1..] + [next];
      FirstValueOfLonger(pairs[1..], next, key);
    }
  }

  method FlattenAttributes(d: Description) returns (out: map<AttrKey, string>)
    ensures out == Flattened(d)
  {
    out := map[];
    var ids, rest := d.identifying, d.nonIdentifying;
    for i := 0 to |ids|
      invariant forall key :: (if key in out then Some(out[key]) else None) == LastValue(ids[..i], key)
    {
      assert ids[..i + 1][..i] == ids[..i];
      out := out[ids[i].0 := ids[i].1];
    }
    assert ids[..|ids|] == ids;
    for i := 0 to |rest|
      invariant forall key ::
        (if key in out then Some(out[key]) else None) == Precedent(Description(ids, rest[..i]), key)
    {
      assert rest[..i + 1] == rest[..i] + [rest[i]];
      forall key
        ensures FirstValue(rest[..i + 1], key) ==
                if FirstValue(rest[..i], key).Some? then FirstValue(rest[..i], key)
                else if rest[i].0 == key then Some(rest[i].1) else None
      {
        FirstValueOfLonger(rest[..i], rest[i], key);
      }
      if rest[i].0 !in out {
        out := out[rest[i].0 := rest[i].1];
      }
    }
    assert rest[..|rest|] == rest;
    forall key
      ensures Precedent(d, key).Some? ==> key in Keys(d)
    {
      LastValueExists(ids, key);
      FirstValueExists(rest, key);
    }
  }

  // ---------------------------------------------------------------- folding a report into a record

  function At(attrs: map<AttrKey, string>, key: AttrKey): string {
    if key in attrs then attrs[key] else ""
  }

  /** `firstNonEmpty` of two values; of three it is nested. */
  function FirstNonEmpty(x: string, y: string): string {
    if x != "" then x else y
  }

  function Section(file: (string, string)): string {
    "# --- " + file.0 + " ---\n" + file.1
  }

  /** Every section, in order, one newline between neighbours. */
  function Sections(files: ConfigFiles): string {
    if files == [] then ""
    else if |files| == 1 then Section(files[0])
    else Sections(files[..|files| - 1]) + "\n" + Section(files[|files| - 1])
  }

  function Joined(files: ConfigFiles): string {
    if |files| == 1 && files[0].0 == "" then files[0].1 else Sections(files)
  }

  method JoinConfigMap(files: ConfigFiles) returns (out: string)
    ensures out == Joined(files)
  {
    if |files| == 0 {
      return "";
    }
    if |files| == 1 && files[0].0 == "" {
      return files[0].1;
    }
    out := "";
    for i := 0 to |files|
      invariant out == Sections(files[..i])
      invariant i > 0 ==> out != ""
    {
      assert files[..i + 1][..i] == files[..i];
      if out != "" {
        out := out + "\n";
      }
      out := out + Section(files[i]);
    }
    assert files[..|files|] == files;
  }

  /** The identity after a description; a missing or empty attribute leaves the old value. */
  function Identified(attrs: map<AttrKey, string>, before: Identity): Identity {
    Identity(
      FirstNonEmpty(At(attrs, ServiceName), before.serviceName),
      FirstNonEmpty(At(attrs, K8sNamespace), FirstNonEmpty(At(attrs, ServiceNamespace), before.namespace)),
      FirstNonEmpty(At(attrs, ServiceVersion), before.version),
      FirstNonEmpty(At(attrs, K8sNodeName), before.nodeName),
      FirstNonEmpty(At(attrs, K8sPodName), before.podName))
  }

  /** The start time after a health block: zero and values beyond 63 bits are ignored. */
  function StartTimeAfter(health: Option<Health>, startTime: int): int {
    if health.Some? && 0 < health.value.startTimeUnixNano <= MAX_INT64
    then health.value.startTimeUnixNano else startTime
  }

  /** The sync state after a status report, given the hash of the last stored push. */
  function SyncAfter(status: Option<RemoteConfigStatus>, pushedHash: Digest, sync: ConfigSync): ConfigSync {
    if status.None? then sync
    else
      match status.value.kind
      case UnsetStatus => sync
      case Applied => if pushedHash != [] && status.value.hash == pushedHash then Synced else Drifted
      case Applying => Pending
      case FailedStatus => Failed
  }

  /** The last error after a health block and then a status report. */
  function LastErrorAfter(health: Option<Health>, status: Option<RemoteConfigStatus>, lastError: string): string {
    var e := if health.Some? then health.value.lastError else lastError;
    if status.Some? && status.value.kind == FailedStatus then FirstNonEmpty(status.value.errorMessage, e) else e
  }

  /** One report folded into a record at time `now`; each block overwrites its own fields only. */
  function WithMessage(a: Agent, msg: AgentToServer, now: int): Agent {
    a.(lastSeen := now,
       connectionState := Connected,
       capabilities := msg.capabilities,
       attributes := if msg.description.Some? then Flattened(msg.description.value) else a.attributes,
       identity := if msg.description.Some? then Identified(Flattened(msg.description.value), a.identity)
                   else a.identity,
       healthy := if msg.health.Some? then msg.health.value.healthy else a.healthy,
       startTime := StartTimeAfter(msg.health, a.startTime),
       effectiveConfigYaml := if msg.effectiveConfig.Some? then Joined(msg.effectiveConfig.value)
                              else a.effectiveConfigYaml,
       configSync := SyncAfter(msg.remoteConfigStatus, a.lastRemoteConfigHash, a.configSync),
       lastError := LastErrorAfter(msg.health, msg.remoteConfigStatus, a.lastError))
  }

  /** What storing a push does to the record. */
  function WithPush(a: Agent, push: ConfigPush, digest: Digest): Agent {
    a.(lastRemoteConfigHash := digest, configSync := Pending, pushedBy := push.pushedBy, lastPushedAt := push.timestamp)
  }

  // ---------------------------------------------------------------- the record as a fold of its history

  /** A change to one record that reached the store: a report at its time of arrival, or a push. */
  datatype Entry = Told(msg: AgentToServer, at: int) | Pushed(push: ConfigPush, digest: Digest)

  function WithEntry(a: Agent, e: Entry): Agent {
    match e
    case Told(msg, at) => WithMessage(a, msg, at)
    case Pushed(push, digest) => WithPush(a, push, digest)
  }

  function Fold(a: Agent, log: seq<Entry>): Agent {
    if log == [] then a else WithEntry(Fold(a, log[..|log| - 1]), log[|log| - 1])
  }

  /** The entry decides the sync state: a push, or a status the switch names. */
  predicate Decides(e: Entry) {
    e.Pushed? || (e.msg.remoteConfigStatus.Some? && e.msg.remoteConfigStatus.value.kind != UnsetStatus)
  }

  ghost predicate LatestDecision(log: seq<Entry>, i: nat) {
    i < |log| && Decides(log[i]) && forall j :: i < j < |log| ==> !Decides(log[j])
  }

  ghost predicate LatestPush(log: seq<Entry>, i: nat) {
    i < |log| && log[i].Pushed? && forall j :: i < j < |log| ==> !log[j].Pushed?
  }

  /** The latest decision is a report of this kind. */
  ghost predicate Reported(log: seq<Entry>, kind: StatusKind) {
    exists i: nat :: LatestDecision(log, i) && log[i].Told? && log[i].msg.remoteConfigStatus.value.kind == kind
  }

  /** The latest decision is an APPLIED report that carries the digest of the latest push. */
  ghost predicate AppliedLatest(log: seq<Entry>) {
    exists i: nat, j: nat ::
      && LatestDecision(log, i) && log[i].Told? && log[i].msg.remoteConfigStatus.value.kind == Applied
      && LatestPush(log, j) && log[j].digest != []
      && log[i].msg.remoteConfigStatus.value.hash == log[j].digest
  }

  /** Where the latest push stands, if there is one. */
  function PushIndex(log: seq<Entry>): (r: Option<nat>)
    ensures r.Some? ==> r.value < |log| && log[r.value].Pushed?
  {
    if log == [] then None
    else if log[|log| - 1].Pushed? then Some(|log| - 1)
    else PushIndex(log[..|log| - 1])
  }

  /** Where the latest decision stands, if there is one. */
  function DecisionIndex(log: seq<Entry>): (r: Option<nat>)
    ensures r.Some? ==> r.value < |log| && Decides(log[r.value])
  {
    if log == [] then None
    else if Decides(log[|log| - 1]) then Some(|log| - 1)
    else DecisionIndex(log[..|log| - 1])
  }

  lemma {:induction false} PushIndexIsLatest(log: seq<Entry>, i: nat)
    ensures LatestPush(log, i) <==> PushIndex(log) == Some(i)
  {
    if log != [] && !log[|log| - 1].Pushed? {
      var before := log[..|log| - 1];
      PushIndexIsLatest(before, i);
      assert forall j :: 0 <= j < |before| ==> log[j] == before[j];
    }
  }

  lemma {:induction false} DecisionIndexIsLatest(log: seq<Entry>, i: nat)
    ensures LatestDecision(log, i) <==> DecisionIndex(log) == Some(i)
  {
    if log != [] && !Decides(log[|log| - 1]) {
      var before := log[..|log| - 1];
      DecisionIndexIsLatest(before, i);
      assert forall j :: 0 <= j < |before| ==> log[j] == before[j];
    }
  }

  /** The hash, the pusher and the push time of a record all come from its latest push. */
  lemma {:induction false} LatestPushIsRemembered(a: Agent, log: seq<Entry>)
    ensures var r := Fold(a, log);
            match PushIndex(log)
            case Some(i) =>
              && r.lastRemoteConfigHash == log[i].digest
              && r.pushedBy == log[i].push.pushedBy
              && r.lastPushedAt == log[i].push.timestamp
            case None =>
              && r.lastRemoteConfigHash == a.lastRemoteConfigHash
              && r.pushedBy == a.pushedBy
              && r.lastPushedAt == a.lastPushedAt
  {
    if log != [] { LatestPushIsRemembered(a, log[..|log| - 1]); }
  }

  /** A record before any push or status report. */
  function Newborn(uid: Uid): Agent { FRESH.(instanceUid := uid) }

  lemma {:induction false} SyncFromIndices(uid: Uid, log: seq<Entry>)
    ensures var sync := Fold(Newborn(uid), log).configSync;
            match DecisionIndex(log)
            case None => sync == NoSync
            case Some(i) =>
              if log[i].Pushed? then sync == Pending
              else
                var status := log[i].msg.remoteConfigStatus.value;
                sync == if status.kind == Applying then Pending
                        else if status.kind == FailedStatus then Failed
                        else if PushIndex(log).Some? && log[PushIndex(log).value].digest != []
                             && status.hash == log[PushIndex(log).value].digest then Synced
                        else Drifted
  {
    if log != [] {
      var before := log[..|log| - 1];
      SyncFromIndices(uid, before);
      LatestPushIsRemembered(Newborn(uid), before);
    }
  }

  /**
   A record's sync state is a function of its history alone. It is Synced exactly when the latest
   decision is an APPLIED report carrying the digest of the latest push.
   */
  lemma SyncIsDetermined(uid: Uid, log: seq<Entry>)
    ensures var sync := Fold(Newborn(uid), log).configSync;
            && (sync == Synced <==> AppliedLatest(log))
            && (sync == Drifted <==> Reported(log, Applied) && !AppliedLatest(log))
            && (sync == Failed <==> Reported(log, FailedStatus))
            && (sync == Pending <==>
                  Reported(log, Applying) || exists i: nat :: LatestDecision(log, i) && log[i].Pushed?)
            && (sync == NoSync <==> forall i: nat :: !LatestDecision(log, i))
  {
    SyncFromIndices(uid, log);
    forall i: nat
      ensures LatestDecision(log, i) <==> DecisionIndex(log) == Some(i)
      ensures LatestPush(log, i) <==> PushIndex(log) == Some(i)
    {
      DecisionIndexIsLatest(log, i);
      PushIndexIsLatest(log, i);
    }
    if DecisionIndex(log).Some? { assert LatestDecision(log, DecisionIndex(log).value); }
    if PushIndex(log).Some? { assert LatestPush(log, PushIndex(log).value); }
  }
}
