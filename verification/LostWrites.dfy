/**
 A report whose store write failed. The handler answers it all the same, so the agent believes it
 delivered; whether the record catches up depends on what later reports overwrite.
 */
module LostWrites {
  import opened Common
  import opened Agents
  import opened Compression

  /** The parts of a record a report can write; `Contact` is what every report writes. */
  datatype Field =
    | Contact | AllAttributes | Service | Namespace | Version | NodeName | PodName
    | Healthy | StartTime | LastError | EffectiveConfig | Sync

  predicate SameField(x: Agent, y: Agent, f: Field) {
    match f
    case Contact =>
      x.lastSeen == y.lastSeen && x.connectionState == y.connectionState && x.capabilities == y.capabilities
    case AllAttributes => x.attributes == y.attributes
    case Service => x.identity.serviceName == y.identity.serviceName
    case Namespace => x.identity.namespace == y.identity.namespace
    case Version => x.identity.version == y.identity.version
    case NodeName => x.identity.nodeName == y.identity.nodeName
    case PodName => x.identity.podName == y.identity.podName
    case Healthy => x.healthy == y.healthy
    case StartTime => x.startTime == y.startTime
    case LastError => x.lastError == y.lastError
    case EffectiveConfig => x.effectiveConfigYaml == y.effectiveConfigYaml
    case Sync => x.configSync == y.configSync
  }

  /** The description names the attribute, so it replaces what the record said. */
  predicate Names(m: AgentToServer, key: AttrKey) {
    m.description.Some? && At(Flattened(m.description.value), key) != ""
  }

  /** The report writes this field whatever it held. */
  predicate Writes(m: AgentToServer, f: Field) {
    match f
    case Contact => true
    case AllAttributes => m.description.Some?
    case Service => Names(m, ServiceName)
    case Namespace => Names(m, K8sNamespace) || Names(m, ServiceNamespace)
    case Version => Names(m, ServiceVersion)
    case NodeName => Names(m, K8sNodeName)
    case PodName => Names(m, K8sPodName)
    case Healthy => m.health.Some?
    case StartTime => m.health.Some? && 0 < m.health.value.startTimeUnixNano <= MAX_INT64
    case LastError => m.health.Some? || ReportsFailure(m)
    case EffectiveConfig => m.effectiveConfig.Some?
    case Sync => m.remoteConfigStatus.Some? && m.remoteConfigStatus.value.kind != UnsetStatus
  }

  predicate Overwrites(e: Entry, f: Field) {
    match e
    case Pushed(_, _) => f == Sync
    case Told(m, _) => Writes(m, f)
  }

  ghost predicate Overwritten(log: seq<Entry>, f: Field) {
    exists i :: 0 <= i < |log| && Overwrites(log[i], f)
  }

  /** The fields no report writes. */
  predicate SamePush(x: Agent, y: Agent) {
    && x.instanceUid == y.instanceUid && x.lastRemoteConfigHash == y.lastRemoteConfigHash
    && x.pushedBy == y.pushedBy && x.lastPushedAt == y.lastPushedAt
  }

  lemma EntryOnField(x: Agent, y: Agent, e: Entry, f: Field)
    requires SamePush(x, y)
    ensures SamePush(WithEntry(x, e), WithEntry(y, e))
    ensures SameField(WithEntry(x, e), WithEntry(y, e), f) <==> Overwrites(e, f) || SameField(x, y, f)
  {
  }

  lemma OverwrittenLonger(log: seq<Entry>, f: Field)
    requires log != []
    ensures Overwritten(log, f) <==> Overwritten(log[..|log| - 1], f) || Overwrites(log[|log| - 1], f)
  {
    var before := log[..|log| - 1];
    assert forall i :: 0 <= i < |before| ==> before[i] == log[i];
  }

  /** Two records agree on a field after a history exactly when they did before or the history overwrote it. */
  lemma {:induction false} FoldOnField(x: Agent, y: Agent, log: seq<Entry>, f: Field)
    requires SamePush(x, y)
    ensures SamePush(Fold(x, log), Fold(y, log))
    ensures SameField(Fold(x, log), Fold(y, log), f) <==> Overwritten(log, f) || SameField(x, y, f)
  {
    if log != [] {
      var before, e := log[..|log| - 1], log[|log| - 1];
      var x', y' := Fold(x, before), Fold(y, before);
      FoldOnField(x, y, before, f);
      EntryOnField(x', y', e, f);
      OverwrittenLonger(log, f);
      assert Fold(x, log) == WithEntry(x', e) && Fold(y, log) == WithEntry(y', e);
    }
  }

  lemma SameFieldsSameRecord(x: Agent, y: Agent)
    requires SamePush(x, y)
    ensures x == y <==> forall f :: SameField(x, y, f)
  {
    if forall f :: SameField(x, y, f) {
      assert SameField(x, y, Contact) && SameField(x, y, AllAttributes) && SameField(x, y, Service);
      assert SameField(x, y, Namespace) && SameField(x, y, Version) && SameField(x, y, NodeName);
      assert SameField(x, y, PodName) && SameField(x, y, Healthy) && SameField(x, y, StartTime);
      assert SameField(x, y, LastError) && SameField(x, y, EffectiveConfig) && SameField(x, y, Sync);
    }
  }

  lemma FoldOfOneMore(a: Agent, log: seq<Entry>, e: Entry)
    ensures Fold(a, log + [e]) == WithEntry(Fold(a, log), e)
  {
    assert (log + [e])[..|log|] == log;
  }

  lemma {:induction false} FoldOfConcat(a: Agent, first: seq<Entry>, second: seq<Entry>)
    ensures Fold(a, first + second) == Fold(Fold(a, first), second)
  {
    if second == [] {
      NothingAppended(first);
    } else {
      var before, e := second[..|second| - 1], second[|second| - 1];
      FoldOfConcat(a, first, before);
      FoldOfOneMore(a, first + before, e);
      FoldOfOneMore(Fold(a, first), before, e);
      FrontAndLast(second);
      AppendIsAssociative(first, before, [e]);
    }
  }

  /** What follows makes two records equal exactly when it overwrites every field in which they differ. */
  lemma FoldMakesEqualIff(x: Agent, y: Agent, after: seq<Entry>)
    requires SamePush(x, y)
    ensures Fold(x, after) == Fold(y, after) <==> forall f :: SameField(x, y, f) || Overwritten(after, f)
  {
    FoldOnField(x, y, after, Contact);
    SameFieldsSameRecord(Fold(x, after), Fold(y, after));
    forall f
      ensures SameField(Fold(x, after), Fold(y, after), f) <==> Overwritten(after, f) || SameField(x, y, f)
    {
      FoldOnField(x, y, after, f);
    }
  }

  /**
   A failed write leaves no trace exactly when every field it would have changed is overwritten
   later.
   */
  lemma LostWriteIsMadeUpForIff(a: Agent, before: seq<Entry>, m: AgentToServer, at: int, after: seq<Entry>)
    ensures var held := Fold(a, before);
            Fold(a, before + after) == Fold(a, before + [Told(m, at)] + after) <==>
            forall f :: SameField(held, WithMessage(held, m, at), f) || Overwritten(after, f)
  {
    FoldOfConcat(a, before, after);
    FoldOfOneMore(a, before, Told(m, at));
    FoldOfConcat(a, before + [Told(m, at)], after);
    FoldMakesEqualIff(Fold(a, before), WithMessage(Fold(a, before), m, at), after);
  }

  /** There is a later report, and each block of `m` is in one of them as it was. */
  ghost predicate Resent(log: seq<Entry>, m: AgentToServer) {
    && (exists i :: 0 <= i < |log| && log[i].Told?)
    && (m.description.Some? ==> exists i :: 0 <= i < |log| && log[i].Told? && log[i].msg.description == m.description)
    && (m.health.Some? ==> exists i :: 0 <= i < |log| && log[i].Told? && log[i].msg.health == m.health)
    && (m.effectiveConfig.Some? ==>
          exists i :: 0 <= i < |log| && log[i].Told? && log[i].msg.effectiveConfig == m.effectiveConfig)
    && (m.remoteConfigStatus.Some? ==>
          exists i :: 0 <= i < |log| && log[i].Told? && log[i].msg.remoteConfigStatus == m.remoteConfigStatus)
  }

  lemma EntryWritesOnly(held: Agent, m: AgentToServer, at: int, f: Field)
    ensures Writes(m, f) || SameField(held, WithMessage(held, m, at), f)
  {
  }

  /** What a report changes it also writes, and so does any later one with the same block. */
  lemma ResentIsOverwritten(held: Agent, m: AgentToServer, at: int, after: seq<Entry>, f: Field)
    requires Resent(after, m)
    ensures SameField(held, WithMessage(held, m, at), f) || Overwritten(after, f)
  {
    var c :| 0 <= c < |after| && after[c].Told?;
    assert f == Contact ==> Overwrites(after[c], f);
    if m.description.Some? {
      var i :| 0 <= i < |after| && after[i].Told? && after[i].msg.description == m.description;
      assert f.AllAttributes? || f.Service? || f.Namespace? || f.Version? || f.NodeName? || f.PodName? ==>
        Overwrites(after[i], f) || !Writes(m, f);
    }
    if m.health.Some? {
      var i :| 0 <= i < |after| && after[i].Told? && after[i].msg.health == m.health;
      assert f.Healthy? || f.StartTime? || f.LastError? ==> Overwrites(after[i], f) || !Writes(m, f);
    }
    if m.effectiveConfig.Some? {
      var i :| 0 <= i < |after| && after[i].Told? && after[i].msg.effectiveConfig == m.effectiveConfig;
      assert f.EffectiveConfig? ==> Overwrites(after[i], f);
    }
    if m.remoteConfigStatus.Some? {
      var i :| 0 <= i < |after| && after[i].Told? && after[i].msg.remoteConfigStatus == m.remoteConfigStatus;
      assert f.Sync? ==> Overwrites(after[i], f) || !Writes(m, f);
      assert f.LastError? && m.health.None? ==> Overwrites(after[i], f) || !Writes(m, f);
    }
    EntryWritesOnly(held, m, at, f);
  }

  lemma ResendingMakesEqual(held: Agent, m: AgentToServer, at: int, after: seq<Entry>)
    requires Resent(after, m)
    ensures Fold(held, after) == Fold(WithMessage(held, m, at), after)
  {
    var told := WithMessage(held, m, at);
    FoldMakesEqualIff(held, told, after);
    forall f ensures SameField(held, told, f) || Overwritten(after, f) {
      ResentIsOverwritten(held, m, at, after, f);
    }
  }

  /** Sending every block of the lost report again makes up for it. */
  lemma ResendingMakesUp(a: Agent, before: seq<Entry>, m: AgentToServer, at: int, after: seq<Entry>)
    requires Resent(after, m)
    ensures Fold(a, before + after) == Fold(a, before + [Told(m, at)] + after)
  {
    FoldOfConcat(a, before, after);
    FoldOfOneMore(a, before, Told(m, at));
    FoldOfConcat(a, before + [Told(m, at)], after);
    ResendingMakesEqual(Fold(a, before), m, at, after);
  }

  /** The same report over and over. */
  function Heartbeats(m: AgentToServer, later: nat): seq<Entry> {
    seq(later, i => Told(m, i + 1))
  }

  lemma {:induction false} SameHealthSent(log: seq<Entry>, m: AgentToServer, i: nat)
    requires 0 < i <= |log| && forall j :: 0 <= j < |log| ==> log[j].Told? && log[j].msg == m
    requires m.health.Some?
    ensures SentIn(log[..i]).health == m.health
  {
    assert log[..i][..i - 1] == log[..i - 1];
  }

  lemma RepeatsMayBeOmitted(m: AgentToServer, later: nat)
    requires m.health.Some?
    ensures var o := NOTHING.(health := true);
            Allowed([Told(m, 0)] + Heartbeats(m, later), [NOTHING] + seq(later, _ => o))
  {
    var log := [Told(m, 0)] + Heartbeats(m, later);
    var omissions := [NOTHING] + seq(later, _ => NOTHING.(health := true));
    forall i | 0 <= i < |log| && log[i].Told?
      ensures MayOmit(SentIn(log[..i]), log[i].msg, omissions[i])
    {
      if i > 0 { SameHealthSent(log, m, i); }
    }
  }

  lemma {:induction false} ThinnedBareNeverWrites(after: seq<Entry>, omissions: seq<Omission>)
    requires |omissions| == |after| && forall j :: 0 <= j < |after| ==> after[j].Told? && omissions[j].health
    ensures forall j :: 0 <= j < |Thinned(after, omissions)| ==> !Overwrites(Thinned(after, omissions)[j], Healthy)
  {
    if after != [] {
      ThinnedBareNeverWrites(after[..|after| - 1], omissions[..|after| - 1]);
    }
  }

  /** Reports without a health block never bring a lost health block back. */
  lemma BareReportsNeverRepair(held: Agent, m: AgentToServer, at: int, after: seq<Entry>, omissions: seq<Omission>)
    requires m.health.Some? && m.health.value.healthy != held.healthy
    requires |omissions| == |after| && forall j :: 0 <= j < |after| ==> after[j].Told? && omissions[j].health
    ensures Fold(held, Thinned(after, omissions)) != Fold(WithMessage(held, m, at), Thinned(after, omissions))
  {
    ThinnedBareNeverWrites(after, omissions);
    FoldOnField(held, WithMessage(held, m, at), Thinned(after, omissions), Healthy);
  }

  /**
   An agent that compresses does not send them again. It counts the lost report as sent, and however
   many messages follow, the record never catches up; in full they would have repaired it.
   */
  lemma CompressionKeepsLoss(later: nat) returns (m: AgentToServer, after: seq<Entry>, omissions: seq<Omission>)
    requires later > 0
    ensures |after| == |omissions| == later && Allowed([Told(m, 0)] + after, [NOTHING] + omissions)
    ensures Fold(Newborn("u"), after) == Fold(WithMessage(Newborn("u"), m, 0), after)
    ensures Fold(Newborn("u"), Thinned(after, omissions)) !=
            Fold(WithMessage(Newborn("u"), m, 0), Thinned(after, omissions))
  {
    m := AgentToServer(Some("u"), 0, None, Some(Health(true, "", 0)), None, None);
    after := Heartbeats(m, later);
    omissions := seq(later, _ => NOTHING.(health := true));
    RepeatsMayBeOmitted(m, later);
    assert after[0].Told? && after[0].msg.health == m.health;
    ResendingMakesEqual(Newborn("u"), m, 0, after);
    BareReportsNeverRepair(Newborn("u"), m, 0, after, omissions);
  }
}
