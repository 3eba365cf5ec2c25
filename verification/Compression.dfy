/**
 Status compression: an agent may leave a block out of a report when it has not changed since the
 last time it sent it (section "Agent Status Compression" of the OpAMP specification). Omitting
 such blocks must not change what the server records.
 */
module Compression {
  import opened Common
  import opened Agents

  /** The last block of each kind an agent sent on its connection; a stored push voids the status. */
  datatype Sent = Sent(
    description: Option<Description>,
    health: Option<Health>,
    effectiveConfig: Option<ConfigFiles>,
    status: Option<RemoteConfigStatus>)

  function Newer<T>(block: Option<T>, last: Option<T>): Option<T> {
    if block.Some? then block else last
  }

  function SentWith(s: Sent, m: AgentToServer): Sent {
    Sent(Newer(m.description, s.description), Newer(m.health, s.health),
         Newer(m.effectiveConfig, s.effectiveConfig), Newer(m.remoteConfigStatus, s.status))
  }

  /** What the agent has sent during a history. */
  function SentIn(log: seq<Entry>): Sent {
    if log == [] then Sent(None, None, None, None)
    else
      var s := SentIn(log[..|log| - 1]);
      match log[|log| - 1]
      case Pushed(_, _) => s.(status := None)
      case Told(m, _) =>
        SentWith(s, m)
  }

  /** Which blocks of a report the agent leaves out. */
  datatype Omission = Omission(description: bool, health: bool, effectiveConfig: bool, status: bool)

  function Kept<T>(block: Option<T>, omit: bool): Option<T> {
    if omit then None else block
  }

  function Thin(m: AgentToServer, o: Omission): AgentToServer {
    m.(description := Kept(m.description, o.description),
       health := Kept(m.health, o.health),
       effectiveConfig := Kept(m.effectiveConfig, o.effectiveConfig),
       remoteConfigStatus := Kept(m.remoteConfigStatus, o.status))
  }

  function ThinEntry(e: Entry, o: Omission): Entry {
    match e
    case Told(m, at) => Told(Thin(m, o), at)
    case Pushed(_, _) => e
  }

  // A block may be left out when it repeats the last one sent.

  predicate RepeatsDescription(s: Sent, m: AgentToServer) {
    m.description.Some? && m.description == s.description
  }

  predicate RepeatsHealth(s: Sent, m: AgentToServer) {
    m.health.Some? && m.health == s.health
  }

  predicate SameFiles(f: ConfigFiles, g: ConfigFiles) {
    multiset(f) == multiset(g)
  }

  /** Files come out of a map, so the same files may be listed in another order the next time. */
  predicate RepeatsConfig(s: Sent, m: AgentToServer) {
    m.effectiveConfig.Some? && s.effectiveConfig.Some? && SameFiles(m.effectiveConfig.value, s.effectiveConfig.value)
  }

  predicate RepeatsStatus(s: Sent, m: AgentToServer) {
    m.remoteConfigStatus.Some? && m.remoteConfigStatus == s.status
  }

  predicate MayOmit(s: Sent, m: AgentToServer, o: Omission) {
    && (o.description ==> RepeatsDescription(s, m))
    && (o.health ==> RepeatsHealth(s, m))
    && (o.effectiveConfig ==> RepeatsConfig(s, m))
    && (o.status ==> RepeatsStatus(s, m))
  }

  ghost predicate Allowed(log: seq<Entry>, omissions: seq<Omission>) {
    && |omissions| == |log|
    && forall i :: 0 <= i < |log| && log[i].Told? ==> MayOmit(SentIn(log[..i]), log[i].msg, omissions[i])
  }

  /** The history the server sees when the agent compresses. */
  function Thinned(log: seq<Entry>, omissions: seq<Omission>): seq<Entry>
    requires |omissions| == |log|
  {
    if log == [] then []
    else
      var n := |log| - 1;
      Thinned(log[..n], omissions[..n]) + [ThinEntry(log[n], omissions[n])]
  }

  /** Folding a thinned history takes its last entry last. */
  lemma ThinnedFold(a: Agent, log: seq<Entry>, omissions: seq<Omission>)
    requires log != [] && |omissions| == |log|
    ensures var n := |log| - 1;
            Fold(a, Thinned(log, omissions)) ==
            WithEntry(Fold(a, Thinned(log[..n], omissions[..n])), ThinEntry(log[n], omissions[n]))
  {
    var n := |log| - 1;
    var thin := Thinned(log[..n], omissions[..n]);
    assert Thinned(log, omissions)[..|thin|] == thin;
  }

  lemma AllowedPrefix(log: seq<Entry>, omissions: seq<Omission>, n: nat)
    requires Allowed(log, omissions) && n <= |log|
    ensures Allowed(log[..n], omissions[..n])
  {
    forall i | 0 <= i < n && log[..n][i].Told?
      ensures MayOmit(SentIn(log[..n][..i]), log[..n][i].msg, omissions[..n][i])
    {
      assert log[..n][..i] == log[..i];
    }
  }

  /** Allowed omissions for all entries but the last, and one for the last. */
  lemma AllowedLonger(a: Agent, log: seq<Entry>, omissions: seq<Omission>, o: Omission)
    requires log != [] && Allowed(log[..|log| - 1], omissions)
    requires var n := |log| - 1; log[n].Told? ==> MayOmit(SentIn(log[..n]), log[n].msg, o)
    ensures Allowed(log, omissions + [o])
    ensures var n := |log| - 1;
            Fold(a, Thinned(log, omissions + [o])) ==
            WithEntry(Fold(a, Thinned(log[..n], omissions)), ThinEntry(log[n], o))
  {
    var n := |log| - 1;
    ThinnedFold(a, log, omissions + [o]);
    assert (omissions + [o])[..n] == omissions;
    forall i | 0 <= i < |log| && log[i].Told?
      ensures MayOmit(SentIn(log[..i]), log[i].msg, (omissions + [o])[i])
    {
      if i < n {
        assert log[..n][..i] == log[..i] && log[..n][i] == log[i];
      }
    }
  }

  const NOTHING := Omission(false, false, false, false)

  /** Leaving out nothing is allowed and changes nothing. */
  lemma {:induction false} OmitNothing(log: seq<Entry>) returns (omissions: seq<Omission>)
    ensures Allowed(log, omissions) && Thinned(log, omissions) == log
  {
    omissions := [];
    if log != [] {
      var n := |log| - 1;
      var before := OmitNothing(log[..n]);
      AllowedLonger(FRESH, log, before, NOTHING);
      omissions := before + [NOTHING];
      assert omissions[..n] == before;
      assert log == log[..n] + [log[n]];
    }
  }

  // ---------------------------------------------------------------- what compression preserves

  /** The record already says everything the sent blocks say, the last error aside. */
  ghost predicate Reflects(a: Agent, s: Sent) {
    && (s.description.Some? ==>
          var attrs := Flattened(s.description.value);
          a.attributes == attrs && Identified(attrs, a.identity) == a.identity)
    && (s.health.Some? ==> a.healthy == s.health.value.healthy && StartTimeAfter(s.health, a.startTime) == a.startTime)
    && (s.effectiveConfig.Some? ==> a.effectiveConfigYaml == Joined(s.effectiveConfig.value))
    && SyncAfter(s.status, a.lastRemoteConfigHash, a.configSync) == a.configSync
  }

  /** The texts of one set of files, in some order each. */
  ghost predicate SameSections(x: string, y: string) {
    x == y || exists f, g :: SameFiles(f, g) && x == Joined(f) && y == Joined(g)
  }

  ghost predicate SameButErrorAndOrder(a: Agent, b: Agent) {
    && a == b.(lastError := a.lastError, effectiveConfigYaml := a.effectiveConfigYaml)
    && SameSections(a.effectiveConfigYaml, b.effectiveConfigYaml)
  }

  /** As long as the agent sent no effective config the texts are the same, and then both show the last one sent. */
  ghost predicate ShowsSent(a: Agent, b: Agent, s: Sent) {
    match s.effectiveConfig
    case None => a.effectiveConfigYaml == b.effectiveConfigYaml
    case Some(f) =>
      a.effectiveConfigYaml == Joined(f) && exists g :: SameFiles(f, g) && b.effectiveConfigYaml == Joined(g)
  }

  /** A message folded into a record leaves it saying what the message said. */
  lemma MessageIsReflected(a: Agent, s: Sent, m: AgentToServer, at: int)
    requires Reflects(a, s)
    ensures Reflects(WithMessage(a, m, at), SentWith(s, m))
  {
  }

  lemma OmissionChangesLittle(a: Agent, b: Agent, s: Sent, m: AgentToServer, o: Omission, at: int)
    requires Reflects(a, s) && SameButErrorAndOrder(a, b) && ShowsSent(a, b, s) && MayOmit(s, m, o)
    ensures ShowsSent(WithMessage(a, m, at), WithMessage(b, Thin(m, o), at), SentWith(s, m))
    ensures SameButErrorAndOrder(WithMessage(a, m, at), WithMessage(b, Thin(m, o), at))
  {
    if m.effectiveConfig.Some? {
      var f := m.effectiveConfig.value;
      assert SameFiles(f, f);
      if o.effectiveConfig {
        var g :| SameFiles(s.effectiveConfig.value, g) && b.effectiveConfigYaml == Joined(g);
        assert SameFiles(f, g);
      }
    }
  }

  lemma {:induction false} HistoryIsReflected(a: Agent, log: seq<Entry>)
    ensures Reflects(Fold(a, log), SentIn(log))
  {
    if log != [] {
      var n := |log| - 1;
      HistoryIsReflected(a, log[..n]);
      if log[n].Told? { MessageIsReflected(Fold(a, log[..n]), SentIn(log[..n]), log[n].msg, log[n].at); }
    }
  }

  /**
   Compression preserves the record: whatever the agent omits, only the last error and the order of
   the effective config's sections can come out different.
   */
  lemma {:induction false} CompressionPreservesRecord(a: Agent, log: seq<Entry>, omissions: seq<Omission>)
    requires Allowed(log, omissions)
    ensures SameButErrorAndOrder(Fold(a, log), Fold(a, Thinned(log, omissions)))
    ensures ShowsSent(Fold(a, log), Fold(a, Thinned(log, omissions)), SentIn(log))
  {
    if log != [] {
      var n := |log| - 1;
      var before := log[..n];
      AllowedPrefix(log, omissions, n);
      CompressionPreservesRecord(a, before, omissions[..n]);
      HistoryIsReflected(a, before);
      ThinnedFold(a, log, omissions);
      if log[n].Told? {
        OmissionChangesLittle(Fold(a, before), Fold(a, Thinned(before, omissions[..n])),
                              SentIn(before), log[n].msg, omissions[n], log[n].at);
      }
    }
  }

  // ---------------------------------------------------------------- the last error

  /** The report carries an error message of its own, outside the health block. */
  predicate ReportsFailure(m: AgentToServer) {
    && m.remoteConfigStatus.Some? && m.remoteConfigStatus.value.kind == FailedStatus
    && m.remoteConfigStatus.value.errorMessage != ""
  }

  /**
   Since the last health or failure block that was news, no repeated one carried another error than
   the record held at that point. The agent can tell from what it sent.
   */
  predicate ErrorSteady(a: Agent, log: seq<Entry>) {
    if log == [] then true
    else
      var before := log[..|log| - 1];
      match log[|log| - 1]
      case Pushed(_, _) => ErrorSteady(a, before)
      case Told(m, _) =>
        var s, held := SentIn(before), Fold(a, before).lastError;
        var failure := ReportsFailure(m);
        if failure && !RepeatsStatus(s, m) then true
        else if m.health.Some? && !RepeatsHealth(s, m) then
          failure ==> m.remoteConfigStatus.value.errorMessage == m.health.value.lastError
        else
          && ErrorSteady(a, before)
          && (m.health.Some? ==> m.health.value.lastError == held)
          && (failure ==> m.remoteConfigStatus.value.errorMessage == held)
  }

  lemma {:induction false} SteadyKeepsError(a: Agent, log: seq<Entry>, omissions: seq<Omission>)
    requires Allowed(log, omissions) && ErrorSteady(a, log)
    ensures Fold(a, Thinned(log, omissions)).lastError == Fold(a, log).lastError
  {
    if log != [] {
      var n := |log| - 1;
      AllowedPrefix(log, omissions, n);
      ThinnedFold(a, log, omissions);
      if ErrorSteady(a, log[..n]) { SteadyKeepsError(a, log[..n], omissions[..n]); }
    }
  }

  /** Otherwise some omissions lose an error. */
  lemma {:induction false} UnsteadyLosesError(a: Agent, log: seq<Entry>) returns (omissions: seq<Omission>)
    requires !ErrorSteady(a, log)
    ensures Allowed(log, omissions)
    ensures Fold(a, Thinned(log, omissions)).lastError != Fold(a, log).lastError
  {
    var n := |log| - 1;
    var before, e := log[..n], log[n];
    if e.Pushed? {
      omissions := UnsteadyLosesError(a, before);
      AllowedLonger(a, log, omissions, NOTHING);
      omissions := omissions + [NOTHING];
    } else {
      var s, held, m := SentIn(before), Fold(a, before).lastError, e.msg;
      var failure, known := ReportsFailure(m), RepeatsHealth(s, m);
      var o;
      if m.health.Some? && !known {
        omissions := OmitNothing(before);
        o := NOTHING.(status := true);
      } else if failure && m.remoteConfigStatus.value.errorMessage != held {
        omissions := OmitNothing(before);
        o := NOTHING.(status := true, health := known);
      } else if known && m.health.value.lastError != held {
        omissions := OmitNothing(before);
        o := if failure then NOTHING.(status := true) else NOTHING.(health := true);
      } else {
        omissions := UnsteadyLosesError(a, before);
        o := NOTHING.(status := failure, health := known);
      }
      AllowedLonger(a, log, omissions, o);
      omissions := omissions + [o];
    }
  }

  /** The last error survives every compression of a history exactly when the history is steady. */
  lemma LastErrorSurvivesIff(a: Agent, log: seq<Entry>)
    ensures ErrorSteady(a, log) <==>
            forall om :: Allowed(log, om) ==> Fold(a, Thinned(log, om)).lastError == Fold(a, log).lastError
  {
    if ErrorSteady(a, log) {
      forall om | Allowed(log, om) ensures Fold(a, Thinned(log, om)).lastError == Fold(a, log).lastError {
        SteadyKeepsError(a, log, om);
      }
    } else {
      var om := UnsteadyLosesError(a, log);
    }
  }

  // ---------------------------------------------------------------- the order of the sections

  /** Since the last effective config that was news, every repeated one read as the record did. */
  predicate ConfigSteady(a: Agent, log: seq<Entry>) {
    if log == [] then true
    else
      var before, e := log[..|log| - 1], log[|log| - 1];
      if e.Pushed? || e.msg.effectiveConfig.None? then ConfigSteady(a, before)
      else RepeatsConfig(SentIn(before), e.msg) ==>
             ConfigSteady(a, before) && Joined(e.msg.effectiveConfig.value) == Fold(a, before).effectiveConfigYaml
  }

  lemma {:induction false} SteadyKeepsConfig(a: Agent, log: seq<Entry>, omissions: seq<Omission>)
    requires Allowed(log, omissions) && ConfigSteady(a, log)
    ensures Fold(a, Thinned(log, omissions)).effectiveConfigYaml == Fold(a, log).effectiveConfigYaml
  {
    if log != [] {
      var n := |log| - 1;
      AllowedPrefix(log, omissions, n);
      ThinnedFold(a, log, omissions);
      if ConfigSteady(a, log[..n]) { SteadyKeepsConfig(a, log[..n], omissions[..n]); }
    }
  }

  lemma {:induction false} UnsteadyReordersConfig(a: Agent, log: seq<Entry>) returns (omissions: seq<Omission>)
    requires !ConfigSteady(a, log)
    ensures Allowed(log, omissions)
    ensures Fold(a, Thinned(log, omissions)).effectiveConfigYaml != Fold(a, log).effectiveConfigYaml
  {
    var n := |log| - 1;
    var before, e := log[..n], log[n];
    var told := e.Told? && e.msg.effectiveConfig.Some?;
    if told && Joined(e.msg.effectiveConfig.value) != Fold(a, before).effectiveConfigYaml {
      omissions := OmitNothing(before);
    } else {
      omissions := UnsteadyReordersConfig(a, before);
    }
    var o := NOTHING.(effectiveConfig := told);
    AllowedLonger(a, log, omissions, o);
    omissions := omissions + [o];
  }

  // ---------------------------------------------------------------- when compression is lossless

  /** Every compression of a history gives the same record exactly when error and config are steady. */
  lemma CompressionIsLosslessIff(a: Agent, log: seq<Entry>)
    ensures ErrorSteady(a, log) && ConfigSteady(a, log) <==>
            forall om :: Allowed(log, om) ==> Fold(a, Thinned(log, om)) == Fold(a, log)
  {
    if !ErrorSteady(a, log) {
      var om := UnsteadyLosesError(a, log);
    } else if !ConfigSteady(a, log) {
      var om := UnsteadyReordersConfig(a, log);
    } else {
      forall om | Allowed(log, om) ensures Fold(a, Thinned(log, om)) == Fold(a, log) {
        CompressionPreservesRecord(a, log, om);
        SteadyKeepsError(a, log, om);
        SteadyKeepsConfig(a, log, om);
      }
    }
  }

  /** No report carries an error message outside its health block. */
  ghost predicate NoFailureReported(log: seq<Entry>) {
    forall i :: 0 <= i < |log| && log[i].Told? ==> !ReportsFailure(log[i].msg)
  }

  /** No report carries an effective config of several files. */
  ghost predicate SingleFiles(log: seq<Entry>) {
    forall i :: 0 <= i < |log| && log[i].Told? && log[i].msg.effectiveConfig.Some? ==>
      |log[i].msg.effectiveConfig.value| <= 1
  }

  lemma FewFilesSameOrder(f: ConfigFiles, g: ConfigFiles)
    requires |f| <= 1 && SameFiles(f, g)
    ensures f == g
  {
    assert |multiset(f)| == |f| && |multiset(g)| == |g|;
    if |f| == 1 { assert g[0] in multiset(f); }
  }

  lemma {:induction false} NoFailureIsSteady(a: Agent, log: seq<Entry>)
    requires NoFailureReported(log)
    ensures ErrorSteady(a, log)
    ensures SentIn(log).health.Some? ==> Fold(a, log).lastError == SentIn(log).health.value.lastError
  {
    if log != [] { NoFailureIsSteady(a, log[..|log| - 1]); }
  }

  lemma {:induction false} SingleFilesAreSteady(a: Agent, log: seq<Entry>)
    requires SingleFiles(log)
    ensures ConfigSteady(a, log)
    ensures var f := SentIn(log).effectiveConfig;
            f.Some? ==> |f.value| <= 1 && Fold(a, log).effectiveConfigYaml == Joined(f.value)
  {
    if log != [] {
      var n := |log| - 1;
      SingleFilesAreSteady(a, log[..n]);
      if log[n].Told? && RepeatsConfig(SentIn(log[..n]), log[n].msg) {
        FewFilesSameOrder(log[n].msg.effectiveConfig.value, SentIn(log[..n]).effectiveConfig.value);
      }
    }
  }

  /** Without failure messages the last error is preserved; with single-file configs so is everything else. */
  lemma CompressionPreservesLastError(a: Agent, log: seq<Entry>, omissions: seq<Omission>)
    requires Allowed(log, omissions) && NoFailureReported(log)
    ensures Fold(a, log).lastError == Fold(a, Thinned(log, omissions)).lastError
    ensures SingleFiles(log) ==> Fold(a, log) == Fold(a, Thinned(log, omissions))
  {
    NoFailureIsSteady(a, log);
    SteadyKeepsError(a, log, omissions);
    if SingleFiles(log) {
      SingleFilesAreSteady(a, log);
      CompressionIsLosslessIff(a, log);
    }
  }

  /**
   With a failure message the last error can be lost: a health block repeated after a failure clears
   it, an omitted one does not.
   */
  lemma LastErrorCanDiffer() returns (log: seq<Entry>, omissions: seq<Omission>)
    ensures Allowed(log, omissions)
    ensures Fold(Newborn("u"), log).lastError != Fold(Newborn("u"), Thinned(log, omissions)).lastError
  {
    var bare := AgentToServer(Some("u"), 0, None, None, None, None);
    var m0 := bare.(health := Some(Health(true, "", 0)));
    var m1 := bare.(remoteConfigStatus := Some(RemoteConfigStatus(FailedStatus, [], "boom")));
    var first, before := [Told(m0, 1)], [Told(m0, 1), Told(m1, 2)];
    log := [Told(m0, 1), Told(m1, 2), Told(m0, 3)];
    assert log[..2] == before && before[..1] == first && first[..0] == [];
    assert SentIn(first).health == m0.health && SentIn(before).health == m0.health;
    assert Fold(Newborn("u"), before).lastError == "boom";
    assert !ErrorSteady(Newborn("u"), log);
    omissions := UnsteadyLosesError(Newborn("u"), log);
  }

  /** Two files can come out of the map in another order the second time; leaving them out keeps the first order. */
  lemma SectionOrderCanDiffer() returns (log: seq<Entry>, omissions: seq<Omission>)
    ensures Allowed(log, omissions)
    ensures Fold(Newborn("u"), log).effectiveConfigYaml !=
            Fold(Newborn("u"), Thinned(log, omissions)).effectiveConfigYaml
  {
    var f, g := [("a", ""), ("b", "")], [("b", ""), ("a", "")];
    var m0 := AgentToServer(Some("u"), 0, None, None, Some(f), None);
    var m1 := m0.(effectiveConfig := Some(g));
    log := [Told(m0, 1), Told(m1, 2)];
    assert log[..1] == [Told(m0, 1)] && [Told(m0, 1)][..0] == [];
    assert SameFiles(f, g);
    assert f[..1] == [("a", "")] && g[..1] == [("b", "")];
    assert Joined(f)[6] == 'a' && Joined(g)[6] == 'b';
    assert !ConfigSteady(Newborn("u"), log);
    omissions := UnsteadyReordersConfig(Newborn("u"), log);
  }
}
