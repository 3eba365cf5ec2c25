/**
 What a record says, in terms of the pairs and blocks that were reported: for every field which
 report it comes from, and which part of it.
 */
module RecordMeaning {
  import opened Common
  import opened Agents
  import Text

  // ---------------------------------------------------------------- attributes

  /** The description gives the attribute this value: the last identifying pair, else the first other one. */
  ghost predicate Says(d: Description, key: AttrKey, v: string) {
    var ids, rest := d.identifying, d.nonIdentifying;
    || (exists i :: 0 <= i < |ids| && ids[i] == (key, v) && forall j :: i < j < |ids| ==> ids[j].0 != key)
    || ((forall j :: 0 <= j < |ids| ==> ids[j].0 != key)
        && exists i :: 0 <= i < |rest| && rest[i] == (key, v) && forall j :: 0 <= j < i ==> rest[j].0 != key)
  }

  lemma {:induction false} LastValueIs(pairs: Attributes, key: AttrKey, v: string)
    ensures LastValue(pairs, key) == Some(v) <==>
            exists i :: 0 <= i < |pairs| && pairs[i] == (key, v) && forall j :: i < j < |pairs| ==> pairs[j].0 != key
  {
    if pairs != [] && pairs[|pairs| - 1].0 != key {
      var before := pairs[..|pairs| - 1];
      LastValueIs(before, key, v);
      assert forall j :: 0 <= j < |before| ==> before[j] == pairs[j];
    }
  }

  lemma {:induction false} FirstValueIs(pairs: Attributes, key: AttrKey, v: string)
    ensures FirstValue(pairs, key) == Some(v) <==>
            exists i :: 0 <= i < |pairs| && pairs[i] == (key, v) && forall j :: 0 <= j < i ==> pairs[j].0 != key
  {
    if pairs != [] && pairs[0].0 != key {
      var rest := pairs[1..];
      FirstValueIs(rest, key, v);
      assert forall j :: 0 <= j < |rest| ==> rest[j] == pairs[j + 1];
      if i :| 0 <= i < |pairs| && pairs[i] == (key, v) && forall j :: 0 <= j < i ==> pairs[j].0 != key {
        assert rest[i - 1] == (key, v);
      }
    }
  }

  /** The flattened attributes are what the description says, and nothing else. */
  lemma FlattenedSays(d: Description, key: AttrKey, v: string)
    ensures key in Flattened(d) && Flattened(d)[key] == v <==> Says(d, key, v)
  {
    LastValueExists(d.identifying, key);
    FirstValueExists(d.nonIdentifying, key);
    LastValueIs(d.identifying, key, v);
    FirstValueIs(d.nonIdentifying, key, v);
  }

  // ---------------------------------------------------------------- the effective config

  /** One file as the record shows it. */
  function Shown(file: (string, string)): string {
    "# --- " + file.0 + " ---" + "\n" + file.1
  }

  function ShownAll(files: ConfigFiles): seq<string> {
    seq(|files|, i requires 0 <= i < |files| => Shown(files[i]))
  }

  /** What the record shows for some files: a single unnamed body as it is, else every file under its name. */
  predicate ShownAs(files: ConfigFiles, v: string) {
    if |files| == 1 && files[0].0 == "" then v == files[0].1 else v == Text.Join(ShownAll(files), "\n")
  }

  lemma {:induction false} JoinAppends(parts: seq<string>, last: string, glue: string)
    requires parts != []
    ensures Text.Join(parts + [last], glue) == Text.Join(parts, glue) + glue + last
  {
    assert (parts + [last])[1..] == parts[1..] + [last];
    if |parts| > 1 {
      JoinAppends(parts[1..], last, glue);
      var rest := Text.Join(parts[1..], glue);
      assert parts[0] + glue + (rest + glue + last) == parts[0] + glue + rest + glue + last;
    }
  }

  lemma SectionIsShown(file: (string, string))
    ensures Section(file) == Shown(file)
  {
    assert "# --- " + file.0 + " ---\n" == "# --- " + file.0 + " ---" + "\n";
  }

  lemma {:induction false} SectionsAreJoined(files: ConfigFiles)
    ensures Sections(files) == Text.Join(ShownAll(files), "\n")
  {
    if files != [] {
      var n := |files| - 1;
      SectionIsShown(files[n]);
      if n > 0 {
        SectionsAreJoined(files[..n]);
        JoinAppends(ShownAll(files[..n]), Shown(files[n]), "\n");
        assert ShownAll(files) == ShownAll(files[..n]) + [Shown(files[n])];
      }
    }
  }

  lemma JoinedIsShown(files: ConfigFiles)
    ensures ShownAs(files, Joined(files))
  {
    SectionsAreJoined(files);
  }

  // ---------------------------------------------------------------- which report a field comes from

  // What an entry gives a field, if anything.

  /** The first of the keys that the description gives a non-empty value. */
  ghost predicate Names(e: Entry, keys: seq<AttrKey>, v: string) {
    && e.Told? && e.msg.description.Some? && v != ""
    && exists k :: 0 <= k < |keys| && Says(e.msg.description.value, keys[k], v) &&
         forall j, w :: 0 <= j < k && Says(e.msg.description.value, keys[j], w) ==> w == ""
  }

  ghost predicate Describes(e: Entry, attrs: map<AttrKey, string>) {
    && e.Told? && e.msg.description.Some?
    && forall key, v :: key in attrs && attrs[key] == v <==> Says(e.msg.description.value, key, v)
  }

  predicate TellsHealth(e: Entry, healthy: bool) {
    e.Told? && e.msg.health.Some? && e.msg.health.value.healthy == healthy
  }

  /** A start time of zero or beyond 63 bits is none. */
  predicate TellsStart(e: Entry, t: int) {
    e.Told? && e.msg.health.Some? && e.msg.health.value.startTimeUnixNano == t && 0 < t <= 9223372036854775807
  }

  /** A failure's message comes after the health block of the same report. */
  predicate TellsError(e: Entry, error: string) {
    && e.Told?
    && var status := e.msg.remoteConfigStatus;
       if status.Some? && status.value.kind == FailedStatus && status.value.errorMessage != ""
       then error == status.value.errorMessage
       else e.msg.health.Some? && error == e.msg.health.value.lastError
  }

  predicate TellsConfig(e: Entry, yaml: string) {
    e.Told? && e.msg.effectiveConfig.Some? && ShownAs(e.msg.effectiveConfig.value, yaml)
  }

  predicate TellsCapabilities(e: Entry, mask: nat) {
    e.Told? && mask == e.msg.capabilities
  }

  predicate TellsTime(e: Entry, t: int) {
    e.Told? && t == e.at
  }

  /** The value comes from the latest entry that gives one; without such an entry it is the one before. */
  ghost predicate Latest<V(!new)>(log: seq<Entry>, gives: (Entry, V) -> bool, v: V, before: V) {
    || (exists i :: 0 <= i < |log| && gives(log[i], v) && forall j, w :: i < j < |log| ==> !gives(log[j], w))
    || (v == before && forall j, w :: 0 <= j < |log| ==> !gives(log[j], w))
  }

  lemma LatestOfMore<V(!new)>(log: seq<Entry>, e: Entry, gives: (Entry, V) -> bool, v: V, v': V, before: V)
    requires Latest(log, gives, v, before)
    requires gives(e, v') || (v' == v && forall w :: !gives(e, w))
    ensures Latest(log + [e], gives, v', before)
  {
    var longer := log + [e];
    assert longer[|log|] == e;
    assert forall j :: 0 <= j < |log| ==> longer[j] == log[j];
    if !gives(e, v') {
      if i :| 0 <= i < |log| && gives(log[i], v) && forall j, w :: i < j < |log| ==> !gives(log[j], w) {
        assert gives(longer[i], v');
        assert forall j, w :: i < j < |longer| ==> !gives(longer[j], w);
      } else {
        assert forall j, w :: 0 <= j < |longer| ==> !gives(longer[j], w);
      }
    }
  }

  /** A field that each entry either gives or leaves alone. */
  ghost predicate Follows<V(!new)>(gives: (Entry, V) -> bool, get: Agent -> V) {
    forall a: Agent, e: Entry :: gives(e, get(WithEntry(a, e)))
                              || (get(WithEntry(a, e)) == get(a) && forall w :: !gives(e, w))
  }

  lemma {:induction false} LatestInFold<V(!new)>(a: Agent, log: seq<Entry>, gives: (Entry, V) -> bool, get: Agent -> V)
    requires Follows(gives, get)
    ensures Latest(log, gives, get(Fold(a, log)), get(a))
  {
    if log != [] {
      var before, e := log[..|log| - 1], log[|log| - 1];
      LatestInFold(a, before, gives, get);
      LatestOfMore(before, e, gives, get(Fold(a, before)), get(Fold(a, log)), get(a));
      FrontAndLast(log);
    }
  }

  // ---------------------------------------------------------------- the fields of a record

  ghost function Naming(keys: seq<AttrKey>): (Entry, string) -> bool {
    (e: Entry, v: string) => Names(e, keys, v)
  }

  lemma AtSays(d: Description, key: AttrKey, v: string)
    requires v != ""
    ensures At(Flattened(d), key) == v <==> Says(d, key, v)
  {
    FlattenedSays(d, key, v);
  }

  lemma NothingSaid(d: Description, key: AttrKey)
    ensures At(Flattened(d), key) == "" <==> forall w :: Says(d, key, w) ==> w == ""
  {
    forall w ensures Says(d, key, w) ==> w == At(Flattened(d), key) {
      FlattenedSays(d, key, w);
    }
    if At(Flattened(d), key) != "" { AtSays(d, key, At(Flattened(d), key)); }
  }

  lemma NamesOne(e: Entry, key: AttrKey, v: string)
    ensures Names(e, [key], v) <==>
            e.Told? && e.msg.description.Some? && v != "" && v == At(Flattened(e.msg.description.value), key)
  {
    if e.Told? && e.msg.description.Some? && v != "" {
      AtSays(e.msg.description.value, key, v);
      assert [key][0] == key;
    }
  }

  lemma NamesFirstOfTwo(e: Entry, first: AttrKey, second: AttrKey, v: string)
    ensures Names(e, [first, second], v) <==>
            && e.Told? && e.msg.description.Some? && v != ""
            && var attrs := Flattened(e.msg.description.value);
               v == FirstNonEmpty(At(attrs, first), At(attrs, second))
  {
    if e.Told? && e.msg.description.Some? && v != "" {
      var d := e.msg.description.value;
      AtSays(d, first, v);
      AtSays(d, second, v);
      NothingSaid(d, first);
      assert [first, second][0] == first && [first, second][1] == second;
    }
  }

  lemma IdentityFollows()
    ensures Follows(Naming([ServiceName]), (a: Agent) => a.identity.serviceName)
    ensures Follows(Naming([ServiceVersion]), (a: Agent) => a.identity.version)
    ensures Follows(Naming([K8sNodeName]), (a: Agent) => a.identity.nodeName)
    ensures Follows(Naming([K8sPodName]), (a: Agent) => a.identity.podName)
  {
    forall e: Entry, key, v
      ensures Names(e, [key], v) <==>
              e.Told? && e.msg.description.Some? && v != "" && v == At(Flattened(e.msg.description.value), key)
    {
      NamesOne(e, key, v);
    }
  }

  lemma NamespaceFollows()
    ensures Follows(Naming([K8sNamespace, ServiceNamespace]), (a: Agent) => a.identity.namespace)
  {
    forall e: Entry, v
      ensures Names(e, [K8sNamespace, ServiceNamespace], v) <==>
              && e.Told? && e.msg.description.Some? && v != ""
              && var attrs := Flattened(e.msg.description.value);
                 v == FirstNonEmpty(At(attrs, K8sNamespace), At(attrs, ServiceNamespace))
    {
      NamesFirstOfTwo(e, K8sNamespace, ServiceNamespace, v);
    }
  }

  /**
   Every identity field is the value that the latest description naming it gives its own key; a
   namespace prefers the Kubernetes one.
   */
  lemma IdentityIsReported(a: Agent, log: seq<Entry>)
    ensures var was, now := a.identity, Fold(a, log).identity;
            && Latest(log, Naming(["service.name"]), now.serviceName, was.serviceName)
            && Latest(log, Naming(["k8s.namespace.name", "service.namespace"]), now.namespace, was.namespace)
            && Latest(log, Naming(["service.version"]), now.version, was.version)
            && Latest(log, Naming(["k8s.node.name"]), now.nodeName, was.nodeName)
            && Latest(log, Naming(["k8s.pod.name"]), now.podName, was.podName)
  {
    IdentityFollows();
    NamespaceFollows();
    LatestInFold(a, log, Naming([ServiceName]), (a: Agent) => a.identity.serviceName);
    LatestInFold(a, log, Naming([K8sNamespace, ServiceNamespace]), (a: Agent) => a.identity.namespace);
    LatestInFold(a, log, Naming([ServiceVersion]), (a: Agent) => a.identity.version);
    LatestInFold(a, log, Naming([K8sNodeName]), (a: Agent) => a.identity.nodeName);
    LatestInFold(a, log, Naming([K8sPodName]), (a: Agent) => a.identity.podName);
  }

  ghost function Describing(): (Entry, map<AttrKey, string>) -> bool {
    (e: Entry, attrs: map<AttrKey, string>) => Describes(e, attrs)
  }

  lemma AttributesFollow()
    ensures Follows(Describing(), (a: Agent) => a.attributes)
  {
    forall e: Entry | e.Told? && e.msg.description.Some?
      ensures Describes(e, Flattened(e.msg.description.value))
    {
      forall key, v
        ensures var attrs := Flattened(e.msg.description.value);
                key in attrs && attrs[key] == v <==> Says(e.msg.description.value, key, v)
      {
        FlattenedSays(e.msg.description.value, key, v);
      }
    }
  }

  lemma BlocksFollow()
    ensures Follows(TellsHealth, (a: Agent) => a.healthy)
    ensures Follows(TellsStart, (a: Agent) => a.startTime)
    ensures Follows(TellsError, (a: Agent) => a.lastError)
    ensures Follows(TellsConfig, (a: Agent) => a.effectiveConfigYaml)
    ensures Follows(TellsCapabilities, (a: Agent) => a.capabilities)
    ensures Follows(TellsTime, (a: Agent) => a.lastSeen)
  {
    forall files ensures ShownAs(files, Joined(files)) { JoinedIsShown(files); }
  }

  /** Every other reported field, too, is what the latest report that carries it says. */
  lemma BlocksAreReported(a: Agent, log: seq<Entry>)
    ensures var r := Fold(a, log);
            && Latest(log, Describing(), r.attributes, a.attributes)
            && Latest(log, TellsHealth, r.healthy, a.healthy)
            && Latest(log, TellsStart, r.startTime, a.startTime)
            && Latest(log, TellsError, r.lastError, a.lastError)
            && Latest(log, TellsConfig, r.effectiveConfigYaml, a.effectiveConfigYaml)
            && Latest(log, TellsCapabilities, r.capabilities, a.capabilities)
            && Latest(log, TellsTime, r.lastSeen, a.lastSeen)
  {
    AttributesFollow();
    BlocksFollow();
    LatestInFold(a, log, Describing(), (a: Agent) => a.attributes);
    LatestInFold(a, log, TellsHealth, (a: Agent) => a.healthy);
    LatestInFold(a, log, TellsStart, (a: Agent) => a.startTime);
    LatestInFold(a, log, TellsError, (a: Agent) => a.lastError);
    LatestInFold(a, log, TellsConfig, (a: Agent) => a.effectiveConfigYaml);
    LatestInFold(a, log, TellsCapabilities, (a: Agent) => a.capabilities);
    LatestInFold(a, log, TellsTime, (a: Agent) => a.lastSeen);
  }
}
