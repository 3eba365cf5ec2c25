/**
 The SQLite store: tables whose rows keep times as whole Unix seconds, and its simulation of the
 in-memory store. Tables are maps from their primary keys.
 */
module Sqlite {
  import opened Common
  import opened Agents
  import opened Store
  import Handler

  const SECOND := 1_000_000_000

  /** The zero time is the start of year 1, so many days before 1970 in the Gregorian calendar. */
  lemma ZeroTimeIsYearOne()
    ensures ZERO_TIME == -(1969 * 365 + 1969 / 4 - 1969 / 100 + 1969 / 400) * 86400 * SECOND
  {
  }

  // ---------------------------------------------------------------- the time codec

  function UnixSeconds(t: int): int {
    if t == ZERO_TIME then 0 else t / SECOND
  }

  function UnixOrZero(sec: int): int {
    if sec == 0 then ZERO_TIME else sec * SECOND
  }

  /** What is left of a time after it went through a row. */
  function Floored(t: int): int { UnixOrZero(UnixSeconds(t)) }

  /** A stored time comes back as the start of its second, and the epoch's second as the zero time. */
  lemma FlooredIsStartOfSecond(t: int)
    ensures Floored(t) == ZERO_TIME <==> t == ZERO_TIME || 0 <= t < SECOND || ZERO_TIME <= t < ZERO_TIME + SECOND
    ensures Floored(t) != ZERO_TIME ==> Floored(t) % SECOND == 0 && Floored(t) <= t < Floored(t) + SECOND
    ensures Floored(Floored(t)) == Floored(t)
  {
  }

  function FlooredAgent(a: Agent): Agent {
    a.(lastSeen := Floored(a.lastSeen), startTime := Floored(a.startTime), lastPushedAt := Floored(a.lastPushedAt))
  }

  // ---------------------------------------------------------------- rows

  datatype Row = Row(
    instanceUid: Uid,
    identity: Identity,
    attributes: map<AttrKey, string>,
    capabilities: nat,
    connectionState: ConnectionState,
    lastSeenUnix: int,
    startTimeUnix: int,
    healthy: int,
    lastError: string,
    effectiveConfigYaml: string,
    configSync: ConfigSync,
    lastRemoteConfigHash: Digest,
    pushedBy: string,
    lastPushedAtUnix: int)

  /** Columns are signed 64-bit integers; the database driver refuses a wider capability mask. */
  predicate Storable(a: Agent) { a.capabilities <= MAX_INT64 }

  function BoolToInt(b: bool): int { if b then 1 else 0 }

  function Encoded(a: Agent): Row {
    Row(a.instanceUid, a.identity, a.attributes, a.capabilities, a.connectionState,
        UnixSeconds(a.lastSeen), UnixSeconds(a.startTime), BoolToInt(a.healthy), a.lastError, a.effectiveConfigYaml,
        a.configSync, a.lastRemoteConfigHash, a.pushedBy, UnixSeconds(a.lastPushedAt))
  }

  function Decoded(r: Row): Agent {
    Agent(r.instanceUid, r.identity, r.attributes, r.capabilities, r.connectionState,
          UnixOrZero(r.lastSeenUnix), UnixOrZero(r.startTimeUnix), r.healthy != 0, r.lastError, r.effectiveConfigYaml,
          r.configSync, r.lastRemoteConfigHash, r.pushedBy, UnixOrZero(r.lastPushedAtUnix))
  }

  lemma RowRoundTrip(a: Agent)
    ensures Decoded(Encoded(a)) == FlooredAgent(a)
  {
  }

  datatype PushRow = PushRow(
    id: string,
    agentUid: Uid,
    timestampUnix: int,
    configYaml: string,
    pushedBy: string,
    note: string,
    succeeded: int,
    errorMessage: string)

  function EncodedPush(p: ConfigPush): PushRow {
    PushRow(p.id, p.agentUid, UnixSeconds(p.timestamp), p.configYaml, p.pushedBy,
            p.note, BoolToInt(p.succeeded), p.errorMessage)
  }

  function DecodedPush(r: PushRow): ConfigPush {
    ConfigPush(r.id, r.agentUid, UnixOrZero(r.timestampUnix), r.configYaml, r.pushedBy,
               r.note, r.succeeded != 0, r.errorMessage)
  }

  lemma PushRoundTrip(p: ConfigPush)
    ensures DecodedPush(EncodedPush(p)) == p.(timestamp := Floored(p.timestamp))
  {
  }

  // ---------------------------------------------------------------- the store

  type Rows = map<Uid, Row>

  type PushTable = map<string, PushRow>

  /** The record a transaction reads: the decoded row, or a fresh record. */
  function Fetched(rows: Rows, uid: Uid): Agent {
    (if uid in rows then Decoded(rows[uid]) else FRESH).(instanceUid := uid)
  }

  function Updated(table: PushTable, uid: Uid, id: string, succeeded: bool, err: string): PushTable {
    map k | k in table ::
      if k == id && table[k].agentUid == uid then table[k].(succeeded := BoolToInt(succeeded), errorMessage := err)
      else table[k]
  }

  /** The agent's rows, each once. */
  ghost predicate RowsOnce(table: PushTable, uid: Uid, out: seq<PushRow>) {
    && (forall i :: 0 <= i < |out| ==> out[i].id in table && table[out[i].id] == out[i] && out[i].agentUid == uid)
    && (forall k :: k in table && table[k].agentUid == uid ==> table[k] in out)
    && (forall i, j :: 0 <= i < j < |out| ==> out[i].id != out[j].id)
  }

  ghost predicate BySecond(out: seq<PushRow>) {
    forall i, j :: 0 <= i < j < |out| ==> out[i].timestampUnix <= out[j].timestampUnix
  }

  /** `out` is a possible answer to the ordered listing: by ascending second, ties in any order. */
  ghost predicate Listing(table: PushTable, uid: Uid, out: seq<PushRow>) {
    RowsOnce(table, uid, out) && BySecond(out)
  }

  class SqliteStore {
    var agents: Rows
    var pushes: PushTable

    constructor ()
      ensures agents == map[] && pushes == map[]
    {
      agents, pushes := map[], map[];
    }

    /** One transaction; when it cannot be committed it is rolled back and the caller sees an error. */
    method UpsertAgent(uid: Uid, mutate: Agent -> Agent, commitOk: bool) returns (r: Option<Agent>)
      modifies this`agents
      ensures var a := mutate(Fetched(old(agents), uid));
              && r == (if commitOk && Storable(a) then Some(a) else None)
              && agents == if r.Some? then old(agents)[uid := Encoded(a)] else old(agents)
    {
      var a := if uid in agents then Decoded(agents[uid]) else FRESH;
      a := a.(instanceUid := uid);
      a := mutate(a);
      if !Storable(a) || !commitOk {
        return None;
      }
      agents := agents[uid := Encoded(a)];
      return Some(a);
    }

    method GetAgent(uid: Uid) returns (a: Option<Agent>)
      ensures a == if uid in agents then Some(Decoded(agents[uid])) else None
    {
      a := if uid in agents then Some(Decoded(agents[uid])) else None;
    }

    /** Both deletes in one transaction. */
    method DeleteAgent(uid: Uid, commitOk: bool) returns (ok: bool)
      modifies this
      ensures ok == commitOk
      ensures agents == if ok then old(agents) - {uid} else old(agents)
      ensures pushes == if ok then (map k | k in old(pushes) && old(pushes)[k].agentUid != uid :: old(pushes)[k])
                        else old(pushes)
    {
      if !commitOk {
        return false;
      }
      agents := agents - {uid};
      pushes := map k | k in pushes && pushes[k].agentUid != uid :: pushes[k];
      return true;
    }

    /** An insert; a push id that is already in the table violates the primary key. */
    method AppendConfigPush(push: ConfigPush, writeOk: bool) returns (ok: bool)
      modifies this`pushes
      ensures ok == (writeOk && push.id !in old(pushes))
      ensures pushes == if ok then old(pushes)[push.id := EncodedPush(push)] else old(pushes)
    {
      ok := writeOk && push.id !in pushes;
      if ok {
        pushes := pushes[push.id := EncodedPush(push)];
      }
    }

    method UpdateConfigPushResult(uid: Uid, id: string, succeeded: bool, err: string, writeOk: bool) returns (ok: bool)
      modifies this`pushes
      ensures ok == writeOk
      ensures pushes == if ok then Updated(old(pushes), uid, id, succeeded, err) else old(pushes)
    {
      if !writeOk {
        return false;
      }
      pushes := map k | k in pushes ::
        if k == id && pushes[k].agentUid == uid then pushes[k].(succeeded := BoolToInt(succeeded), errorMessage := err)
        else pushes[k];
      return true;
    }
  }

  // ---------------------------------------------------------------- mutators

  /** The mutator may write times but does not read them: it cannot tell a record from its stored form. */
  ghost predicate Blind(mutate: Agent -> Agent) {
    forall a, b :: FlooredAgent(a) == FlooredAgent(b) ==> FlooredAgent(mutate(a)) == FlooredAgent(mutate(b))
  }

  /** The three mutators of the server are of that kind. */
  lemma ServerMutatorsAreBlind(msg: AgentToServer, now: int, push: ConfigPush, digest: Digest, c: ConnectionState)
    ensures Blind(a => WithMessage(a, msg, now))
    ensures Blind(a => WithPush(a, push, digest))
    ensures Blind((a: Agent) => a.(connectionState := c))
  {
    forall a, b | FlooredAgent(a) == FlooredAgent(b)
      ensures FlooredAgent(WithMessage(a, msg, now)) == FlooredAgent(WithMessage(b, msg, now))
      ensures FlooredAgent(WithPush(a, push, digest)) == FlooredAgent(WithPush(b, push, digest))
      ensures FlooredAgent(a.(connectionState := c)) == FlooredAgent(b.(connectionState := c))
    {
    }
  }

  // ---------------------------------------------------------------- the two stores side by side

  datatype Call =
    | Upsert(uid: Uid, mutate: Agent -> Agent)
    | Delete(uid: Uid)
    | AppendPush(push: ConfigPush)
    | Resolve(uid: Uid, id: string, succeeded: bool, err: string)

  datatype Memory = Memory(agents: Records, pushes: Histories)

  datatype Tables = Tables(agents: Rows, pushes: PushTable)

  function InMemory(m: Memory, c: Call): Memory {
    match c
    case Upsert(uid, mutate) => m.(agents := m.agents[uid := mutate(Record(m.agents, uid))])
    case Delete(uid) => Memory(m.agents - {uid}, m.pushes - {uid})
    case AppendPush(push) => m.(pushes := Appended(m.pushes, push))
    case Resolve(uid, id, succeeded, err) =>
      if uid in m.pushes then m.(pushes := m.pushes[uid := Resolved(m.pushes[uid], id, succeeded, err)]) else m
  }

  function InTables(t: Tables, c: Call): Tables {
    match c
    case Upsert(uid, mutate) =>
      var a := mutate(Fetched(t.agents, uid));
      if Storable(a) then t.(agents := t.agents[uid := Encoded(a)]) else t
    case Delete(uid) => Tables(t.agents - {uid}, map k | k in t.pushes && t.pushes[k].agentUid != uid :: t.pushes[k])
    case AppendPush(push) => if push.id in t.pushes then t else t.(pushes := t.pushes[push.id := EncodedPush(push)])
    case Resolve(uid, id, succeeded, err) => t.(pushes := Updated(t.pushes, uid, id, succeeded, err))
  }

  /** The call as the server makes it: a blind mutator, a mask that fits a column, a push id never used before. */
  ghost predicate Proper(m: Memory, c: Call) {
    match c
    case Upsert(uid, mutate) => Blind(mutate) && Storable(mutate(Record(m.agents, uid)))
    case AppendPush(push) => forall uid, p :: p in History(m.pushes, uid) ==> p.id != push.id
    case _ => true
  }

  ghost predicate SameAgent(m: Memory, t: Tables, uid: Uid) {
    && (uid in m.agents <==> uid in t.agents)
    && (uid in m.agents ==> Decoded(t.agents[uid]) == FlooredAgent(m.agents[uid]))
  }

  /** The history's pushes are the table's rows of the agent. */
  ghost predicate SameRows(h: seq<ConfigPush>, table: PushTable, uid: Uid) {
    && (forall i :: 0 <= i < |h| ==> h[i].agentUid == uid && h[i].id in table && table[h[i].id] == EncodedPush(h[i]))
    && (forall i, j :: 0 <= i < j < |h| ==> h[i].id != h[j].id)
    && (forall k :: k in table && table[k].agentUid == uid ==> exists i :: 0 <= i < |h| && h[i].id == k)
  }

  ghost predicate SamePushes(m: Memory, t: Tables, uid: Uid) {
    SameRows(History(m.pushes, uid), t.pushes, uid)
  }

  /** The tables hold exactly the memory store's records and pushes, with times floored. */
  ghost predicate Simulates(m: Memory, t: Tables) {
    (forall uid :: SameAgent(m, t, uid)) && (forall uid :: SamePushes(m, t, uid))
  }

  lemma SameAgentStep(m: Memory, t: Tables, c: Call, uid: Uid)
    requires Simulates(m, t) && Proper(m, c)
    ensures SameAgent(InMemory(m, c), InTables(t, c), uid)
  {
    assert SameAgent(m, t, uid);
    if c.Upsert? && c.uid == uid {
      var a, b := Record(m.agents, uid), Fetched(t.agents, uid);
      if uid in m.agents {
        FlooredIsStartOfSecond(m.agents[uid].lastSeen);
        FlooredIsStartOfSecond(m.agents[uid].startTime);
        FlooredIsStartOfSecond(m.agents[uid].lastPushedAt);
      }
      assert FlooredAgent(a) == FlooredAgent(b);
      RowRoundTrip(c.mutate(b));
    }
  }

  lemma {:induction false} ResolvedMeaning(list: seq<ConfigPush>, id: string, succeeded: bool, err: string)
    requires forall i, j :: 0 <= i < j < |list| ==> list[i].id != list[j].id
    ensures var r := Resolved(list, id, succeeded, err);
            |r| == |list| && forall i :: 0 <= i < |list| ==>
              r[i] == if list[i].id == id then list[i].(succeeded := succeeded, errorMessage := err) else list[i]
  {
    if list != [] { ResolvedMeaning(list[1..], id, succeeded, err); }
  }

  lemma RowHasPush(m: Memory, t: Tables, id: string) returns (p: ConfigPush)
    requires Simulates(m, t) && id in t.pushes
    ensures p in History(m.pushes, t.pushes[id].agentUid) && p.id == id
  {
    var uid := t.pushes[id].agentUid;
    assert SamePushes(m, t, uid);
    var i :| 0 <= i < |History(m.pushes, uid)| && History(m.pushes, uid)[i].id == id;
    p := History(m.pushes, uid)[i];
  }

  lemma NewIdIsFree(m: Memory, t: Tables, push: ConfigPush)
    requires Simulates(m, t) && Proper(m, AppendPush(push))
    ensures push.id !in t.pushes
  {
    if push.id in t.pushes {
      var p := RowHasPush(m, t, push.id);
      assert false;
    }
  }

  /** The rows of the pushed agent gain the new row at the end. */
  lemma AppendKeepsRows(h: seq<ConfigPush>, table: PushTable, push: ConfigPush)
    requires SameRows(h, table, push.agentUid) && push.id !in table
    ensures SameRows(h + [push], table[push.id := EncodedPush(push)], push.agentUid)
  {
    var uid, h', table' := push.agentUid, h + [push], table[push.id := EncodedPush(push)];
    forall k | k in table' && table'[k].agentUid == uid
      ensures exists i :: 0 <= i < |h'| && h'[i].id == k
    {
      if k == push.id {
        assert h'[|h|].id == k;
      } else {
        var i :| 0 <= i < |h| && h[i].id == k;
        assert h'[i].id == k;
      }
    }
  }

  lemma AppendKeepsOtherRows(h: seq<ConfigPush>, table: PushTable, push: ConfigPush, uid: Uid)
    requires SameRows(h, table, uid) && push.id !in table && push.agentUid != uid
    ensures SameRows(h, table[push.id := EncodedPush(push)], uid)
  {
  }

  lemma AppendKeepsPushes(m: Memory, t: Tables, push: ConfigPush, uid: Uid)
    requires Simulates(m, t) && Proper(m, AppendPush(push))
    ensures SamePushes(InMemory(m, AppendPush(push)), InTables(t, AppendPush(push)), uid)
  {
    NewIdIsFree(m, t, push);
    assert SamePushes(m, t, uid);
    if uid == push.agentUid {
      AppendKeepsRows(History(m.pushes, uid), t.pushes, push);
    } else {
      AppendKeepsOtherRows(History(m.pushes, uid), t.pushes, push, uid);
    }
  }

  /** Setting an outcome changes one push and, under the same key, one row. */
  lemma ResolveKeepsRow(h: seq<ConfigPush>, table: PushTable,
                        uid: Uid, id: string, succeeded: bool, err: string, i: nat)
    requires SameRows(h, table, uid) && i < |h|
    ensures var p := if h[i].id == id then h[i].(succeeded := succeeded, errorMessage := err) else h[i];
            var table' := Updated(table, uid, id, succeeded, err);
            p.id in table' && table'[p.id] == EncodedPush(p)
  {
  }

  lemma UpdatedKeys(h: seq<ConfigPush>, h': seq<ConfigPush>, table: PushTable,
                    uid: Uid, id: string, succeeded: bool, err: string)
    requires SameRows(h, table, uid) && |h'| == |h| && forall i :: 0 <= i < |h| ==> h'[i].id == h[i].id
    ensures var table' := Updated(table, uid, id, succeeded, err);
            forall k :: k in table' && table'[k].agentUid == uid ==> exists i :: 0 <= i < |h'| && h'[i].id == k
  {
    var table' := Updated(table, uid, id, succeeded, err);
    forall k | k in table' && table'[k].agentUid == uid
      ensures exists i :: 0 <= i < |h'| && h'[i].id == k
    {
      var i :| 0 <= i < |h| && h[i].id == k;
      assert h'[i].id == k;
    }
  }

  lemma ResolveKeepsRows(h: seq<ConfigPush>, table: PushTable, uid: Uid, id: string, succeeded: bool, err: string)
    requires SameRows(h, table, uid)
    ensures SameRows(Resolved(h, id, succeeded, err), Updated(table, uid, id, succeeded, err), uid)
  {
    var h', table' := Resolved(h, id, succeeded, err), Updated(table, uid, id, succeeded, err);
    ResolvedMeaning(h, id, succeeded, err);
    forall i | 0 <= i < |h'|
      ensures h'[i].agentUid == uid && h'[i].id == h[i].id
      ensures h'[i].id in table' && table'[h'[i].id] == EncodedPush(h'[i])
    {
      ResolveKeepsRow(h, table, uid, id, succeeded, err, i);
    }
    UpdatedKeys(h, h', table, uid, id, succeeded, err);
  }

  lemma ResolveKeepsOtherRows(h: seq<ConfigPush>, table: PushTable, uid: Uid, other: Uid,
                             id: string, succeeded: bool, err: string)
    requires SameRows(h, table, uid) && (uid != other || h == [])
    ensures SameRows(h, Updated(table, other, id, succeeded, err), uid)
  {
  }

  lemma ResolveKeepsPushes(m: Memory, t: Tables, c: Call, uid: Uid)
    requires Simulates(m, t) && c.Resolve?
    ensures SamePushes(InMemory(m, c), InTables(t, c), uid)
  {
    assert SamePushes(m, t, uid);
    if uid == c.uid && uid in m.pushes {
      ResolveKeepsRows(m.pushes[uid], t.pushes, uid, c.id, c.succeeded, c.err);
    } else {
      ResolveKeepsOtherRows(History(m.pushes, uid), t.pushes, uid, c.uid, c.id, c.succeeded, c.err);
    }
  }

  lemma DeleteKeepsPushes(m: Memory, t: Tables, u: Uid, uid: Uid)
    requires Simulates(m, t)
    ensures SamePushes(InMemory(m, Delete(u)), InTables(t, Delete(u)), uid)
  {
    assert SamePushes(m, t, uid);
  }

  lemma SamePushesStep(m: Memory, t: Tables, c: Call, uid: Uid)
    requires Simulates(m, t) && Proper(m, c)
    ensures SamePushes(InMemory(m, c), InTables(t, c), uid)
  {
    if c.AppendPush? {
      AppendKeepsPushes(m, t, c.push, uid);
    } else if c.Resolve? {
      ResolveKeepsPushes(m, t, c, uid);
    } else if c.Delete? {
      DeleteKeepsPushes(m, t, c.uid, uid);
    } else {
      assert SamePushes(m, t, uid);
    }
  }

  // ---------------------------------------------------------------- runs

  function MemoryAfter(calls: seq<Call>, n: nat): Memory
    requires n <= |calls|
  {
    if n == 0 then Memory(map[], map[]) else InMemory(MemoryAfter(calls, n - 1), calls[n - 1])
  }

  function TablesAfter(calls: seq<Call>, n: nat): Tables
    requires n <= |calls|
  {
    if n == 0 then Tables(map[], map[]) else InTables(TablesAfter(calls, n - 1), calls[n - 1])
  }

  ghost predicate ProperRun(calls: seq<Call>, n: nat)
    requires n <= |calls|
  {
    n > 0 ==> ProperRun(calls, n - 1) && Proper(MemoryAfter(calls, n - 1), calls[n - 1])
  }

  /** After any sequence of proper calls the two stores agree, every time floored to its second. */
  lemma {:induction false} StoresSimulate(calls: seq<Call>, n: nat)
    requires n <= |calls| && ProperRun(calls, n)
    ensures Simulates(MemoryAfter(calls, n), TablesAfter(calls, n))
  {
    if n > 0 {
      StoresSimulate(calls, n - 1);
      var m, t, c := MemoryAfter(calls, n - 1), TablesAfter(calls, n - 1), calls[n - 1];
      forall uid ensures SameAgent(InMemory(m, c), InTables(t, c), uid) { SameAgentStep(m, t, c, uid); }
      forall uid ensures SamePushes(InMemory(m, c), InTables(t, c), uid) { SamePushesStep(m, t, c, uid); }
    }
  }

  // ---------------------------------------------------------------- listings

  function EncodedAll(h: seq<ConfigPush>): seq<PushRow> {
    seq(|h|, i requires 0 <= i < |h| => EncodedPush(h[i]))
  }

  /** Every push falls into a later second than the one before. */
  ghost predicate Ascending(h: seq<ConfigPush>) {
    forall i, j :: 0 <= i < j < |h| ==> UnixSeconds(h[i].timestamp) < UnixSeconds(h[j].timestamp)
  }

  ghost predicate StrictlySorted(s: seq<PushRow>) {
    forall i, j :: 0 <= i < j < |s| ==> s[i].timestampUnix < s[j].timestampUnix
  }

  ghost predicate SameElements(s: seq<PushRow>, t: seq<PushRow>) {
    forall r :: r in s <==> r in t
  }

  lemma EmptyTogether(s: seq<PushRow>, t: seq<PushRow>)
    requires SameElements(s, t)
    ensures s == [] <==> t == []
  {
    if s != [] { assert s[0] in s; }
    if t != [] { assert t[0] in t; }
  }

  lemma SameLast(s: seq<PushRow>, t: seq<PushRow>)
    requires StrictlySorted(s) && StrictlySorted(t) && s != [] && t != [] && SameElements(s, t)
    ensures s[|s| - 1] == t[|t| - 1] && SameElements(s[..|s| - 1], t[..|t| - 1])
  {
    var m, n := |s| - 1, |t| - 1;
    assert s[m] in t && t[n] in s;
    var i :| 0 <= i <= n && t[i] == s[m];
    var j :| 0 <= j <= m && s[j] == t[n];
    assert s[m] == t[n];
    forall r ensures r in s[..m] <==> r in t[..n] {
      assert r in s[..m] <==> r in s && r != s[m];
      assert r in t[..n] <==> r in t && r != t[n];
    }
  }

  /** Two strictly sorted lists with the same elements are the same list. */
  lemma {:induction false} SortedListsAgree(s: seq<PushRow>, t: seq<PushRow>)
    requires StrictlySorted(s) && StrictlySorted(t) && SameElements(s, t)
    ensures s == t
  {
    EmptyTogether(s, t);
    if s != [] {
      SameLast(s, t);
      SortedListsAgree(s[..|s| - 1], t[..|t| - 1]);
      assert s == s[..|s| - 1] + [s[|s| - 1]] && t == t[..|t| - 1] + [t[|t| - 1]];
    }
  }

  lemma HistoryRowsOnce(m: Memory, t: Tables, uid: Uid)
    requires SamePushes(m, t, uid)
    ensures RowsOnce(t.pushes, uid, EncodedAll(History(m.pushes, uid)))
  {
    var list := History(m.pushes, uid);
    var h := EncodedAll(list);
    forall k | k in t.pushes && t.pushes[k].agentUid == uid ensures t.pushes[k] in h {
      var i :| 0 <= i < |list| && list[i].id == k;
      assert h[i] == t.pushes[k];
    }
  }

  lemma RowsOnceAgree(table: PushTable, uid: Uid, out: seq<PushRow>, h: seq<PushRow>)
    requires RowsOnce(table, uid, out) && RowsOnce(table, uid, h)
    ensures SameElements(out, h)
  {
  }

  lemma HistoryIsListing(m: Memory, t: Tables, uid: Uid)
    requires SamePushes(m, t, uid)
    ensures var h := EncodedAll(History(m.pushes, uid));
            && (Listing(t.pushes, uid, h) <==> BySecond(h))
            && forall out :: Listing(t.pushes, uid, out) ==> SameElements(out, h)
  {
    var h := EncodedAll(History(m.pushes, uid));
    HistoryRowsOnce(m, t, uid);
    forall out | Listing(t.pushes, uid, out) ensures SameElements(out, h) {
      RowsOnceAgree(t.pushes, uid, out, h);
    }
  }

  /** Where the `n`-th row stood before the rows `i` and `i + 1` changed places. */
  function Swapped(i: nat, n: nat): nat { if n == i then i + 1 else if n == i + 1 then i else n }

  ghost predicate SwappedAt(out: seq<PushRow>, other: seq<PushRow>, i: nat) {
    i + 1 < |out| == |other| && forall n :: 0 <= n < |out| ==> other[n] == out[Swapped(i, n)]
  }

  lemma SwapKeepsRows(table: PushTable, uid: Uid, out: seq<PushRow>, other: seq<PushRow>, i: nat)
    requires RowsOnce(table, uid, out) && SwappedAt(out, other, i)
    ensures RowsOnce(table, uid, other)
  {
    forall k | k in table && table[k].agentUid == uid ensures table[k] in other {
      var n :| 0 <= n < |out| && out[n] == table[k];
      assert other[Swapped(i, n)] == out[n];
    }
  }

  lemma SwapKeepsOrder(out: seq<PushRow>, other: seq<PushRow>, i: nat)
    requires BySecond(out) && SwappedAt(out, other, i) && out[i].timestampUnix == out[i + 1].timestampUnix
    ensures BySecond(other)
  {
    forall m, n | 0 <= m < n < |other| ensures other[m].timestampUnix <= other[n].timestampUnix {
      var p, q := Swapped(i, m), Swapped(i, n);
      assert other[m] == out[p] && other[n] == out[q];
    }
  }

  /** Swapping two neighbours of the same second gives another possible answer. */
  lemma TiesCanSwap(table: PushTable, uid: Uid, out: seq<PushRow>, other: seq<PushRow>, i: nat)
    requires Listing(table, uid, out) && SwappedAt(out, other, i) && out[i].timestampUnix == out[i + 1].timestampUnix
    ensures Listing(table, uid, other) && other != out
  {
    SwapKeepsRows(table, uid, out, other, i);
    SwapKeepsOrder(out, other, i);
    assert other[i] == out[i + 1] && out[i + 1].id != out[i].id;
  }

  /** A listing of rows whose seconds all differ is strictly sorted. */
  lemma ListingIsStrict(table: PushTable, uid: Uid, out: seq<PushRow>, rows: seq<PushRow>)
    requires Listing(table, uid, out) && StrictlySorted(rows) && SameElements(out, rows)
    ensures StrictlySorted(out)
  {
    forall i, j | 0 <= i < j < |out| ensures out[i].timestampUnix < out[j].timestampUnix {
      assert out[i] in rows && out[j] in rows;
      var k :| 0 <= k < |rows| && rows[k] == out[i];
      var l :| 0 <= l < |rows| && rows[l] == out[j];
      assert k != l;
    }
  }

  lemma AscendingListsOnce(m: Memory, t: Tables, uid: Uid, out: seq<PushRow>)
    requires SamePushes(m, t, uid) && Ascending(History(m.pushes, uid)) && Listing(t.pushes, uid, out)
    ensures out == EncodedAll(History(m.pushes, uid))
  {
    var rows := EncodedAll(History(m.pushes, uid));
    HistoryIsListing(m, t, uid);
    assert StrictlySorted(rows);
    ListingIsStrict(t.pushes, uid, out, rows);
    SortedListsAgree(out, rows);
  }

  /** The list with rows `i` and `i + 1` exchanged. */
  lemma Neighbours(out: seq<PushRow>, i: nat) returns (other: seq<PushRow>)
    requires i + 1 < |out|
    ensures SwappedAt(out, other, i)
  {
    other := out[i := out[i + 1]][i + 1 := out[i]];
  }

  /** In a sorted listing a push no later than an earlier one ties with that one's successor. */
  lemma TieExists(rows: seq<PushRow>, i: nat, j: nat)
    requires i < j < |rows| && rows[i].timestampUnix >= rows[j].timestampUnix
    requires forall m, n :: 0 <= m < n < |rows| ==> rows[m].timestampUnix <= rows[n].timestampUnix
    ensures rows[i].timestampUnix == rows[i + 1].timestampUnix
  {
    assert i + 1 < j ==> rows[i + 1].timestampUnix <= rows[j].timestampUnix;
  }

  lemma TiesListTwice(m: Memory, t: Tables, uid: Uid) returns (out: seq<PushRow>)
    requires SamePushes(m, t, uid) && !Ascending(History(m.pushes, uid))
    requires Listing(t.pushes, uid, EncodedAll(History(m.pushes, uid)))
    ensures Listing(t.pushes, uid, out) && out != EncodedAll(History(m.pushes, uid))
  {
    var h := History(m.pushes, uid);
    var rows := EncodedAll(h);
    var i, j :| 0 <= i < j < |h| && UnixSeconds(h[i].timestamp) >= UnixSeconds(h[j].timestamp);
    TieExists(rows, i, j);
    out := Neighbours(rows, i);
    TiesCanSwap(t.pushes, uid, rows, out, i);
  }

  /**
   The ordered listing is bound to agree with the memory store's history exactly when each push
   of the agent falls into a later second than the one before.
   */
  lemma ListingsAgreeIff(calls: seq<Call>, n: nat, uid: Uid)
    requires n <= |calls| && ProperRun(calls, n)
    ensures var t, h := TablesAfter(calls, n).pushes, History(MemoryAfter(calls, n).pushes, uid);
            (Listing(t, uid, EncodedAll(h))
             && forall out :: Listing(t, uid, out) ==> out == EncodedAll(h))
            <==> Ascending(h)
  {
    StoresSimulate(calls, n);
    var m, t := MemoryAfter(calls, n), TablesAfter(calls, n);
    assert SamePushes(m, t, uid);
    var h := History(m.pushes, uid);
    if Ascending(h) {
      HistoryIsListing(m, t, uid);
      forall out | Listing(t.pushes, uid, out) ensures out == EncodedAll(h) {
        AscendingListsOnce(m, t, uid, out);
      }
    } else if Listing(t.pushes, uid, EncodedAll(h)) {
      var out := TiesListTwice(m, t, uid);
    }
  }

  // ---------------------------------------------------------------- the sweeper over rows

  /**
   Over rows the sweeper sees an age that is never too small, and too large by less than a second
   exactly outside the epoch's second.
   */
  lemma SweepOverRows(lastSeen: int, now: int)
    ensures now - Floored(lastSeen) >= now - lastSeen
    ensures now - Floored(lastSeen) < now - lastSeen + SECOND <==> !(0 <= lastSeen < SECOND)
  {
    FlooredIsStartOfSecond(lastSeen);
  }

  /** So a sweep over SQLite never lags behind one over memory, and runs ahead of it by less than a second. */
  lemma SqliteSweepIsTimely(lastSeen: int, now: int, staleAfter: int, disconnectedAfter: int)
    requires staleAfter <= disconnectedAfter
    ensures Handler.RankOf(Handler.ClassOf(now - lastSeen, staleAfter, disconnectedAfter))
         <= Handler.RankOf(Handler.ClassOf(now - Floored(lastSeen), staleAfter, disconnectedAfter))
    ensures 0 <= lastSeen < SECOND
         || Handler.RankOf(Handler.ClassOf(now - Floored(lastSeen), staleAfter, disconnectedAfter))
         <= Handler.RankOf(Handler.ClassOf(now + SECOND - 1 - lastSeen, staleAfter, disconnectedAfter))
  {
    SweepOverRows(lastSeen, now);
  }
}
