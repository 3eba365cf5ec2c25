/**
 Two servers with the same traffic, one over the in-memory store and one over SQLite. Their sweepers
 decide from their own listings, so the two may write different states.
 */
module SqliteServer {
  import opened Agents
  import opened Store
  import opened Handler
  import opened Sqlite

  /** How long an agent may be silent. */
  datatype Limits = Limits(staleAfter: int, disconnectedAfter: int)

  /** What both servers do. A sweep lists the agents and then visits them, and anything may come between. */
  datatype Event =
    | Report(uid: Uid, msg: AgentToServer, at: int)
    | Push(push: ConfigPush, digest: Digest)
    | List
    | Visit(uid: Uid, now: int, ok: bool)

  function ClassAt(l: Limits, lastSeen: int, now: int): ConnectionState {
    ClassOf(now - lastSeen, l.staleAfter, l.disconnectedAfter)
  }

  // ---------------------------------------------------------------- the two servers

  /** The records, and those of the running sweep's listing that are still to be visited. */
  datatype InMemoryServer = InMemoryServer(agents: Records, listed: Records)

  datatype TableServer = TableServer(rows: Rows, listed: Rows)

  function MemoryStep(l: Limits, m: InMemoryServer, e: Event): InMemoryServer {
    match e
    case Report(uid, msg, at) => m.(agents := m.agents[uid := WithMessage(Record(m.agents, uid), msg, at)])
    case Push(push, digest) =>
      m.(agents := m.agents[push.agentUid := WithPush(Record(m.agents, push.agentUid), push, digest)])
    case List => m.(listed := m.agents)
    case Visit(uid, now, ok) =>
      if uid !in m.listed then m
      else
        var want := ClassAt(l, m.listed[uid].lastSeen, now);
        InMemoryServer(
          if want != m.listed[uid].connectionState && ok
          then m.agents[uid := Record(m.agents, uid).(connectionState := want)] else m.agents,
          m.listed - {uid})
  }

  /** An upsert; a record the columns cannot hold is not written. */
  function Written(rows: Rows, uid: Uid, a: Agent): Rows {
    if Storable(a) then rows[uid := Encoded(a)] else rows
  }

  function TableStep(l: Limits, t: TableServer, e: Event): TableServer {
    match e
    case Report(uid, msg, at) => t.(rows := Written(t.rows, uid, WithMessage(Fetched(t.rows, uid), msg, at)))
    case Push(push, digest) =>
      t.(rows := Written(t.rows, push.agentUid, WithPush(Fetched(t.rows, push.agentUid), push, digest)))
    case List => t.(listed := t.rows)
    case Visit(uid, now, ok) =>
      if uid !in t.listed then t
      else
        var a := Decoded(t.listed[uid]);
        var want := ClassAt(l, a.lastSeen, now);
        TableServer(
          if want != a.connectionState && ok
          then Written(t.rows, uid, Fetched(t.rows, uid).(connectionState := want)) else t.rows,
          t.listed - {uid})
  }

  function MemoryAfter(l: Limits, events: seq<Event>): InMemoryServer {
    if events == [] then InMemoryServer(map[], map[])
    else MemoryStep(l, MemoryAfter(l, events[..|events| - 1]), events[|events| - 1])
  }

  function TablesAfter(l: Limits, events: seq<Event>): TableServer {
    if events == [] then TableServer(map[], map[])
    else TableStep(l, TablesAfter(l, events[..|events| - 1]), events[|events| - 1])
  }

  // ---------------------------------------------------------------- what the run did to an agent

  ghost predicate VisitedAt(events: seq<Event>, uid: Uid, t: int) {
    exists i :: 0 <= i < |events| && events[i].Visit? && events[i].uid == uid && events[i].now == t
  }

  /** The agent reported since the latest listing. */
  predicate Touched(events: seq<Event>, uid: Uid) {
    if events == [] then true
    else
      var e := events[|events| - 1];
      !e.List? && ((e.Report? && e.uid == uid) || Touched(events[..|events| - 1], uid))
  }

  predicate Overtaken(l: Limits, events: seq<Event>, uid: Uid) {
    Touched(events, uid) && uid in MemoryAfter(l, events).listed
  }

  /** Since its latest report the agent was visited on the strength of a listing from before that report. */
  predicate Raced(l: Limits, events: seq<Event>, uid: Uid) {
    if events == [] then false
    else
      var before, e := events[..|events| - 1], events[|events| - 1];
      if e.Report? && e.uid == uid then false
      else Raced(l, before, uid) || (e.Visit? && e.uid == uid && Overtaken(l, before, uid))
  }

  /** No report's mask is too wide for a column. */
  ghost predicate Narrow(events: seq<Event>) {
    forall i :: 0 <= i < |events| && events[i].Report? ==> events[i].msg.capabilities <= MAX_INT64
  }

  // ---------------------------------------------------------------- side by side

  /** Equal but for the times below a second and the connection state. */
  predicate SameContent(a: Agent, b: Agent) {
    b == FlooredAgent(a).(connectionState := b.connectionState)
  }

  /** Both states come from one visit, each from the time its store keeps. */
  ghost predicate BothClassified(l: Limits, events: seq<Event>, a: Agent, b: Agent, t: int) {
    && VisitedAt(events, a.instanceUid, t)
    && a.connectionState == ClassAt(l, a.lastSeen, t)
    && b.connectionState == ClassAt(l, Floored(a.lastSeen), t)
  }

  /** `a` is what memory holds of an agent and `b` what SQLite gives back. */
  ghost predicate StatesFit(l: Limits, events: seq<Event>, a: Agent, b: Agent) {
    a.connectionState == b.connectionState || exists t :: BothClassified(l, events, a, b, t)
  }

  /** Nothing has changed that the sweeper decides by. */
  predicate SameContact(a: Agent, listed: Agent) {
    a.lastSeen == listed.lastSeen && a.connectionState == listed.connectionState
  }

  ghost predicate Aligned(m: InMemoryServer, t: TableServer, uid: Uid) {
    && (uid in m.agents <==> uid in t.rows)
    && (uid in m.agents ==> m.agents[uid].instanceUid == t.rows[uid].instanceUid == uid)
    && (uid in m.listed <==> uid in t.listed)
    && (uid in m.listed ==> uid in m.agents)
    && SameContent(Record(m.agents, uid), Fetched(t.rows, uid)) && Storable(Record(m.agents, uid))
  }

  /** What is listed still holds. */
  ghost predicate Recent(m: InMemoryServer, t: TableServer, uid: Uid) {
    uid in m.listed && uid in t.listed ==>
      && SameContact(Record(m.agents, uid), m.listed[uid])
      && SameContact(Fetched(t.rows, uid), Decoded(t.listed[uid]))
  }

  ghost predicate SideBySide(l: Limits, events: seq<Event>, uid: Uid) {
    var m, t := MemoryAfter(l, events), TablesAfter(l, events);
    && Aligned(m, t, uid)
    && (Touched(events, uid) || Recent(m, t, uid))
    && (Raced(l, events, uid) || StatesFit(l, events, Record(m.agents, uid), Fetched(t.rows, uid)))
  }

  lemma FlooredTwice(a: Agent)
    ensures FlooredAgent(FlooredAgent(a)) == FlooredAgent(a)
  {
    FlooredIsStartOfSecond(a.lastSeen);
    FlooredIsStartOfSecond(a.startTime);
    FlooredIsStartOfSecond(a.lastPushedAt);
  }

  lemma VisitedLonger(events: seq<Event>, uid: Uid, t: int)
    requires events != [] && VisitedAt(events[..|events| - 1], uid, t)
    ensures VisitedAt(events, uid, t)
  {
    var before := events[..|events| - 1];
    var i :| 0 <= i < |before| && before[i].Visit? && before[i].uid == uid && before[i].now == t;
    assert events[i] == before[i];
  }

  /** What an event leaves alone still fits. */
  lemma KeptFits(l: Limits, events: seq<Event>, a: Agent, b: Agent)
    requires events != [] && StatesFit(l, events[..|events| - 1], a, b)
    ensures StatesFit(l, events, a, b)
  {
    if a.connectionState != b.connectionState {
      var t :| BothClassified(l, events[..|events| - 1], a, b, t);
      VisitedLonger(events, a.instanceUid, t);
      assert BothClassified(l, events, a, b, t);
    }
  }

  lemma ReportKeepsContent(a: Agent, b: Agent, msg: AgentToServer, at: int)
    requires SameContent(a, b)
    ensures SameContent(WithMessage(a, msg, at), Decoded(Encoded(WithMessage(b, msg, at))))
    ensures Decoded(Encoded(WithMessage(b, msg, at))).connectionState == Connected
  {
    FlooredTwice(a);
    RowRoundTrip(WithMessage(b, msg, at));
  }

  lemma PushKeepsContent(a: Agent, b: Agent, push: ConfigPush, digest: Digest)
    requires SameContent(a, b)
    ensures var a', b' := WithPush(a, push, digest), Decoded(Encoded(WithPush(b, push, digest)));
            SameContent(a', b') && SameContact(a', a) && SameContact(b', b)
  {
    FlooredTwice(a);
    RowRoundTrip(WithPush(b, push, digest));
  }

  /** What a visit leaves of a record. */
  function Visited(l: Limits, a: Agent, listed: Agent, now: int, ok: bool): Agent {
    var want := ClassAt(l, listed.lastSeen, now);
    if want != listed.connectionState && ok then a.(connectionState := want) else a
  }

  lemma VisitKeepsContent(l: Limits, a: Agent, b: Agent, a0: Agent, b0: Agent, now: int, ok: bool)
    requires SameContent(a, b)
    ensures SameContent(Visited(l, a, a0, now, ok), Visited(l, b, b0, now, ok))
    ensures Decoded(Encoded(Visited(l, b, b0, now, ok))) == Visited(l, b, b0, now, ok)
  {
    FlooredTwice(a);
    RowRoundTrip(Visited(l, b, b0, now, ok));
  }

  /** The agent an event writes to, if any. */
  function About(e: Event): (r: seq<Uid>) {
    match e
    case Report(uid, _, _) => [uid]
    case Push(push, _) => [push.agentUid]
    case List => []
    case Visit(uid, _, _) => [uid]
  }

  lemma VisitLeaves(l: Limits, m: InMemoryServer, t: TableServer, e: Event, uid: Uid)
    requires Aligned(m, t, uid) && e.Visit? && e.uid == uid && uid in m.listed
    ensures Record(MemoryStep(l, m, e).agents, uid) == Visited(l, Record(m.agents, uid), m.listed[uid], e.now, e.ok)
    ensures Fetched(TableStep(l, t, e).rows, uid) ==
            Visited(l, Fetched(t.rows, uid), Decoded(t.listed[uid]), e.now, e.ok)
    ensures Aligned(MemoryStep(l, m, e), TableStep(l, t, e), uid)
  {
    VisitKeepsContent(l, Record(m.agents, uid), Fetched(t.rows, uid),
                      m.listed[uid], Decoded(t.listed[uid]), e.now, e.ok);
  }

  lemma ReportLeaves(l: Limits, m: InMemoryServer, t: TableServer, e: Event, uid: Uid)
    requires Aligned(m, t, uid) && e.Report? && e.uid == uid && e.msg.capabilities <= MAX_INT64
    ensures Record(MemoryStep(l, m, e).agents, uid).connectionState
         == Fetched(TableStep(l, t, e).rows, uid).connectionState
    ensures Aligned(MemoryStep(l, m, e), TableStep(l, t, e), uid)
  {
    ReportKeepsContent(Record(m.agents, uid), Fetched(t.rows, uid), e.msg, e.at);
  }

  lemma PushLeaves(l: Limits, m: InMemoryServer, t: TableServer, e: Event, uid: Uid)
    requires Aligned(m, t, uid) && e.Push? && e.push.agentUid == uid
    ensures SameContact(Record(MemoryStep(l, m, e).agents, uid), Record(m.agents, uid))
    ensures SameContact(Fetched(TableStep(l, t, e).rows, uid), Fetched(t.rows, uid))
    ensures Aligned(MemoryStep(l, m, e), TableStep(l, t, e), uid)
  {
    PushKeepsContent(Record(m.agents, uid), Fetched(t.rows, uid), e.push, e.digest);
  }

  /** A listing, an event of another agent, or a visit to an agent that is not listed. */
  lemma OtherLeaves(l: Limits, m: InMemoryServer, t: TableServer, e: Event, uid: Uid)
    requires Aligned(m, t, uid) && (uid !in About(e) || (e.Visit? && uid !in m.listed))
    ensures Record(MemoryStep(l, m, e).agents, uid) == Record(m.agents, uid)
    ensures Fetched(TableStep(l, t, e).rows, uid) == Fetched(t.rows, uid)
    ensures Aligned(MemoryStep(l, m, e), TableStep(l, t, e), uid)
  {
  }

  lemma AlignedStep(l: Limits, m: InMemoryServer, t: TableServer, e: Event, uid: Uid)
    requires Aligned(m, t, uid) && (e.Report? ==> e.msg.capabilities <= MAX_INT64)
    ensures Aligned(MemoryStep(l, m, e), TableStep(l, t, e), uid)
  {
    if uid !in About(e) || (e.Visit? && uid !in m.listed) {
      OtherLeaves(l, m, t, e, uid);
    } else if e.Report? {
      ReportLeaves(l, m, t, e, uid);
    } else if e.Push? {
      PushLeaves(l, m, t, e, uid);
    } else {
      VisitLeaves(l, m, t, e, uid);
    }
  }

  lemma RecentStep(l: Limits, m: InMemoryServer, t: TableServer, e: Event, uid: Uid)
    requires Aligned(m, t, uid) && (e.List? || Recent(m, t, uid)) && !(e.Report? && e.uid == uid)
    ensures Recent(MemoryStep(l, m, e), TableStep(l, t, e), uid)
  {
    if e.Push? && e.push.agentUid == uid { PushLeaves(l, m, t, e, uid); }
  }

  /** A visit that decides by what the record says leaves two states that fit. */
  lemma VisitFits(l: Limits, events: seq<Event>, a: Agent, b: Agent, a0: Agent, b0: Agent, now: int, ok: bool)
    requires SameContent(a, b) && SameContact(a, a0) && SameContact(b, b0)
    requires VisitedAt(events, a.instanceUid, now) && StatesFit(l, events, a, b)
    ensures StatesFit(l, events, Visited(l, a, a0, now, ok), Visited(l, b, b0, now, ok))
  {
    var a', b' := Visited(l, a, a0, now, ok), Visited(l, b, b0, now, ok);
    if ok {
      assert BothClassified(l, events, a', b', now);
    } else {
      assert a' == a && b' == b;
    }
  }

  lemma SameContactFits(l: Limits, events: seq<Event>, a: Agent, b: Agent, a': Agent, b': Agent)
    requires StatesFit(l, events, a, b) && a'.instanceUid == a.instanceUid
    requires SameContact(a', a) && b'.connectionState == b.connectionState
    ensures StatesFit(l, events, a', b')
  {
    if a.connectionState != b.connectionState {
      var t :| BothClassified(l, events, a, b, t);
      assert BothClassified(l, events, a', b', t);
    }
  }

  lemma FitStep(l: Limits, events: seq<Event>, m: InMemoryServer, t: TableServer, e: Event, uid: Uid)
    requires Aligned(m, t, uid) && (e.Report? ==> e.msg.capabilities <= MAX_INT64)
    requires (e.Report? && e.uid == uid) || StatesFit(l, events, Record(m.agents, uid), Fetched(t.rows, uid))
    requires e.Visit? && e.uid == uid && uid in m.listed ==> VisitedAt(events, uid, e.now) && Recent(m, t, uid)
    ensures StatesFit(l, events, Record(MemoryStep(l, m, e).agents, uid), Fetched(TableStep(l, t, e).rows, uid))
  {
    var a, b := Record(m.agents, uid), Fetched(t.rows, uid);
    var a', b' := Record(MemoryStep(l, m, e).agents, uid), Fetched(TableStep(l, t, e).rows, uid);
    if uid !in About(e) || (e.Visit? && uid !in m.listed) {
      OtherLeaves(l, m, t, e, uid);
    } else if e.Report? {
      ReportLeaves(l, m, t, e, uid);
    } else if e.Push? {
      PushLeaves(l, m, t, e, uid);
      SameContactFits(l, events, a, b, a', b');
    } else {
      VisitLeaves(l, m, t, e, uid);
      VisitFits(l, events, a, b, m.listed[uid], Decoded(t.listed[uid]), e.now, e.ok);
    }
  }

  lemma SideBySideStep(l: Limits, events: seq<Event>, uid: Uid)
    requires events != [] && SideBySide(l, events[..|events| - 1], uid)
    requires var e := events[|events| - 1]; e.Report? ==> e.msg.capabilities <= MAX_INT64
    ensures SideBySide(l, events, uid)
  {
    var before, e := events[..|events| - 1], events[|events| - 1];
    var m, t := MemoryAfter(l, before), TablesAfter(l, before);
    AlignedStep(l, m, t, e, uid);
    if !Touched(events, uid) { RecentStep(l, m, t, e, uid); }
    if !Raced(l, events, uid) {
      if !Raced(l, before, uid) { KeptFits(l, events, Record(m.agents, uid), Fetched(t.rows, uid)); }
      assert e.Visit? ==> VisitedAt(events, e.uid, e.now);
      FitStep(l, events, m, t, e, uid);
    }
  }

  lemma {:induction false} ServersStaySideBySide(l: Limits, events: seq<Event>, uid: Uid)
    requires Narrow(events)
    ensures SideBySide(l, events, uid)
  {
    if events != [] {
      ServersStaySideBySide(l, events[..|events| - 1], uid);
      SideBySideStep(l, events, uid);
    }
  }

  // ---------------------------------------------------------------- how far the two can differ

  /**
   SQLite's state is memory's, or one that a visit less than a second after a visit of the run would
   have given memory.
   */
  ghost predicate AheadByLessThanASecond(l: Limits, events: seq<Event>, a: Agent, b: Agent) {
    || a.connectionState == b.connectionState
    || exists t ::
         && VisitedAt(events, a.instanceUid, t) && a.connectionState == ClassAt(l, a.lastSeen, t)
         && RankOf(a.connectionState) < RankOf(b.connectionState)
         && (0 <= a.lastSeen < SECOND || RankOf(b.connectionState) <= RankOf(ClassAt(l, a.lastSeen, t + SECOND - 1)))
  }

  lemma FittingIsTimely(l: Limits, events: seq<Event>, a: Agent, b: Agent)
    requires StatesFit(l, events, a, b) && l.staleAfter <= l.disconnectedAfter
    ensures AheadByLessThanASecond(l, events, a, b)
  {
    if a.connectionState != b.connectionState {
      var t :| BothClassified(l, events, a, b, t);
      SqliteSweepIsTimely(a.lastSeen, t, l.staleAfter, l.disconnectedAfter);
      assert RankOf(a.connectionState) < RankOf(b.connectionState);
      assert ClassAt(l, a.lastSeen, t + SECOND - 1)
          == ClassOf(t + SECOND - 1 - a.lastSeen, l.staleAfter, l.disconnectedAfter);
      assert VisitedAt(events, a.instanceUid, t) && a.connectionState == ClassAt(l, a.lastSeen, t);
    }
  }

  /**
   Over any traffic with masks that fit, the two servers hold the same agents with the same content,
   times floored. Only connection states can differ, and unless the agent's latest report raced with a
   sweep, SQLite is then ahead by less than a second.
   */
  lemma SqliteServerIsTimely(l: Limits, events: seq<Event>, uid: Uid)
    requires Narrow(events) && l.staleAfter <= l.disconnectedAfter
    ensures var agents, rows := MemoryAfter(l, events).agents, TablesAfter(l, events).rows;
            && (uid in agents <==> uid in rows)
            && (uid in agents ==>
                  && SameContent(agents[uid], Decoded(rows[uid]))
                  && (Raced(l, events, uid) || AheadByLessThanASecond(l, events, agents[uid], Decoded(rows[uid]))))
  {
    ServersStaySideBySide(l, events, uid);
    var a, b := Record(MemoryAfter(l, events).agents, uid), Fetched(TablesAfter(l, events).rows, uid);
    if !Raced(l, events, uid) { FittingIsTimely(l, events, a, b); }
  }

  lemma {:induction false} RowsAreNarrow(l: Limits, events: seq<Event>, uid: Uid)
    ensures uid in TablesAfter(l, events).rows ==> TablesAfter(l, events).rows[uid].capabilities <= MAX_INT64
  {
    if events != [] { RowsAreNarrow(l, events[..|events| - 1], uid); }
  }

  /** Right after a report both servers hold its content if and only if its mask fits a column. */
  lemma ReportReachesBothIff(l: Limits, events: seq<Event>, uid: Uid, msg: AgentToServer, at: int)
    requires Narrow(events)
    ensures var all := events + [Report(uid, msg, at)];
            var a, rows := MemoryAfter(l, all).agents[uid], TablesAfter(l, all).rows;
            (uid in rows && SameContent(a, Decoded(rows[uid]))) <==> msg.capabilities <= MAX_INT64
  {
    var all := events + [Report(uid, msg, at)];
    assert all[..|all| - 1] == events;
    ServersStaySideBySide(l, events, uid);
    RowsAreNarrow(l, all, uid);
    if msg.capabilities <= MAX_INT64 { SideBySideStep(l, all, uid); }
  }

  /** One more event. */
  lemma Longer(l: Limits, events: seq<Event>, e: Event) returns (all: seq<Event>, m: InMemoryServer, t: TableServer)
    ensures all == events + [e]
    ensures m == MemoryAfter(l, all) == MemoryStep(l, MemoryAfter(l, events), e)
    ensures t == TablesAfter(l, all) == TableStep(l, TablesAfter(l, events), e)
  {
    all := events + [e];
    assert all[..|all| - 1] == events;
    m, t := MemoryAfter(l, all), TablesAfter(l, all);
  }

  /** A sweep that comes when the agent counts as stale over SQLite but not yet over memory. */
  lemma SqliteClassifiesFirst(l: Limits, uid: Uid, msg: AgentToServer) returns (events: seq<Event>)
    requires msg.capabilities <= MAX_INT64 && l == Limits(10 * SECOND, 1000 * SECOND)
    ensures uid in MemoryAfter(l, events).agents && uid in TablesAfter(l, events).rows
    ensures var a, r := MemoryAfter(l, events).agents[uid], TablesAfter(l, events).rows[uid];
            && a.connectionState == Connected && a.lastSeen == 3 * SECOND / 2
            && r.connectionState == Stale && r.lastSeenUnix == 1
  {
    var m, t;
    events := [];
    events, m, t := Longer(l, events, Report(uid, msg, 3 * SECOND / 2));
    assert Floored(3 * SECOND / 2) == SECOND;
    events, m, t := Longer(l, events, List);
    events, m, t := Longer(l, events, Visit(uid, 45 * SECOND / 4, true));
  }

  /**
   A race can leave SQLite behind. Its sweeper has already written the aged state, so it does not
   write it again over the report, while the one over memory does.
   */
  lemma RaceCanLeaveSqliteBehind(uid: Uid, msg: AgentToServer)
    returns (l: Limits, events: seq<Event>, a: Agent, r: Row)
    requires msg.capabilities <= MAX_INT64
    ensures uid in MemoryAfter(l, events).agents && a == MemoryAfter(l, events).agents[uid]
    ensures uid in TablesAfter(l, events).rows && r == TablesAfter(l, events).rows[uid]
    ensures l.staleAfter <= l.disconnectedAfter && RankOf(r.connectionState) < RankOf(a.connectionState)
  {
    var m, t;
    l := Limits(10 * SECOND, 1000 * SECOND);
    events := SqliteClassifiesFirst(l, uid, msg);
    events, m, t := Longer(l, events, List);
    events, m, t := Longer(l, events, Report(uid, msg, 12 * SECOND));
    events, m, t := Longer(l, events, Visit(uid, 13 * SECOND, true));
    a, r := m.agents[uid], t.rows[uid];
  }
}
