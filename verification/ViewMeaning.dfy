/** What the two fleet views say, in terms of filters over the agent list. */
module ViewMeaning {
  import opened Common
  import opened Agents
  import opened FleetViews

  function Filter(agents: seq<Agent>, p: Agent -> bool): seq<Agent> {
    if agents == [] then []
    else
      var last := agents[|agents| - 1];
      Filter(agents[..|agents| - 1], p) + if p(last) then [last] else []
  }

  /** The agent is shown under this namespace. */
  predicate InNamespace(a: Agent, ns: string) {
    if a.identity.namespace == "" then ns == "(sans namespace)" else ns == a.identity.namespace
  }

  /** Those of a namespace that satisfy a condition. */
  function Here(agents: seq<Agent>, ns: string, p: Agent -> bool): seq<Agent> {
    Filter(agents, (a: Agent) => InNamespace(a, ns) && p(a))
  }

  lemma {:induction false} FilterIsCount(agents: seq<Agent>, p: Agent -> bool, q: Agent -> bool)
    requires forall a :: p(a) <==> q(a)
    ensures |Filter(agents, p)| == Count(agents, q)
  {
    if agents != [] { FilterIsCount(agents[..|agents| - 1], p, q); }
  }

  lemma {:induction false} HereIsCount(agents: seq<Agent>, ns: string, p: Agent -> bool, q: Agent -> bool)
    requires forall a :: p(a) <==> q(a)
    ensures |Here(agents, ns, p)| == Count(Members(agents, ns), q)
  {
    if agents != [] {
      var before, a := agents[..|agents| - 1], agents[|agents| - 1];
      HereIsCount(before, ns, p, q);
      CountOfLonger(Members(before, ns), a, q);
      assert Members(before, ns) + [] == Members(before, ns);
    }
  }

  /** Agent `i` is the first one shown under the namespace. */
  ghost predicate FirstMember(agents: seq<Agent>, i: nat, ns: string) {
    i < |agents| && InNamespace(agents[i], ns) && forall j :: 0 <= j < i ==> !InNamespace(agents[j], ns)
  }

  /** The first members of the namespaces are the agents `at`, in the list's order. */
  ghost predicate InOrderOfFirst(agents: seq<Agent>, names: seq<string>, at: seq<nat>) {
    && |at| == |names| && (forall k, l :: 0 <= k < l < |at| ==> at[k] < at[l])
    && forall k :: 0 <= k < |at| ==> FirstMember(agents, at[k], names[k])
  }

  lemma FirstStaysFirst(before: seq<Agent>, a: Agent, i: nat, ns: string)
    requires FirstMember(before, i, ns)
    ensures FirstMember(before + [a], i, ns)
  {
    assert forall j :: 0 <= j < |before| ==> (before + [a])[j] == before[j];
  }

  lemma NewIsFirst(before: seq<Agent>, a: Agent)
    requires NamespaceOf(a) !in Names(before)
    ensures FirstMember(before + [a], |before|, NamespaceOf(a))
  {
    var agents, ns := before + [a], NamespaceOf(a);
    NameIsUsed(before, ns);
    forall j | 0 <= j < |before| ensures !InNamespace(agents[j], ns) {
      assert agents[j] == before[j];
      assert NamespaceOf(before[j]) != ns;
    }
  }

  lemma SameInOrder(before: seq<Agent>, a: Agent, names: seq<string>, at: seq<nat>)
    requires InOrderOfFirst(before, names, at)
    ensures InOrderOfFirst(before + [a], names, at)
  {
    forall k | 0 <= k < |at| ensures FirstMember(before + [a], at[k], names[k]) {
      FirstStaysFirst(before, a, at[k], names[k]);
    }
  }

  lemma MoreInOrder(agents: seq<Agent>, names: seq<string>, at: seq<nat>, i: nat, ns: string)
    requires InOrderOfFirst(agents, names, at) && FirstMember(agents, i, ns)
    requires forall k :: 0 <= k < |at| ==> at[k] < i
    ensures InOrderOfFirst(agents, names + [ns], at + [i])
  {
  }

  /** Namespaces are grouped in the order of first appearance. */
  lemma {:induction false} NamesInOrder(agents: seq<Agent>) returns (at: seq<nat>)
    ensures InOrderOfFirst(agents, Names(agents), at)
  {
    at := [];
    if agents != [] {
      var before, a := agents[..|agents| - 1], agents[|agents| - 1];
      at := NamesInOrder(before);
      assert forall k :: 0 <= k < |at| ==> FirstMember(before, at[k], Names(before)[k]);
      NamesOfOneMore(before, a);
      FrontAndLast(agents);
      SameInOrder(before, a, Names(before), at);
      if NamespaceOf(a) !in Names(before) {
        NewIsFirst(before, a);
        MoreInOrder(agents, Names(before), at, |before|, NamespaceOf(a));
        at := at + [|before|];
      }
    }
  }

  /** A group's members are the agents shown under its namespace, as they stand in the list. */
  lemma {:induction false} MembersAreFilter(agents: seq<Agent>, ns: string)
    ensures Members(agents, ns) == Filter(agents, (a: Agent) => InNamespace(a, ns))
  {
    if agents != [] { MembersAreFilter(agents[..|agents| - 1], ns); }
  }

  // ---------------------------------------------------------------- namespace summaries

  /** A row counts the agents of its namespace by literal conditions. */
  ghost predicate RowCounts(row: Summary, agents: seq<Agent>) {
    var ns := row.namespace;
    && row.total == |Here(agents, ns, (a: Agent) => true)|
    && row.connected == |Here(agents, ns, (a: Agent) => a.connectionState == Connected)|
    && row.stale == |Here(agents, ns, (a: Agent) => a.connectionState == Stale)|
    && row.disconnected == |Here(agents, ns, (a: Agent) => a.connectionState == Disconnected)|
    && row.configSynced == |Here(agents, ns, (a: Agent) => a.configSync == Synced)|
  }

  lemma SummaryCounts(agents: seq<Agent>, ns: string)
    ensures SummaryOf(ns, Members(agents, ns)).namespace == ns
    ensures RowCounts(SummaryOf(ns, Members(agents, ns)), agents)
  {
    SummaryMeaning(ns, Members(agents, ns));
    CountEverybody(Members(agents, ns));
    HereIsCount(agents, ns, (a: Agent) => true, CountedBy(AllAgents));
    HereIsCount(agents, ns, (a: Agent) => a.connectionState == Connected, InState(Connected));
    HereIsCount(agents, ns, (a: Agent) => a.connectionState == Stale, InState(Stale));
    HereIsCount(agents, ns, (a: Agent) => a.connectionState == Disconnected, InState(Disconnected));
    HereIsCount(agents, ns, (a: Agent) => a.configSync == Synced, IsSynced());
  }

  ghost predicate ShownUnder(agents: seq<Agent>, ns: string) {
    exists i :: 0 <= i < |agents| && InNamespace(agents[i], ns)
  }

  lemma NameIsShown(agents: seq<Agent>, ns: string)
    ensures ns in Names(agents) <==> ShownUnder(agents, ns)
  {
    NameIsUsed(agents, ns);
    assert forall a :: InNamespace(a, ns) <==> NamespaceOf(a) == ns;
  }

  /** The summary has exactly one row for every namespace somebody is shown under, and each row counts its agents. */
  lemma RowsAreAsSeen(agents: seq<Agent>, rows: seq<Summary>)
    requires |rows| == |Names(agents)|
    requires forall i :: 0 <= i < |rows| ==> rows[i] == SummaryOf(Names(agents)[i], Members(agents, Names(agents)[i]))
    ensures forall i :: 0 <= i < |rows| ==> RowCounts(rows[i], agents)
    ensures forall i, j :: 0 <= i < j < |rows| ==> rows[i].namespace != rows[j].namespace
    ensures forall ns :: ShownUnder(agents, ns) <==> exists i :: 0 <= i < |rows| && rows[i].namespace == ns
  {
    var names := Names(agents);
    NamesAreDistinct(agents);
    forall i | 0 <= i < |rows| ensures rows[i].namespace == names[i] && RowCounts(rows[i], agents) {
      SummaryCounts(agents, names[i]);
    }
    forall ns ensures ShownUnder(agents, ns) <==> exists i :: 0 <= i < |rows| && rows[i].namespace == ns {
      NameIsShown(agents, ns);
      if ns in names {
        var i :| 0 <= i < |names| && names[i] == ns;
        assert rows[i].namespace == ns;
      }
    }
  }

  // ---------------------------------------------------------------- problems

  /**
   A problem with this id is listed exactly when somebody in the namespace meets the condition, and
   counts them all.
   */
  ghost predicate ListedFor(agents: seq<Agent>, ns: string, id: string, severity: Severity, p: Agent -> bool) {
    var here := Here(agents, ns, p);
    && ((exists q :: q in Problems(agents) && q.id == id) <==> here != [])
    && (forall q :: q in Problems(agents) && q.id == id ==> q == Problem(id, severity, ns, |here|))
  }

  lemma ListedForTrouble(agents: seq<Agent>, ns: string, t: Trouble, p: Agent -> bool)
    requires forall a :: p(a) <==> Suffers(t)(a)
    ensures ListedFor(agents, ns, IdPrefix(t) + ns, SeverityOf(t), p)
  {
    var id, here := IdPrefix(t) + ns, Here(agents, ns, p);
    HereIsCount(agents, ns, p, Suffers(t));
    forall q | q in Problems(agents) && q.id == id
      ensures q == Problem(id, SeverityOf(t), ns, |here|) && here != []
    {
      ProblemsAreExact(agents, q);
      var m :| m in Names(agents) && ReportsOn(q, agents, m);
      var u :| Reports(q, agents, m, u);
      if m != ns || u != t { IdsDiffer(m, ns, u, t); }
    }
    if here != [] {
      var q := ProblemOf(ns, Members(agents, ns), t);
      NameIsUsed(agents, ns);
      assert Reports(q, agents, ns, t) && ReportsOn(q, agents, ns);
      ProblemsAreExact(agents, q);
    }
  }

  /** The three kinds of problem, each with its own filter, id and severity. */
  lemma ProblemsAreAsSeen(agents: seq<Agent>, ns: string)
    ensures ListedFor(agents, ns, "unhealthy:" + ns, Critical, (a: Agent) => !a.healthy)
    ensures ListedFor(agents, ns, "drift:" + ns, Warning,
                      (a: Agent) => a.configSync == Drifted || a.configSync == Failed)
    ensures ListedFor(agents, ns, "disconnected:" + ns, Warning, (a: Agent) => a.connectionState == Disconnected)
  {
    ListedForTrouble(agents, ns, Unhealthy, (a: Agent) => !a.healthy);
    ListedForTrouble(agents, ns, Drift, (a: Agent) => a.configSync == Drifted || a.configSync == Failed);
    ListedForTrouble(agents, ns, Unreachable, (a: Agent) => a.connectionState == Disconnected);
  }

  /** Nothing else is listed, and the critical problems come first, the larger before the smaller. */
  lemma ListIsInOrder(agents: seq<Agent>)
    ensures forall q :: q in Problems(agents) ==>
              q.id == "unhealthy:" + q.namespace || q.id == "drift:" + q.namespace
              || q.id == "disconnected:" + q.namespace
    ensures var ps := Problems(agents);
            forall i, j :: 0 <= i < j < |ps| ==>
              && (ps[j].severity == Critical ==> ps[i].severity == Critical)
              && (ps[i].severity == ps[j].severity ==> ps[i].count >= ps[j].count)
  {
    forall q | q in Problems(agents)
      ensures q.id == "unhealthy:" + q.namespace || q.id == "drift:" + q.namespace
              || q.id == "disconnected:" + q.namespace
    {
      ProblemsAreExact(agents, q);
      var m :| m in Names(agents) && ReportsOn(q, agents, m);
      var u :| Reports(q, agents, m, u);
    }
    SortIsStable(Found(agents, Names(agents)), Critical, 0);
  }

  /** The counts of the problems whose id has this prefix before their namespace. */
  function SumOf(ps: seq<Problem>, prefix: string): nat {
    if ps == [] then 0
    else
      var p := ps[|ps| - 1];
      SumOf(ps[..|ps| - 1], prefix) + if p.id == prefix + p.namespace then p.count else 0
  }

  lemma {:induction false} SumIsReported(ps: seq<Problem>, t: Trouble, prefix: string)
    requires prefix == IdPrefix(t)
    ensures SumOf(ps, prefix) == FleetViews.Reported(ps, t)
  {
    if ps != [] { SumIsReported(ps[..|ps| - 1], t, prefix); }
  }

  /** The problem counts of each kind add up to the overview's own filters over the whole fleet. */
  lemma ProblemsMatchKpis(agents: seq<Agent>)
    ensures SumOf(Problems(agents), "unhealthy:") == |Filter(agents, (a: Agent) => !a.healthy)|
    ensures SumOf(Problems(agents), "drift:") ==
            |Filter(agents, (a: Agent) => a.configSync == Drifted || a.configSync == Failed)|
    ensures SumOf(Problems(agents), "disconnected:") ==
            |Filter(agents, (a: Agent) => a.connectionState == Disconnected)|
  {
    SumIsReported(Problems(agents), Unhealthy, "unhealthy:");
    SumIsReported(Problems(agents), Drift, "drift:");
    SumIsReported(Problems(agents), Unreachable, "disconnected:");
    ProblemsConserveAgents(agents, Unhealthy);
    ProblemsConserveAgents(agents, Drift);
    ProblemsConserveAgents(agents, Unreachable);
    FilterIsCount(agents, (a: Agent) => !a.healthy, Suffers(Unhealthy));
    FilterIsCount(agents, (a: Agent) => a.configSync == Drifted || a.configSync == Failed, Suffers(Drift));
    FilterIsCount(agents, (a: Agent) => a.connectionState == Disconnected, Suffers(Unreachable));
  }

  /** The overview shows three problems, or all that there are to see when there are fewer. */
  lemma OverviewShowsThree(ps: seq<Problem>, acked: set<string>, showAcked: bool)
    ensures var shown, visible := Shown(ps, acked, showAcked), Visible(ps, acked, showAcked);
            shown == visible[..|shown|] && |shown| == if |visible| < 3 then |visible| else 3
  {
  }
}
