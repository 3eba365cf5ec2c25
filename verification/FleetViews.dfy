/**
 Two derived views of one agent list: the per-namespace summary of the REST API and the problem
 list of the user interface. Both group agents by namespace, in the order of first appearance.
 */
module FleetViews {
  import opened Common
  import opened Agents

  /** The group an agent is shown under. */
  function NamespaceOf(a: Agent): string {
    if a.identity.namespace == "" then "(sans namespace)" else a.identity.namespace
  }

  // ---------------------------------------------------------------- grouping

  /** The namespaces in use, each once, in the order of first appearance. */
  function Names(agents: seq<Agent>): seq<string> {
    if agents == [] then []
    else
      var before := Names(agents[..|agents| - 1]);
      var ns := NamespaceOf(agents[|agents| - 1]);
      if ns in before then before else before + [ns]
  }

  /** The agents of a namespace, in order. */
  function Members(agents: seq<Agent>, ns: string): seq<Agent> {
    if agents == [] then []
    else
      var last := agents[|agents| - 1];
      Members(agents[..|agents| - 1], ns) + if NamespaceOf(last) == ns then [last] else []
  }

  function Count(agents: seq<Agent>, p: Agent -> bool): nat {
    if agents == [] then 0
    else Count(agents[..|agents| - 1], p) + if p(agents[|agents| - 1]) then 1 else 0
  }

  ghost predicate Distinct(names: seq<string>) {
    forall i, j :: 0 <= i < j < |names| ==> names[i] != names[j]
  }

  lemma {:induction false} NamesAreDistinct(agents: seq<Agent>)
    ensures Distinct(Names(agents))
  {
    if agents != [] { NamesAreDistinct(agents[..|agents| - 1]); }
  }

  lemma NamesOfOneMore(before: seq<Agent>, a: Agent)
    ensures var ns := NamespaceOf(a);
            Names(before + [a]) == if ns in Names(before) then Names(before) else Names(before) + [ns]
  {
    assert (before + [a])[..|before|] == before;
  }

  lemma MembersOfOneMore(before: seq<Agent>, a: Agent, ns: string)
    ensures Members(before + [a], ns) ==
            if NamespaceOf(a) == ns then Members(before, ns) + [a] else Members(before, ns)
  {
    assert (before + [a])[..|before|] == before;
    assert Members(before, ns) + [] == Members(before, ns);
  }

  ghost predicate Appears(agents: seq<Agent>, ns: string) {
    exists i :: 0 <= i < |agents| && NamespaceOf(agents[i]) == ns
  }

  lemma AppearsInOneMore(before: seq<Agent>, a: Agent, ns: string)
    ensures Appears(before + [a], ns) <==> Appears(before, ns) || NamespaceOf(a) == ns
  {
    var agents := before + [a];
    assert forall i :: 0 <= i < |before| ==> agents[i] == before[i];
    assert agents[|before|] == a;
  }

  lemma {:induction false} NameIsUsed(agents: seq<Agent>, ns: string)
    ensures ns in Names(agents) <==> Members(agents, ns) != []
    ensures ns in Names(agents) <==> Appears(agents, ns)
  {
    if agents != [] {
      var before, a := agents[..|agents| - 1], agents[|agents| - 1];
      NameIsUsed(before, ns);
      NamesOfOneMore(before, a);
      MembersOfOneMore(before, a, ns);
      AppearsInOneMore(before, a, ns);
      FrontAndLast(agents);
    }
  }

  lemma NamesMeaning(agents: seq<Agent>)
    ensures Distinct(Names(agents))
    ensures forall ns :: ns in Names(agents) <==> Appears(agents, ns)
    ensures forall ns :: ns in Names(agents) <==> Members(agents, ns) != []
  {
    NamesAreDistinct(agents);
    forall ns
      ensures ns in Names(agents) <==> Appears(agents, ns)
      ensures ns in Names(agents) <==> Members(agents, ns) != []
    {
      NameIsUsed(agents, ns);
    }
  }

  /** The sum of a count over some namespaces. */
  function Total(agents: seq<Agent>, names: seq<string>, p: Agent -> bool): nat {
    if names == [] then 0
    else Total(agents, names[..|names| - 1], p) + Count(Members(agents, names[|names| - 1]), p)
  }

  lemma MembersOfLonger(agents: seq<Agent>, n: nat, ns: string)
    requires n < |agents|
    ensures Members(agents[..n + 1], ns) ==
            if NamespaceOf(agents[n]) == ns then Members(agents[..n], ns) + [agents[n]] else Members(agents[..n], ns)
  {
    OneLonger(agents, n);
    MembersOfOneMore(agents[..n], agents[n], ns);
  }

  lemma CountOfLonger(members: seq<Agent>, a: Agent, p: Agent -> bool)
    ensures Count(members + [a], p) == Count(members, p) + if p(a) then 1 else 0
  {
    assert (members + [a])[..|members|] == members;
  }

  lemma LastOfDistinct(names: seq<string>, ns: string)
    requires names != [] && Distinct(names)
    ensures var rest, last := names[..|names| - 1], names[|names| - 1];
            Distinct(rest) && last !in rest && (ns in names <==> ns in rest || ns == last)
  {
    var m := |names| - 1;
    assert names == names[..m] + [names[m]];
  }

  /** One more agent adds to the sum what it counts, if its namespace is among the names. */
  lemma {:induction false} TotalOfOneMore(before: seq<Agent>, a: Agent, names: seq<string>, p: Agent -> bool)
    requires Distinct(names)
    ensures Total(before + [a], names, p) ==
            Total(before, names, p) + if NamespaceOf(a) in names && p(a) then 1 else 0
  {
    if names != [] {
      var rest, last := names[..|names| - 1], names[|names| - 1];
      LastOfDistinct(names, NamespaceOf(a));
      TotalOfOneMore(before, a, rest, p);
      MembersOfOneMore(before, a, last);
      CountOfLonger(Members(before, last), a, p);
    }
  }

  lemma TotalOfMore(agents: seq<Agent>, names: seq<string>, ns: string, p: Agent -> bool)
    ensures Total(agents, names + [ns], p) == Total(agents, names, p) + Count(Members(agents, ns), p)
  {
    assert (names + [ns])[..|names|] == names;
  }

  /** One more agent adds as much to the sum as to the count. */
  lemma OneMoreConserves(before: seq<Agent>, a: Agent, p: Agent -> bool)
    ensures Total(before + [a], Names(before + [a]), p) - Total(before, Names(before), p) ==
            Count(before + [a], p) - Count(before, p)
  {
    var ns := NamespaceOf(a);
    NamesOfOneMore(before, a);
    NamesAreDistinct(before + [a]);
    TotalOfOneMore(before, a, Names(before + [a]), p);
    CountOfLonger(before, a, p);
    NameIsUsed(before, ns);
    if ns !in Names(before) { TotalOfMore(before, Names(before), ns, p); }
  }

  /** Grouping loses nobody and counts nobody twice: the groups' counts add up to the fleet's. */
  lemma {:induction false} GroupsConserve(agents: seq<Agent>, p: Agent -> bool)
    ensures Total(agents, Names(agents), p) == Count(agents, p)
  {
    if agents != [] {
      var before, a := agents[..|agents| - 1], agents[|agents| - 1];
      GroupsConserve(before, p);
      OneMoreConserves(before, a, p);
      FrontAndLast(agents);
    }
  }

  // ---------------------------------------------------------------- the namespace summary

  datatype Summary = Summary(
    namespace: string, total: nat, connected: nat, stale: nat, disconnected: nat, configSynced: nat)

  function InState(c: ConnectionState): Agent -> bool { (a: Agent) => a.connectionState == c }

  function IsSynced(): Agent -> bool { (a: Agent) => a.configSync == Synced }

  /** One agent counted into its namespace's row. */
  function Counted(s: Summary, a: Agent): Summary {
    Summary(s.namespace, s.total + 1,
            if a.connectionState == Connected then s.connected + 1 else s.connected,
            if a.connectionState == Stale then s.stale + 1 else s.stale,
            if a.connectionState == Disconnected then s.disconnected + 1 else s.disconnected,
            if a.configSync == Synced then s.configSynced + 1 else s.configSynced)
  }

  /** A row after counting its members one by one. */
  function SummaryOf(ns: string, members: seq<Agent>): Summary {
    if members == [] then Summary(ns, 0, 0, 0, 0, 0)
    else Counted(SummaryOf(ns, members[..|members| - 1]), members[|members| - 1])
  }

  /** Each counter of a row is the number of members its filter lets through. */
  lemma {:induction false} SummaryMeaning(ns: string, members: seq<Agent>)
    ensures var s := SummaryOf(ns, members);
            && s.namespace == ns
            && s.total == |members|
            && s.connected == Count(members, InState(Connected))
            && s.stale == Count(members, InState(Stale))
            && s.disconnected == Count(members, InState(Disconnected))
            && s.configSynced == Count(members, IsSynced())
  {
    if members != [] { SummaryMeaning(ns, members[..|members| - 1]); }
  }

  /** The loop's table after the first `n` agents. */
  ghost predicate Tallied(byNs: map<string, Summary>, order: seq<string>, agents: seq<Agent>, n: nat)
    requires n <= |agents|
  {
    && order == Names(agents[..n])
    && (forall ns :: ns in byNs <==> ns in order)
    && forall ns :: ns in byNs ==> byNs[ns] == SummaryOf(ns, Members(agents[..n], ns))
  }

  lemma RowOfLonger(agents: seq<Agent>, n: nat, ns: string)
    requires n < |agents|
    ensures var before, after := SummaryOf(ns, Members(agents[..n], ns)), SummaryOf(ns, Members(agents[..n + 1], ns));
            after == if NamespaceOf(agents[n]) == ns then Counted(before, agents[n]) else before
  {
    MembersOfLonger(agents, n, ns);
    var members := Members(agents[..n], ns);
    assert (members + [agents[n]])[..|members|] == members;
  }

  lemma NamesOfLonger(agents: seq<Agent>, n: nat)
    requires n < |agents|
    ensures var before, ns := Names(agents[..n]), NamespaceOf(agents[n]);
            Names(agents[..n + 1]) == if ns in before then before else before + [ns]
  {
    OneLonger(agents, n);
    NamesOfOneMore(agents[..n], agents[n]);
  }

  lemma NewNamespace(agents: seq<Agent>, n: nat, ns: string)
    requires n <= |agents| && ns !in Names(agents[..n])
    ensures SummaryOf(ns, Members(agents[..n], ns)) == Summary(ns, 0, 0, 0, 0, 0)
  {
    NamesMeaning(agents[..n]);
    assert Members(agents[..n], ns) == [];
  }

  lemma TalliedStep(byNs: map<string, Summary>, order: seq<string>, agents: seq<Agent>, n: nat,
                    after: map<string, Summary>, order': seq<string>)
    requires n < |agents| && Tallied(byNs, order, agents, n)
    requires var ns := NamespaceOf(agents[n]);
             && after == byNs[ns := Counted(if ns in byNs then byNs[ns] else Summary(ns, 0, 0, 0, 0, 0), agents[n])]
             && order' == if ns in byNs then order else order + [ns]
    ensures Tallied(after, order', agents, n + 1)
  {
    var ns := NamespaceOf(agents[n]);
    NamesOfLonger(agents, n);
    if ns !in byNs { NewNamespace(agents, n, ns); }
    forall k | k in after ensures after[k] == SummaryOf(k, Members(agents[..n + 1], k)) {
      RowOfLonger(agents, n, k);
    }
  }

  /** The rows of the table in the order of first appearance. */
  method InOrder(byNs: map<string, Summary>, order: seq<string>) returns (out: seq<Summary>)
    requires forall ns :: ns in order ==> ns in byNs
    ensures |out| == |order| && forall i :: 0 <= i < |order| ==> out[i] == byNs[order[i]]
  {
    out := [];
    for i := 0 to |order|
      invariant |out| == i && forall j :: 0 <= j < i ==> out[j] == byNs[order[j]]
    {
      assert order[i] in order;
      out := out + [byNs[order[i]]];
    }
  }

  lemma {:induction false} StatesAddUp(members: seq<Agent>)
    ensures Count(members, InState(Connected)) + Count(members, InState(Stale)) + Count(members, InState(Disconnected))
            + Count(members, InState(NoState)) == |members|
  {
    if members != [] { StatesAddUp(members[..|members| - 1]); }
  }

  lemma {:induction false} CountZeroIff(members: seq<Agent>, p: Agent -> bool)
    ensures Count(members, p) == 0 <==> forall i :: 0 <= i < |members| ==> !p(members[i])
  {
    if members != [] {
      var n := |members| - 1;
      CountZeroIff(members[..n], p);
      assert forall i :: 0 <= i < n ==> members[..n][i] == members[i];
    }
  }

  /** A row's states never exceed its total, and exhaust it exactly when every member's state is known. */
  lemma RowStatesExhaustTotalIff(ns: string, members: seq<Agent>)
    ensures var s := SummaryOf(ns, members);
            && s.connected + s.stale + s.disconnected <= s.total
            && (s.connected + s.stale + s.disconnected == s.total <==>
                forall i :: 0 <= i < |members| ==> members[i].connectionState != NoState)
  {
    SummaryMeaning(ns, members);
    StatesAddUp(members);
    CountZeroIff(members, InState(NoState));
  }

  /** The counters of a row. */
  datatype Column = AllAgents | ConnectedAgents | StaleAgents | DisconnectedAgents | SyncedAgents

  function Cell(row: Summary, c: Column): nat {
    match c
    case AllAgents => row.total
    case ConnectedAgents => row.connected
    case StaleAgents => row.stale
    case DisconnectedAgents => row.disconnected
    case SyncedAgents => row.configSynced
  }

  function CountedBy(c: Column): Agent -> bool {
    match c
    case AllAgents => (a: Agent) => true
    case ConnectedAgents => InState(Connected)
    case StaleAgents => InState(Stale)
    case DisconnectedAgents => InState(Disconnected)
    case SyncedAgents => IsSynced()
  }

  /** A counter added up over the rows. */
  function SumOver(rows: seq<Summary>, c: Column): nat {
    if rows == [] then 0 else SumOver(rows[..|rows| - 1], c) + Cell(rows[|rows| - 1], c)
  }

  lemma {:induction false} CountEverybody(members: seq<Agent>)
    ensures Count(members, CountedBy(AllAgents)) == |members|
  {
    if members != [] { CountEverybody(members[..|members| - 1]); }
  }

  lemma CellIsCount(ns: string, members: seq<Agent>, c: Column)
    ensures Cell(SummaryOf(ns, members), c) == Count(members, CountedBy(c))
  {
    CountEverybody(members);
    SummaryMeaning(ns, members);
  }

  lemma {:induction false} SumIsTotal(agents: seq<Agent>, names: seq<string>, rows: seq<Summary>, c: Column)
    requires |rows| == |names|
    requires forall i :: 0 <= i < |rows| ==> rows[i] == SummaryOf(names[i], Members(agents, names[i]))
    ensures SumOver(rows, c) == Total(agents, names, CountedBy(c))
  {
    if rows != [] {
      var n := |rows| - 1;
      SumIsTotal(agents, names[..n], rows[..n], c);
      CellIsCount(names[n], Members(agents, names[n]), c);
    }
  }

  /** The rows partition the fleet: every counter adds up to its count over all agents, the totals to their number. */
  lemma RowsPartitionFleet(agents: seq<Agent>, rows: seq<Summary>)
    requires |rows| == |Names(agents)|
    requires forall i :: 0 <= i < |rows| ==> rows[i] == SummaryOf(Names(agents)[i], Members(agents, Names(agents)[i]))
    ensures SumOver(rows, AllAgents) == |agents|
    ensures forall c :: SumOver(rows, c) == Count(agents, CountedBy(c))
  {
    CountEverybody(agents);
    forall c ensures SumOver(rows, c) == Count(agents, CountedBy(c)) {
      SumIsTotal(agents, Names(agents), rows, c);
      GroupsConserve(agents, CountedBy(c));
    }
  }

  /** One row per namespace, in the order of first appearance, each the summary of that namespace's members. */
  method SummarizeNamespaces(agents: seq<Agent>) returns (out: seq<Summary>)
    ensures |out| == |Names(agents)|
    ensures forall i :: 0 <= i < |out| ==> out[i] == SummaryOf(Names(agents)[i], Members(agents, Names(agents)[i]))
    ensures SumOver(out, AllAgents) == |agents|
  {
    var byNs: map<string, Summary> := map[];
    var order: seq<string> := [];
    for n := 0 to |agents|
      invariant Tallied(byNs, order, agents, n)
    {
      var a := agents[n];
      var ns := NamespaceOf(a);
      ghost var before, order0 := byNs, order;
      if ns !in byNs {
        byNs := byNs[ns := Summary(ns, 0, 0, 0, 0, 0)];
        order := order + [ns];
      }
      byNs := byNs[ns := Counted(byNs[ns], a)];
      TalliedStep(before, order0, agents, n, byNs, order);
    }
    assert agents[..|agents|] == agents;
    out := InOrder(byNs, order);
    forall i | 0 <= i < |out| ensures out[i] == SummaryOf(Names(agents)[i], Members(agents, Names(agents)[i])) {
      assert order[i] in order;
    }
    RowsPartitionFleet(agents, out);
  }

  // ---------------------------------------------------------------- the problem list

  datatype Severity = Critical | Warning

  datatype Trouble = Unhealthy | Drift | Unreachable

  datatype Problem = Problem(id: string, severity: Severity, namespace: string, count: nat)

  function Suffers(t: Trouble): Agent -> bool {
    match t
    case Unhealthy => (a: Agent) => !a.healthy
    case Drift => (a: Agent) => a.configSync == Drifted || a.configSync == Failed
    case Unreachable => InState(Disconnected)
  }

  function IdPrefix(t: Trouble): string {
    match t case Unhealthy => "unhealthy:" case Drift => "drift:" case Unreachable => "disconnected:"
  }

  function SeverityOf(t: Trouble): Severity {
    if t == Unhealthy then Critical else Warning
  }

  function ProblemOf(ns: string, members: seq<Agent>, t: Trouble): Problem {
    Problem(IdPrefix(t) + ns, SeverityOf(t), ns, Count(members, Suffers(t)))
  }

  /** The problem of this kind, if somebody suffers from it. */
  function ProblemIfAny(ns: string, members: seq<Agent>, t: Trouble): seq<Problem> {
    if Count(members, Suffers(t)) > 0 then [ProblemOf(ns, members, t)] else []
  }

  function ProblemsOf(ns: string, members: seq<Agent>): seq<Problem> {
    ProblemIfAny(ns, members, Unhealthy) + ProblemIfAny(ns, members, Drift) + ProblemIfAny(ns, members, Unreachable)
  }

  /** The problems of some namespaces, before sorting. */
  function Found(agents: seq<Agent>, names: seq<string>): seq<Problem> {
    if names == [] then []
    else
      var ns := names[|names| - 1];
      Found(agents, names[..|names| - 1]) + ProblemsOf(ns, Members(agents, ns))
  }

  function SeverityRank(s: Severity): nat { if s == Critical then 0 else 1 }

  /** `a` sorts strictly before `b`: more severe, or equally severe with the larger count. */
  predicate Before(a: Problem, b: Problem) {
    SeverityRank(a.severity) < SeverityRank(b.severity) || (a.severity == b.severity && a.count > b.count)
  }

  /** Behind everything it does not sort strictly before. */
  function Insert(p: Problem, sorted: seq<Problem>): seq<Problem> {
    if sorted == [] then [p]
    else if Before(p, sorted[0]) then [p] + sorted
    else [sorted[0]] + Insert(p, sorted[1..])
  }

  /** The stable sort that the list's built-in sort performs. */
  function StableSort(ps: seq<Problem>): seq<Problem> {
    if ps == [] then [] else Insert(ps[|ps| - 1], StableSort(ps[..|ps| - 1]))
  }

  function Problems(agents: seq<Agent>): seq<Problem> {
    StableSort(Found(agents, Names(agents)))
  }

  /** The loop's map and its keys after the first `n` agents. */
  ghost predicate Grouped(keys: seq<string>, lists: map<string, seq<Agent>>, agents: seq<Agent>, n: nat)
    requires n <= |agents|
  {
    && keys == Names(agents[..n])
    && (forall ns :: ns in lists <==> ns in keys)
    && forall ns :: ns in lists ==> lists[ns] == Members(agents[..n], ns)
  }

  lemma GroupedStep(keys: seq<string>, lists: map<string, seq<Agent>>, agents: seq<Agent>, n: nat,
                    keys': seq<string>, lists': map<string, seq<Agent>>)
    requires n < |agents| && Grouped(keys, lists, agents, n)
    requires var k := NamespaceOf(agents[n]);
             && keys' == (if k in lists then keys else keys + [k])
             && lists' == lists[k := (if k in lists then lists[k] else []) + [agents[n]]]
    ensures Grouped(keys', lists', agents, n + 1)
  {
    NamesOfLonger(agents, n);
    NameIsUsed(agents[..n], NamespaceOf(agents[n]));
    forall ns | ns in lists' ensures lists'[ns] == Members(agents[..n + 1], ns) {
      MembersOfLonger(agents, n, ns);
    }
  }

  /** A Map from namespaces to their agents, and its keys in insertion order. */
  method GroupBy(agents: seq<Agent>) returns (keys: seq<string>, lists: map<string, seq<Agent>>)
    ensures keys == Names(agents)
    ensures forall ns :: ns in lists <==> ns in keys
    ensures forall ns :: ns in lists ==> lists[ns] == Members(agents, ns)
  {
    keys, lists := [], map[];
    for n := 0 to |agents|
      invariant Grouped(keys, lists, agents, n)
    {
      var k := NamespaceOf(agents[n]);
      ghost var keys0, lists0 := keys, lists;
      if k in lists {
        lists := lists[k := lists[k] + [agents[n]]];
      } else {
        assert [] + [agents[n]] == [agents[n]];
        lists := lists[k := [agents[n]]];
        keys := keys + [k];
      }
      GroupedStep(keys0, lists0, agents, n, keys, lists);
    }
    assert agents[..|agents|] == agents;
  }

  /** What the loop pushes for one namespace. */
  method NamespaceProblems(ns: string, members: seq<Agent>) returns (problems: seq<Problem>)
    ensures problems == ProblemsOf(ns, members)
  {
    problems := [];
    var unhealthy := Count(members, Suffers(Unhealthy));
    if unhealthy > 0 {
      problems := problems + [Problem("unhealthy:" + ns, Critical, ns, unhealthy)];
    }
    var drifted := Count(members, Suffers(Drift));
    if drifted > 0 {
      problems := problems + [Problem("drift:" + ns, Warning, ns, drifted)];
    }
    var disconnected := Count(members, Suffers(Unreachable));
    if disconnected > 0 {
      problems := problems + [Problem("disconnected:" + ns, Warning, ns, disconnected)];
    }
  }

  lemma FoundOfMore(agents: seq<Agent>, names: seq<string>, i: nat)
    requires i < |names|
    ensures Found(agents, names[..i + 1]) == Found(agents, names[..i]) + ProblemsOf(names[i], Members(agents, names[i]))
  {
    var longer := names[..i + 1];
    assert longer != [] && longer[..|longer| - 1] == names[..i] && longer[|longer| - 1] == names[i];
  }

  method DeriveProblems(agents: seq<Agent>) returns (problems: seq<Problem>)
    ensures problems == Problems(agents)
  {
    var keys, lists := GroupBy(agents);
    problems := [];
    for i := 0 to |keys|
      invariant problems == Found(agents, keys[..i])
    {
      assert keys[i] in keys;
      FoundOfMore(agents, keys, i);
      var more := NamespaceProblems(keys[i], lists[keys[i]]);
      problems := problems + more;
    }
    assert keys[..|keys|] == keys;
    problems := StableSort(problems);
  }

  // ---------------------------------------------------------------- what the sort does

  ghost predicate Sorted(ps: seq<Problem>) {
    forall i, j :: 0 <= i < j < |ps| ==> !Before(ps[j], ps[i])
  }

  /** The problems of one severity and count, in order: what the sort cannot tell apart. */
  function Alike(ps: seq<Problem>, severity: Severity, count: nat): seq<Problem> {
    if ps == [] then []
    else (if ps[0].severity == severity && ps[0].count == count then [ps[0]] else []) + Alike(ps[1..], severity, count)
  }

  lemma {:induction false} AlikeConcat(a: seq<Problem>, b: seq<Problem>, severity: Severity, count: nat)
    ensures Alike(a + b, severity, count) == Alike(a, severity, count) + Alike(b, severity, count)
  {
    if a == [] {
      assert a + b == b;
    } else {
      var head := if a[0].severity == severity && a[0].count == count then [a[0]] else [];
      AlikeConcat(a[1..], b, severity, count);
      assert (a + b)[1..] == a[1..] + b && (a + b)[0] == a[0];
      AppendIsAssociative(head, Alike(a[1..], severity, count), Alike(b, severity, count));
    }
  }

  lemma {:induction false} NoneAlike(ps: seq<Problem>, severity: Severity, count: nat)
    requires forall i :: 0 <= i < |ps| ==> !(ps[i].severity == severity && ps[i].count == count)
    ensures Alike(ps, severity, count) == []
  {
    if ps != [] { NoneAlike(ps[1..], severity, count); }
  }

  lemma {:induction false} InsertMembers(p: Problem, sorted: seq<Problem>)
    ensures |Insert(p, sorted)| == |sorted| + 1
    ensures forall q :: q in Insert(p, sorted) <==> q == p || q in sorted
  {
    if sorted != [] && !Before(p, sorted[0]) {
      InsertMembers(p, sorted[1..]);
      assert forall q :: q in sorted <==> q == sorted[0] || q in sorted[1..];
    }
  }

  lemma {:induction false} InsertSorts(p: Problem, sorted: seq<Problem>)
    requires Sorted(sorted)
    ensures Sorted(Insert(p, sorted))
  {
    if sorted != [] {
      var r := Insert(p, sorted);
      if Before(p, sorted[0]) {
        forall i, j | 0 <= i < j < |r| ensures !Before(r[j], r[i]) {
          if i == 0 { assert !Before(sorted[j - 1], sorted[0]) || j == 1; }
        }
      } else {
        InsertSorts(p, sorted[1..]);
        InsertMembers(p, sorted[1..]);
        forall i, j | 0 <= i < j < |r| ensures !Before(r[j], r[i]) {
          if i == 0 {
            assert r[j] in Insert(p, sorted[1..]);
            if r[j] != p {
              var k :| 0 <= k < |sorted[1..]| && sorted[1..][k] == r[j];
              assert sorted[k + 1] == r[j];
            }
          } else {
            assert r[i] == r[1..][i - 1] && r[j] == r[1..][j - 1];
          }
        }
      }
    }
  }

  lemma PrependIsStable(p: Problem, sorted: seq<Problem>, severity: Severity, count: nat)
    requires Sorted(sorted) && sorted != [] && Before(p, sorted[0])
    ensures Alike([p] + sorted, severity, count) == Alike(sorted, severity, count) + Alike([p], severity, count)
  {
    AlikeConcat([p], sorted, severity, count);
    if p.severity == severity && p.count == count {
      forall i | 0 <= i < |sorted| ensures !(sorted[i].severity == severity && sorted[i].count == count) {
        assert i > 0 ==> !Before(sorted[i], sorted[0]);
      }
      NoneAlike(sorted, severity, count);
    }
  }

  lemma {:induction false} InsertIsStable(p: Problem, sorted: seq<Problem>, severity: Severity, count: nat)
    requires Sorted(sorted)
    ensures Alike(Insert(p, sorted), severity, count) == Alike(sorted, severity, count) + Alike([p], severity, count)
  {
    if sorted == [] {
      assert Insert(p, sorted) == [p];
    } else if Before(p, sorted[0]) {
      PrependIsStable(p, sorted, severity, count);
    } else {
      var first, rest := [sorted[0]], sorted[1..];
      InsertIsStable(p, rest, severity, count);
      AlikeConcat(first, Insert(p, rest), severity, count);
      AlikeConcat(first, rest, severity, count);
      AppendIsAssociative(Alike(first, severity, count), Alike(rest, severity, count), Alike([p], severity, count));
      assert sorted == first + rest;
    }
  }

  /** The result is sorted by severity and then descending count, and ties keep their order. */
  lemma {:induction false} SortIsStable(ps: seq<Problem>, severity: Severity, count: nat)
    ensures Sorted(StableSort(ps))
    ensures Alike(StableSort(ps), severity, count) == Alike(ps, severity, count)
    ensures forall q :: q in StableSort(ps) <==> q in ps
  {
    if ps != [] {
      var before, p := ps[..|ps| - 1], ps[|ps| - 1];
      SortIsStable(before, severity, count);
      InsertSorts(p, StableSort(before));
      InsertIsStable(p, StableSort(before), severity, count);
      InsertMembers(p, StableSort(before));
      FrontAndLast(ps);
      AlikeConcat(before, [p], severity, count);
    }
  }

  // ---------------------------------------------------------------- what the list says about the fleet

  /** Somebody in the namespace suffers from this trouble, and `q` says so. */
  ghost predicate Reports(q: Problem, agents: seq<Agent>, ns: string, t: Trouble) {
    Count(Members(agents, ns), Suffers(t)) > 0 && q == ProblemOf(ns, Members(agents, ns), t)
  }

  ghost predicate ReportsOn(q: Problem, agents: seq<Agent>, ns: string) {
    exists t :: Reports(q, agents, ns, t)
  }

  lemma ProblemsOfExactly(agents: seq<Agent>, ns: string, q: Problem)
    ensures q in ProblemsOf(ns, Members(agents, ns)) <==> ReportsOn(q, agents, ns)
  {
    var members := Members(agents, ns);
    assert q in ProblemIfAny(ns, members, Unhealthy) <==> Reports(q, agents, ns, Unhealthy);
    assert q in ProblemIfAny(ns, members, Drift) <==> Reports(q, agents, ns, Drift);
    assert q in ProblemIfAny(ns, members, Unreachable) <==> Reports(q, agents, ns, Unreachable);
  }

  lemma NamedIn(names: seq<string>, q: Problem, agents: seq<Agent>)
    requires names != []
    ensures var m := |names| - 1;
            (exists ns :: ns in names && ReportsOn(q, agents, ns)) <==>
            (exists ns :: ns in names[..m] && ReportsOn(q, agents, ns)) || ReportsOn(q, agents, names[m])
  {
    var m := |names| - 1;
    assert forall ns :: ns in names <==> ns in names[..m] || ns == names[m];
  }

  lemma {:induction false} FoundExactly(agents: seq<Agent>, names: seq<string>, q: Problem)
    ensures q in Found(agents, names) <==> exists ns :: ns in names && ReportsOn(q, agents, ns)
  {
    if names != [] {
      var m := |names| - 1;
      FoundExactly(agents, names[..m], q);
      ProblemsOfExactly(agents, names[m], q);
      NamedIn(names, q, agents);
    }
  }

  /** The list holds exactly one problem for each namespace and trouble that somebody there suffers from. */
  lemma ProblemsAreExact(agents: seq<Agent>, q: Problem)
    ensures q in Problems(agents) <==> exists ns :: ns in Names(agents) && ReportsOn(q, agents, ns)
    ensures Sorted(Problems(agents))
  {
    SortIsStable(Found(agents, Names(agents)), Critical, 0);
    FoundExactly(agents, Names(agents), q);
  }

  // ---------------------------------------------------------------- identities

  lemma IdsDiffer(ns: string, ms: string, t: Trouble, u: Trouble)
    requires ns != ms || t != u
    ensures IdPrefix(t) + ns != IdPrefix(u) + ms
  {
    var x, y := IdPrefix(t) + ns, IdPrefix(u) + ms;
    if t == u {
      assert x[|IdPrefix(t)|..] == ns && y[|IdPrefix(u)|..] == ms;
    } else {
      assert IdPrefix(Unhealthy)[0] == 'u' && IdPrefix(Drift)[0] == 'd' && IdPrefix(Unreachable)[0] == 'd';
      assert IdPrefix(Drift)[1] == 'r' && IdPrefix(Unreachable)[1] == 'i';
      assert x[0] == IdPrefix(t)[0] && y[0] == IdPrefix(u)[0] && x[1] == IdPrefix(t)[1] && y[1] == IdPrefix(u)[1];
    }
  }

  ghost predicate DistinctIds(ps: seq<Problem>) {
    forall i, j :: 0 <= i < j < |ps| ==> ps[i].id != ps[j].id
  }

  lemma DistinctConcat(a: seq<Problem>, b: seq<Problem>)
    requires DistinctIds(a) && DistinctIds(b) && forall p, q :: p in a && q in b ==> p.id != q.id
    ensures DistinctIds(a + b)
  {
    forall i, j | 0 <= i < j < |a + b| ensures (a + b)[i].id != (a + b)[j].id {
      if i < |a| && j >= |a| { assert a[i] in a && b[j - |a|] in b; }
    }
  }

  lemma IfAnyNamed(ns: string, members: seq<Agent>, t: Trouble)
    ensures forall q :: q in ProblemIfAny(ns, members, t) ==> q.id == IdPrefix(t) + ns
    ensures |ProblemIfAny(ns, members, t)| <= 1
  {
  }

  lemma ProblemsOfDistinct(ns: string, members: seq<Agent>)
    ensures DistinctIds(ProblemsOf(ns, members))
    ensures forall q :: q in ProblemsOf(ns, members) ==> exists t :: q.id == IdPrefix(t) + ns
  {
    var a, b := ProblemIfAny(ns, members, Unhealthy), ProblemIfAny(ns, members, Drift);
    var c := ProblemIfAny(ns, members, Unreachable);
    IfAnyNamed(ns, members, Unhealthy);
    IfAnyNamed(ns, members, Drift);
    IfAnyNamed(ns, members, Unreachable);
    IdsDiffer(ns, ns, Unhealthy, Drift);
    IdsDiffer(ns, ns, Unhealthy, Unreachable);
    IdsDiffer(ns, ns, Drift, Unreachable);
    DistinctConcat(a, b);
    DistinctConcat(a + b, c);
  }

  lemma {:induction false} FoundDistinct(agents: seq<Agent>, names: seq<string>)
    requires Distinct(names)
    ensures DistinctIds(Found(agents, names))
  {
    if names != [] {
      var m := |names| - 1;
      var a, b := Found(agents, names[..m]), ProblemsOf(names[m], Members(agents, names[m]));
      FoundDistinct(agents, names[..m]);
      ProblemsOfDistinct(names[m], Members(agents, names[m]));
      forall p, q | p in a && q in b ensures p.id != q.id {
        FoundExactly(agents, names[..m], p);
        var ns :| ns in names[..m] && ReportsOn(p, agents, ns);
        var t :| Reports(p, agents, ns, t);
        var u :| q.id == IdPrefix(u) + names[m];
        IdsDiffer(ns, names[m], t, u);
      }
      DistinctConcat(a, b);
    }
  }

  lemma {:induction false} InsertDistinct(p: Problem, sorted: seq<Problem>)
    requires DistinctIds(sorted) && forall q :: q in sorted ==> q.id != p.id
    ensures DistinctIds(Insert(p, sorted))
  {
    if sorted != [] && !Before(p, sorted[0]) {
      InsertDistinct(p, sorted[1..]);
      InsertMembers(p, sorted[1..]);
      assert forall q :: q in sorted[1..] ==> q in sorted;
      forall q | q in Insert(p, sorted[1..]) ensures q.id != sorted[0].id {
        if q != p {
          var k :| 0 <= k < |sorted[1..]| && sorted[1..][k] == q;
          assert sorted[k + 1] == q;
        } else {
          assert sorted[0] in sorted;
        }
      }
      DistinctConcat([sorted[0]], Insert(p, sorted[1..]));
    }
  }

  lemma {:induction false} SortDistinct(ps: seq<Problem>)
    requires DistinctIds(ps)
    ensures DistinctIds(StableSort(ps))
  {
    if ps != [] {
      var before, p := ps[..|ps| - 1], ps[|ps| - 1];
      SortDistinct(before);
      SortIsStable(before, Critical, 0);
      forall q | q in StableSort(before) ensures q.id != p.id {
        var k :| 0 <= k < |before| && before[k] == q;
        assert ps[k] == q;
      }
      InsertDistinct(p, StableSort(before));
    }
  }

  /** No two problems share an id. */
  lemma ProblemIdsAreUnique(agents: seq<Agent>)
    ensures DistinctIds(Problems(agents))
  {
    NamesMeaning(agents);
    FoundDistinct(agents, Names(agents));
    SortDistinct(Found(agents, Names(agents)));
  }

  // ---------------------------------------------------------------- conservation

  /** The agents that the problems of one kind speak of, added up. */
  function Reported(ps: seq<Problem>, t: Trouble): nat {
    if ps == [] then 0
    else Reported(ps[..|ps| - 1], t) +
         if ps[|ps| - 1].id == IdPrefix(t) + ps[|ps| - 1].namespace then ps[|ps| - 1].count else 0
  }

  lemma {:induction false} ReportedConcat(a: seq<Problem>, b: seq<Problem>, t: Trouble)
    ensures Reported(a + b, t) == Reported(a, t) + Reported(b, t)
  {
    if b == [] {
      assert a + b == a;
    } else {
      ReportedConcat(a, b[..|b| - 1], t);
      assert (a + b)[..|a + b| - 1] == a + b[..|b| - 1];
    }
  }

  lemma ReportedIfAny(ns: string, members: seq<Agent>, u: Trouble, t: Trouble)
    ensures Reported(ProblemIfAny(ns, members, u), t) == if u == t then Count(members, Suffers(t)) else 0
  {
    if u != t { IdsDiffer(ns, ns, u, t); }
    var ps := ProblemIfAny(ns, members, u);
    assert ps != [] ==> ps[..|ps| - 1] == [];
  }

  lemma {:induction false} ReportedFound(agents: seq<Agent>, names: seq<string>, t: Trouble)
    ensures Reported(Found(agents, names), t) == Total(agents, names, Suffers(t))
  {
    if names != [] {
      var m := |names| - 1;
      var members := Members(agents, names[m]);
      ReportedFound(agents, names[..m], t);
      forall u
        ensures Reported(ProblemIfAny(names[m], members, u), t) == if u == t then Count(members, Suffers(t)) else 0
      {
        ReportedIfAny(names[m], members, u, t);
      }
      ReportedConcat(ProblemIfAny(names[m], members, Unhealthy), ProblemIfAny(names[m], members, Drift), t);
      ReportedConcat(ProblemIfAny(names[m], members, Unhealthy) + ProblemIfAny(names[m], members, Drift),
                     ProblemIfAny(names[m], members, Unreachable), t);
      ReportedConcat(Found(agents, names[..m]), ProblemsOf(names[m], members), t);
    }
  }

  lemma {:induction false} ReportedInsert(p: Problem, sorted: seq<Problem>, t: Trouble)
    ensures Reported(Insert(p, sorted), t) == Reported(sorted, t) + Reported([p], t)
  {
    if sorted == [] {
    } else if Before(p, sorted[0]) {
      ReportedConcat([p], sorted, t);
    } else {
      ReportedInsert(p, sorted[1..], t);
      ReportedConcat([sorted[0]], Insert(p, sorted[1..]), t);
      ReportedConcat([sorted[0]], sorted[1..], t);
      assert [sorted[0]] + sorted[1..] == sorted;
    }
  }

  lemma {:induction false} ReportedSort(ps: seq<Problem>, t: Trouble)
    ensures Reported(StableSort(ps), t) == Reported(ps, t)
  {
    if ps != [] {
      var before, p := ps[..|ps| - 1], ps[|ps| - 1];
      ReportedSort(before, t);
      ReportedInsert(p, StableSort(before), t);
      ReportedConcat(before, [p], t);
      FrontAndLast(ps);
    }
  }

  /** The problem counts of a kind add up to the fleet-wide counter that the overview shows. */
  lemma ProblemsConserveAgents(agents: seq<Agent>, t: Trouble)
    ensures Reported(Problems(agents), t) == Count(agents, Suffers(t))
  {
    ReportedSort(Found(agents, Names(agents)), t);
    ReportedFound(agents, Names(agents), t);
    GroupsConserve(agents, Suffers(t));
  }

  /**
   The summary and the problem list agree: a row's disconnected counter is the count of its problem,
   and without one it is zero.
   */
  lemma SummaryMatchesProblems(agents: seq<Agent>, ns: string)
    requires ns in Names(agents)
    ensures var row := SummaryOf(ns, Members(agents, ns));
            && (row.disconnected > 0 ==>
                  Problem("disconnected:" + ns, Warning, ns, row.disconnected) in Problems(agents))
            && (row.disconnected == 0 ==> forall q :: q in Problems(agents) ==> q.id != "disconnected:" + ns)
  {
    var members := Members(agents, ns);
    SummaryMeaning(ns, members);
    var row := SummaryOf(ns, members);
    if row.disconnected > 0 {
      var q := ProblemOf(ns, members, Unreachable);
      ProblemsAreExact(agents, q);
      assert Reports(q, agents, ns, Unreachable) && ReportsOn(q, agents, ns);
    } else {
      forall q | q in Problems(agents) ensures q.id != "disconnected:" + ns {
        ProblemsAreExact(agents, q);
        var m :| m in Names(agents) && ReportsOn(q, agents, m);
        var t :| Reports(q, agents, m, t);
        assert (m, t) != (ns, Unreachable);
        IdsDiffer(m, ns, t, Unreachable);
      }
    }
  }

  // ---------------------------------------------------------------- the two problem views

  /** What the alerts page lists: everything, or what is not acknowledged. */
  function Visible(ps: seq<Problem>, acked: set<string>, showAcked: bool): seq<Problem> {
    if ps == [] then []
    else
      var p := ps[|ps| - 1];
      Visible(ps[..|ps| - 1], acked, showAcked) + if showAcked || p.id !in acked then [p] else []
  }

  const VISIBLE_CAP: nat := 3

  /** What the overview lists. */
  function Shown(ps: seq<Problem>, acked: set<string>, showAcked: bool): seq<Problem> {
    var unhidden := Visible(ps, acked, showAcked);
    if |unhidden| <= VISIBLE_CAP then unhidden else unhidden[..VISIBLE_CAP]
  }

  lemma {:induction false} VisibleMembers(ps: seq<Problem>, acked: set<string>, showAcked: bool, q: Problem)
    ensures q in Visible(ps, acked, showAcked) <==> q in ps && (showAcked || q.id !in acked)
  {
    if ps != [] {
      var before := ps[..|ps| - 1];
      VisibleMembers(before, acked, showAcked, q);
      assert ps == before + [ps[|ps| - 1]];
    }
  }

  lemma {:induction false} VisibleSorted(ps: seq<Problem>, acked: set<string>, showAcked: bool)
    requires Sorted(ps)
    ensures Sorted(Visible(ps, acked, showAcked))
  {
    if ps != [] {
      var before := ps[..|ps| - 1];
      VisibleSorted(before, acked, showAcked);
      var vs := Visible(before, acked, showAcked);
      forall i | 0 <= i < |vs| ensures !Before(ps[|ps| - 1], vs[i]) {
        VisibleMembers(before, acked, showAcked, vs[i]);
        assert vs[i] in before;
      }
    }
  }

  lemma SortedCut(ps: seq<Problem>, n: nat)
    requires Sorted(ps) && n <= |ps|
    ensures forall p, q :: p in ps[..n] && q in ps[n..] ==> !Before(q, p)
  {
    forall p, q | p in ps[..n] && q in ps[n..] ensures !Before(q, p) {
      var i :| 0 <= i < n && ps[i] == p;
      var j :| 0 <= j < |ps| - n && ps[n..][j] == q;
      assert ps[n + j] == q;
    }
  }

  /** The overview starts the alerts page's list, and nothing it leaves out is more urgent than anything it shows. */
  lemma OverviewShowsTheWorst(agents: seq<Agent>, acked: set<string>, showAcked: bool)
    ensures var visible := Visible(Problems(agents), acked, showAcked);
            var shown := Shown(Problems(agents), acked, showAcked);
            && shown <= visible
            && (|shown| == VISIBLE_CAP || shown == visible)
            && forall p, q :: p in shown && q in visible[|shown|..] ==> !Before(q, p)
  {
    var visible := Visible(Problems(agents), acked, showAcked);
    SortIsStable(Found(agents, Names(agents)), Critical, 0);
    VisibleSorted(Problems(agents), acked, showAcked);
    var n := |Shown(Problems(agents), acked, showAcked)|;
    SortedCut(visible, n);
  }

  lemma {:induction false} HidingNone(ps: seq<Problem>, acked: set<string>, id: string)
    requires forall k :: 0 <= k < |ps| ==> ps[k].id != id
    ensures Visible(ps, acked + {id}, false) == Visible(ps, acked, false)
  {
    if ps != [] {
      var before, p := ps[..|ps| - 1], ps[|ps| - 1];
      HidingNone(before, acked, id);
      assert p.id != id;
      assert p.id in acked + {id} <==> p.id in acked;
    }
  }

  lemma {:induction false} HidingOne(ps: seq<Problem>, acked: set<string>, k: nat) returns (i: nat)
    requires DistinctIds(ps) && k < |ps| && ps[k].id !in acked
    ensures i < |Visible(ps, acked, false)| && Visible(ps, acked, false)[i] == ps[k]
    ensures Visible(ps, acked + {ps[k].id}, false) ==
            Visible(ps, acked, false)[..i] + Visible(ps, acked, false)[i + 1..]
  {
    var n := |ps| - 1;
    var before := ps[..n];
    var seen := Visible(before, acked, false);
    if k == n {
      HidingNone(before, acked, ps[n].id);
      i := |seen|;
    } else {
      i := HidingOne(before, acked, k);
      var more := if ps[n].id in acked then [] else [ps[n]];
      assert Visible(ps, acked, false) == seen + more;
      assert (seen + more)[i + 1..] == seen[i + 1..] + more;
    }
  }

  /** Acknowledging a listed problem hides that one and moves no other. */
  lemma AcknowledgingHidesOne(agents: seq<Agent>, acked: set<string>, p: Problem)
    requires p in Visible(Problems(agents), acked, false)
    ensures var seen, left := Visible(Problems(agents), acked, false), Visible(Problems(agents), acked + {p.id}, false);
            exists i :: 0 <= i < |seen| && seen[i] == p && left == seen[..i] + seen[i + 1..]
  {
    var ps := Problems(agents);
    ProblemIdsAreUnique(agents);
    VisibleMembers(ps, acked, false, p);
    var k :| 0 <= k < |ps| && ps[k] == p;
    var i := HidingOne(ps, acked, k);
  }
}
