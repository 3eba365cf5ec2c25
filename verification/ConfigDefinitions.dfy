/** A component's own settings reach the generated text, and every list is the one of its own group. */
module ConfigDefinitions {
  import opened Common
  import opened ConfigBuilder
  import opened ConfigReader
  import opened ConfigRoundTrip
  import Text

  // ---------------------------------------------------------------- the reader

  /** The lines up to the next key or empty line. */
  function BeforeKey(lines: seq<string>): seq<string> {
    if lines == [] || lines[0] == "" || KeyOf(lines[0]).Some? then [] else [lines[0]] + BeforeKey(lines[1..])
  }

  /** The line that opens a key's mapping and the lines below it. */
  function Under(lines: seq<string>, id: string): seq<string> {
    if lines == [] then []
    else if KeyOf(lines[0]) == Some(id) then [lines[0]] + BeforeKey(lines[1..])
    else Under(lines[1..], id)
  }

  ghost predicate Stands(all: seq<string>, kept: seq<string>, at: seq<nat>) {
    && |at| == |kept|
    && forall k :: 0 <= k < |at| ==> at[k] < |all| && all[at[k]] == kept[k] && kept[k] != ""
  }

  ghost predicate Increasing(at: seq<nat>) {
    forall k, l :: 0 <= k < l < |at| ==> at[k] < at[l]
  }

  ghost predicate Covers(all: seq<string>, at: seq<nat>) {
    forall i :: 0 <= i < |all| && all[i] != "" ==> i in at
  }

  /** Line `k` of `kept` is line `at[k]` of `all`, and those are the lines of `all` that are not empty. */
  ghost predicate Picks(all: seq<string>, kept: seq<string>, at: seq<nat>) {
    Stands(all, kept, at) && Increasing(at) && Covers(all, at)
  }

  /** `kept` is `all` without its empty lines, in order. */
  ghost predicate WithoutEmpty(all: seq<string>, kept: seq<string>) {
    exists at: seq<nat> :: Picks(all, kept, at)
  }

  ghost predicate IndentedBy2(kept: seq<string>, lines: seq<string>) {
    |lines| == |kept| && forall k :: 0 <= k < |kept| ==> lines[k] == "  " + kept[k]
  }

  /** The definition in the text: the lines of the yaml that are not empty, two blanks before each. */
  ghost predicate Renders(yaml: string, lines: seq<string>) {
    exists kept: seq<string> :: WithoutEmpty(Text.Split(yaml, '\n'), kept) && IndentedBy2(kept, lines)
  }

  /** Entry `c` is the first one of the list with this id. */
  predicate FirstWith(list: seq<Component>, id: string, c: int) {
    0 <= c < |list| && list[c].id == id && forall d :: 0 <= d < c ==> list[d].id != id
  }

  /** The catalog's first component with the id, as it is, or an empty mapping for an unknown id. */
  ghost predicate Defines(list: seq<Component>, id: string, lines: seq<string>) {
    && (forall c :: FirstWith(list, id, c) ==> Renders(list[c].yaml, lines))
    && ((forall c :: !FirstWith(list, id, c)) ==> lines == ["  " + id + ":"])
  }

  // ---------------------------------------------------------------- proofs

  function Later(at: seq<nat>): seq<nat> {
    seq(|at|, k requires 0 <= k < |at| => at[k] + 1)
  }

  lemma LaterHas(at: seq<nat>, i: nat)
    requires i in at
    ensures i + 1 in Later(at)
  {
    var k :| 0 <= k < |at| && at[k] == i;
    assert Later(at)[k] == i + 1;
  }

  lemma LaterIncreases(at: seq<nat>)
    requires Increasing(at)
    ensures Increasing(Later(at)) && Increasing([0] + Later(at))
  {
  }

  lemma LaterCovers(all: seq<string>, at: seq<nat>)
    requires all != [] && Covers(all[1..], at)
    ensures forall i :: 1 <= i < |all| && all[i] != "" ==> i in Later(at)
  {
    forall i | 1 <= i < |all| && all[i] != "" ensures i in Later(at) {
      assert all[1..][i - 1] == all[i];
      LaterHas(at, i - 1);
    }
  }

  lemma LaterStands(all: seq<string>, kept: seq<string>, at: seq<nat>)
    requires all != [] && Stands(all[1..], kept, at)
    ensures Stands(all, kept, Later(at))
    ensures all[0] != "" ==> Stands(all, [all[0]] + kept, [0] + Later(at))
  {
    forall k | 0 <= k < |at| ensures all[at[k] + 1] == kept[k] {
      assert all[1..][at[k]] == all[at[k] + 1];
    }
  }

  lemma PicksMore(all: seq<string>, kept: seq<string>, at: seq<nat>)
    requires all != [] && Picks(all[1..], kept, at)
    ensures if all[0] == "" then Picks(all, kept, Later(at)) else Picks(all, [all[0]] + kept, [0] + Later(at))
  {
    LaterIncreases(at);
    LaterCovers(all, at);
    LaterStands(all, kept, at);
    assert ([0] + Later(at))[0] == 0;
  }

  lemma NonEmptyOfMore(all: seq<string>)
    requires all != []
    ensures NonEmpty(all) == if all[0] == "" then NonEmpty(all[1..]) else [all[0]] + NonEmpty(all[1..])
  {
  }

  lemma {:induction false} NonEmptyPicks(all: seq<string>) returns (at: seq<nat>)
    ensures Picks(all, NonEmpty(all), at)
  {
    at := [];
    if all != [] {
      var rest := NonEmptyPicks(all[1..]);
      PicksMore(all, NonEmpty(all[1..]), rest);
      NonEmptyOfMore(all);
      at := if all[0] == "" then Later(rest) else [0] + Later(rest);
    }
  }

  lemma {:induction false} FindIsFirst(list: seq<Component>, id: string) returns (c: nat)
    ensures c <= |list| && forall d :: 0 <= d < c ==> list[d].id != id
    ensures if c == |list| then Find(list, id).None? else list[c].id == id && Find(list, id) == Some(list[c])
  {
    c := 0;
    if list != [] && list[0].id != id {
      var d := FindIsFirst(list[1..], id);
      c := d + 1;
      assert forall k :: 0 < k < c ==> list[k] == list[1..][k - 1];
    }
  }

  lemma ShiftedRenders(yaml: string, kept: seq<string>, at: seq<nat>)
    requires Picks(Text.Split(yaml, '\n'), kept, at)
    ensures Renders(yaml, Shifted(kept))
  {
    assert WithoutEmpty(Text.Split(yaml, '\n'), kept);
    assert IndentedBy2(kept, Shifted(kept));
  }

  lemma KnownDefines(list: seq<Component>, id: string, c: nat)
    requires FirstWith(list, id, c) && Find(list, id) == Some(list[c]) && CleanComponent(list[c])
    ensures Renders(list[c].yaml, DefinitionLines(list, id))
  {
    var all := Text.Split(list[c].yaml, '\n');
    var at := NonEmptyPicks(all);
    CleanLines(list[c]);
    ShiftedRenders(list[c].yaml, NonEmpty(all), at);
  }

  lemma FirstIsUnique(list: seq<Component>, id: string, c: int, d: int)
    requires FirstWith(list, id, c) && FirstWith(list, id, d)
    ensures c == d
  {
  }

  lemma DefinitionLinesDefine(list: seq<Component>, id: string)
    requires forall c :: c in list ==> CleanComponent(c)
    ensures Defines(list, id, DefinitionLines(list, id))
  {
    var c := FindIsFirst(list, id);
    if c < |list| {
      assert list[c] in list && FirstWith(list, id, c);
      KnownDefines(list, id, c);
      forall d | FirstWith(list, id, d) ensures d == c { FirstIsUnique(list, id, c, d); }
    }
  }

  /** A line that ends a definition: the next key, or an empty line. */
  predicate Ends(lines: seq<string>) {
    lines != [] && (lines[0] == "" || KeyOf(lines[0]).Some?)
  }

  /** A definition is one line with its key and deeper lines. */
  ghost predicate OneDefinition(lines: seq<string>, id: string) {
    && lines != [] && KeyOf(lines[0]) == Some(id)
    && forall i :: 1 <= i < |lines| ==> lines[i] != "" && KeyOf(lines[i]).None?
  }

  lemma DefinitionIsOne(list: seq<Component>, id: string)
    requires CleanId(id) && forall c :: c in list ==> CleanComponent(c)
    ensures OneDefinition(DefinitionLines(list, id), id)
  {
    FindFinds(list, id);
    KeyOfOpening(id);
    var c := Find(list, id);
    if c.None? {
      assert "  " + id + ":" == "  " + (id + ":");
    } else {
      CleanLines(c.value);
    }
  }

  lemma {:induction false} BeforeKeyStops(lines: seq<string>, rest: seq<string>)
    requires Ends(rest) && forall i :: 0 <= i < |lines| ==> lines[i] != "" && KeyOf(lines[i]).None?
    ensures BeforeKey(lines + rest) == lines
  {
    if lines == [] {
      assert lines + rest == rest;
    } else {
      BeforeKeyStops(lines[1..], rest);
      assert (lines + rest)[1..] == lines[1..] + rest;
    }
  }

  lemma UnderFirst(lines: seq<string>, rest: seq<string>, id: string)
    requires OneDefinition(lines, id) && Ends(rest)
    ensures Under(lines + rest, id) == lines
  {
    assert (lines + rest)[1..] == lines[1..] + rest;
    BeforeKeyStops(lines[1..], rest);
    assert lines == [lines[0]] + lines[1..];
  }

  lemma {:induction false} UnderSkips(lines: seq<string>, rest: seq<string>, id: string)
    requires id !in KeysIn(lines)
    ensures Under(lines + rest, id) == Under(rest, id)
  {
    if lines == [] {
      assert lines + rest == rest;
    } else {
      UnderSkips(lines[1..], rest, id);
      assert (lines + rest)[1..] == lines[1..] + rest;
    }
  }

  lemma {:induction false} UnderBlock(list: seq<Component>, ids: seq<string>, m: nat, rest: seq<string>)
    requires m < |ids| && CleanIds(ids) && Distinct(ids) && Ends(rest)
    requires forall c :: c in list ==> CleanComponent(c)
    ensures Under(BlockLines(list, ids) + rest, ids[m]) == DefinitionLines(list, ids[m])
  {
    var before, last := ids[..|ids| - 1], ids[|ids| - 1];
    var front, def := BlockLines(list, before), DefinitionLines(list, last);
    DefinitionIsOne(list, last);
    AppendIsAssociative(front, def, rest);
    if m == |ids| - 1 {
      BlockDefines(list, before);
      UnderSkips(front, def + rest, last);
      UnderFirst(def, rest, last);
    } else {
      UnderBlock(list, before, m, def + rest);
    }
  }

  /** Under every selected id of a group the text has the lines of the group's own catalog entry. */
  lemma DefinitionsReadBack(catalog: Catalog, signals: seq<Signal>, selections: Selections, g: Group, id: string)
    requires CleanCatalog(catalog) && CleanSelections(signals, selections)
    requires id in Union(signals, selections, g)
    ensures Defines(Offered(catalog, g), id,
                    Under(SectionOf(Lines(Generated(catalog, signals, selections)), Heading(g)), id))
  {
    var ids, list := Union(signals, selections, g), Offered(catalog, g);
    GroupSection(catalog, signals, selections, g);
    UnionIsClean(signals, selections, g);
    UnionMeaning(signals, selections, g);
    var m :| 0 <= m < |ids| && ids[m] == id;
    UnderBlock(list, ids, m, [""]);
    DefinitionLinesDefine(list, id);
  }

  // ---------------------------------------------------------------- the document as the user selected it

  /** The section under a heading defines exactly the ids somebody uses, each as the list has it. */
  ghost predicate SectionIs(text: string, heading: string, list: seq<Component>, used: string -> bool) {
    var section := SectionOf(Lines(text), heading);
    forall id :: (id in KeysIn(section) <==> used(id)) && (used(id) ==> Defines(list, id, Under(section, id)))
  }

  ghost function UsedIn(on: Signal -> bool, selections: Selections, ids: GroupSelection -> seq<string>): string -> bool
  {
    (id: string) => exists s :: on(s) && id in ids(selections(s))
  }

  lemma {:induction false} EnabledMeans(signals: seq<Signal>, on: Signal -> bool, s: Signal)
    ensures s in EnabledAmong(signals, on) <==> s in signals && on(s)
  {
    if signals != [] { EnabledMeans(signals[1..], on, s); }
  }

  lemma EnabledIs(on: Signal -> bool, s: Signal)
    ensures s in EnabledAmong(SIGNALS, on) <==> on(s)
  {
    EnabledMeans(SIGNALS, on, s);
    assert s == SIGNALS[0] || s == SIGNALS[1] || s == SIGNALS[2];
  }

  lemma UnionIsUsed(on: Signal -> bool, selections: Selections, g: Group,
                    ids: GroupSelection -> seq<string>, id: string)
    requires forall sel :: ids(sel) == Chosen(sel, g)
    ensures id in Union(EnabledAmong(SIGNALS, on), selections, g) <==> UsedIn(on, selections, ids)(id)
  {
    UnionMeaning(EnabledAmong(SIGNALS, on), selections, g);
    forall s
      ensures s in EnabledAmong(SIGNALS, on) && id in Chosen(selections(s), g) <==> on(s) && id in ids(selections(s))
    {
      EnabledIs(on, s);
    }
  }

  lemma GroupIsSection(catalog: Catalog, on: Signal -> bool, selections: Selections, g: Group, heading: string,
                       list: seq<Component>, ids: GroupSelection -> seq<string>)
    requires CleanCatalog(catalog) && CleanSelections(EnabledAmong(SIGNALS, on), selections)
    requires heading == Heading(g) && list == Offered(catalog, g) && forall sel :: ids(sel) == Chosen(sel, g)
    ensures SectionIs(Generated(catalog, EnabledAmong(SIGNALS, on), selections), heading, list,
                      UsedIn(on, selections, ids))
  {
    var signals := EnabledAmong(SIGNALS, on);
    var text := Generated(catalog, signals, selections);
    var section := SectionOf(Lines(text), heading);
    BlocksDefineUnion(catalog, signals, selections, g);
    assert KeysIn(section) == Union(signals, selections, g);
    forall id
      ensures id in KeysIn(section) <==> UsedIn(on, selections, ids)(id)
      ensures UsedIn(on, selections, ids)(id) ==> Defines(list, id, Under(section, id))
    {
      UnionIsUsed(on, selections, g, ids, id);
      if id in Union(signals, selections, g) { DefinitionsReadBack(catalog, signals, selections, g, id); }
    }
  }

  /**
   Every section of an accepted configuration defines what the enabled signals select from its own
   list, and nothing else, each component with its settings from its own part of the catalog.
   */
  lemma SectionsAreAsSelected(catalog: Catalog, on: Signal -> bool, selections: Selections, text: string)
    requires CleanCatalog(catalog) && CleanSelections(EnabledAmong(SIGNALS, on), selections)
    requires text == Generated(catalog, EnabledAmong(SIGNALS, on), selections)
    ensures SectionIs(text, "receivers:", catalog.receivers,
                      UsedIn(on, selections, (sel: GroupSelection) => sel.receivers))
    ensures SectionIs(text, "processors:", catalog.processors,
                      UsedIn(on, selections, (sel: GroupSelection) => sel.processors))
    ensures SectionIs(text, "connectors:", catalog.connectors,
                      UsedIn(on, selections, (sel: GroupSelection) => sel.connectors))
    ensures SectionIs(text, "exporters:", catalog.exporters,
                      UsedIn(on, selections, (sel: GroupSelection) => sel.exporters))
    ensures SectionIs(text, "extensions:", catalog.extensions,
                      UsedIn(on, selections, (sel: GroupSelection) => sel.extensions))
  {
    GroupIsSection(catalog, on, selections, Receivers, "receivers:", catalog.receivers,
                   (sel: GroupSelection) => sel.receivers);
    GroupIsSection(catalog, on, selections, Processors, "processors:", catalog.processors,
                   (sel: GroupSelection) => sel.processors);
    GroupIsSection(catalog, on, selections, Connectors, "connectors:", catalog.connectors,
                   (sel: GroupSelection) => sel.connectors);
    GroupIsSection(catalog, on, selections, Exporters, "exporters:", catalog.exporters,
                   (sel: GroupSelection) => sel.exporters);
    GroupIsSection(catalog, on, selections, Extensions, "extensions:", catalog.extensions,
                   (sel: GroupSelection) => sel.extensions);
  }

  // ---------------------------------------------------------------- the order of a section

  /** `ids` are the elements of `all`, each once, in the order in which they first occur: at the places `at`. */
  ghost predicate FirstUses(all: seq<string>, ids: seq<string>, at: seq<nat>) {
    && |at| == |ids| && Increasing(at)
    && (forall k :: 0 <= k < |at| ==> at[k] < |all| && all[at[k]] == ids[k] && ids[k] !in all[..at[k]])
    && (forall id :: id in all ==> id in ids)
  }

  lemma UsedBefore(all: seq<string>, ids: seq<string>, at: seq<nat>, x: string)
    requires FirstUses(all, ids, at) && x in all
    ensures FirstUses(all + [x], ids, at)
  {
    forall k | 0 <= k < |at| ensures ids[k] !in (all + [x])[..at[k]] {
      assert (all + [x])[..at[k]] == all[..at[k]];
    }
  }

  lemma FirstUsed(all: seq<string>, ids: seq<string>, at: seq<nat>, x: string)
    requires FirstUses(all, ids, at) && x !in all
    ensures FirstUses(all + [x], ids + [x], at + [|all|])
  {
    forall k | 0 <= k < |at| + 1 ensures (ids + [x])[k] !in (all + [x])[..(at + [|all|])[k]] {
      assert (all + [x])[..(at + [|all|])[k]] == all[..(at + [|all|])[k]];
    }
  }

  lemma FirstUsesAreUsed(all: seq<string>, ids: seq<string>, at: seq<nat>, x: string)
    requires FirstUses(all, ids, at)
    ensures x in ids <==> x in all
  {
    if x in ids {
      var k :| 0 <= k < |ids| && ids[k] == x;
      assert all[at[k]] == x;
    }
  }

  lemma {:induction false} AddedInOrder(all: seq<string>, acc: seq<string>, at: seq<nat>, ids: seq<string>)
    returns (at': seq<nat>)
    requires FirstUses(all, acc, at)
    ensures FirstUses(all + ids, AddAll(acc, ids), at')
  {
    if ids == [] {
      NothingAppended(all);
      at' := at;
    } else {
      var before, x := ids[..|ids| - 1], ids[|ids| - 1];
      at' := AddedInOrder(all, acc, at, before);
      FrontAndLast(ids);
      AppendIsAssociative(all, before, [x]);
      FirstUsesAreUsed(all + before, AddAll(acc, before), at', x);
      if x in all + before {
        UsedBefore(all + before, AddAll(acc, before), at', x);
      } else {
        FirstUsed(all + before, AddAll(acc, before), at', x);
        at' := at' + [|all + before|];
      }
    }
  }

  /** What the signals select for a group, one signal after the other. */
  function AllUses(signals: seq<Signal>, selections: Selections, g: Group): seq<string> {
    if signals == [] then []
    else AllUses(signals[..|signals| - 1], selections, g) + Chosen(selections(signals[|signals| - 1]), g)
  }

  lemma {:induction false} UnionInOrder(signals: seq<Signal>, selections: Selections, g: Group) returns (at: seq<nat>)
    ensures FirstUses(AllUses(signals, selections, g), Union(signals, selections, g), at)
  {
    at := [];
    if signals != [] {
      var before, s := signals[..|signals| - 1], signals[|signals| - 1];
      at := UnionInOrder(before, selections, g);
      at := AddedInOrder(AllUses(before, selections, g), Union(before, selections, g), at, Chosen(selections(s), g));
    }
  }

  /** A section's ids, as read from the text, stand in the order of their first use. */
  lemma DefinedInOrder(catalog: Catalog, signals: seq<Signal>, selections: Selections, g: Group) returns (at: seq<nat>)
    requires CleanCatalog(catalog) && CleanSelections(signals, selections)
    ensures FirstUses(AllUses(signals, selections, g), Defined(Generated(catalog, signals, selections), g), at)
  {
    BlocksDefineUnion(catalog, signals, selections, g);
    at := UnionInOrder(signals, selections, g);
  }

  // ---------------------------------------------------------------- pipelines, headings and complaints

  /** What the text says of one signal's pipeline. */
  function PipelineOf(name: string, sel: GroupSelection): Pipeline {
    Pipeline(name, sel.receivers, sel.processors, sel.exporters + sel.connectors)
  }

  lemma AllSignals(on: Signal -> bool)
    ensures EnabledAmong(SIGNALS, on) ==
            (if on(Logs) then [Logs] else []) + (if on(Metrics) then [Metrics] else []) +
            (if on(Traces) then [Traces] else [])
  {
    assert SIGNALS[1..] == [Metrics, Traces] && SIGNALS[1..][1..] == [Traces] && SIGNALS[1..][1..][1..] == [];
  }

  /** At most one signal's pipeline. */
  function PipelineIf(on: bool, name: string, sel: GroupSelection): seq<Pipeline> {
    if on then [PipelineOf(name, sel)] else []
  }

  lemma SelectedConcat(a: seq<Signal>, b: seq<Signal>, selections: Selections)
    ensures SelectedAll(a + b, selections) == SelectedAll(a, selections) + SelectedAll(b, selections)
  {
  }

  lemma SelectedOne(on: bool, s: Signal, selections: Selections, name: string)
    requires name == Name(s)
    ensures SelectedAll(if on then [s] else [], selections) == PipelineIf(on, name, selections(s))
  {
  }

  lemma SelectedIs(on: Signal -> bool, selections: Selections)
    ensures SelectedAll(EnabledAmong(SIGNALS, on), selections) ==
            PipelineIf(on(Logs), "logs", selections(Logs)) + PipelineIf(on(Metrics), "metrics", selections(Metrics)) +
            PipelineIf(on(Traces), "traces", selections(Traces))
  {
    var l, m := if on(Logs) then [Logs] else [], if on(Metrics) then [Metrics] else [];
    var t := if on(Traces) then [Traces] else [];
    AllSignals(on);
    SelectedConcat(l, m, selections);
    SelectedConcat(l + m, t, selections);
    SelectedOne(on(Logs), Logs, selections, "logs");
    SelectedOne(on(Metrics), Metrics, selections, "metrics");
    SelectedOne(on(Traces), Traces, selections, "traces");
  }

  /** Each enabled signal has one pipeline under its own name, in this order, with its own lists. */
  lemma PipelinesAreAsSelected(catalog: Catalog, on: Signal -> bool, selections: Selections, text: string)
    requires CleanSelections(EnabledAmong(SIGNALS, on), selections)
    requires forall s :: on(s) ==> selections(s).receivers != [] && selections(s).exporters != []
    requires text == Generated(catalog, EnabledAmong(SIGNALS, on), selections)
    ensures ReadService(text).pipelines ==
            PipelineIf(on(Logs), "logs", selections(Logs)) + PipelineIf(on(Metrics), "metrics", selections(Metrics)) +
            PipelineIf(on(Traces), "traces", selections(Traces))
  {
    var signals := EnabledAmong(SIGNALS, on);
    forall s | s in signals ensures !Incomplete(selections(s)) { EnabledIs(on, s); }
    ServiceReadsBack(catalog, signals, selections);
    SelectedIs(on, selections);
  }

  /** Some enabled signal selects something in this list. */
  ghost predicate Uses(on: Signal -> bool, selections: Selections, ids: GroupSelection -> seq<string>) {
    exists s :: on(s) && ids(selections(s)) != []
  }

  lemma UnionIsEmptyIff(on: Signal -> bool, selections: Selections, g: Group, ids: GroupSelection -> seq<string>)
    requires forall sel :: ids(sel) == Chosen(sel, g)
    ensures Union(EnabledAmong(SIGNALS, on), selections, g) != [] <==> Uses(on, selections, ids)
  {
    var union := Union(EnabledAmong(SIGNALS, on), selections, g);
    if union != [] {
      UnionIsUsed(on, selections, g, ids, union[0]);
    }
    if s :| on(s) && ids(selections(s)) != [] {
      UnionIsUsed(on, selections, g, ids, ids(selections(s))[0]);
    }
  }

  lemma OneHeading(catalog: Catalog, ids: seq<string>, g: Group, optional: bool)
    ensures HeadingsOf(GroupBlock(catalog, ids, g, optional)) == if optional && ids == [] then [] else [Heading(g)]
  {
  }

  lemma HeadingsConcat(a: seq<Block>, b: seq<Block>)
    ensures HeadingsOf(a + b) == HeadingsOf(a) + HeadingsOf(b)
  {
  }

  lemma FiveHeadings(a: seq<Block>, b: seq<Block>, c: seq<Block>, d: seq<Block>, e: seq<Block>, h: string, k: string)
    requires HeadingsOf(b) == [h] && HeadingsOf(e) == [k]
    ensures HeadingsOf(a + b + c + d + e) == HeadingsOf(a) + [h] + HeadingsOf(c) + HeadingsOf(d) + [k]
  {
    HeadingsConcat(a, b);
    HeadingsConcat(a + b, c);
    HeadingsConcat(a + b + c, d);
    HeadingsConcat(a + b + c + d, e);
  }

  lemma RequiredHeadings(catalog: Catalog, ids: seq<string>)
    ensures HeadingsOf(GroupBlock(catalog, ids, Receivers, false)) == ["receivers:"]
    ensures HeadingsOf(GroupBlock(catalog, ids, Exporters, false)) == ["exporters:"]
  {
    OneHeading(catalog, ids, Receivers, false);
    OneHeading(catalog, ids, Exporters, false);
    assert Heading(Receivers) == "receivers:" && Heading(Exporters) == "exporters:";
  }

  /** A heading that stands only if something is selected under it. */
  ghost function HeadingIf(used: bool, heading: string): seq<string> {
    if used then [heading] else []
  }

  lemma OptionalHeading(catalog: Catalog, on: Signal -> bool, selections: Selections, g: Group, heading: string,
                        ids: GroupSelection -> seq<string>)
    requires Optional(g) && heading == Heading(g) && forall sel :: ids(sel) == Chosen(sel, g)
    ensures HeadingsOf(GroupBlock(catalog, Union(EnabledAmong(SIGNALS, on), selections, g), g, true)) ==
            HeadingIf(Uses(on, selections, ids), heading)
  {
    UnionIsEmptyIff(on, selections, g, ids);
    OneHeading(catalog, Union(EnabledAmong(SIGNALS, on), selections, g), g, true);
  }

  /** The headings of the definition blocks. */
  ghost function FrontHeadings(on: Signal -> bool, selections: Selections): seq<string> {
    HeadingIf(Uses(on, selections, (sel: GroupSelection) => sel.extensions), "extensions:") + ["receivers:"] +
    HeadingIf(Uses(on, selections, (sel: GroupSelection) => sel.processors), "processors:") +
    HeadingIf(Uses(on, selections, (sel: GroupSelection) => sel.connectors), "connectors:") + ["exporters:"]
  }

  lemma OptionalHeadings(catalog: Catalog, on: Signal -> bool, selections: Selections)
    ensures var signals := EnabledAmong(SIGNALS, on);
            && HeadingsOf(GroupBlock(catalog, Union(signals, selections, Extensions), Extensions, true)) ==
               HeadingIf(Uses(on, selections, (sel: GroupSelection) => sel.extensions), "extensions:")
            && HeadingsOf(GroupBlock(catalog, Union(signals, selections, Processors), Processors, true)) ==
               HeadingIf(Uses(on, selections, (sel: GroupSelection) => sel.processors), "processors:")
            && HeadingsOf(GroupBlock(catalog, Union(signals, selections, Connectors), Connectors, true)) ==
               HeadingIf(Uses(on, selections, (sel: GroupSelection) => sel.connectors), "connectors:")
  {
    OptionalHeading(catalog, on, selections, Extensions, "extensions:", (sel: GroupSelection) => sel.extensions);
    OptionalHeading(catalog, on, selections, Processors, "processors:", (sel: GroupSelection) => sel.processors);
    OptionalHeading(catalog, on, selections, Connectors, "connectors:", (sel: GroupSelection) => sel.connectors);
  }

  lemma FrontIsFive(catalog: Catalog, signals: seq<Signal>, selections: Selections)
    ensures HeadingsOf(Front(catalog, signals, selections)) ==
            HeadingsOf(GroupBlock(catalog, Union(signals, selections, Extensions), Extensions, true)) + ["receivers:"] +
            HeadingsOf(GroupBlock(catalog, Union(signals, selections, Processors), Processors, true)) +
            HeadingsOf(GroupBlock(catalog, Union(signals, selections, Connectors), Connectors, true)) + ["exporters:"]
  {
    RequiredHeadings(catalog, Union(signals, selections, Receivers));
    RequiredHeadings(catalog, Union(signals, selections, Exporters));
    FiveHeadings(GroupBlock(catalog, Union(signals, selections, Extensions), Extensions, true),
                 GroupBlock(catalog, Union(signals, selections, Receivers), Receivers, false),
                 GroupBlock(catalog, Union(signals, selections, Processors), Processors, true),
                 GroupBlock(catalog, Union(signals, selections, Connectors), Connectors, true),
                 GroupBlock(catalog, Union(signals, selections, Exporters), Exporters, false),
                 "receivers:", "exporters:");
  }

  /** The lines in column 0, in order: optional sections only when something is selected for them. */
  lemma SectionsInOrder(catalog: Catalog, on: Signal -> bool, selections: Selections, text: string)
    requires CleanSelections(EnabledAmong(SIGNALS, on), selections)
    requires text == Generated(catalog, EnabledAmong(SIGNALS, on), selections)
    ensures Headings(Lines(text)) == FrontHeadings(on, selections) + ["service:"]
  {
    TopLevelIsHeadings(catalog, EnabledAmong(SIGNALS, on), selections);
    FrontIsFive(catalog, EnabledAmong(SIGNALS, on), selections);
    OptionalHeadings(catalog, on, selections);
  }

  /** The signal is on and lacks a receiver or an exporter. */
  predicate Lacks(on: Signal -> bool, selections: Selections, s: Signal) {
    on(s) && (selections(s).receivers == [] || selections(s).exporters == [])
  }

  function Complaint(name: string): string {
    "#" + " Sélectionnez au moins un receiver et un exporter pour le signal \"" + name + "\"."
  }

  /** The signal is the one complained about, in these words. */
  ghost predicate Complains(on: Signal -> bool, selections: Selections, text: string) {
    exists i :: FirstIncomplete(EnabledAmong(SIGNALS, on), selections, i)
             && text == MissingParts(EnabledAmong(SIGNALS, on)[i])
  }

  /** A selection is rejected when no signal is on or one that is on lacks something. */
  lemma RejectedIff(on: Signal -> bool, selections: Selections)
    ensures Rejected(on, selections) <==>
            (!on(Logs) && !on(Metrics) && !on(Traces)) || exists s :: Lacks(on, selections, s)
  {
    AllSignals(on);
    forall s ensures s in EnabledAmong(SIGNALS, on) && Incomplete(selections(s)) <==> Lacks(on, selections, s) {
      EnabledIs(on, s);
    }
  }

  /** Where an enabled signal stands among the enabled ones: behind none that it does not follow anyway. */
  lemma {:induction false} EnabledAt(signals: seq<Signal>, on: Signal -> bool, k: nat) returns (i: nat)
    requires k < |signals| && on(signals[k])
    ensures i < |EnabledAmong(signals, on)| && EnabledAmong(signals, on)[i] == signals[k]
    ensures forall j :: 0 <= j < i ==> EnabledAmong(signals, on)[j] in signals[..k]
  {
    if k == 0 {
      i := 0;
    } else {
      var rest := EnabledAt(signals[1..], on, k - 1);
      assert forall s :: s in signals[1..][..k - 1] ==> s in signals[..k];
      assert signals[0] in signals[..k];
      i := if on(signals[0]) then rest + 1 else rest;
    }
  }

  lemma NamesFirst(on: Signal -> bool, selections: Selections, k: nat, name: string)
    requires k < 3 && Lacks(on, selections, SIGNALS[k]) && name == Name(SIGNALS[k])
    requires forall j :: 0 <= j < k ==> !Lacks(on, selections, SIGNALS[j])
    ensures Complains(on, selections, Complaint(name))
  {
    var enabled := EnabledAmong(SIGNALS, on);
    var i := EnabledAt(SIGNALS, on, k);
    forall j | 0 <= j < i ensures !Incomplete(selections(enabled[j])) {
      EnabledIs(on, enabled[j]);
      assert enabled[j] in enabled;
    }
    assert FirstIncomplete(enabled, selections, i);
  }

  /** The complaint names the first such signal: logs before metrics before traces. */
  lemma FirstIsNamed(on: Signal -> bool, selections: Selections)
    ensures var logs, metrics := Lacks(on, selections, Logs), Lacks(on, selections, Metrics);
            && (logs ==> Complains(on, selections, Complaint("logs")))
            && (!logs && metrics ==> Complains(on, selections, Complaint("metrics")))
            && (!logs && !metrics && Lacks(on, selections, Traces) ==> Complains(on, selections, Complaint("traces")))
  {
    if Lacks(on, selections, Logs) {
      NamesFirst(on, selections, 0, "logs");
    } else if Lacks(on, selections, Metrics) {
      NamesFirst(on, selections, 1, "metrics");
    } else if Lacks(on, selections, Traces) {
      NamesFirst(on, selections, 2, "traces");
    }
  }
}
