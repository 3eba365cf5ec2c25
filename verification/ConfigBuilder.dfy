/** The collector configuration generator: text built by appending, and the same text as lines. */
module ConfigBuilder {
  import opened Common
  import Text

  datatype Component = Component(id: string, yaml: string)

  datatype Catalog = Catalog(
    receivers: seq<Component>,
    processors: seq<Component>,
    connectors: seq<Component>,
    exporters: seq<Component>,
    extensions: seq<Component>)

  datatype Signal = Logs | Metrics | Traces

  const SIGNALS := [Logs, Metrics, Traces]

  function Name(s: Signal): string {
    match s case Logs => "logs" case Metrics => "metrics" case Traces => "traces"
  }

  datatype GroupSelection = GroupSelection(
    receivers: seq<string>,
    processors: seq<string>,
    connectors: seq<string>,
    exporters: seq<string>,
    extensions: seq<string>)

  type Selections = Signal -> GroupSelection

  // ---------------------------------------------------------------- text and lines

  /** The text of a list of lines, each ended by a newline. */
  function Unlines(lines: seq<string>): string {
    if lines == [] then "" else lines[0] + "\n" + Unlines(lines[1..])
  }

  lemma {:induction false} UnlinesConcat(a: seq<string>, b: seq<string>)
    ensures Unlines(a + b) == Unlines(a) + Unlines(b)
  {
    if a == [] {
      assert a + b == b;
    } else {
      UnlinesConcat(a[1..], b);
      assert (a + b)[1..] == a[1..] + b && (a + b)[0] == a[0];
      AppendIsAssociative(a[0] + "\n", Unlines(a[1..]), Unlines(b));
    }
  }

  lemma UnlinesOne(line: string)
    ensures Unlines([line]) == line + "\n"
  {
    assert Unlines([line]) == line + "\n" + "";
  }

  lemma {:induction false} UnlinesIsJoin(lines: seq<string>)
    requires lines != []
    ensures Unlines(lines) == Text.Join(lines, "\n") + "\n"
  {
    if |lines| == 1 {
      UnlinesOne(lines[0]);
      assert lines == [lines[0]];
    } else {
      UnlinesIsJoin(lines[1..]);
    }
  }

  // ---------------------------------------------------------------- blocks

  function NonEmpty(lines: seq<string>): seq<string> {
    if lines == [] then [] else (if |lines[0]| > 0 then [lines[0]] else []) + NonEmpty(lines[1..])
  }

  function Shifted(lines: seq<string>): seq<string> {
    seq(|lines|, i requires 0 <= i < |lines| => "  " + lines[i])
  }

  /** `indent`: the non-empty lines, two columns to the right. */
  function Indent(yaml: string): string {
    Text.Join(Shifted(NonEmpty(Text.Split(yaml, '\n'))), "\n")
  }

  function Find(catalog: seq<Component>, id: string): Option<Component> {
    if catalog == [] then None
    else if catalog[0].id == id then Some(catalog[0])
    else Find(catalog[1..], id)
  }

  /** The lines that define one component; an id outside the catalog defines an empty one. */
  function DefinitionLines(catalog: seq<Component>, id: string): seq<string> {
    var c := Find(catalog, id);
    if c.None? then ["  " + id + ":"]
    else
      var body := Shifted(NonEmpty(Text.Split(c.value.yaml, '\n')));
      if body == [] then [""] else body
  }

  function BlockLines(catalog: seq<Component>, ids: seq<string>): seq<string> {
    if ids == [] then []
    else BlockLines(catalog, ids[..|ids| - 1]) + DefinitionLines(catalog, ids[|ids| - 1])
  }

  lemma DefinitionText(catalog: seq<Component>, id: string)
    ensures var c := Find(catalog, id);
            Unlines(DefinitionLines(catalog, id)) ==
            if c.Some? then Indent(c.value.yaml) + "\n" else "  " + id + ":\n"
  {
    var c := Find(catalog, id);
    if c.Some? {
      var body := Shifted(NonEmpty(Text.Split(c.value.yaml, '\n')));
      if body == [] { UnlinesOne(""); } else { UnlinesIsJoin(body); }
    } else {
      UnlinesOne("  " + id + ":");
      assert "  " + id + ":" + "\n" == "  " + id + ":\n";
    }
  }

  method RenderBlock(catalog: seq<Component>, ids: seq<string>) returns (out: string)
    ensures out == Unlines(BlockLines(catalog, ids))
  {
    out := "";
    for i := 0 to |ids|
      invariant out == Unlines(BlockLines(catalog, ids[..i]))
    {
      var comp := Find(catalog, ids[i]);
      DefinitionText(catalog, ids[i]);
      assert ids[..i + 1][..i] == ids[..i];
      UnlinesConcat(BlockLines(catalog, ids[..i]), DefinitionLines(catalog, ids[i]));
      out := out + if comp.Some? then Indent(comp.value.yaml) + "\n" else "  " + ids[i] + ":\n";
    }
    assert ids[..|ids|] == ids;
  }

  // ---------------------------------------------------------------- sets in insertion order

  /** A JavaScript Set that holds `acc`, after adding `ids` in turn. */
  function AddAll(acc: seq<string>, ids: seq<string>): seq<string> {
    if ids == [] then acc
    else
      var before := AddAll(acc, ids[..|ids| - 1]);
      if ids[|ids| - 1] in before then before else before + [ids[|ids| - 1]]
  }

  ghost predicate Distinct(ids: seq<string>) {
    forall i, j :: 0 <= i < j < |ids| ==> ids[i] != ids[j]
  }

  lemma {:induction false} AddAllMeaning(acc: seq<string>, ids: seq<string>)
    requires Distinct(acc)
    ensures Distinct(AddAll(acc, ids))
    ensures forall id :: id in AddAll(acc, ids) <==> id in acc || id in ids
  {
    if ids != [] {
      var n := |ids| - 1;
      AddAllMeaning(acc, ids[..n]);
      assert forall id :: id in ids <==> id in ids[..n] || id == ids[n];
    }
  }

  datatype Group = Receivers | Processors | Connectors | Exporters | Extensions

  function Chosen(sel: GroupSelection, g: Group): seq<string> {
    match g
    case Receivers => sel.receivers
    case Processors => sel.processors
    case Connectors => sel.connectors
    case Exporters => sel.exporters
    case Extensions => sel.extensions
  }

  function Offered(catalog: Catalog, g: Group): seq<Component> {
    match g
    case Receivers => catalog.receivers
    case Processors => catalog.processors
    case Connectors => catalog.connectors
    case Exporters => catalog.exporters
    case Extensions => catalog.extensions
  }

  /** The ids of a group over some signals, each once, in the order of first use. */
  function Union(signals: seq<Signal>, selections: Selections, g: Group): seq<string> {
    if signals == [] then []
    else AddAll(Union(signals[..|signals| - 1], selections, g), Chosen(selections(signals[|signals| - 1]), g))
  }

  method CollectIds(signals: seq<Signal>, selections: Selections, g: Group) returns (all: seq<string>)
    ensures all == Union(signals, selections, g)
  {
    all := [];
    for i := 0 to |signals|
      invariant all == Union(signals[..i], selections, g)
    {
      var ids := Chosen(selections(signals[i]), g);
      ghost var before := all;
      for j := 0 to |ids|
        invariant all == AddAll(before, ids[..j])
      {
        assert ids[..j + 1][..j] == ids[..j];
        if ids[j] !in all {
          all := all + [ids[j]];
        }
      }
      assert ids[..|ids|] == ids && signals[..i + 1][..i] == signals[..i];
    }
    assert signals[..|signals|] == signals;
  }

  // ---------------------------------------------------------------- the whole document

  function EnabledAmong(signals: seq<Signal>, on: Signal -> bool): seq<Signal> {
    if signals == [] then []
    else (if on(signals[0]) then [signals[0]] else []) + EnabledAmong(signals[1..], on)
  }

  predicate Incomplete(sel: GroupSelection) {
    |sel.receivers| == 0 || |sel.exporters| == 0
  }

  /** The selection is turned down: no signal is on, or one that is lacks a receiver or an exporter. */
  ghost predicate Rejected(on: Signal -> bool, selections: Selections) {
    var enabled := EnabledAmong(SIGNALS, on);
    enabled == [] || exists s :: s in enabled && Incomplete(selections(s))
  }

  ghost predicate FirstIncomplete(enabled: seq<Signal>, selections: Selections, i: int) {
    0 <= i < |enabled| && Incomplete(selections(enabled[i]))
    && forall j :: 0 <= j < i ==> !Incomplete(selections(enabled[j]))
  }

  function HeadingName(g: Group): string {
    match g
    case Receivers => "receivers"
    case Processors => "processors"
    case Connectors => "connectors"
    case Exporters => "exporters"
    case Extensions => "extensions"
  }

  function Heading(g: Group): string { HeadingName(g) + ":" }

  /** A top-level line and the indented or empty lines below it. */
  datatype Block = Block(heading: string, body: seq<string>)

  /** The definitions of a group, left out when optional and empty. */
  function GroupBlock(catalog: Catalog, ids: seq<string>, g: Group, optional: bool): seq<Block> {
    if optional && |ids| == 0 then []
    else [Block(Heading(g), BlockLines(Offered(catalog, g), ids) + [""])]
  }

  function ListLine(indent: string, key: string, ids: seq<string>): string {
    indent + key + ": [" + Text.Join(ids, ", ") + "]"
  }

  function PipelineLines(s: Signal, sel: GroupSelection): seq<string> {
    ["    " + Name(s) + ":", ListLine("      ", "receivers", sel.receivers)] +
    (if |sel.processors| > 0 then [ListLine("      ", "processors", sel.processors)] else []) +
    [ListLine("      ", "exporters", sel.exporters + sel.connectors)]
  }

  function PipelinesLines(signals: seq<Signal>, selections: Selections): seq<string> {
    if signals == [] then []
    else PipelineLines(signals[0], selections(signals[0])) + PipelinesLines(signals[1..], selections)
  }

  function ServiceLines(extensions: seq<string>, signals: seq<Signal>, selections: Selections): seq<string> {
    (if |extensions| > 0 then [ListLine("  ", "extensions", extensions)] else []) +
    ["  pipelines:"] + PipelinesLines(signals, selections)
  }

  function DocumentBlocks(catalog: Catalog, signals: seq<Signal>, selections: Selections): seq<Block> {
    GroupBlock(catalog, Union(signals, selections, Extensions), Extensions, true) +
    GroupBlock(catalog, Union(signals, selections, Receivers), Receivers, false) +
    GroupBlock(catalog, Union(signals, selections, Processors), Processors, true) +
    GroupBlock(catalog, Union(signals, selections, Connectors), Connectors, true) +
    GroupBlock(catalog, Union(signals, selections, Exporters), Exporters, false) +
    [Block("service:", ServiceLines(Union(signals, selections, Extensions), signals, selections))]
  }

  function Flatten(blocks: seq<Block>): seq<string> {
    if blocks == [] then []
    else [blocks[0].heading] + blocks[0].body + Flatten(blocks[1..])
  }

  lemma {:induction false} FlattenConcat(a: seq<Block>, b: seq<Block>)
    ensures Flatten(a + b) == Flatten(a) + Flatten(b)
  {
    if a == [] {
      assert a + b == b;
    } else {
      FlattenConcat(a[1..], b);
      assert (a + b)[1..] == a[1..] + b && (a + b)[0] == a[0];
      AppendIsAssociative([a[0].heading] + a[0].body, Flatten(a[1..]), Flatten(b));
    }
  }

  /** The text of a document given as blocks. */
  function BlocksText(blocks: seq<Block>): string { Unlines(Flatten(blocks)) }

  lemma BlocksTextConcat(a: seq<Block>, b: seq<Block>)
    ensures BlocksText(a + b) == BlocksText(a) + BlocksText(b)
  {
    FlattenConcat(a, b);
    UnlinesConcat(Flatten(a), Flatten(b));
  }

  lemma OneBlockText(heading: string, body: seq<string>)
    ensures BlocksText([Block(heading, body)]) == heading + "\n" + Unlines(body)
  {
    var b := [Block(heading, body)];
    assert b[1..] == [];
    assert Flatten(b) == [heading] + body;
    UnlinesOne(heading);
    UnlinesConcat([heading], body);
  }

  const NO_SIGNAL := "#" + " Activez au moins un signal (Logs, Metrics, Traces) pour générer une configuration."

  function MissingParts(s: Signal): string {
    "#" + " Sélectionnez au moins un receiver et un exporter pour le signal \"" + Name(s) + "\"."
  }

  /** The text of one group, heading and definitions and a blank line. */
  method GroupText(catalog: seq<Component>, g: Group, ids: seq<string>) returns (out: string)
    ensures out == BlocksText([Block(Heading(g), BlockLines(catalog, ids) + [""])])
  {
    var body := RenderBlock(catalog, ids);
    out := HeadingName(g) + ":\n" + body + "\n";
    OneBlockText(Heading(g), BlockLines(catalog, ids) + [""]);
    UnlinesConcat(BlockLines(catalog, ids), [""]);
    UnlinesOne("");
    assert HeadingName(g) + ":\n" == Heading(g) + "\n";
    assert out == Heading(g) + "\n" + (body + "\n");
  }

  lemma PipelineUnlines(a: string, b: string, c: string, d: string)
    ensures Unlines([a, b] + [c] + [d]) == a + "\n" + (b + "\n") + (c + "\n") + (d + "\n")
    ensures Unlines([a, b] + [] + [d]) == a + "\n" + (b + "\n") + (d + "\n")
  {
    UnlinesOne(a); UnlinesOne(b); UnlinesOne(c); UnlinesOne(d);
    UnlinesConcat([a], [b]);
    assert [a] + [b] == [a, b];
    UnlinesConcat([a, b], [c]);
    UnlinesConcat([a, b] + [c], [d]);
    UnlinesConcat([a, b], [d]);
    assert [a, b] + [] == [a, b];
  }

  method PipelineText(s: Signal, sel: GroupSelection) returns (out: string)
    ensures out == Unlines(PipelineLines(s, sel))
  {
    var exporters := sel.exporters + sel.connectors;
    out := "    " + Name(s) + ":" + "\n";
    out := out + (ListLine("      ", "receivers", sel.receivers) + "\n");
    if |sel.processors| > 0 {
      out := out + (ListLine("      ", "processors", sel.processors) + "\n");
    }
    out := out + (ListLine("      ", "exporters", exporters) + "\n");
    PipelineUnlines("    " + Name(s) + ":", ListLine("      ", "receivers", sel.receivers),
                    ListLine("      ", "processors", sel.processors), ListLine("      ", "exporters", exporters));
  }

  method PipelinesText(signals: seq<Signal>, selections: Selections) returns (out: string)
    ensures out == Unlines(PipelinesLines(signals, selections))
  {
    out := "";
    for i := 0 to |signals|
      invariant Unlines(PipelinesLines(signals, selections)) == out + Unlines(PipelinesLines(signals[i..], selections))
    {
      var text := PipelineText(signals[i], selections(signals[i]));
      assert signals[i..][1..] == signals[i + 1..];
      UnlinesConcat(PipelineLines(signals[i], selections(signals[i])), PipelinesLines(signals[i + 1..], selections));
      out := out + text;
    }
  }

  lemma ServiceUnlines(list: string, pipelines: string, rest: seq<string>)
    ensures Unlines([list] + [pipelines] + rest) == list + "\n" + (pipelines + "\n") + Unlines(rest)
    ensures Unlines([] + [pipelines] + rest) == pipelines + "\n" + Unlines(rest)
  {
    UnlinesOne(list);
    UnlinesOne(pipelines);
    UnlinesConcat([list], [pipelines]);
    UnlinesConcat([list] + [pipelines], rest);
    UnlinesConcat([pipelines], rest);
    assert [] + [pipelines] == [pipelines];
  }

  method ServiceText(extensions: seq<string>, signals: seq<Signal>, selections: Selections) returns (out: string)
    ensures out == BlocksText([Block("service:", ServiceLines(extensions, signals, selections))])
  {
    var list := ListLine("  ", "extensions", extensions);
    var body := "";
    if |extensions| > 0 {
      body := list + "\n";
    }
    body := body + ("  pipelines:" + "\n");
    var text := PipelinesText(signals, selections);
    body := body + text;
    ServiceUnlines(list, "  pipelines:", PipelinesLines(signals, selections));
    OneBlockText("service:", ServiceLines(extensions, signals, selections));
    out := "service:" + "\n" + body;
  }

  /** The check of the enabled signals, in order: the first one that lacks a receiver or an exporter. */
  method FindIncomplete(enabled: seq<Signal>, selections: Selections) returns (bad: Option<Signal>)
    ensures bad.None? ==> forall j :: 0 <= j < |enabled| ==> !Incomplete(selections(enabled[j]))
    ensures bad.Some? ==> exists i :: FirstIncomplete(enabled, selections, i) && enabled[i] == bad.value
  {
    for i := 0 to |enabled|
      invariant forall j :: 0 <= j < i ==> !Incomplete(selections(enabled[j]))
    {
      if Incomplete(selections(enabled[i])) {
        assert FirstIncomplete(enabled, selections, i);
        return Some(enabled[i]);
      }
    }
    bad := None;
  }

  /** An accepted configuration starts with a heading, never like a comment. */
  lemma AcceptedStartsWithHeading(catalog: Catalog, signals: seq<Signal>, selections: Selections)
    ensures var text := BlocksText(DocumentBlocks(catalog, signals, selections)); text != "" && text[0] != '#'
  {
    var blocks := DocumentBlocks(catalog, signals, selections);
    assert blocks[0].heading == Heading(Extensions) || blocks[0].heading == Heading(Receivers);
    assert Flatten(blocks)[0] == blocks[0].heading;
    assert Heading(Extensions)[0] == 'e' && Heading(Receivers)[0] == 'r';
  }

  lemma RejectionsAreComments(s: Signal)
    ensures MissingParts(s) != "" && MissingParts(s)[0] == '#' && NO_SIGNAL != "" && NO_SIGNAL[0] == '#'
  {
  }

  lemma SixBlocks(a: seq<Block>, b: seq<Block>, c: seq<Block>, d: seq<Block>, e: seq<Block>, f: seq<Block>)
    ensures BlocksText(a + b + c + d + e + f) ==
            BlocksText(a) + BlocksText(b) + BlocksText(c) + BlocksText(d) + BlocksText(e) + BlocksText(f)
  {
    BlocksTextConcat(a, b);
    BlocksTextConcat(a + b, c);
    BlocksTextConcat(a + b + c, d);
    BlocksTextConcat(a + b + c + d, e);
    BlocksTextConcat(a + b + c + d + e, f);
  }

  /** A group's text, or nothing for an optional group without ids. */
  method GroupTextUnlessEmpty(catalog: Catalog, g: Group, ids: seq<string>, optional: bool) returns (out: string)
    ensures out == BlocksText(GroupBlock(catalog, ids, g, optional))
  {
    out := "";
    if !(optional && |ids| == 0) {
      out := GroupText(Offered(catalog, g), g, ids);
    }
  }

  method DocumentText(catalog: Catalog, enabled: seq<Signal>, selections: Selections) returns (out: string)
    ensures out == BlocksText(DocumentBlocks(catalog, enabled, selections))
  {
    var allReceivers := CollectIds(enabled, selections, Receivers);
    var allProcessors := CollectIds(enabled, selections, Processors);
    var allConnectors := CollectIds(enabled, selections, Connectors);
    var allExporters := CollectIds(enabled, selections, Exporters);
    var allExtensions := CollectIds(enabled, selections, Extensions);
    var t1 := GroupTextUnlessEmpty(catalog, Extensions, allExtensions, true);
    var t2 := GroupTextUnlessEmpty(catalog, Receivers, allReceivers, false);
    var t3 := GroupTextUnlessEmpty(catalog, Processors, allProcessors, true);
    var t4 := GroupTextUnlessEmpty(catalog, Connectors, allConnectors, true);
    var t5 := GroupTextUnlessEmpty(catalog, Exporters, allExporters, false);
    var t6 := ServiceText(allExtensions, enabled, selections);
    out := t1 + t2 + t3 + t4 + t5 + t6;
    SixBlocks(GroupBlock(catalog, allExtensions, Extensions, true), GroupBlock(catalog, allReceivers, Receivers, false),
              GroupBlock(catalog, allProcessors, Processors, true),
              GroupBlock(catalog, allConnectors, Connectors, true),
              GroupBlock(catalog, allExporters, Exporters, false),
              [Block("service:", ServiceLines(allExtensions, enabled, selections))]);
  }

  /** The text starts with a comment sign exactly when the selection is rejected. */
  method BuildConfigYaml(catalog: Catalog, on: Signal -> bool, selections: Selections) returns (out: string)
    ensures EnabledAmong(SIGNALS, on) == [] ==> out == NO_SIGNAL
    ensures forall i :: FirstIncomplete(EnabledAmong(SIGNALS, on), selections, i) ==>
              out == MissingParts(EnabledAmong(SIGNALS, on)[i])
    ensures !Rejected(on, selections) ==>
              out == BlocksText(DocumentBlocks(catalog, EnabledAmong(SIGNALS, on), selections))
    ensures out != "" && (out[0] == '#' <==> Rejected(on, selections))
  {
    var enabled := EnabledAmong(SIGNALS, on);
    if |enabled| == 0 {
      RejectionsAreComments(Logs);
      return NO_SIGNAL;
    }
    var bad := FindIncomplete(enabled, selections);
    if bad.Some? {
      RejectionsAreComments(bad.value);
      return MissingParts(bad.value);
    }
    AcceptedStartsWithHeading(catalog, enabled, selections);
    out := DocumentText(catalog, enabled, selections);
  }
}
