/** The generated configuration is closed and exact, and its service section reads back as selected. */
module ConfigRoundTrip {
  import opened Common
  import opened ConfigBuilder
  import opened ConfigReader
  import Text

  // ---------------------------------------------------------------- the ids a block defines

  lemma KeysOfOne(line: string)
    ensures KeysIn([line]) == if KeyOf(line).Some? then [KeyOf(line).value] else []
  {
    assert [line][1..] == [];
  }

  lemma {:induction false} KeysConcat(a: seq<string>, b: seq<string>)
    ensures KeysIn(a + b) == KeysIn(a) + KeysIn(b)
  {
    if a == [] {
      assert a + b == b;
    } else {
      KeysConcat(a[1..], b);
      assert (a + b)[1..] == a[1..] + b && (a + b)[0] == a[0];
      AppendIsAssociative(KeysIn([a[0]]), KeysIn(a[1..]), KeysIn(b));
      KeysOfOne(a[0]);
    }
  }

  lemma {:induction false} NoKeys(lines: seq<string>)
    requires forall i :: 0 <= i < |lines| ==> KeyOf(lines[i]).None?
    ensures KeysIn(lines) == []
  {
    if lines != [] { NoKeys(lines[1..]); }
  }

  lemma KeyOfOpening(id: string)
    requires CleanId(id)
    ensures KeyOf("  " + (id + ":")) == Some(id)
  {
    var line := "  " + (id + ":");
    assert line[2..|line| - 1] == id;
    assert line[2] == if id == "" then ':' else id[0];
  }

  lemma {:induction false} FindFinds(list: seq<Component>, id: string)
    ensures Find(list, id).Some? ==> Find(list, id).value in list && Find(list, id).value.id == id
  {
    if list != [] { FindFinds(list[1..], id); }
  }

  /** An opening line over deeper lines defines one key. */
  lemma OpeningDefines(id: string, yaml: seq<string>)
    requires CleanId(id) && yaml != [] && yaml[0] == id + ":"
    requires forall i :: 1 <= i < |yaml| ==> yaml[i] != "" && yaml[i][0] == ' '
    ensures KeysIn(Shifted(yaml)) == [id]
  {
    KeyOfOpening(id);
    var lines := Shifted(yaml);
    forall i | 0 <= i < |lines[1..]|
      ensures KeyOf(lines[1..][i]).None?
    {
      assert lines[1..][i] == "  " + yaml[i + 1];
    }
    NoKeys(lines[1..]);
  }

  lemma BareDefines(id: string)
    requires CleanId(id)
    ensures KeysIn(["  " + id + ":"]) == [id]
  {
    KeyOfOpening(id);
    assert "  " + id + ":" == "  " + (id + ":");
    assert ["  " + (id + ":")][1..] == [];
  }

  lemma {:induction false} NonEmptyOfOpened(lines: seq<string>, n: nat, id: string)
    requires n < |lines| && Opens(lines, n, id)
    ensures var kept := NonEmpty(lines);
            kept != [] && kept[0] == id + ":" && forall i :: 1 <= i < |kept| ==> kept[i] != "" && kept[i][0] == ' '
  {
    if n > 0 {
      NonEmptyOfOpened(lines[1..], n - 1, id);
    } else {
      NonEmptyLines(lines[1..]);
      var rest := NonEmpty(lines[1..]);
      forall i | 0 <= i < |rest| ensures rest[i] != "" && rest[i][0] == ' ' {
        assert rest[i] in rest;
      }
    }
  }

  lemma CleanLines(c: Component)
    requires CleanComponent(c)
    ensures var kept := NonEmpty(Text.Split(c.yaml, '\n'));
            kept != [] && kept[0] == c.id + ":" && forall i :: 1 <= i < |kept| ==> kept[i] != "" && kept[i][0] == ' '
  {
    var lines := Text.Split(c.yaml, '\n');
    var n :| 0 <= n < |lines| && Opens(lines, n, c.id);
    NonEmptyOfOpened(lines, n, c.id);
  }

  lemma DefinitionDefines(list: seq<Component>, id: string)
    requires CleanId(id) && forall c :: c in list ==> CleanComponent(c)
    ensures KeysIn(DefinitionLines(list, id)) == [id]
  {
    FindFinds(list, id);
    var c := Find(list, id);
    if c.None? {
      BareDefines(id);
    } else {
      CleanLines(c.value);
      OpeningDefines(id, NonEmpty(Text.Split(c.value.yaml, '\n')));
    }
  }

  lemma {:induction false} BlockDefines(list: seq<Component>, ids: seq<string>)
    requires CleanIds(ids) && forall c :: c in list ==> CleanComponent(c)
    ensures KeysIn(BlockLines(list, ids)) == ids
  {
    if ids != [] {
      var n := |ids| - 1;
      BlockDefines(list, ids[..n]);
      DefinitionDefines(list, ids[n]);
      KeysConcat(BlockLines(list, ids[..n]), DefinitionLines(list, ids[n]));
    }
  }

  predicate Has(blocks: seq<Block>, heading: string) {
    blocks != [] && (blocks[0].heading == heading || Has(blocks[1..], heading))
  }

  lemma {:induction false} BodyUnderConcat(a: seq<Block>, b: seq<Block>, heading: string)
    ensures Has(a + b, heading) == (Has(a, heading) || Has(b, heading))
    ensures BodyUnder(a + b, heading) == if Has(a, heading) then BodyUnder(a, heading) else BodyUnder(b, heading)
  {
    if a == [] {
      assert a + b == b;
    } else {
      BodyUnderConcat(a[1..], b, heading);
      assert (a + b)[1..] == a[1..] + b;
    }
  }

  lemma {:induction false} NoBody(blocks: seq<Block>, heading: string)
    requires !Has(blocks, heading)
    ensures BodyUnder(blocks, heading) == []
  {
    if blocks != [] { NoBody(blocks[1..], heading); }
  }

  lemma GroupBlockBody(catalog: Catalog, ids: seq<string>, g: Group, optional: bool, h: Group)
    ensures var blocks := GroupBlock(catalog, ids, g, optional);
            && Has(blocks, Heading(h)) == (g == h && !(optional && |ids| == 0))
            && (Has(blocks, Heading(h)) ==>
                  BodyUnder(blocks, Heading(h)) == BlockLines(Offered(catalog, g), ids) + [""])
  {
    if g != h { HeadingsDiffer(g, h); }
    var blocks := GroupBlock(catalog, ids, g, optional);
    assert blocks != [] ==> blocks[1..] == [];
  }

  // ---------------------------------------------------------------- the document

  /** The definition blocks, without the service section. */
  function Front(catalog: Catalog, signals: seq<Signal>, selections: Selections): seq<Block> {
    GroupBlock(catalog, Union(signals, selections, Extensions), Extensions, true) +
    GroupBlock(catalog, Union(signals, selections, Receivers), Receivers, false) +
    GroupBlock(catalog, Union(signals, selections, Processors), Processors, true) +
    GroupBlock(catalog, Union(signals, selections, Connectors), Connectors, true) +
    GroupBlock(catalog, Union(signals, selections, Exporters), Exporters, false)
  }

  function Optional(g: Group): bool { g != Receivers && g != Exporters }

  lemma FrontIsProper(catalog: Catalog, signals: seq<Signal>, selections: Selections)
    requires CleanSelections(signals, selections)
    ensures ProperBlocks(Front(catalog, signals, selections))
  {
    forall g ensures ProperBlocks(GroupBlock(catalog, Union(signals, selections, g), g, Optional(g))) {
      UnionIsClean(signals, selections, g);
      GroupBlockIsProper(catalog, Union(signals, selections, g), g, Optional(g));
    }
    var b := (g: Group) => GroupBlock(catalog, Union(signals, selections, g), g, Optional(g));
    assert ProperBlocks(b(Extensions)) && ProperBlocks(b(Receivers)) && ProperBlocks(b(Processors));
    assert ProperBlocks(b(Connectors)) && ProperBlocks(b(Exporters));
    ProperConcat(b(Extensions), b(Receivers));
    ProperConcat(b(Extensions) + b(Receivers), b(Processors));
    ProperConcat(b(Extensions) + b(Receivers) + b(Processors), b(Connectors));
    ProperConcat(b(Extensions) + b(Receivers) + b(Processors) + b(Connectors), b(Exporters));
  }

  /** Each group has one block, which is missing only when it is optional and has no ids. */
  lemma FrontBody(catalog: Catalog, signals: seq<Signal>, selections: Selections, h: Group)
    ensures var front, ids := Front(catalog, signals, selections), Union(signals, selections, h);
            && Has(front, Heading(h)) == !(Optional(h) && |ids| == 0)
            && (Has(front, Heading(h)) ==> BodyUnder(front, Heading(h)) == BlockLines(Offered(catalog, h), ids) + [""])
  {
    var b := (g: Group) => GroupBlock(catalog, Union(signals, selections, g), g, Optional(g));
    forall g
      ensures Has(b(g), Heading(h)) == (g == h && !(Optional(g) && |Union(signals, selections, g)| == 0))
      ensures Has(b(g), Heading(h)) ==>
        BodyUnder(b(g), Heading(h)) == BlockLines(Offered(catalog, g), Union(signals, selections, g)) + [""]
    {
      GroupBlockBody(catalog, Union(signals, selections, g), g, Optional(g), h);
    }
    BodyUnderConcat(b(Extensions), b(Receivers), Heading(h));
    BodyUnderConcat(b(Extensions) + b(Receivers), b(Processors), Heading(h));
    BodyUnderConcat(b(Extensions) + b(Receivers) + b(Processors), b(Connectors), Heading(h));
    BodyUnderConcat(b(Extensions) + b(Receivers) + b(Processors) + b(Connectors), b(Exporters), Heading(h));
  }

  function Generated(catalog: Catalog, signals: seq<Signal>, selections: Selections): string {
    BlocksText(DocumentBlocks(catalog, signals, selections))
  }

  function LastBlock(signals: seq<Signal>, selections: Selections): Block {
    Block("service:", ServiceLines(Union(signals, selections, Extensions), signals, selections) + [""])
  }

  /** The blocks a reader finds: those of the document, the last one followed by an empty line. */
  function ReadBlocks(catalog: Catalog, signals: seq<Signal>, selections: Selections): seq<Block> {
    Front(catalog, signals, selections) + [LastBlock(signals, selections)]
  }

  lemma DocumentLines(catalog: Catalog, signals: seq<Signal>, selections: Selections)
    requires CleanSelections(signals, selections)
    ensures Lines(Generated(catalog, signals, selections)) == Flatten(ReadBlocks(catalog, signals, selections))
    ensures ProperBlocks(ReadBlocks(catalog, signals, selections))
  {
    var body := ServiceLines(Union(signals, selections, Extensions), signals, selections);
    FrontIsProper(catalog, signals, selections);
    UnionIsClean(signals, selections, Extensions);
    ServiceIsBody(Union(signals, selections, Extensions), signals, selections);
    assert ProperBlocks([Block("service:", body)]);
    ProperConcat(Front(catalog, signals, selections), [Block("service:", body)]);
    assert DocumentBlocks(catalog, signals, selections) ==
           Front(catalog, signals, selections) + [Block("service:", body)];
    LinesOfDocument(Front(catalog, signals, selections), "service:", body);
  }

  /** A last block of another heading does not matter, and one with a heading of its own is found. */
  lemma BodyBeforeLast(front: seq<Block>, last: Block, heading: string)
    ensures last.heading != heading && !Has(front, heading) ==> BodyUnder(front + [last], heading) == []
    ensures Has(front, heading) ==> BodyUnder(front + [last], heading) == BodyUnder(front, heading)
    ensures last.heading == heading && !Has(front, heading) ==> BodyUnder(front + [last], heading) == last.body
  {
    BodyUnderConcat(front, [last], heading);
    assert [last][1..] == [];
  }

  /** What stands under a group's heading in the text. */
  lemma GroupSection(catalog: Catalog, signals: seq<Signal>, selections: Selections, g: Group)
    requires CleanSelections(signals, selections)
    ensures var ids := Union(signals, selections, g);
            SectionOf(Lines(Generated(catalog, signals, selections)), Heading(g)) ==
            if Optional(g) && |ids| == 0 then [] else BlockLines(Offered(catalog, g), ids) + [""]
  {
    DocumentLines(catalog, signals, selections);
    HeadingIsTop(g);
    SectionOfBlocks(ReadBlocks(catalog, signals, selections), Heading(g));
    FrontBody(catalog, signals, selections, g);
    BodyBeforeLast(Front(catalog, signals, selections), LastBlock(signals, selections), Heading(g));
  }

  lemma KeysOfSection(list: seq<Component>, ids: seq<string>)
    requires CleanIds(ids) && forall c :: c in list ==> CleanComponent(c)
    ensures KeysIn(BlockLines(list, ids) + [""]) == ids
  {
    BlockDefines(list, ids);
    KeysConcat(BlockLines(list, ids), [""]);
    assert KeysIn([""]) == [];
  }

  /** A block defines its group's selected ids, each once, in the order of first use. */
  lemma BlocksDefineUnion(catalog: Catalog, signals: seq<Signal>, selections: Selections, g: Group)
    requires CleanCatalog(catalog) && CleanSelections(signals, selections)
    ensures Defined(Generated(catalog, signals, selections), g) == Union(signals, selections, g)
  {
    GroupSection(catalog, signals, selections, g);
    UnionIsClean(signals, selections, g);
    KeysOfSection(Offered(catalog, g), Union(signals, selections, g));
  }

  // ---------------------------------------------------------------- flow sequences

  function Spaced(ids: seq<string>): seq<string> {
    seq(|ids|, i requires 0 <= i < |ids| => " " + ids[i])
  }

  lemma JoinOfMore(ids: seq<string>)
    requires |ids| > 1
    ensures Text.Join(ids, ", ") == ids[0] + ("," + (" " + Text.Join(ids[1..], ", ")))
  {
  }

  lemma SpacedOfMore(ids: seq<string>)
    requires ids != []
    ensures Spaced(ids) == [" " + ids[0]] + Spaced(ids[1..])
  {
  }

  lemma SplitOfNext(id: string, rest: string)
    requires ',' !in id
    ensures Text.Split(id + ("," + (" " + rest)), ',') ==
            [id] + [" " + Text.Split(rest, ',')[0]] + Text.Split(rest, ',')[1..]
  {
    Text.SplitOfPrefix(" ", rest, ',');
    Text.SplitOfPrefix(id, "," + (" " + rest), ',');
    assert ("," + (" " + rest))[1..] == " " + rest;
    assert id + "" == id;
  }

  lemma {:induction false} SplitOfIds(ids: seq<string>)
    requires ids != [] && forall id :: id in ids ==> ',' !in id
    ensures Text.Split(Text.Join(ids, ", "), ',') == [ids[0]] + Spaced(ids[1..])
  {
    var id := ids[0];
    if |ids| == 1 {
      Text.SplitOfPrefix(id, "", ',');
      assert id + "" == id;
    } else {
      SplitOfIds(ids[1..]);
      SplitOfNext(id, Text.Join(ids[1..], ", "));
      JoinOfMore(ids);
      SpacedOfMore(ids[1..]);
    }
  }

  lemma FlowRoundTrip(ids: seq<string>)
    requires ids != [] && forall id :: id in ids ==> ',' !in id
    ensures FlowIds(Text.Join(ids, ", ")) == ids
  {
    SplitOfIds(ids);
    var parts := Text.Split(Text.Join(ids, ", "), ',');
    forall i | 1 <= i < |ids|
      ensures DropSpace(parts[i]) == ids[i]
    {
      assert parts[i] == " " + ids[i];
    }
  }

  lemma ListReadsBack(indent: string, key: string, ids: seq<string>)
    requires ids != [] && forall id :: id in ids ==> ',' !in id
    ensures FlowAfter(ListLine(indent, key, ids), ListPrefix(indent, key)) == Some(ids)
  {
    var line, prefix, inner := ListLine(indent, key, ids), ListPrefix(indent, key), Text.Join(ids, ", ");
    assert line == prefix + inner + "]";
    assert line[|prefix|..|line| - 1] == inner;
    FlowRoundTrip(ids);
  }

  /** A line that differs from the prefix at some position is not read as that list. */
  lemma OtherLine(line: string, prefix: string, i: nat)
    requires i < |prefix| && (i < |line| ==> line[i] != prefix[i])
    ensures FlowAfter(line, prefix).None?
  {
  }

  // ---------------------------------------------------------------- the service section

  /** What the selection says about one pipeline; connectors follow the exporters. */
  function Selected(s: Signal, sel: GroupSelection): Pipeline {
    Pipeline(Name(s), sel.receivers, sel.processors, sel.exporters + sel.connectors)
  }

  function SelectedAll(signals: seq<Signal>, selections: Selections): seq<Pipeline> {
    seq(|signals|, i requires 0 <= i < |signals| => Selected(signals[i], selections(signals[i])))
  }

  lemma NameReadsBack(s: Signal)
    ensures NameOf("    " + Name(s) + ":") == Name(s)
  {
    var line := "    " + Name(s) + ":";
    assert line[4..|line| - 1] == Name(s);
  }

  ghost predicate CleanSelection(sel: GroupSelection) {
    forall g :: CleanIds(Chosen(sel, g))
  }

  lemma SelectionHasNoComma(sel: GroupSelection)
    requires CleanSelection(sel)
    ensures forall id :: id in sel.receivers || id in sel.processors || id in sel.exporters + sel.connectors ==>
              ',' !in id
  {
    assert CleanIds(Chosen(sel, Receivers)) && CleanIds(Chosen(sel, Processors));
    assert CleanIds(Chosen(sel, Exporters)) && CleanIds(Chosen(sel, Connectors));
  }

  lemma ExportersAreNotProcessors(ids: seq<string>)
    ensures FlowAfter(ListLine("      ", "exporters", ids), ListPrefix("      ", "processors")).None?
  {
    var line, prefix := ListLine("      ", "exporters", ids), ListPrefix("      ", "processors");
    assert line[6] == 'e' && prefix[6] == 'p';
    OtherLine(line, prefix, 6);
  }

  lemma PipelineReadsBack(s: Signal, sel: GroupSelection, rest: seq<string>)
    requires CleanSelection(sel) && !Incomplete(sel)
    ensures ReadPipelines(PipelineLines(s, sel) + rest) == [Selected(s, sel)] + ReadPipelines(rest)
  {
    var lines := PipelineLines(s, sel) + rest;
    NameReadsBack(s);
    SelectionHasNoComma(sel);
    ListReadsBack("      ", "receivers", sel.receivers);
    ListReadsBack("      ", "exporters", sel.exporters + sel.connectors);
    if |sel.processors| > 0 {
      ListReadsBack("      ", "processors", sel.processors);
      assert lines[4..] == rest;
    } else {
      ExportersAreNotProcessors(sel.exporters + sel.connectors);
      assert lines[3..] == rest;
    }
  }

  lemma SelectedOfMore(signals: seq<Signal>, selections: Selections)
    requires signals != []
    ensures SelectedAll(signals, selections) ==
            [Selected(signals[0], selections(signals[0]))] + SelectedAll(signals[1..], selections)
  {
  }

  lemma {:induction false} PipelinesReadBack(signals: seq<Signal>, selections: Selections)
    requires CleanSelections(signals, selections) && forall s :: s in signals ==> !Incomplete(selections(s))
    ensures ReadPipelines(PipelinesLines(signals, selections) + [""]) == SelectedAll(signals, selections)
  {
    if signals == [] {
      assert PipelinesLines(signals, selections) + [""] == [""];
    } else {
      var s, rest := signals[0], PipelinesLines(signals[1..], selections) + [""];
      PipelinesReadBack(signals[1..], selections);
      AppendIsAssociative(PipelineLines(s, selections(s)), PipelinesLines(signals[1..], selections), [""]);
      PipelineReadsBack(s, selections(s), rest);
      SelectedOfMore(signals, selections);
    }
  }

  lemma PipelinesLineIsNoList()
    ensures FlowAfter("  pipelines:", ListPrefix("  ", "extensions")).None?
  {
    assert "  pipelines:"[2] == 'p' && ListPrefix("  ", "extensions")[2] == 'e';
    OtherLine("  pipelines:", ListPrefix("  ", "extensions"), 2);
  }

  lemma ListedExtensionsReadBack(ids: seq<string>, rest: seq<string>)
    requires ids != [] && forall id :: id in ids ==> ',' !in id
    ensures ReadServiceLines([ListLine("  ", "extensions", ids)] + ["  pipelines:"] + rest) ==
            Service(ids, ReadPipelines(rest))
  {
    ListReadsBack("  ", "extensions", ids);
    assert ([ListLine("  ", "extensions", ids)] + ["  pipelines:"] + rest)[2..] == rest;
  }

  lemma NoExtensionsReadBack(rest: seq<string>)
    ensures ReadServiceLines([] + ["  pipelines:"] + rest) == Service([], ReadPipelines(rest))
  {
    PipelinesLineIsNoList();
    assert ([] + ["  pipelines:"] + rest)[1..] == rest;
    assert ([] + ["  pipelines:"] + rest)[0] == "  pipelines:";
  }

  lemma ServiceLinesReadBack(ids: seq<string>, signals: seq<Signal>, selections: Selections)
    requires CleanIds(ids)
    requires CleanSelections(signals, selections) && forall s :: s in signals ==> !Incomplete(selections(s))
    ensures ReadServiceLines(ServiceLines(ids, signals, selections) + [""]) ==
            Service(ids, SelectedAll(signals, selections))
  {
    var rest := PipelinesLines(signals, selections) + [""];
    PipelinesReadBack(signals, selections);
    if |ids| > 0 {
      ListedExtensionsReadBack(ids, rest);
      assert ServiceLines(ids, signals, selections) + [""] ==
             [ListLine("  ", "extensions", ids)] + ["  pipelines:"] + rest;
    } else {
      NoExtensionsReadBack(rest);
      assert ServiceLines(ids, signals, selections) + [""] == [] + ["  pipelines:"] + rest;
    }
  }

  lemma GroupHasNoService(catalog: Catalog, ids: seq<string>, g: Group, optional: bool)
    ensures !Has(GroupBlock(catalog, ids, g, optional), "service:")
  {
    HeadingIsTop(g);
    var blocks := GroupBlock(catalog, ids, g, optional);
    assert blocks != [] ==> blocks[1..] == [];
  }

  lemma FrontHasNoService(catalog: Catalog, signals: seq<Signal>, selections: Selections)
    ensures !Has(Front(catalog, signals, selections), "service:")
  {
    var b := (g: Group) => GroupBlock(catalog, Union(signals, selections, g), g, Optional(g));
    forall g ensures !Has(b(g), "service:") {
      GroupHasNoService(catalog, Union(signals, selections, g), g, Optional(g));
    }
    BodyUnderConcat(b(Extensions), b(Receivers), "service:");
    BodyUnderConcat(b(Extensions) + b(Receivers), b(Processors), "service:");
    BodyUnderConcat(b(Extensions) + b(Receivers) + b(Processors), b(Connectors), "service:");
    BodyUnderConcat(b(Extensions) + b(Receivers) + b(Processors) + b(Connectors), b(Exporters), "service:");
  }

  lemma ServiceIsLast(catalog: Catalog, signals: seq<Signal>, selections: Selections)
    ensures BodyUnder(ReadBlocks(catalog, signals, selections), "service:") ==
            ServiceLines(Union(signals, selections, Extensions), signals, selections) + [""]
  {
    FrontHasNoService(catalog, signals, selections);
    BodyBeforeLast(Front(catalog, signals, selections), LastBlock(signals, selections), "service:");
  }

  /** Reading the service section back recovers the extensions and, signal by signal, the selection. */
  lemma ServiceReadsBack(catalog: Catalog, signals: seq<Signal>, selections: Selections)
    requires CleanSelections(signals, selections) && forall s :: s in signals ==> !Incomplete(selections(s))
    ensures ReadService(Generated(catalog, signals, selections)) ==
            Service(Union(signals, selections, Extensions), SelectedAll(signals, selections))
  {
    DocumentLines(catalog, signals, selections);
    assert TopLevel("service:");
    SectionOfBlocks(ReadBlocks(catalog, signals, selections), "service:");
    ServiceIsLast(catalog, signals, selections);
    UnionIsClean(signals, selections, Extensions);
    ServiceLinesReadBack(Union(signals, selections, Extensions), signals, selections);
  }

  // ---------------------------------------------------------------- closed and exact

  lemma {:induction false} HasIsMember(blocks: seq<Block>, heading: string)
    ensures Has(blocks, heading) <==> heading in HeadingsOf(blocks)
  {
    if blocks != [] {
      HasIsMember(blocks[1..], heading);
      assert HeadingsOf(blocks) == [blocks[0].heading] + HeadingsOf(blocks[1..]);
    }
  }

  lemma HeadingsOfMore(front: seq<Block>, last: Block)
    ensures HeadingsOf(front + [last]) == HeadingsOf(front) + [last.heading]
  {
  }

  /** The top-level lines are the group headings in use, in a fixed order, and `service:`. */
  lemma TopLevelIsHeadings(catalog: Catalog, signals: seq<Signal>, selections: Selections)
    requires CleanSelections(signals, selections)
    ensures Headings(Lines(Generated(catalog, signals, selections))) ==
            HeadingsOf(Front(catalog, signals, selections)) + ["service:"]
    ensures forall g :: Heading(g) in HeadingsOf(Front(catalog, signals, selections)) <==>
              !(Optional(g) && |Union(signals, selections, g)| == 0)
  {
    var front, read := Front(catalog, signals, selections), ReadBlocks(catalog, signals, selections);
    DocumentLines(catalog, signals, selections);
    HeadingsOfBlocks(read);
    HeadingsOfMore(front, LastBlock(signals, selections));
    forall g ensures Heading(g) in HeadingsOf(front) <==> !(Optional(g) && |Union(signals, selections, g)| == 0) {
      FrontBody(catalog, signals, selections, g);
      HasIsMember(front, Heading(g));
    }
  }

  /** One of the three id lists of a pipeline. */
  function Used(p: Pipeline, g: Group): seq<string>
    requires g == Receivers || g == Processors || g == Exporters
  {
    match g
    case Receivers => p.receivers
    case Processors => p.processors
    case Exporters => p.exporters
  }

  lemma SelectedIsListed(signals: seq<Signal>, selections: Selections, s: Signal)
    requires s in signals
    ensures Selected(s, selections(s)) in SelectedAll(signals, selections)
  {
    var i :| 0 <= i < |signals| && signals[i] == s;
    assert SelectedAll(signals, selections)[i] == Selected(s, selections(s));
  }

  lemma ExporterIsUsed(signals: seq<Signal>, selections: Selections, g: Group, id: string)
    requires (g == Exporters || g == Connectors) && id in Union(signals, selections, g)
    ensures exists p :: p in SelectedAll(signals, selections) && id in Used(p, Exporters)
  {
    UnionMeaning(signals, selections, g);
    var s :| s in signals && id in Chosen(selections(s), g);
    SelectedIsListed(signals, selections, s);
    assert id in Used(Selected(s, selections(s)), Exporters);
  }

  lemma ListedIsSelected(signals: seq<Signal>, selections: Selections, p: Pipeline) returns (s: Signal)
    requires p in SelectedAll(signals, selections)
    ensures s in signals && p == Selected(s, selections(s))
  {
    var i :| 0 <= i < |signals| && SelectedAll(signals, selections)[i] == p;
    s := signals[i];
  }

  lemma UsedByExporters(signals: seq<Signal>, selections: Selections, id: string)
    ensures id in Union(signals, selections, Exporters) || id in Union(signals, selections, Connectors) <==>
            exists p :: p in SelectedAll(signals, selections) && id in Used(p, Exporters)
  {
    if id in Union(signals, selections, Exporters) { ExporterIsUsed(signals, selections, Exporters, id); }
    if id in Union(signals, selections, Connectors) { ExporterIsUsed(signals, selections, Connectors, id); }
    if p :| p in SelectedAll(signals, selections) && id in Used(p, Exporters) {
      var s := ListedIsSelected(signals, selections, p);
      UnionMeaning(signals, selections, Exporters);
      UnionMeaning(signals, selections, Connectors);
      assert id in Chosen(selections(s), Exporters) || id in Chosen(selections(s), Connectors);
    }
  }

  lemma UsedByPipelines(signals: seq<Signal>, selections: Selections, g: Group, id: string)
    requires g == Receivers || g == Processors
    ensures id in Union(signals, selections, g) <==>
            exists p :: p in SelectedAll(signals, selections) && id in Used(p, g)
  {
    UnionMeaning(signals, selections, g);
    if id in Union(signals, selections, g) {
      var s :| s in signals && id in Chosen(selections(s), g);
      SelectedIsListed(signals, selections, s);
      assert id in Used(Selected(s, selections(s)), g);
    }
    if p :| p in SelectedAll(signals, selections) && id in Used(p, g) {
      var s := ListedIsSelected(signals, selections, p);
      assert id in Chosen(selections(s), g);
    }
  }

  /**
   Read as text, the configuration defines every id once and exactly the ids it refers to: a
   receiver or processor block those of the pipelines' lists, exporters and connectors together
   those of the exporter lists, and the extensions block the service's extensions.
   */
  lemma ConfigIsClosedAndExact(catalog: Catalog, on: Signal -> bool, selections: Selections, text: string)
    requires !Rejected(on, selections)
    requires CleanCatalog(catalog) && CleanSelections(EnabledAmong(SIGNALS, on), selections)
    requires text == Generated(catalog, EnabledAmong(SIGNALS, on), selections)
    ensures forall g :: Distinct(Defined(text, g))
    ensures Defined(text, Extensions) == ReadService(text).extensions
    ensures forall g, id :: g == Receivers || g == Processors ==>
              (id in Defined(text, g) <==> exists p :: p in ReadService(text).pipelines && id in Used(p, g))
    ensures forall id :: id in Defined(text, Exporters) || id in Defined(text, Connectors) <==>
              exists p :: p in ReadService(text).pipelines && id in Used(p, Exporters)
  {
    var signals := EnabledAmong(SIGNALS, on);
    ServiceReadsBack(catalog, signals, selections);
    forall g
      ensures Defined(text, g) == Union(signals, selections, g)
      ensures Distinct(Defined(text, g))
    {
      BlocksDefineUnion(catalog, signals, selections, g);
      UnionMeaning(signals, selections, g);
    }
    forall g, id | g == Receivers || g == Processors
      ensures id in Defined(text, g) <==> exists p :: p in ReadService(text).pipelines && id in Used(p, g)
    {
      UsedByPipelines(signals, selections, g, id);
    }
    forall id
      ensures id in Defined(text, Exporters) || id in Defined(text, Connectors) <==>
              exists p :: p in ReadService(text).pipelines && id in Used(p, Exporters)
    {
      UsedByExporters(signals, selections, id);
    }
  }
}
