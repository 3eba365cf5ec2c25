/**
 Reading a generated configuration back from its text: which ids its blocks define and what its
 service section refers to.
 */
module ConfigReader {
  import opened Common
  import opened ConfigBuilder
  import Text

  // ---------------------------------------------------------------- the reader

  function Lines(text: string): seq<string> { Text.Split(text, '\n') }

  /** The line starts in column 0. */
  predicate TopLevel(line: string) {
    line != "" && line[0] != ' '
  }

  function Headings(lines: seq<string>): seq<string> {
    if lines == [] then []
    else (if TopLevel(lines[0]) then [lines[0]] else []) + Headings(lines[1..])
  }

  function BeforeHeading(lines: seq<string>): seq<string> {
    if lines == [] || TopLevel(lines[0]) then [] else [lines[0]] + BeforeHeading(lines[1..])
  }

  /** The lines below a heading, up to the next one. */
  function SectionOf(lines: seq<string>, heading: string): seq<string> {
    if lines == [] then []
    else if lines[0] == heading then BeforeHeading(lines[1..])
    else SectionOf(lines[1..], heading)
  }

  /** The key of a line indented by exactly two columns that opens a mapping. */
  function KeyOf(line: string): Option<string> {
    if |line| >= 3 && line[0] == ' ' && line[1] == ' ' && line[2] != ' ' && line[|line| - 1] == ':'
    then Some(line[2..|line| - 1]) else None
  }

  function KeysIn(lines: seq<string>): seq<string> {
    if lines == [] then []
    else (if KeyOf(lines[0]).Some? then [KeyOf(lines[0]).value] else []) + KeysIn(lines[1..])
  }

  /** The ids a block of the document defines, in order. */
  function Defined(text: string, g: Group): seq<string> {
    KeysIn(SectionOf(Lines(text), Heading(g)))
  }

  function DropSpace(s: string): string {
    if s != "" && s[0] == ' ' then s[1..] else s
  }

  /** The elements of a flow sequence: separated by commas, each after the first with a leading space. */
  function FlowIds(inner: string): seq<string> {
    var parts := Text.Split(inner, ',');
    [parts[0]] + seq(|parts| - 1, i requires 0 <= i < |parts| - 1 => DropSpace(parts[i + 1]))
  }

  function FlowAfter(line: string, prefix: string): Option<seq<string>> {
    if prefix <= line && |line| > |prefix| && line[|line| - 1] == ']'
    then Some(FlowIds(line[|prefix|..|line| - 1])) else None
  }

  function OrEmpty(list: Option<seq<string>>): seq<string> {
    if list.Some? then list.value else []
  }

  datatype Pipeline = Pipeline(name: string, receivers: seq<string>, processors: seq<string>, exporters: seq<string>)

  datatype Service = Service(extensions: seq<string>, pipelines: seq<Pipeline>)

  function ListPrefix(indent: string, key: string): string { indent + key + ": [" }

  /** The key of a line indented by exactly four columns that opens a mapping. */
  function NameOf(line: string): string {
    if |line| >= 5 && line[..4] == "    " && line[4] != ' ' && line[|line| - 1] == ':' then line[4..|line| - 1] else ""
  }

  function ReadPipelines(lines: seq<string>): seq<Pipeline> {
    if |lines| < 3 then []
    else
      var receivers := OrEmpty(FlowAfter(lines[1], ListPrefix("      ", "receivers")));
      var processors := FlowAfter(lines[2], ListPrefix("      ", "processors"));
      if processors.Some? && |lines| >= 4 then
        [Pipeline(NameOf(lines[0]), receivers, processors.value,
                  OrEmpty(FlowAfter(lines[3], ListPrefix("      ", "exporters"))))]
        + ReadPipelines(lines[4..])
      else
        [Pipeline(NameOf(lines[0]), receivers, [], OrEmpty(FlowAfter(lines[2], ListPrefix("      ", "exporters"))))]
        + ReadPipelines(lines[3..])
  }

  /** What stands under the pipelines key, if the first line is that. */
  function PipelinesUnder(lines: seq<string>): seq<Pipeline> {
    if lines != [] && lines[0] == "  pipelines:" then ReadPipelines(lines[1..]) else []
  }

  function ReadServiceLines(lines: seq<string>): Service {
    if lines == [] then Service([], [])
    else
      var extensions := FlowAfter(lines[0], ListPrefix("  ", "extensions"));
      if extensions.Some? then Service(extensions.value, PipelinesUnder(lines[1..]))
      else Service([], PipelinesUnder(lines))
  }

  function ReadService(text: string): Service {
    ReadServiceLines(SectionOf(Lines(text), "service:"))
  }

  // ---------------------------------------------------------------- what the inputs must be like

  /** An id without separators: no newline, no comma, no leading space. */
  predicate CleanId(id: string) {
    '\n' !in id && ',' !in id && (id == "" || id[0] != ' ')
  }

  ghost predicate CleanIds(ids: seq<string>) {
    forall id :: id in ids ==> CleanId(id)
  }

  /** Line `n` opens the mapping of this id; before it there are only empty lines, after it none in column 0. */
  predicate Opens(lines: seq<string>, n: nat, id: string)
    requires n < |lines|
  {
    && lines[n] == id + ":"
    && (forall i :: 0 <= i < n ==> lines[i] == "")
    && (forall i :: n < i < |lines| ==> lines[i] == "" || lines[i][0] == ' ')
  }

  /**
   A starter block defines its own component and nothing else: empty lines aside, one opening line and
   deeper lines below.
   */
  ghost predicate CleanComponent(c: Component) {
    var lines := Text.Split(c.yaml, '\n');
    exists n :: 0 <= n < |lines| && Opens(lines, n, c.id)
  }

  ghost predicate CleanCatalog(catalog: Catalog) {
    forall g, c :: c in Offered(catalog, g) ==> CleanComponent(c)
  }

  ghost predicate CleanSelections(signals: seq<Signal>, selections: Selections) {
    forall s, g :: s in signals ==> CleanIds(Chosen(selections(s), g))
  }

  // ---------------------------------------------------------------- blocks as lines

  /** The line is below a heading and holds no newline. */
  predicate BodyLine(line: string) {
    !TopLevel(line) && '\n' !in line
  }

  ghost predicate ProperBlocks(blocks: seq<Block>) {
    && (forall i :: 0 <= i < |blocks| ==> TopLevel(blocks[i].heading) && '\n' !in blocks[i].heading)
    && (forall i, j :: 0 <= i < |blocks| && 0 <= j < |blocks[i].body| ==> BodyLine(blocks[i].body[j]))
  }

  function HeadingsOf(blocks: seq<Block>): seq<string> {
    seq(|blocks|, i requires 0 <= i < |blocks| => blocks[i].heading)
  }

  lemma {:induction false} SkipBody(body: seq<string>, rest: seq<string>, heading: string)
    requires forall j :: 0 <= j < |body| ==> !TopLevel(body[j])
    requires TopLevel(heading)
    ensures Headings(body + rest) == Headings(rest)
    ensures SectionOf(body + rest, heading) == SectionOf(rest, heading)
    ensures rest == [] || TopLevel(rest[0]) ==> BeforeHeading(body + rest) == body
  {
    if body == [] {
      assert body + rest == rest;
    } else {
      SkipBody(body[1..], rest, heading);
      assert (body + rest)[1..] == body[1..] + rest;
    }
  }

  lemma HeadingsOfFirst(b: Block, rest: seq<string>)
    requires TopLevel(b.heading) && forall j :: 0 <= j < |b.body| ==> BodyLine(b.body[j])
    ensures Headings([b.heading] + b.body + rest) == [b.heading] + Headings(rest)
  {
    SkipBody(b.body, rest, b.heading);
    FirstAndRest(b.heading, b.body, rest);
  }

  lemma {:induction false} HeadingsOfBlocks(blocks: seq<Block>)
    requires ProperBlocks(blocks)
    ensures Headings(Flatten(blocks)) == HeadingsOf(blocks)
    ensures blocks != [] ==> Flatten(blocks) != [] && Flatten(blocks)[0] == blocks[0].heading
  {
    if blocks != [] {
      assert ProperBlocks(blocks[1..]);
      HeadingsOfBlocks(blocks[1..]);
      HeadingsOfFirst(blocks[0], Flatten(blocks[1..]));
      assert HeadingsOf(blocks) == [blocks[0].heading] + HeadingsOf(blocks[1..]);
    }
  }

  /** The body of the first block with this heading. */
  function BodyUnder(blocks: seq<Block>, heading: string): seq<string> {
    if blocks == [] then []
    else if blocks[0].heading == heading then blocks[0].body
    else BodyUnder(blocks[1..], heading)
  }

  lemma SectionOfFirst(b: Block, rest: seq<string>, heading: string)
    requires forall j :: 0 <= j < |b.body| ==> !TopLevel(b.body[j])
    requires TopLevel(heading) && (rest == [] || TopLevel(rest[0]))
    ensures SectionOf([b.heading] + b.body + rest, heading) ==
            if b.heading == heading then b.body else SectionOf(rest, heading)
  {
    SkipBody(b.body, rest, heading);
    FirstAndRest(b.heading, b.body, rest);
  }

  lemma ProperTail(blocks: seq<Block>)
    requires ProperBlocks(blocks) && blocks != []
    ensures ProperBlocks(blocks[1..])
    ensures forall j :: 0 <= j < |blocks[0].body| ==> !TopLevel(blocks[0].body[j])
    ensures Flatten(blocks[1..]) == [] || TopLevel(Flatten(blocks[1..])[0])
  {
    HeadingsOfBlocks(blocks[1..]);
    forall j | 0 <= j < |blocks[0].body| ensures !TopLevel(blocks[0].body[j]) {
      assert BodyLine(blocks[0].body[j]);
    }
  }

  lemma {:induction false} SectionOfBlocks(blocks: seq<Block>, heading: string)
    requires ProperBlocks(blocks) && TopLevel(heading)
    ensures SectionOf(Flatten(blocks), heading) == BodyUnder(blocks, heading)
  {
    if blocks != [] {
      ProperTail(blocks);
      SectionOfBlocks(blocks[1..], heading);
      SectionOfFirst(blocks[0], Flatten(blocks[1..]), heading);
    }
  }

  lemma {:induction false} FlattenHasNoNewline(blocks: seq<Block>)
    requires ProperBlocks(blocks)
    ensures forall line :: line in Flatten(blocks) ==> '\n' !in line
  {
    if blocks != [] { FlattenHasNoNewline(blocks[1..]); }
  }

  lemma {:induction false} JoinEndsWith(lines: seq<string>)
    requires lines != []
    ensures Text.Join(lines + [""], "\n") == Text.Join(lines, "\n") + "\n"
  {
    if |lines| == 1 {
      assert (lines + [""])[1..] == [""];
    } else {
      JoinEndsWith(lines[1..]);
      assert (lines + [""])[1..] == lines[1..] + [""];
    }
  }

  /** The text of proper blocks splits into their lines and the empty piece behind the last newline. */
  lemma LinesOfBlocks(blocks: seq<Block>)
    requires ProperBlocks(blocks) && blocks != []
    ensures Lines(BlocksText(blocks)) == Flatten(blocks) + [""]
  {
    var all := Flatten(blocks);
    HeadingsOfBlocks(blocks);
    FlattenHasNoNewline(blocks);
    UnlinesIsJoin(all);
    JoinEndsWith(all);
    Text.SplitOfJoin(all + [""], '\n');
  }

  /** The piece behind the last newline counts as an empty line of the last block. */
  lemma LinesOfDocument(front: seq<Block>, heading: string, body: seq<string>)
    requires ProperBlocks(front + [Block(heading, body)])
    ensures var read := front + [Block(heading, body + [""])];
            Lines(BlocksText(front + [Block(heading, body)])) == Flatten(read) && ProperBlocks(read)
  {
    var blocks, read := front + [Block(heading, body)], front + [Block(heading, body + [""])];
    LinesOfBlocks(blocks);
    FlattenConcat(front, [Block(heading, body)]);
    FlattenConcat(front, [Block(heading, body + [""])]);
    assert Flatten([Block(heading, body)]) == [heading] + body;
    assert Flatten([Block(heading, body + [""])]) == [heading] + body + [""];
    assert blocks[|front|] == Block(heading, body);
    assert forall i :: 0 <= i < |front| ==> read[i] == blocks[i];
    forall j | 0 <= j < |body + [""]|
      ensures BodyLine((body + [""])[j])
    {
      if j < |body| { assert BodyLine(blocks[|front|].body[j]); }
    }
  }

  // ---------------------------------------------------------------- the generated blocks are proper

  ghost predicate BodyLines(lines: seq<string>) {
    forall line :: line in lines ==> BodyLine(line)
  }

  lemma {:induction false} NonEmptyLines(lines: seq<string>)
    ensures forall line :: line in NonEmpty(lines) ==> line != "" && line in lines
  {
    if lines != [] { NonEmptyLines(lines[1..]); }
  }

  lemma DefinitionIsBody(list: seq<Component>, id: string)
    requires '\n' !in id
    ensures BodyLines(DefinitionLines(list, id))
  {
    var c := Find(list, id);
    if c.Some? { NonEmptyLines(Text.Split(c.value.yaml, '\n')); }
  }

  lemma {:induction false} BlockIsBody(list: seq<Component>, ids: seq<string>)
    requires forall id :: id in ids ==> '\n' !in id
    ensures BodyLines(BlockLines(list, ids))
  {
    if ids != [] {
      BlockIsBody(list, ids[..|ids| - 1]);
      DefinitionIsBody(list, ids[|ids| - 1]);
    }
  }

  lemma {:induction false} JoinHasNoNewline(ids: seq<string>)
    requires forall id :: id in ids ==> '\n' !in id
    ensures '\n' !in Text.Join(ids, ", ")
  {
    if |ids| > 1 { JoinHasNoNewline(ids[1..]); }
  }

  lemma ListIsBody(indent: string, key: string, ids: seq<string>)
    requires forall id :: id in ids ==> '\n' !in id
    requires indent != "" && indent[0] == ' ' && '\n' !in indent && '\n' !in key
    ensures BodyLine(ListLine(indent, key, ids))
  {
    JoinHasNoNewline(ids);
  }

  lemma PipelineIsBody(s: Signal, sel: GroupSelection)
    requires forall g :: CleanIds(Chosen(sel, g))
    ensures BodyLines(PipelineLines(s, sel))
  {
    assert CleanIds(Chosen(sel, Receivers)) && CleanIds(Chosen(sel, Processors));
    assert CleanIds(Chosen(sel, Exporters)) && CleanIds(Chosen(sel, Connectors));
    ListIsBody("      ", "receivers", sel.receivers);
    ListIsBody("      ", "processors", sel.processors);
    ListIsBody("      ", "exporters", sel.exporters + sel.connectors);
  }

  lemma {:induction false} PipelinesAreBody(signals: seq<Signal>, selections: Selections)
    requires CleanSelections(signals, selections)
    ensures BodyLines(PipelinesLines(signals, selections))
  {
    if signals != [] {
      PipelinesAreBody(signals[1..], selections);
      PipelineIsBody(signals[0], selections(signals[0]));
    }
  }

  lemma {:induction false} UnionMeaning(signals: seq<Signal>, selections: Selections, g: Group)
    ensures Distinct(Union(signals, selections, g))
    ensures forall id :: id in Union(signals, selections, g) <==>
              exists s :: s in signals && id in Chosen(selections(s), g)
  {
    if signals != [] {
      var n := |signals| - 1;
      UnionMeaning(signals[..n], selections, g);
      AddAllMeaning(Union(signals[..n], selections, g), Chosen(selections(signals[n]), g));
      assert forall s :: s in signals <==> s in signals[..n] || s == signals[n];
    }
  }

  lemma UnionIsClean(signals: seq<Signal>, selections: Selections, g: Group)
    requires CleanSelections(signals, selections)
    ensures CleanIds(Union(signals, selections, g))
  {
    UnionMeaning(signals, selections, g);
  }

  lemma ServiceIsBody(extensions: seq<string>, signals: seq<Signal>, selections: Selections)
    requires CleanIds(extensions) && CleanSelections(signals, selections)
    ensures BodyLines(ServiceLines(extensions, signals, selections))
  {
    ListIsBody("  ", "extensions", extensions);
    PipelinesAreBody(signals, selections);
  }

  lemma HeadingIsTop(g: Group)
    ensures TopLevel(Heading(g)) && '\n' !in Heading(g)
    ensures Heading(g) != "service:"
  {
    assert Heading(g)[0] != 's' && Heading(g)[0] != ' ';
  }

  lemma HeadingsDiffer(g: Group, h: Group)
    requires g != h
    ensures Heading(g) != Heading(h)
  {
    assert Heading(g)[0] != Heading(h)[0] || Heading(g)[2] != Heading(h)[2];
  }

  lemma GroupBlockIsProper(catalog: Catalog, ids: seq<string>, g: Group, optional: bool)
    requires CleanIds(ids)
    ensures ProperBlocks(GroupBlock(catalog, ids, g, optional))
  {
    HeadingIsTop(g);
    BlockIsBody(Offered(catalog, g), ids);
    var body := BlockLines(Offered(catalog, g), ids) + [""];
    forall j | 0 <= j < |body| ensures BodyLine(body[j]) {
      if j < |body| - 1 { assert body[j] in BlockLines(Offered(catalog, g), ids); }
    }
  }

  lemma ProperConcat(a: seq<Block>, b: seq<Block>)
    requires ProperBlocks(a) && ProperBlocks(b)
    ensures ProperBlocks(a + b)
  {
    forall i, j | 0 <= i < |a + b| && 0 <= j < |(a + b)[i].body|
      ensures BodyLine((a + b)[i].body[j])
    {
      if i < |a| { assert BodyLine(a[i].body[j]); } else { assert BodyLine(b[i - |a|].body[j]); }
    }
  }
}
