/** What the reader finds after an insertion, for every text and every name. */
module HermesAddition {
  import opened Wrappers
  import opened YamlText
  import opened HermesConfig
  import opened HermesLines
  import opened HermesAgreement
  import opened HermesTheorems
  import opened HermesResults
  import opened HermesRemoval

  /** What is listed when the plugin is put into a list of this shape: in a block or flat list what
      was listed; of a flow sequence what its items read as on lines of their own; and where a
      block comes to be above lines that no list held, those of them that are items. */
  predicate ListedAfter(lines: seq<string>, shape: Shape, name: string)
    requires Located(shape, |lines|)
  {
    match shape
    case Missing => name == Plugin()
    case EnabledFlow(key, items) =>
      || SomeReads([Plugin()] + items, name, 4)
      || AnotherIn(lines, key + 1, First(lines, key + 1, |lines|, ListEnd), key, Item(name))
    case EnabledBlock(_, _) => name == Plugin() || Listed(lines, shape, name)
    case Inline(_, _, items) => SomeReads([Plugin()] + items, name, 2)
    case Flat(_, _, _) => name == Plugin() || Listed(lines, shape, name)
    case Bare(p) => name == Plugin() || AnotherIn(lines, p + 1, First(lines, p + 1, |lines|, ListEnd), p, Item(name))
  }

  /** The text is changed: it has no plugins, or a list that the editor does not find the plugin in. */
  predicate Gains(lines: seq<string>) {
    ShapeOf(lines) == Missing || Edited(lines, ShapeOf(lines), true).Some?
  }

  /** Below `plugins:` the block that is put in goes on with the lines that were there. */
  lemma BareStop(lines: seq<string>, longer: seq<string>, p: nat, end: nat, stop: nat)
    requires p < end <= |lines| && |longer| == |lines| + 2 && longer[p + 3..] == lines[p + 1..]
    requires stop >= p + 3 && stop == First(longer, p + 2, end + 2, ListEnd)
    ensures stop == First(lines, p + 1, end, ListEnd) + 2
  {
    hide Is, First;
    var n := end - p - 1;
    FirstLater(longer, p + 2, p + 3, end + 2, ListEnd);
    assert longer[p + 3..p + 3 + n] == longer[p + 3..][..n] == lines[p + 1..][..n] == lines[p + 1..end];
    FirstShifted(longer, lines, p + 3, p + 1, n, ListEnd);
  }

  lemma BareReads(lines: seq<string>, p: nat, name: string)
    requires p < |lines| && ShapeOf(lines) == Bare(p)
    ensures var longer := Spliced(lines, p + 1, p + 1, [EnabledHead(), ItemLine(4, Plugin())]);
            Reads(longer, name) <==> ListedAfter(lines, Bare(p), name)
  {
    hide Is, First, ItemLine, EnabledItems, InlineItems, Section, IsBare, IsBlock, ShapeOf, Plugin, Plain, EnabledHead;
    var q, end := ShapeSays(lines);
    var stop := BareGrows(lines, p, end);
    var longer := Spliced(lines, p + 1, p + 1, [EnabledHead(), ItemLine(4, Plugin())]);
    SectionRange(lines, p, end);
    BlockStop(longer, p, end + 2, p + 2, stop);
    BareStop(lines, longer, p, end, stop);
    ListEndsThere(lines, p, end, p);
    SaysShape(longer, p, end + 2, EnabledBlock(p + 2, stop));
    OneHeld(longer, p + 2, Plugin());
    FoundInBoth(longer, p + 2, stop, 4, [Plugin()], Item(name));
    PluginIsPlain();
    ReadsAsItself(4, Plugin(), name);
    LinesBelow(lines, longer, p, 2, stop - 2, Item(name));
  }

  lemma OneHeld(lines: seq<string>, at: nat, item: string)
    requires at < |lines| && lines[at] == ItemLine(4, item)
    ensures Holds(lines, at, 4, [item])
  {
    hide ItemLine;
  }

  lemma AddedLists(lines: seq<string>, longer: seq<string>, name: string)
    requires Edited(lines, ShapeOf(lines), true) == Some(longer)
    ensures Reads(longer, name) <==> ListedAfter(lines, ShapeOf(lines), name)
  {
    hide Is, First, ItemLine, ShapeOf, EnabledLines, FlatLines, Plugin, Toggled, EnabledHead, SomeReads, AnotherIn, Listed;
    match ShapeOf(lines)
    case EnabledFlow(key, items) =>
      ToggledOn(items);
      FlowRemains(lines, key, items, [Plugin()] + items, name);
    case EnabledBlock(start, end) => BlockLists(lines, start, end, name);
    case Inline(p, end, items) =>
      ToggledOn(items);
      InlineRemains(lines, p, end, items, [Plugin()] + items, name);
    case Flat(p, start, end) => FlatLists(lines, p, start, end, name);
    case Bare(p) => BareReads(lines, p, name);
  }

  /** After `ensure` the reader finds a name exactly when the text was changed and the new list has
      it, or when the text stays and the reader found it before. */
  lemma {:induction false} AddedExactly(content: string, name: string)
    ensures var lines := Lines(content);
            Contains(Ensure(content), name) <==>
            if Gains(lines) then ListedAfter(lines, ShapeOf(lines), name) else Contains(content, name)
  {
    hide ShapeOf, Lines, Edited, JoinYaml, Reads, ListedAfter, Appended, Plugin;
    var lines := Lines(content);
    MissingListed(lines, name);
    if ShapeOf(lines) == Missing {
      AppendedContains(content, name);
    } else if Edited(lines, ShapeOf(lines), true).Some? {
      var longer := Edited(lines, ShapeOf(lines), true).value;
      AddedReads(content, longer, name);
      AddedLists(lines, longer, name);
    }
  }

  lemma MissingListed(lines: seq<string>, name: string)
    ensures ShapeOf(lines) == Missing ==> (ListedAfter(lines, ShapeOf(lines), name) <==> name == Plugin())
  {
    hide ShapeOf;
  }
}
