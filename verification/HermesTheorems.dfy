/** What the Hermes editor and its reader promise each other, for every text. */
module HermesTheorems {
  import opened Wrappers
  import opened YamlText
  import opened HermesConfig
  import opened HermesLines
  import opened HermesAgreement

  // ---- what is listed after an edit -----------------------------------------------------------

  /** An item as it was written in a flow sequence reads as `name` on a line of its own. */
  predicate ReadsAs(item: string, name: string, indent: nat) {
    Is(Item(name), ItemLine(indent, item))
  }

  lemma InsertedFound(lines: seq<string>, at: nat, hi: nat, line: string, kind: Kind)
    requires at <= hi <= |lines|
    ensures First(Spliced(lines, at, at, [line]), at, hi + 1, kind) < hi + 1 <==>
            Is(kind, line) || First(lines, at, hi, kind) < hi
  {
    hide Is, First;
    var longer := Spliced(lines, at, at, [line]);
    if Is(kind, line) {
      assert longer[at] == line;
      FirstIs(longer, at, hi + 1, kind, at);
    } else {
      FirstAfter(lines, at, at, [line], at, hi, kind);
    }
  }

  lemma BlockLists(lines: seq<string>, start: nat, stop: nat, name: string)
    requires start <= |lines| && ShapeOf(lines) == EnabledBlock(start, stop)
    ensures var longer := Spliced(lines, start, start, [ItemLine(4, Plugin())]);
            Reads(longer, name) <==> name == Plugin() || Reads(lines, name)
  {
    hide Is, First, ItemLine, EnabledItems, InlineItems, Plugin, Plain, Section, IsBlock, ShapeOf;
    var p, end := ShapeSays(lines);
    BlockGrows(lines, p, end, start, stop);
    var longer := Spliced(lines, start, start, [ItemLine(4, Plugin())]);
    SaysShape(longer, p, end + 1, EnabledBlock(start, stop + 1));
    PluginIsPlain();
    ReadsAsItself(4, Plugin(), name);
    InsertedFound(lines, start, stop, ItemLine(4, Plugin()), Item(name));
  }

  lemma FlatLists(lines: seq<string>, p: nat, start: nat, end: nat, name: string)
    requires start < |lines| && ShapeOf(lines) == Flat(p, start, end)
    ensures var longer := Spliced(lines, start, start, [ItemLine(2, Plugin())]);
            Reads(longer, name) <==> name == Plugin() || Reads(lines, name)
  {
    hide Is, First, ItemLine, EnabledItems, InlineItems, Plugin, Plain, Section, IsFlat, ShapeOf;
    var q, e := ShapeSays(lines);
    FlatGrows(lines, p, end, start);
    var longer := Spliced(lines, start, start, [ItemLine(2, Plugin())]);
    SaysShape(longer, p, end + 1, Flat(p, start, end + 1));
    PluginIsPlain();
    ReadsAsItself(2, Plugin(), name);
    FlatMatchIsItem(Plugin(), name);
    var stop := First(lines, start, end, FlatBreak);
    InsertedFound(lines, start, stop, ItemLine(2, Plugin()), FlatMatch(name));
  }

  lemma {:induction false} FoundAmong(lines: seq<string>, at: nat, hi: nat, indent: nat, items: seq<string>, kind: Kind, i: nat)
    requires Holds(lines, at, indent, items) && at + |items| <= hi <= |lines|
    requires i < |items| && Is(kind, ItemLine(indent, items[i]))
    ensures First(lines, at, hi, kind) < hi
  {
    hide Is, ItemLine;
    assert lines[at + i] == ItemLine(indent, items[i]);
  }

  lemma FlowLists(lines: seq<string>, key: nat, items: seq<string>, more: seq<string>, name: string)
    requires key < |lines| && ShapeOf(lines) == EnabledFlow(key, items) && more != []
    requires exists i | 0 <= i < |more| :: ReadsAs(more[i], name, 4)
    ensures var longer := Spliced(lines, key, key + 1, EnabledLines(more));
            Reads(longer, name)
  {
    hide Is, First, ItemLine, EnabledItems, InlineItems, EnabledLines, Section, IsBlock, IsFlow, ShapeOf, Holds;
    var p, end := ShapeSays(lines);
    var stop := FlowBecomesBlock(lines, p, end, key, items, more);
    var longer := Spliced(lines, key, key + 1, EnabledLines(more));
    SaysShape(longer, p, end + |more|, EnabledBlock(key + 1, stop));
    var i :| 0 <= i < |more| && ReadsAs(more[i], name, 4);
    FoundAmong(longer, key + 1, stop, 4, more, Item(name), i);
  }

  lemma InlineLists(lines: seq<string>, p: nat, end: nat, items: seq<string>, more: seq<string>, name: string)
    requires p < end <= |lines| && ShapeOf(lines) == Inline(p, end, items) && more != [] && more[0] == Plugin()
    ensures var longer := Spliced(lines, p, end, FlatLines(more));
            Reads(longer, name) <==> exists i | 0 <= i < |more| :: ReadsAs(more[i], name, 2)
  {
    hide Is, First, ItemLine, EnabledItems, InlineItems, FlatLines, Section, IsFlat, IsInline, ShapeOf, Plugin;
    var q, e := ShapeSays(lines);
    InlineBecomesFlat(lines, p, end, items, more);
    var longer := Spliced(lines, p, end, FlatLines(more));
    var grown := p + 1 + |more|;
    SaysShape(longer, p, grown, Flat(p, p + 1, grown));
    var k := First(longer, p + 1, grown, FlatMatch(name));
    if k < grown {
      FlatMatchIsItem(more[k - p - 1], name);
      assert longer[p + 1 + (k - p - 1)] == ItemLine(2, more[k - p - 1]);
      assert ReadsAs(more[k - p - 1], name, 2);
    }
    if i :| 0 <= i < |more| && ReadsAs(more[i], name, 2) {
      FlatMatchIsItem(more[i], name);
      FoundAmong(longer, p + 1, grown, 2, more, FlatMatch(name), i);
    }
  }

  lemma BareLists(lines: seq<string>, p: nat)
    requires p < |lines| && ShapeOf(lines) == Bare(p)
    ensures var longer := Spliced(lines, p + 1, p + 1, [EnabledHead(), ItemLine(4, Plugin())]);
            Reads(longer, Plugin())
  {
    hide Is, First, ItemLine, EnabledItems, InlineItems, Section, IsBare, IsBlock, ShapeOf, Plugin, Plain;
    var q, end := ShapeSays(lines);
    var stop := BareGrows(lines, p, end);
    var longer := Spliced(lines, p + 1, p + 1, [EnabledHead(), ItemLine(4, Plugin())]);
    SaysShape(longer, p, end + 2, EnabledBlock(p + 2, stop));
    PluginIsPlain();
    ReadsAsItself(4, Plugin(), Plugin());
    assert Is(Item(Plugin()), longer[p + 2]);
    FirstIs(longer, p + 2, stop, Item(Plugin()), p + 2);
  }

  /** After an edit that adds it, the plugin is listed. */
  lemma AddedIsListed(lines: seq<string>, longer: seq<string>)
    requires Edited(lines, ShapeOf(lines), true) == Some(longer)
    ensures Reads(longer, Plugin())
  {
    hide Is, First, ItemLine, ShapeOf, Listed, EnabledLines, FlatLines, Plugin, Plain, Toggled, EnabledHead;
    PluginIsPlain();
    match ShapeOf(lines)
    case EnabledFlow(key, items) =>
      var more := [Plugin()] + items;
      ToggledOn(items);
      ReadsAsItself(4, Plugin(), Plugin());
      assert ReadsAs(more[0], Plugin(), 4);
      FlowLists(lines, key, items, more, Plugin());
    case EnabledBlock(start, end) => BlockLists(lines, start, end, Plugin());
    case Inline(p, end, items) =>
      var more := [Plugin()] + items;
      ToggledOn(items);
      ReadsAsItself(2, Plugin(), Plugin());
      assert ReadsAs(more[0], Plugin(), 2);
      InlineLists(lines, p, end, items, more, Plugin());
    case Flat(p, start, end) => FlatLists(lines, p, start, end, Plugin());
    case Bare(p) => BareLists(lines, p);
  }

  lemma ToggledOn(items: seq<string>)
    ensures Toggled(items, true).Some? ==> Toggled(items, true) == Some([Plugin()] + items)
    ensures Toggled(items, true).None? <==> Plugin() in items
  {
    var i := IndexOf(items, Plugin());
    assert i == |items| ==> items[..i] == items;
  }

  // ---- the text that is written -----------------------------------------------------------------

  lemma {:induction false} SlicesHaveNoFeed(s: string)
    requires '\n' !in s
    ensures '\n' !in Trim(s) && '\n' !in ScalarValue(s) && '\n' !in Trim(StripComment(s))
  {
    hide TrimStart, TrimEnd, CommentStart, IsWhitespace;
    TrimHasNoFeed(s);
    TrimEndIsPrefix(s[..CommentStart(s, 0, UNQUOTED)]);
    TrimHasNoFeed(StripComment(s));
  }

  lemma TrimHasNoFeed(s: string)
    requires '\n' !in s
    ensures '\n' !in Trim(s)
  {
    hide TrimStart, TrimEnd;
    var t := TrimStart(s);
    TrimStartIsSuffix(s);
    TrimEndIsPrefix(t);
    assert forall i | 0 <= i < |t| :: t[i] == s[|s| - |t| + i];
  }

  lemma ConsHasNoFeeds(line: string, lines: seq<string>)
    requires '\n' !in line && NoFeeds(lines)
    ensures NoFeeds([line] + lines)
  {
  }

  lemma {:induction false} ItemsHaveNoFeeds(inner: string, i: nat, current: string, q: Quoting)
    requires i <= |inner| && '\n' !in inner && '\n' !in current
    ensures ItemsFrom(inner, i, current, q).Some? ==> NoFeeds(ItemsFrom(inner, i, current, q).value)
    decreases |inner| - i
  {
    hide ScalarValue, After, NoFeeds, Trim, StripComment;
    SlicesHaveNoFeed(current);
    NothingHasNoFeeds();
    ConsHasNoFeeds(ScalarValue(current), []);
    if i < |inner| {
      if q.quote.None? && inner[i] == ',' {
        ItemsHaveNoFeeds(inner, i + 1, "", q);
        if ItemsFrom(inner, i + 1, "", q).Some? {
          ConsHasNoFeeds(ScalarValue(current), ItemsFrom(inner, i + 1, "", q).value);
        }
      } else {
        ItemsHaveNoFeeds(inner, i + 1, current + [inner[i]], After(q, inner[i]));
      }
    } else {
      assert [ScalarValue(current)] + [] == [ScalarValue(current)];
    }
  }

  lemma NothingHasNoFeeds()
    ensures NoFeeds([])
  {
  }

  lemma FlowHasNoFeeds(value: string)
    requires '\n' !in value
    ensures FlowItems(value).Some? ==> NoFeeds(FlowItems(value).value)
  {
    hide ItemsFrom, ScalarValue, Trim, StripComment;
    SlicesHaveNoFeed(value);
    var v := Trim(StripComment(value));
    if |v| >= 2 {
      TrimHasNoFeed(v[1..|v| - 1]);
      ItemsHaveNoFeeds(Trim(v[1..|v| - 1]), 0, "", UNQUOTED);
    }
  }

  lemma SliceHasNoFeed(s: string, i: nat)
    requires '\n' !in s && i <= |s|
    ensures '\n' !in s[i..]
  {
  }

  lemma KeyValueHasNoFeed(line: string, indent: nat, key: string)
    requires '\n' !in line
    ensures KeyValueAt(line, indent, key).Some? ==> '\n' !in KeyValueAt(line, indent, key).value
  {
    hide IndexOf, Trim, Indent, TrimStart;
    var trimmed := TrimStart(line);
    TrimStartIsSuffix(line);
    SliceHasNoFeed(line, |line| - |trimmed|);
    var colon := IndexOf(trimmed, ':');
    if colon < |trimmed| {
      SliceHasNoFeed(trimmed, colon + 1);
      TrimHasNoFeed(trimmed[colon + 1..]);
    }
  }

  lemma LineItemsHaveNoFeeds(line: string)
    requires '\n' !in line
    ensures EnabledItems(line).Some? ==> NoFeeds(EnabledItems(line).value)
    ensures InlineItems(line).Some? ==> NoFeeds(InlineItems(line).value)
  {
    hide KeyValueAt, FlowItems;
    KeyValueHasNoFeed(line, 2, "enabled");
    KeyValueHasNoFeed(line, 0, "plugins");
    if KeyValueAt(line, 2, "enabled").Some? {
      FlowHasNoFeeds(KeyValueAt(line, 2, "enabled").value);
    }
    if KeyValueAt(line, 0, "plugins").Some? {
      FlowHasNoFeeds(KeyValueAt(line, 0, "plugins").value);
    }
  }

  lemma ShapeHasNoFeeds(lines: seq<string>)
    requires NoFeeds(lines)
    ensures ShapeOf(lines).EnabledFlow? || ShapeOf(lines).Inline? ==> NoFeeds(ShapeOf(lines).items)
  {
    hide Is, First, EnabledItems, InlineItems;
    if ShapeOf(lines).EnabledFlow? {
      LineItemsHaveNoFeeds(lines[ShapeOf(lines).key]);
    }
    if ShapeOf(lines).Inline? {
      LineItemsHaveNoFeeds(lines[ShapeOf(lines).plugins]);
    }
  }

  lemma HeadedLines(head: string, indent: nat, items: seq<string>)
    requires head != "" && '\n' !in head && NoFeeds(items)
    ensures NoFeeds([head] + ItemLines(indent, items))
    ensures var lines := [head] + ItemLines(indent, items); lines[|lines| - 1] != ""
  {
    hide ItemLine;
    forall i | 0 <= i < |items| {
      ItemLineText(indent, items[i]);
    }
  }

  /** What is spliced in is made of whole lines, the last of them not empty. */
  ghost predicate Writable(inserted: seq<string>) {
    inserted != [] && NoFeeds(inserted) && inserted[|inserted| - 1] != ""
  }

  lemma SplicedWritable(lines: seq<string>, a: nat, b: nat, inserted: seq<string>)
    requires a <= b <= |lines| && NoFeeds(lines) && Writable(inserted)
    ensures var longer := Spliced(lines, a, b, inserted);
            && NoFeeds(longer) && longer != []
            && (lines == [] || lines[|lines| - 1] != "" ==> longer[|longer| - 1] != "")
  {
  }

  lemma AddedIsWritable(lines: seq<string>, longer: seq<string>)
    requires lines != [] && NoFeeds(lines) && Edited(lines, ShapeOf(lines), true) == Some(longer)
    ensures NoFeeds(longer) && longer != []
    ensures lines[|lines| - 1] != "" ==> longer[|longer| - 1] != ""
  {
    hide Is, First, ItemLine, ShapeOf, Plugin, Toggled, EnabledHead, PluginsHead;
    ShapeHasNoFeeds(lines);
    Heads();
    ItemLineText(4, Plugin());
    ItemLineText(2, Plugin());
    match ShapeOf(lines)
    case EnabledFlow(key, items) =>
      ToggledOn(items);
      HeadedLines(EnabledHead(), 4, [Plugin()] + items);
      SplicedWritable(lines, key, key + 1, EnabledLines([Plugin()] + items));
    case EnabledBlock(start, end) => SplicedWritable(lines, start, start, [ItemLine(4, Plugin())]);
    case Inline(p, end, items) =>
      ToggledOn(items);
      HeadedLines(PluginsHead(), 2, [Plugin()] + items);
      SplicedWritable(lines, p, end, FlatLines([Plugin()] + items));
    case Flat(p, start, end) => SplicedWritable(lines, start, start, [ItemLine(2, Plugin())]);
    case Bare(p) => SplicedWritable(lines, p + 1, p + 1, [EnabledHead(), ItemLine(4, Plugin())]);
  }

  lemma Heads()
    ensures EnabledHead() != "" && '\n' !in EnabledHead() && PluginsHead() != "" && '\n' !in PluginsHead()
    ensures Plugin() != "" && '\n' !in Plugin()
  {
  }

  /** What is written reads as the edited lines. */
  lemma {:induction false} AddedReads(content: string, longer: seq<string>, name: string)
    requires Edited(Lines(content), ShapeOf(Lines(content)), true) == Some(longer)
    ensures Contains(JoinYaml(longer, EndsWithFeed(content)), name) == Reads(longer, name)
  {
    hide Edited, ShapeOf, Listed, Lines, JoinYaml;
    LinesHaveNoFeeds(content);
    EmptyText(content);
    AddedIsWritable(Lines(content), longer);
    if !EndsWithFeed(content) {
      LastLine(content);
    }
    LinesOfJoined(longer, EndsWithFeed(content));
    SimilarListed(longer, Lines(JoinYaml(longer, EndsWithFeed(content))), name);
  }

  /** A text whose plugins can be edited has lines. */
  lemma {:induction false} EmptyText(content: string)
    requires Edited(Lines(content), ShapeOf(Lines(content)), true).Some?
    ensures content != "" && Lines(content) != []
  {
    hide Is;
    assert ShapeOf([]) == Missing;
  }
}
