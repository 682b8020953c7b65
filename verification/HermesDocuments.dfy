/** Whole documents: the plugins listed in each of the ways they may be, with every entry written plainly
    or in quotes, what the reader finds in them and what the editor makes of them. */
module HermesDocuments {
  import opened Wrappers
  import opened YamlText
  import opened HermesConfig
  import opened HermesLines
  import opened HermesAgreement
  import opened HermesScalars
  import opened HermesEntries
  import opened HermesFlows

  // ---- in any text --------------------------------------------------------------------------------

  /** A block list with a line for the plugin, in quotes or not: it is found, adding changes nothing, and
      removing takes out that line, if it is the first for it, and no other. */
  lemma {:induction false} WrittenInBlock(content: string, start: nat, end: nat, k: nat, indent: nat, e: Entry)
    requires ShapeOf(Lines(content)) == EnabledBlock(start, end) && start <= k < end
    requires Good(e) && e.value == Plugin() && Lines(content)[k] == EntryLine(indent, e)
    ensures Contains(content, Plugin()) && Ensure(content) == content
    ensures (forall j | start <= j < k :: !Is(Item(Plugin()), Lines(content)[j])) ==>
              Remove(content) == JoinYaml(Lines(content)[..k] + Lines(content)[k + 1..], EndsWithFeed(content))
  {
    hide Is, ShapeOf, Lines, EntryLine, Good, JoinYaml, Plugin;
    EntryLineIs(indent, e, Plugin());
    var lines := Lines(content);
    if forall j | start <= j < k :: !Is(Item(Plugin()), lines[j]) {
      FirstIs(lines, start, end, Item(Plugin()), k);
      assert lines[..k] + [] + lines[k + 1..] == lines[..k] + lines[k + 1..];
    }
  }

  lemma {:induction false} WrittenInFlat(content: string, p: nat, start: nat, end: nat, k: nat, e: Entry)
    requires ShapeOf(Lines(content)) == Flat(p, start, end) && p < k < end
    requires Good(e) && e.value == Plugin() && Lines(content)[k] == EntryLine(2, e)
    ensures start <= k < First(Lines(content), start, end, FlatBreak) ==> Contains(content, Plugin())
    ensures Ensure(content) == content
    ensures (forall j | p < j < k :: !Is(FlatMatch(Plugin()), Lines(content)[j])) ==>
              Remove(content) == JoinYaml(Lines(content)[..k] + Lines(content)[k + 1..], EndsWithFeed(content))
  {
    hide Is, ShapeOf, Lines, EntryLine, Good, JoinYaml, Plugin;
    EntryLineIs(2, e, Plugin());
    var lines := Lines(content);
    if forall j | p < j < k :: !Is(FlatMatch(Plugin()), lines[j]) {
      FirstIs(lines, p + 1, end, FlatMatch(Plugin()), k);
      assert lines[..k] + [] + lines[k + 1..] == lines[..k] + lines[k + 1..];
    }
  }

  // ---- a key with a flow sequence -----------------------------------------------------------------------

  function FlowLine(indent: nat, key: string, w: string, a: string, entries: seq<Entry>, b: string, c: string, comment: string): string {
    Spaces(indent) + key + ":" + w + Flow(a, entries, b) + c + comment
  }

  /** The key of such a line. */
  predicate IsKey(key: string) {
    Trimmed(key) && ':' !in key && key[0] != '#' && key[0] != '-'
  }

  lemma ValueText(w: string, flow: string, c: string, comment: string) returns (rest: string)
    requires OnlySpace(w) && Trimmed(flow) && Follows(c, comment)
    ensures Trim(w + flow + c + comment) == flow + rest
    ensures rest == if comment == "" then "" else c + TrimEnd(comment)
    ensures comment != "" ==> Follows(c, TrimEnd(comment))
  {
    hide TrimEnd, TrimStart, OnlySpace, IsWhitespace;
    rest := if comment == "" then "" else c + TrimEnd(comment);
    if comment == "" {
      TrimsTo(w, flow, c);
      assert w + flow + c + comment == w + flow + c;
      assert flow + rest == flow;
    } else {
      assert w + flow + c + comment == w + (flow + c + comment);
      assert (flow + c + comment)[0] == flow[0];
      BlankStart(w, flow + c + comment);
      CommentStays(flow, c, comment);
    }
  }

  lemma KeyColon(key: string, value: string)
    requires Trimmed(key) && ':' !in key
    ensures var text := key + (":" + value);
            IndexOf(text, ':') == |key| && text[..|key|] == key && text[|key| + 1..] == value
  {
    hide IsWhitespace, Trimmed, IndexOf;
    FindAppend(key, ":" + value, ':');
    FindNone(key, ':');
    ColonFirst(value);
  }

  lemma KeyParts(indent: nat, key: string, value: string)
    requires IsKey(key)
    ensures var line := Spaces(indent) + key + ":" + value;
            Indent(line) == Some(indent) && SplitKey(line) == Some((key, Trim(value)))
  {
    hide Trim, TrimStart, IsWhitespace, IndexOf, Utf8Size;
    var text := key + (":" + value);
    var line := Spaces(indent) + key + ":" + value;
    assert line == Spaces(indent) + text;
    KeyThere(key);
    assert text[0] == key[0];
    SpacesTrimmed(indent, text);
    assert line[..|line| - |text|] == Spaces(indent);
    SpacesSize(Spaces(indent));
    KeyColon(key, value);
    KeyTrims(key);
  }

  lemma {:induction false} ColonFirst(value: string)
    ensures IndexOf(":" + value, ':') == 0
  {
  }

  lemma KeyTrims(key: string)
    requires Trimmed(key)
    ensures Trim(key) == key
  {
    hide TrimStart, TrimEnd, IsWhitespace;
    EmptyIsBlank();
    TrimsTo("", key, "");
    assert "" + key + "" == key;
  }

  /** A key with a flow sequence after it has exactly these items. */
  lemma FlowLineIs(indent: nat, key: string, w: string, a: string, entries: seq<Entry>, b: string, c: string, comment: string)
    requires IsKey(key) && OnlySpace(w) && OnlySpace(a) && FlowList(entries) && OnlySpace(b) && Follows(c, comment)
    ensures var line := FlowLine(indent, key, w, a, entries, b, c, comment);
            && Indent(line) == Some(indent) && KeyName(line) == Some(key)
            && KeyValueAt(line, indent, key).Some? && FlowItems(KeyValueAt(line, indent, key).value) == Some(Values(entries))
  {
    hide TrimStart, TrimEnd, Trim, OnlySpace, FlowItems, Cells, FlowList, SplitKey, Indent, Follows, IsWhitespace, Trimmed;
    var flow := Flow(a, entries, b);
    var line := FlowLine(indent, key, w, a, entries, b, c, comment);
    assert line == Spaces(indent) + key + ":" + (w + flow + c + comment);
    KeyParts(indent, key, w + flow + c + comment);
    Brackets(flow);
    var rest := ValueText(w, flow, c, comment);
    NothingFollows();
    if comment == "" {
      FlowReads(a, entries, b, "", "");
      assert flow + "" + "" == flow + rest;
    } else {
      FlowReads(a, entries, b, c, TrimEnd(comment));
      assert flow + c + TrimEnd(comment) == flow + rest;
    }
    KeyThere(key);
  }

  lemma KeyThere(key: string)
    requires Trimmed(key)
    ensures key != ""
  {
  }

  lemma NothingFollows()
    ensures Follows("", "")
  {
  }

  /** `enabled: [...]` in any text: the reader finds exactly the entries, adding a plugin that is there
      changes nothing, and removing it takes out the first entry for it and no other. */
  lemma {:induction false} WrittenInEnabledFlow(content: string, key: nat, items: seq<string>,
                             w: string, a: string, entries: seq<Entry>, b: string, c: string, comment: string, name: string)
    requires ShapeOf(Lines(content)) == EnabledFlow(key, items)
    requires OnlySpace(w) && OnlySpace(a) && FlowList(entries) && OnlySpace(b) && Follows(c, comment)
    requires Lines(content)[key] == FlowLine(2, "enabled", w, a, entries, b, c, comment)
    ensures Contains(content, name) <==> name in Values(entries)
    ensures Plugin() in Values(entries) ==> Ensure(content) == content
    ensures forall i | 0 <= i < |entries| && entries[i].value == Plugin() && Plugin() !in Values(entries)[..i] ::
              Remove(content) == JoinYaml(Spliced(Lines(content), key, key + 1, EnabledLines(Values(entries)[..i] + Values(entries)[i + 1..])),
                                          EndsWithFeed(content))
  {
    hide Is, Lines, JoinYaml, Plugin, FlowLine, FlowItems, FlowList, OnlySpace, First, EnabledLines, Follows, KeyValueAt, Spliced;
    EnabledIsKey();
    FlowLineIs(2, "enabled", w, a, entries, b, c, comment);
    ShapeSaysItems(Lines(content), key, items);
    forall i | 0 <= i < |entries| && entries[i].value == Plugin() && Plugin() !in Values(entries)[..i]
      ensures IndexOf(Values(entries), Plugin()) == i
    {
      FirstPlace(Values(entries), Plugin(), i);
    }
  }

  /** The same of `plugins: [...]`. */
  lemma {:induction false} WrittenInInline(content: string, plugins: nat, end: nat, items: seq<string>,
                        w: string, a: string, entries: seq<Entry>, b: string, c: string, comment: string, name: string)
    requires ShapeOf(Lines(content)) == Inline(plugins, end, items)
    requires OnlySpace(w) && OnlySpace(a) && FlowList(entries) && OnlySpace(b) && Follows(c, comment)
    requires Lines(content)[plugins] == FlowLine(0, "plugins", w, a, entries, b, c, comment)
    ensures Contains(content, name) <==> name in Values(entries)
    ensures Plugin() in Values(entries) ==> Ensure(content) == content
    ensures forall i | 0 <= i < |entries| && entries[i].value == Plugin() && Plugin() !in Values(entries)[..i] ::
              Remove(content) == JoinYaml(Spliced(Lines(content), plugins, end, FlatLines(Values(entries)[..i] + Values(entries)[i + 1..])),
                                          EndsWithFeed(content))
  {
    hide Is, Lines, JoinYaml, Plugin, FlowLine, FlowItems, FlowList, OnlySpace, First, FlatLines, Follows, KeyValueAt, Spliced;
    EnabledIsKey();
    FlowLineIs(0, "plugins", w, a, entries, b, c, comment);
    InlineSaysItems(Lines(content), plugins, end, items);
    forall i | 0 <= i < |entries| && entries[i].value == Plugin() && Plugin() !in Values(entries)[..i]
      ensures IndexOf(Values(entries), Plugin()) == i
    {
      FirstPlace(Values(entries), Plugin(), i);
    }
  }

  lemma InlineSaysItems(lines: seq<string>, plugins: nat, end: nat, items: seq<string>)
    requires ShapeOf(lines) == Inline(plugins, end, items)
    ensures InlineItems(lines[plugins]) == Some(items)
  {
    hide Is, First, EnabledItems, InlineItems;
  }

  lemma EnabledIsKey()
    ensures IsKey("enabled") && IsKey("plugins")
  {
  }

  lemma ShapeSaysItems(lines: seq<string>, key: nat, items: seq<string>)
    requires ShapeOf(lines) == EnabledFlow(key, items)
    ensures EnabledItems(lines[key]) == Some(items)
  {
    hide Is, First, EnabledItems, InlineItems;
  }

  lemma {:induction false} FirstPlace<T>(s: seq<T>, x: T, i: nat)
    requires i < |s| && s[i] == x && x !in s[..i]
    ensures IndexOf(s, x) == i
  {
  }

  // ---- whole documents -------------------------------------------------------------------------------------

  ghost predicate AllGood(entries: seq<Entry>) {
    forall i | 0 <= i < |entries| :: Good(entries[i])
  }

  function EntryLines(indent: nat, entries: seq<Entry>): (lines: seq<string>)
    ensures |lines| == |entries|
    ensures forall i | 0 <= i < |entries| :: lines[i] == EntryLine(indent, entries[i])
  {
    seq(|entries|, i requires 0 <= i < |entries| => EntryLine(indent, entries[i]))
  }

  function BlockLines(entries: seq<Entry>): seq<string> {
    ["plugins:", "  enabled:"] + EntryLines(4, entries)
  }

  function FlatDocument(entries: seq<Entry>): seq<string> {
    ["plugins:"] + EntryLines(2, entries)
  }

  function Document(lines: seq<string>): string {
    JoinYaml(lines, true)
  }

  predicate Clean(lines: seq<string>) {
    lines != [] && forall i | 0 <= i < |lines| :: OneLine(lines[i])
  }

  /** A document is read as the lines it was made of. */
  lemma DocumentLines(lines: seq<string>)
    requires Clean(lines)
    ensures Lines(Document(lines)) == lines && EndsWithFeed(Document(lines))
  {
    hide Lines, Join;
    LinesOfEnded(lines, "");
    LinesOfNothing();
    assert Join(lines) + "\n" + "" == Join(lines) + "\n";
    forall i | 0 <= i < |lines| ensures StripReturn(lines[i]) == lines[i] {
      assert OneLine(lines[i]);
    }
    assert Stripped(lines) == lines;
    assert Stripped(lines) + [] == lines;
  }

  lemma {:induction false} EntryLinesAre(indent: nat, entries: seq<Entry>, i: nat, name: string)
    requires AllGood(entries) && i < |entries|
    ensures var line := EntryLines(indent, entries)[i];
            && (Is(Item(name), line) <==> name == entries[i].value)
            && (indent == 2 ==> (Is(FlatMatch(name), line) <==> name == entries[i].value) && Is(FlatItem, line) && !Is(FlatBreak, line))
            && !Is(PluginsKey, line) && !Is(TopKey, line) && !Is(EnabledKey, line) && !Is(ListEnd, line)
            && OneLine(line) && line != ""
  {
    hide Is, EntryLine, Good;
    EntryLineIs(indent, entries[i], name);
  }

  lemma HeadsAreClean()
    ensures OneLine("plugins:") && OneLine("  enabled:")
  {
  }

  lemma BlockShape(entries: seq<Entry>)
    requires AllGood(entries)
    ensures ShapeOf(BlockLines(entries)) == EnabledBlock(2, 2 + |entries|)
    ensures Clean(BlockLines(entries))
  {
    hide Is, First, EntryLine, Good, EnabledItems, InlineItems, EntryLines, OneLine;
    var lines := BlockLines(entries);
    var n := |lines|;
    PluginsLine();
    EnabledLine();
    HeadsAreClean();
    assert lines[0] == PluginsHead() && lines[1] == EnabledHead();
    forall k | 2 <= k < n
      ensures !Is(TopKey, lines[k]) && !Is(ListEnd, lines[k]) && OneLine(lines[k])
    {
      EntryLinesAre(4, entries, k - 2, "");
      assert lines[k] == EntryLines(4, entries)[k - 2];
    }
    FirstIs(lines, 0, n, PluginsKey, 0);
    FirstIs(lines, 1, n, TopKey, n);
    FirstIs(lines, 1, n, EnabledKey, 1);
    FirstIs(lines, 2, n, ListEnd, n);
  }

  lemma ListLine(indent: nat, head: seq<string>, entries: seq<Entry>, k: nat, name: string)
    requires AllGood(entries) && |head| <= k < |head| + |entries|
    ensures var line := (head + EntryLines(indent, entries))[k];
            && (Is(Item(name), line) <==> name == Values(entries)[k - |head|])
            && (indent == 2 ==> (Is(FlatMatch(name), line) <==> name == Values(entries)[k - |head|]))
  {
    hide Is, EntryLine, Good;
    EntryLinesAre(indent, entries, k - |head|, name);
  }

  /** Where a list of lines first has an entry. */
  lemma {:induction false} ListFirst(indent: nat, head: seq<string>, entries: seq<Entry>, kind: Kind, name: string)
    requires AllGood(entries) && (kind == Item(name) || (indent == 2 && kind == FlatMatch(name)))
    ensures var lines := head + EntryLines(indent, entries);
            First(lines, |head|, |lines|, kind) == |head| + IndexOf(Values(entries), name)
  {
    hide Is, First, EntryLine, Good, IndexOf;
    var lines := head + EntryLines(indent, entries);
    var i := IndexOf(Values(entries), name);
    forall k | |head| <= k < |lines| ensures Is(kind, lines[k]) <==> name == Values(entries)[k - |head|] {
      ListLine(indent, head, entries, k, name);
    }
    forall k | |head| <= k < |head| + i ensures !Is(kind, lines[k]) {
      assert Values(entries)[..i][k - |head|] == Values(entries)[k - |head|];
    }
    FirstIs(lines, |head|, |lines|, kind, |head| + i);
  }

  /** The entries without the first for the plugin. */
  function WithoutPlugin(entries: seq<Entry>): seq<Entry> {
    var i := IndexOf(Values(entries), Plugin());
    if i < |entries| then entries[..i] + entries[i + 1..] else entries
  }

  lemma InsertedLine(indent: nat, head: seq<string>, entries: seq<Entry>)
    ensures Spliced(head + EntryLines(indent, entries), |head|, |head|, [ItemLine(indent, Plugin())]) ==
            head + EntryLines(indent, [NEW] + entries)
  {
    hide EntryLine, ItemLine;
    NewIsGood();
    assert EntryLines(indent, [NEW] + entries) == [EntryLine(indent, NEW)] + EntryLines(indent, entries);
  }

  lemma RemovedLine(indent: nat, head: seq<string>, entries: seq<Entry>, i: nat)
    requires i < |entries|
    ensures Spliced(head + EntryLines(indent, entries), |head| + i, |head| + i + 1, []) ==
            head + EntryLines(indent, entries[..i] + entries[i + 1..])
  {
    hide EntryLine;
    var lines := head + EntryLines(indent, entries);
    assert lines[..|head| + i] == head + EntryLines(indent, entries[..i]);
    assert lines[|head| + i + 1..] == EntryLines(indent, entries[i + 1..]);
    assert EntryLines(indent, entries[..i] + entries[i + 1..]) == EntryLines(indent, entries[..i]) + EntryLines(indent, entries[i + 1..]);
  }

  lemma EditedAt(lines: seq<string>, at: nat, kind: Kind, line: string, enabled: bool, i: nat)
    requires at <= |lines| && First(lines, at, |lines|, kind) == i
    ensures EditedList(lines, at, at, |lines|, kind, line, enabled) ==
            if enabled == (i < |lines|) then None
            else if enabled then Some(Spliced(lines, at, at, [line]))
            else Some(Spliced(lines, i, i + 1, []))
  {
    hide First;
  }

  lemma WithoutIs(indent: nat, head: seq<string>, entries: seq<Entry>, i: nat)
    requires i == IndexOf(Values(entries), Plugin()) && i < |entries|
    ensures Spliced(head + EntryLines(indent, entries), |head| + i, |head| + i + 1, []) == head + EntryLines(indent, WithoutPlugin(entries))
  {
    hide EntryLines, IndexOf, Plugin, Spliced;
    RemovedLine(indent, head, entries, i);
  }

  /** What the editor makes of a list of entry lines below some others. */
  lemma ListEdits(indent: nat, head: seq<string>, entries: seq<Entry>, kind: Kind, enabled: bool)
    requires AllGood(entries) && (kind == Item(Plugin()) || (indent == 2 && kind == FlatMatch(Plugin())))
    ensures var lines := head + EntryLines(indent, entries);
            var edited := EditedList(lines, |head|, |head|, |lines|, kind, ItemLine(indent, Plugin()), enabled);
            if enabled == (Plugin() in Values(entries)) then edited == None
            else edited == Some(head + EntryLines(indent, if enabled then [NEW] + entries else WithoutPlugin(entries)))
  {
    hide First, EntryLines, Plugin, IndexOf, ItemLine, Spliced, AllGood, EditedList, WithoutPlugin;
    var i := IndexOf(Values(entries), Plugin());
    var lines := head + EntryLines(indent, entries);
    ListFirst(indent, head, entries, kind, Plugin());
    EditedAt(lines, |head|, kind, ItemLine(indent, Plugin()), enabled, |head| + i);
    Places(Values(entries), Plugin());
    if enabled {
      InsertedLine(indent, head, entries);
    } else if i < |entries| {
      WithoutIs(indent, head, entries, i);
    }
  }

  lemma BlockEdits(entries: seq<Entry>, enabled: bool)
    requires AllGood(entries)
    ensures var lines := BlockLines(entries);
            var edited := Edited(lines, EnabledBlock(2, 2 + |entries|), enabled);
            if enabled == (Plugin() in Values(entries)) then edited == None
            else edited == Some(BlockLines(if enabled then [NEW] + entries else WithoutPlugin(entries)))
  {
    hide EditedList, EntryLines, WithoutPlugin, AllGood, Plugin, ItemLine;
    ListEdits(4, ["plugins:", "  enabled:"], entries, Item(Plugin()), enabled);
  }

  lemma NothingWithout(entries: seq<Entry>)
    ensures Plugin() !in Values(entries) ==> WithoutPlugin(entries) == entries
  {
    hide Plugin, IndexOf;
    Places(Values(entries), Plugin());
  }

  /** A block list, however its entries are written: the reader finds exactly these, adding puts the plugin first if
      it is not among them, and removing takes out the first entry for it and no other. */
  lemma BlockDocument(entries: seq<Entry>, name: string)
    requires AllGood(entries)
    ensures var content := Document(BlockLines(entries));
            && (Contains(content, name) <==> name in Values(entries))
            && Ensure(content) == (if Plugin() in Values(entries) then content else Document(BlockLines([NEW] + entries)))
            && Remove(content) == Document(BlockLines(WithoutPlugin(entries)))
  {
    hide Is, First, EntryLine, Good, EntryLines, ShapeOf, Lines, JoinYaml, Plugin, IndexOf, EndsWithFeed, Clean, Edited, WithoutPlugin;
    BlockShape(entries);
    DocumentLines(BlockLines(entries));
    ListFirst(4, ["plugins:", "  enabled:"], entries, Item(name), name);
    Places(Values(entries), name);
    BlockEdits(entries, true);
    BlockEdits(entries, false);
    NothingWithout(entries);
  }

  lemma FlatShape(entries: seq<Entry>)
    requires AllGood(entries) && entries != []
    ensures ShapeOf(FlatDocument(entries)) == Flat(0, 1, 1 + |entries|)
    ensures First(FlatDocument(entries), 1, 1 + |entries|, FlatBreak) == 1 + |entries|
    ensures Clean(FlatDocument(entries))
  {
    hide Is, First, EntryLine, Good, EnabledItems, InlineItems, EntryLines, OneLine;
    var lines := FlatDocument(entries);
    var n := |lines|;
    PluginsLine();
    HeadsAreClean();
    assert lines[0] == PluginsHead();
    forall k | 1 <= k < n
      ensures !Is(TopKey, lines[k]) && !Is(EnabledKey, lines[k]) && Is(FlatItem, lines[k]) && !Is(FlatBreak, lines[k]) && OneLine(lines[k])
    {
      EntryLinesAre(2, entries, k - 1, "");
      assert lines[k] == EntryLines(2, entries)[k - 1];
    }
    FirstIs(lines, 0, n, PluginsKey, 0);
    FirstIs(lines, 1, n, TopKey, n);
    FirstIs(lines, 1, n, EnabledKey, n);
    FirstIs(lines, 1, n, FlatItem, 1);
    FirstIs(lines, 1, n, FlatBreak, n);
  }

  lemma FlatEdits(entries: seq<Entry>, enabled: bool)
    requires AllGood(entries) && entries != []
    ensures var lines := FlatDocument(entries);
            var edited := Edited(lines, Flat(0, 1, 1 + |entries|), enabled);
            if enabled == (Plugin() in Values(entries)) then edited == None
            else edited == Some(FlatDocument(if enabled then [NEW] + entries else WithoutPlugin(entries)))
  {
    hide EditedList, EntryLines, WithoutPlugin, AllGood, Plugin, ItemLine;
    ListEdits(2, ["plugins:"], entries, FlatMatch(Plugin()), enabled);
  }

  /** The same of a list right below `plugins:`. */
  lemma FlatDocumentIs(entries: seq<Entry>, name: string)
    requires AllGood(entries) && entries != []
    ensures var content := Document(FlatDocument(entries));
            && (Contains(content, name) <==> name in Values(entries))
            && Ensure(content) == (if Plugin() in Values(entries) then content else Document(FlatDocument([NEW] + entries)))
            && Remove(content) == Document(FlatDocument(WithoutPlugin(entries)))
  {
    hide Is, First, EntryLine, Good, EntryLines, ShapeOf, Lines, JoinYaml, Plugin, IndexOf, EndsWithFeed, Clean, Edited, WithoutPlugin;
    FlatShape(entries);
    DocumentLines(FlatDocument(entries));
    ListFirst(2, ["plugins:"], entries, FlatMatch(name), name);
    Places(Values(entries), name);
    FlatEdits(entries, true);
    FlatEdits(entries, false);
    NothingWithout(entries);
  }

  // ---- flow sequences --------------------------------------------------------------------------------------

  /** The document has its plugins in a flow sequence, at `enabled:` or at `plugins:`. */
  function FlowDocument(inline: bool, entries: seq<Entry>): seq<string> {
    if inline then [FlowLine(0, "plugins", " ", "", entries, "", "", "")]
    else ["plugins:", FlowLine(2, "enabled", " ", "", entries, "", "", "")]
  }

  lemma FlowLinesAre(entries: seq<Entry>)
    requires FlowList(entries)
    ensures EnabledItems(FlowLine(2, "enabled", " ", "", entries, "", "", "")) == Some(Values(entries))
    ensures InlineItems(FlowLine(0, "plugins", " ", "", entries, "", "", "")) == Some(Values(entries))
    ensures Is(PluginsKey, FlowLine(0, "plugins", " ", "", entries, "", "", ""))
    ensures var line := FlowLine(2, "enabled", " ", "", entries, "", "", ""); Is(EnabledKey, line) && !Is(TopKey, line)
  {
    hide FlowList, FlowLine, FlowItems, Indent, KeyName, SplitKey;
    EnabledIsKey();
    SpaceIsBlank();
    NothingFollows();
    FlowLineIs(2, "enabled", " ", "", entries, "", "", "");
    FlowLineIs(0, "plugins", " ", "", entries, "", "", "");
  }

  lemma SpaceIsBlank()
    ensures OnlySpace(" ") && OnlySpace("")
  {
  }

  lemma FlowShape(inline: bool, entries: seq<Entry>)
    requires FlowList(entries)
    ensures ShapeOf(FlowDocument(inline, entries)) == if inline then Inline(0, 1, Values(entries)) else EnabledFlow(1, Values(entries))
  {
    hide Is, First, FlowList, FlowLine, EnabledItems, InlineItems;
    var lines := FlowDocument(inline, entries);
    FlowLinesAre(entries);
    PluginsLine();
    assert !inline ==> lines[0] == PluginsHead();
    FirstIs(lines, 0, |lines|, PluginsKey, 0);
    FirstIs(lines, 1, |lines|, TopKey, |lines|);
    FirstIs(lines, 1, |lines|, EnabledKey, 1);
  }

  lemma {:induction false} CellsClean(entries: seq<Entry>)
    requires AllFlowGood(entries)
    ensures OneLine(Cells(entries))
    decreases |entries|
  {
    hide Written, OnlySpace, Follows;
    if entries != [] {
      assert Good(entries[0]);
      assert OneLine(Cell(entries[0]));
      CellsClean(entries[1..]);
    }
  }

  lemma FlowClean(inline: bool, entries: seq<Entry>)
    requires FlowList(entries)
    ensures Clean(FlowDocument(inline, entries))
  {
    hide Cells, FlowGood;
    CellsClean(entries);
    HeadsAreClean();
    FlowLineClean(0, "plugins", entries);
    FlowLineClean(2, "enabled", entries);
  }

  lemma {:induction false} FlowLineClean(indent: nat, key: string, entries: seq<Entry>)
    requires OneLine(key) && OneLine(Cells(entries))
    ensures OneLine(FlowLine(indent, key, " ", "", entries, "", "", ""))
  {
  }

  /** The names without the first that is the plugin. */
  function WithoutName(values: seq<string>): seq<string> {
    var i := IndexOf(values, Plugin());
    if i < |values| then values[..i] + values[i + 1..] else values
  }

  /** What a flow sequence is rewritten as. */
  function Rewritten(inline: bool, values: seq<string>): seq<string> {
    if inline then (if values == [] then ["plugins: []"] else ["plugins:"] + ItemLines(2, values))
    else ["plugins:"] + (if values == [] then ["  enabled: []"] else ["  enabled:"] + ItemLines(4, values))
  }

  lemma TogglesTo(values: seq<string>, enabled: bool)
    ensures Toggled(values, enabled) ==
            if enabled == (Plugin() in values) then None else Some(if enabled then [Plugin()] + values else WithoutName(values))
  {
    hide Plugin, IndexOf;
    Places(values, Plugin());
  }

  lemma OnlyLine(line: string, more: seq<string>)
    ensures Spliced([line], 0, 1, more) == more
    ensures Spliced(["plugins:", line], 1, 2, more) == ["plugins:"] + more
  {
  }

  lemma FlowEdits(inline: bool, entries: seq<Entry>, enabled: bool)
    requires FlowList(entries)
    ensures var lines, values := FlowDocument(inline, entries), Values(entries);
            var edited := Edited(lines, if inline then Inline(0, 1, values) else EnabledFlow(1, values), enabled);
            if enabled == (Plugin() in values) then edited == None
            else edited == Some(Rewritten(inline, if enabled then [Plugin()] + values else WithoutName(values)))
  {
    hide FlowLine, FlowList, Plugin, IndexOf, ItemLine, ItemLines, Toggled, Spliced, WithoutName;
    var values := Values(entries);
    var more := if enabled then [Plugin()] + values else WithoutName(values);
    TogglesTo(values, enabled);
    if inline {
      OnlyLine(FlowLine(0, "plugins", " ", "", entries, "", "", ""), FlatLines(more));
    } else {
      OnlyLine(FlowLine(2, "enabled", " ", "", entries, "", "", ""), EnabledLines(more));
    }
  }

  /** A flow sequence, however its entries are written: the reader finds exactly these; a sequence with the plugin is
      left alone by adding, one without it by removing; and else it is rewritten with one line for each name, the
      plugin first or its first entry gone. */
  lemma FlowDocumentIs(inline: bool, entries: seq<Entry>, name: string)
    requires FlowList(entries)
    ensures var content, values := Document(FlowDocument(inline, entries)), Values(entries);
            && (Contains(content, name) <==> name in values)
            && Ensure(content) == (if Plugin() in values then content else Document(Rewritten(inline, [Plugin()] + values)))
            && Remove(content) == (if Plugin() in values then Document(Rewritten(inline, WithoutName(values))) else content)
  {
    hide Is, First, FlowList, FlowDocument, ShapeOf, Lines, JoinYaml, Plugin, IndexOf, EndsWithFeed, Clean, Edited, WithoutName, Rewritten;
    FlowShape(inline, entries);
    FlowClean(inline, entries);
    DocumentLines(FlowDocument(inline, entries));
    FlowEdits(inline, entries, true);
    FlowEdits(inline, entries, false);
  }

  lemma {:induction false} Places<T>(s: seq<T>, x: T)
    ensures IndexOf(s, x) < |s| <==> x in s
  {
    var i := IndexOf(s, x);
    assert s[..|s|] == s;
  }
}
