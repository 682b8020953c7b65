/** The main results about the Hermes editor: the reader finds what it wrote, a second call
    changes nothing, and other entries stay. */
module HermesResults {
  import opened Wrappers
  import opened YamlText
  import opened HermesConfig
  import opened HermesLines
  import opened HermesAgreement
  import opened HermesTheorems

  // ---- a text without plugins -----------------------------------------------------------------

  lemma StripsToSame(line: string)
    ensures SameLine(line, StripReturn(line))
  {
    SimilarStripped([line]);
  }

  /** A text is its first line and the rest, or one line that nothing ends. */
  lemma {:induction false} TextSplit(text: string, i: nat)
    requires i == IndexOf(text, '\n')
    ensures i < |text| ==> text == text[..i] + "\n" + text[i + 1..]
    ensures i < |text| ==> EndsWithFeed(text) == (text[i + 1..] == "" || EndsWithFeed(text[i + 1..]))
    ensures i == |text| ==> '\n' !in text && !EndsWithFeed(text)
    ensures '\n' !in text[..i]
  {
    hide IndexOf;
    if i < |text| {
      assert text == text[..i] + [text[i]] + text[i + 1..];
    } else {
      assert text[..i] == text;
    }
  }

  /** One more line feed ends the last line, or adds an empty one. */
  lemma {:induction false} FeedAdds(text: string)
    ensures if text == "" || EndsWithFeed(text) then Lines(text + "\n") == Lines(text) + [""]
            else Similar(Lines(text), Lines(text + "\n"))
    decreases |text|
  {
    hide StripReturn, Lines, IndexOf, SameLine, EndsWithFeed;
    var i := IndexOf(text, '\n');
    TextSplit(text, i);
    LinesOfNothing();
    if i < |text| {
      var line, rest := text[..i], text[i + 1..];
      assert text + "\n" == line + "\n" + (rest + "\n");
      FirstLine(line, rest);
      FirstLine(line, rest + "\n");
      FeedAdds(rest);
      if text == "" || EndsWithFeed(text) {
        assert [StripReturn(line)] + (Lines(rest) + [""]) == [StripReturn(line)] + Lines(rest) + [""];
      } else {
        Same(StripReturn(line));
        SimilarAppend([StripReturn(line)], Lines(rest), Lines(rest + "\n"));
      }
    } else {
      assert text + "\n" == text + "\n" + "";
      FirstLine(text, "");
      assert [StripReturn(text)] + [] == [StripReturn(text)];
      if text != "" {
        LinesOfOne(text);
        StripsToSame(text);
      }
    }
  }

  lemma {:induction false} LinesAppend(text: string, more: string)
    ensures Lines(text + "\n" + more) == Lines(text + "\n") + Lines(more)
    decreases |text|
  {
    hide StripReturn, Lines, IndexOf, EndsWithFeed;
    var i := IndexOf(text, '\n');
    TextSplit(text, i);
    LinesOfNothing();
    if i < |text| {
      var line, rest := text[..i], text[i + 1..];
      assert text + "\n" + more == line + "\n" + (rest + "\n" + more);
      assert text + "\n" == line + "\n" + (rest + "\n");
      FirstLine(line, rest + "\n" + more);
      FirstLine(line, rest + "\n");
      LinesAppend(rest, more);
      assert [StripReturn(line)] + (Lines(rest + "\n") + Lines(more)) ==
             [StripReturn(line)] + Lines(rest + "\n") + Lines(more);
    } else {
      assert text + "\n" == text + "\n" + "";
      FirstLine(text, more);
      FirstLine(text, "");
      assert [StripReturn(text)] + [] == [StripReturn(text)];
    }
  }

  ghost predicate NoPlugins(lines: seq<string>) {
    None?(lines, 0, |lines|, PluginsKey)
  }

  lemma MissingMeans(lines: seq<string>)
    ensures ShapeOf(lines) == Missing <==> NoPlugins(lines)
  {
    hide Is, Within;
    var p := First(lines, 0, |lines|, PluginsKey);
    if p < |lines| {
      WithinNeverMissing(lines, p, First(lines, p + 1, |lines|, TopKey));
    }
  }

  lemma SimilarNoPlugins(a: seq<string>, b: seq<string>)
    requires Similar(a, b)
    ensures NoPlugins(a) == NoPlugins(b)
  {
    hide Is, SameLine;
    forall i | 0 <= i < |a| ensures Is(PluginsKey, a[i]) == Is(PluginsKey, b[i]) {
      SameKind(a[i], b[i], PluginsKey);
    }
  }

  lemma {:induction false} FeedsHideNothing(text: string)
    requires NoPlugins(Lines(text))
    ensures NoPlugins(Lines(WithoutFeeds(text)))
    decreases |text|
  {
    hide Is, Lines;
    if EndsWithFeed(text) {
      var shorter := text[..|text| - 1];
      assert text == shorter + "\n";
      FeedAdds(shorter);
      if shorter == "" || EndsWithFeed(shorter) {
        assert forall i | 0 <= i < |Lines(shorter)| :: Lines(text)[i] == Lines(shorter)[i];
      } else {
        SimilarNoPlugins(Lines(shorter), Lines(text));
      }
      FeedsHideNothing(shorter);
    }
  }

  lemma {:induction false} WithoutFeedsEnds(text: string)
    ensures !EndsWithFeed(WithoutFeeds(text))
    decreases |text|
  {
    if EndsWithFeed(text) {
      WithoutFeedsEnds(text[..|text| - 1]);
    }
  }

  /** Lines without plugins, followed by the three that are added. */
  lemma TailReads(lines: seq<string>, name: string)
    requires NoPlugins(lines)
    ensures Reads(lines + TAIL, name) <==> name == Plugin()
  {
    hide Is, First, ItemLine, EnabledItems, InlineItems, Plugin, Plain, EnabledHead, PluginsHead;
    var longer := lines + TAIL;
    var p := |lines|;
    PluginsLine();
    EnabledLine();
    ItemLineKinds(4, Plugin());
    assert longer[p] == PluginsHead() && longer[p + 1] == EnabledHead() && longer[p + 2] == ItemLine(4, Plugin());
    assert forall k | 0 <= k < p :: longer[k] == lines[k];
    FirstIs(longer, 0, p + 3, PluginsKey, p);
    FirstIs(longer, p + 1, p + 3, TopKey, p + 3);
    FirstIs(longer, p + 1, p + 3, EnabledKey, p + 1);
    FirstIs(longer, p + 2, p + 3, ListEnd, p + 3);
    SaysShape(longer, p, p + 3, EnabledBlock(p + 2, p + 3));
    PluginIsPlain();
    ReadsAsItself(4, Plugin(), name);
    FirstIs(longer, p + 2, p + 3, Item(name), if name == Plugin() then p + 2 else p + 3);
  }

  lemma TailWritten()
    ensures NoFeeds(TAIL) && Similar(TAIL, Lines(JoinYaml(TAIL, true)))
  {
    hide Lines, ItemLine;
    Heads();
    ItemLineText(4, Plugin());
    LinesOfJoined(TAIL, true);
  }

  lemma SimilarAppend(a: seq<string>, b: seq<string>, c: seq<string>)
    requires Similar(b, c)
    ensures Similar(a + b, a + c)
  {
    hide SameLine;
    forall i | 0 <= i < |a + b| ensures SameLine((a + b)[i], (a + c)[i]) {
      if i < |a| {
        Same(a[i]);
      } else {
        assert SameLine(b[i - |a|], c[i - |a|]);
      }
    }
  }

  lemma Same(line: string)
    ensures SameLine(line, line)
  {
  }

  /** A text without plugins comes to enable this one and no other. */
  lemma {:induction false} AppendedContains(content: string, name: string)
    requires ShapeOf(Lines(content)) == Missing
    ensures Contains(Appended(content), name) <==> name == Plugin()
  {
    hide Lines, Reads, ShapeOf, JoinYaml, Similar, NoPlugins, NoFeeds, EndsWithFeed, WithoutFeeds;
    MissingMeans(Lines(content));
    FeedsHideNothing(content);
    WithoutFeedsEnds(content);
    TailWritten();
    var text, tail := WithoutFeeds(content), JoinYaml(TAIL, true);
    if text == "" {
      NothingNoPlugins();
      assert "" + tail == tail && [] + TAIL == TAIL;
      TailReads([], name);
      SimilarListed(TAIL, Lines(tail), name);
    } else {
      FeedAdds(text);
      SimilarNoPlugins(Lines(text), Lines(text + "\n"));
      LinesAppend(text, tail);
      var before := Lines(text + "\n");
      SimilarAppend(before, TAIL, Lines(tail));
      TailReads(before, name);
      SimilarListed(before + TAIL, before + Lines(tail), name);
    }
  }

  lemma NothingNoPlugins()
    ensures NoPlugins([])
  {
  }

  // ---- the editor and the reader agree ------------------------------------------------------------

  /** What the reader finds is left alone. */
  lemma ContainedIsUnchanged(content: string)
    requires Contains(content, Plugin())
    ensures Ensure(content) == content
  {
    hide Is, ShapeOf, Lines, ItemLine, Plugin, Toggled, EnabledLines, FlatLines, Appended;
    var lines := Lines(content);
    match ShapeOf(lines)
    case EnabledFlow(_, items) => ToggledOn(items);
    case Inline(_, _, items) => ToggledOn(items);
    case Flat(p, start, end) =>
      var stop := First(lines, start, end, FlatBreak);
      var i := First(lines, start, stop, FlatMatch(Plugin()));
      assert Is(FlatMatch(Plugin()), lines[i]);
    case _ =>
  }

  /** What the editor changes the reader finds. */
  lemma ChangedIsContained(content: string)
    requires Ensure(content) != content
    ensures Contains(Ensure(content), Plugin())
  {
    hide Reads, ShapeOf, Lines, Plugin, Edited, Appended, JoinYaml;
    var lines := Lines(content);
    if ShapeOf(lines) == Missing {
      AppendedContains(content, Plugin());
    } else {
      var longer := Edited(lines, ShapeOf(lines), true).value;
      AddedIsListed(lines, longer);
      AddedReads(content, longer, Plugin());
    }
  }

  /** A second call changes nothing. */
  lemma EnsureTwice(content: string)
    ensures Ensure(Ensure(content)) == Ensure(content)
  {
    hide Ensure, Contains;
    if Ensure(content) != content {
      ChangedIsContained(content);
      ContainedIsUnchanged(Ensure(content));
    }
  }

  /** The plugin is in a flat list, but only below a line of another indent, where the editor
      still looks and the reader does not. */
  predicate Overlooked(lines: seq<string>) {
    OverlookedIn(lines, ShapeOf(lines))
  }

  predicate OverlookedIn(lines: seq<string>, shape: Shape)
    requires Located(shape, |lines|)
  {
    && shape.Flat?
    && First(lines, shape.start, shape.end, FlatBreak) < First(lines, shape.start, shape.end, FlatMatch(Plugin())) < shape.end
  }

  lemma FlatMatchIsFlat(line: string, name: string)
    ensures Is(FlatMatch(name), line) ==> Is(FlatItem, line) && !Is(FlatBreak, line)
  {
  }

  /** In a flat list the editor finds what stands from the first item on, and the reader what
      stands before the first line of another indent. */
  lemma FlatSearches(lines: seq<string>, p: nat, start: nat, end: nat, name: string)
    requires p < start < end <= |lines| && ShapeOf(lines) == Flat(p, start, end)
    ensures First(lines, p + 1, end, FlatMatch(name)) == First(lines, start, end, FlatMatch(name))
    ensures var stop := First(lines, start, end, FlatBreak);
            Reads(lines, name) <==> First(lines, start, end, FlatMatch(name)) < stop
  {
    hide Is, First, ShapeOf, Section;
    var q, e := ShapeSays(lines);
    var i := First(lines, start, end, FlatMatch(name));
    forall k | p + 1 <= k < start ensures !Is(FlatMatch(name), lines[k]) {
      FlatMatchIsFlat(lines[k], name);
    }
    FirstIs(lines, p + 1, end, FlatMatch(name), i);
    var stop := First(lines, start, end, FlatBreak);
    if i < stop {
      FirstIs(lines, start, stop, FlatMatch(name), i);
    } else {
      FirstIs(lines, start, stop, FlatMatch(name), stop);
    }
    if i < end {
      FlatMatchIsFlat(lines[i], name);
    }
  }

  /** After `ensure` the reader finds the plugin, except exactly when it is overlooked. */
  lemma {:induction false} ContainedExactly(content: string)
    ensures Contains(Ensure(content), Plugin()) <==> !Overlooked(Lines(content))
  {
    hide Ensure, Contains, Reads, Lines;
    if Ensure(content) != content {
      ChangedIsContained(content);
      ChangedNotOverlooked(content);
    } else {
      UnchangedMeans(content);
    }
  }

  lemma {:induction false} ChangedNotOverlooked(content: string)
    requires Ensure(content) != content
    ensures !Overlooked(Lines(content))
  {
    hide Is, First, ShapeOf, Lines, Reads, Plugin, Toggled, EnabledLines, FlatLines, Appended, ItemLine;
    match ShapeOf(Lines(content))
    case Flat(p, start, end) => FlatSearches(Lines(content), p, start, end, Plugin());
    case _ =>
  }

  /** A text that stays as it is holds the plugin, unless it is overlooked. */
  lemma {:induction false} UnchangedMeans(content: string)
    requires Ensure(content) == content
    ensures Contains(content, Plugin()) <==> !Overlooked(Lines(content))
  {
    hide Is, First, ShapeOf, Lines, Reads, Plugin, Edited, Appended, JoinYaml;
    var lines := Lines(content);
    if ShapeOf(lines) == Missing {
      AppendedContains(content, Plugin());
    } else if Edited(lines, ShapeOf(lines), true).Some? {
      var longer := Edited(lines, ShapeOf(lines), true).value;
      AddedIsListed(lines, longer);
      AddedReads(content, longer, Plugin());
      ReadNotOverlooked(lines);
    } else {
      UneditedMeans(lines);
    }
  }

  lemma ReadNotOverlooked(lines: seq<string>)
    requires Reads(lines, Plugin())
    ensures !Overlooked(lines)
  {
    hide Is, First, ShapeOf, Plugin, Reads;
    match ShapeOf(lines)
    case Flat(p, start, end) => FlatSearches(lines, p, start, end, Plugin());
    case _ =>
  }

  lemma UneditedMeans(lines: seq<string>)
    requires ShapeOf(lines) != Missing && Edited(lines, ShapeOf(lines), true) == None
    ensures Reads(lines, Plugin()) <==> !Overlooked(lines)
  {
    hide Is, First, ShapeOf, Plugin, EnabledLines, FlatLines, ItemLine, Toggled;
    match ShapeOf(lines)
    case EnabledFlow(_, items) => ToggledOn(items);
    case Inline(_, _, items) => ToggledOn(items);
    case Flat(p, start, end) => FlatUnedited(lines, p, start, end);
    case _ =>
  }

  lemma FlatUnedited(lines: seq<string>, p: nat, start: nat, end: nat)
    requires p < start < end <= |lines| && ShapeOf(lines) == Flat(p, start, end) && Edited(lines, ShapeOf(lines), true) == None
    ensures Reads(lines, Plugin()) <==> !Overlooked(lines)
  {
    hide Is, First, ShapeOf, Plugin, Reads;
    FlatSearches(lines, p, start, end, Plugin());
    var i, stop := First(lines, start, end, FlatMatch(Plugin())), First(lines, start, end, FlatBreak);
    if i < end && i == stop {
      FlatMatchIsFlat(lines[i], Plugin());
    }
  }

  // ---- the other entries -----------------------------------------------------------------------

  /** In a block or flat list an insertion changes nothing else that the reader sees. */
  lemma {:induction false} OthersExactly(content: string, name: string)
    requires ShapeOf(Lines(content)).EnabledBlock? || ShapeOf(Lines(content)).Flat?
    requires name != Plugin()
    ensures Contains(Ensure(content), name) <==> Contains(content, name)
  {
    hide Is, First, ShapeOf, Plugin, Lines, Reads, JoinYaml, ItemLine;
    var lines := Lines(content);
    match ShapeOf(lines) {
      case EnabledBlock(start, end) => BlockLists(lines, start, end, name);
      case Flat(p, start, end) => FlatLists(lines, p, start, end, name);
    }
    if Edited(lines, ShapeOf(lines), true).Some? {
      AddedReads(content, Edited(lines, ShapeOf(lines), true).value, name);
    }
  }

  /** A `plugins: [a, b]` list is rewritten: afterwards the reader sees exactly what its items
      read as on lines of their own. */
  lemma {:induction false} InlineExactly(content: string, name: string)
    requires ShapeOf(Lines(content)).Inline? && Plugin() !in ShapeOf(Lines(content)).items
    ensures var more := [Plugin()] + ShapeOf(Lines(content)).items;
            Contains(Ensure(content), name) <==> exists i | 0 <= i < |more| :: ReadsAs(more[i], name, 2)
  {
    hide Is, First, ShapeOf, Plugin, Lines, Reads, JoinYaml, ItemLine, FlatLines, Toggled;
    var lines := Lines(content);
    var shape := ShapeOf(lines);
    ToggledOn(shape.items);
    InlineLists(lines, shape.plugins, shape.end, shape.items, [Plugin()] + shape.items, name);
    AddedReads(content, Edited(lines, shape, true).value, name);
  }

  /** Every plain entry that the reader saw it still sees. */
  lemma PlainKept(content: string, name: string)
    requires Contains(content, name) && Plain(name)
    ensures Contains(Ensure(content), name)
  {
    hide Is, First, ShapeOf, Plugin, Lines, JoinYaml, ItemLine, FlatLines, EnabledLines, Toggled, Plain, Reads;
    var lines := Lines(content);
    var shape := ShapeOf(lines);
    if shape.EnabledFlow? || shape.Inline? {
      FlowSays(lines, name);
      ToggledOn(shape.items);
      var more := [Plugin()] + shape.items;
      if Plugin() !in shape.items {
        var i :| 0 <= i < |shape.items| && shape.items[i] == name;
        assert more[i + 1] == name;
        if shape.EnabledFlow? {
          ReadsAsItself(4, name, name);
          assert ReadsAs(more[i + 1], name, 4);
          FlowLists(lines, shape.key, shape.items, more, name);
        } else {
          ReadsAsItself(2, name, name);
          assert ReadsAs(more[i + 1], name, 2);
          InlineLists(lines, shape.plugins, shape.end, shape.items, more, name);
        }
        AddedReads(content, Edited(lines, shape, true).value, name);
      }
    } else if shape.EnabledBlock? || shape.Flat? {
      if name == Plugin() {
        ContainedIsUnchanged(content);
      } else {
        OthersExactly(content, name);
      }
    } else {
      NothingRead(lines, name);
    }
  }

  lemma FlowSays(lines: seq<string>, name: string)
    requires Reads(lines, name) && (ShapeOf(lines).EnabledFlow? || ShapeOf(lines).Inline?)
    ensures name in ShapeOf(lines).items
  {
    hide ShapeOf;
  }

  lemma NothingRead(lines: seq<string>, name: string)
    requires ShapeOf(lines).Missing? || ShapeOf(lines).Bare?
    ensures !Reads(lines, name)
  {
    hide ShapeOf;
  }

  // ---- lines that come back as they are -----------------------------------------------------------

  /** Lines without carriage returns come back as they were joined. */
  lemma LinesBack(lines: seq<string>, trailing: bool)
    requires NoFeeds(lines) && lines != [] && (!trailing ==> lines[|lines| - 1] != "")
    requires forall i | 0 <= i < |lines| :: '\r' !in lines[i]
    ensures Lines(JoinYaml(lines, trailing)) == lines && EndsWithFeed(JoinYaml(lines, trailing)) == trailing
  {
    hide Lines, Join;
    var n := |lines| - 1;
    assert Stripped(lines) == lines && Stripped(lines[..n]) == lines[..n];
    if trailing {
      LinesOfEnded(lines, "");
      LinesOfNothing();
      assert Join(lines) + "\n" + "" == Join(lines) + "\n";
    } else {
      LinesOfOpen(lines);
      JoinNotEmpty(lines);
    }
  }

  lemma PluginLineHasNoReturn(indent: nat)
    ensures '\r' !in ItemLine(indent, Plugin())
  {
    var line := ItemLine(indent, Plugin());
    assert forall i | 0 <= i < |"- "| :: "- "[i] != '\r';
    assert forall i | 0 <= i < |Plugin()| :: Plugin()[i] != '\r';
    assert line == Spaces(indent) + "- " + Plugin();
  }

  /** Of the items of a flow sequence too, removal takes out what was put in. */
  lemma {:induction false} ToggledBack(items: seq<string>)
    requires Plugin() !in items
    ensures Toggled(items, true) == Some([Plugin()] + items)
    ensures Toggled([Plugin()] + items, false) == Some(items)
  {
    hide Plugin;
    ToggledOn(items);
    var more := [Plugin()] + items;
    assert more[0] == Plugin() && IndexOf(more, Plugin()) == 0;
    assert more[..0] + more[1..] == items;
  }

  // ---- where agreement ends ---------------------------------------------------------------------

  /** A line with no colon and no dash at its start is neither a key nor an item. */
  lemma PlainLine(indent: nat, text: string)
    requires text != "" && !IsWhitespace(text[0]) && !IsWhitespace(text[|text| - 1])
    requires ':' !in text && text[0] != '-' && text[0] != '#'
    ensures Indent(Spaces(indent) + text) == Some(indent)
    ensures KeyName(Spaces(indent) + text) == None && ListItem(Spaces(indent) + text) == None
  {
    hide TrimStart, TrimEnd, IndexOf, Utf8Size, IsWhitespace;
    SpacesTrimmed(indent, text);
    assert (Spaces(indent) + text)[..indent] == Spaces(indent);
    SpacesSize(Spaces(indent));
    FindNone(text, ':');
    TrimEndId(text);
  }

  lemma NoteLine()
    ensures Indent("    note") == Some(4) && KeyName("    note") == None && ListItem("    note") == None
    ensures '\n' !in "    note"
  {
    hide Indent, KeyName, ListItem;
    assert Spaces(4) + "note" == "    note";
    PlainLine(4, "note");
  }

  /** An entry, a line of another indent, and the plugin below it. */
  function OverlookedLines(): seq<string> {
    [PluginsHead(), ItemLine(2, "a"), "    note", ItemLine(2, Plugin())]
  }

  lemma OverlookedExample()
    ensures Overlooked(OverlookedLines())
  {
    hide Is, First, ItemLine, EnabledItems, InlineItems, Plugin, PluginsHead, Plain;
    var lines := OverlookedLines();
    NoteKinds();
    PluginsLine();
    PluginIsPlain();
    SimpleIsPlain("a");
    ExampleEntry();
    ItemLineKinds(2, "a");
    ItemLineKinds(2, Plugin());
    ReadsAsItself(2, Plugin(), Plugin());
    FlatMatchIsItem(Plugin(), Plugin());
    FirstIs(lines, 0, 4, PluginsKey, 0);
    FirstIs(lines, 1, 4, TopKey, 4);
    FirstIs(lines, 1, 4, EnabledKey, 4);
    FirstIs(lines, 1, 4, FlatItem, 1);
    SaysShape(lines, 0, 4, Flat(0, 1, 4));
    FirstIs(lines, 1, 4, FlatBreak, 2);
    FirstIs(lines, 1, 2, FlatMatch(Plugin()), 2);
    FirstIs(lines, 1, 4, FlatMatch(Plugin()), 3);
  }

  lemma NoteKinds()
    ensures var line := "    note";
            && !Is(TopKey, line) && !Is(EnabledKey, line) && !Is(FlatItem, line) && Is(FlatBreak, line)
            && !Is(FlatMatch(Plugin()), line)
  {
    hide Indent, KeyName, ListItem, Plugin;
    NoteLine();
  }

  lemma ExampleEntry()
    ensures Is(FlatItem, ItemLine(2, "a")) && !Is(FlatMatch(Plugin()), ItemLine(2, "a"))
  {
    hide ItemLine, ListItem, Plain;
    SimpleIsPlain("a");
    PlainReadBack(2, "a");
    ItemLineIs(2, "a");
    ReadsAsItself(2, "a", Plugin());
    FlatMatchIsItem("a", Plugin());
  }

  /** A configuration that holds the plugin as an item, that `ensure` leaves alone, and in which the
      reader does not find it. */
  lemma EnsuredButNotContained() returns (content: string, i: nat)
    ensures i < |Lines(content)| && Is(Item(Plugin()), Lines(content)[i])
    ensures Ensure(content) == content && !Contains(content, Plugin())
  {
    hide Lines, Plugin, Contains, Ensure, JoinYaml, OverlookedLines, Overlooked;
    content := JoinYaml(OverlookedLines(), true);
    OverlookedExample();
    ExampleIsClean();
    LinesBack(OverlookedLines(), true);
    ContainedExactly(content);
    if Ensure(content) != content {
      ChangedIsContained(content);
    }
    i := 3;
    ExampleHoldsPlugin();
  }

  lemma ExampleHoldsPlugin()
    ensures |OverlookedLines()| == 4 && Is(Item(Plugin()), OverlookedLines()[3])
  {
    hide Is, ItemLine, Plugin, Plain;
    PluginIsPlain();
    ReadsAsItself(2, Plugin(), Plugin());
  }

  lemma ExampleIsClean()
    ensures NoFeeds(OverlookedLines()) && OverlookedLines() != []
    ensures forall i | 0 <= i < |OverlookedLines()| :: '\r' !in OverlookedLines()[i]
  {
    hide ItemLine, Plugin, PluginsHead, Indent, KeyName, ListItem;
    Heads();
    NoteLine();
    ItemLineText(2, "a");
    ItemLineText(2, Plugin());
    PluginLineHasNoReturn(2);
    ExampleHasNoReturns();
  }

  lemma ExampleHasNoReturns()
    ensures '\r' !in PluginsHead() && '\r' !in "    note" && '\r' !in ItemLine(2, "a") && '\n' !in "a"
  {
    assert ItemLine(2, "a") == "  - a";
  }
}
