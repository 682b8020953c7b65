/** What the reader finds after a removal: the editor takes out the first entry that matches the
    plugin, and the reader looks for any. */
module HermesRemoval {
  import opened Wrappers
  import opened YamlText
  import opened HermesConfig
  import opened HermesLines
  import opened HermesAgreement
  import opened HermesTheorems
  import opened HermesResults

  // ---- what is left, said of the text before ------------------------------------------------------

  /** The items without the first that is the plugin. */
  function Dropped(items: seq<string>): seq<string> {
    var i := IndexOf(items, Plugin());
    if i < |items| then items[..i] + items[i + 1..] else items
  }

  predicate SomeReads(items: seq<string>, name: string, indent: nat) {
    exists i | 0 <= i < |items| :: ReadsAs(items[i], name, indent)
  }

  /** A line of this kind other than the one at `i`. */
  predicate AnotherIn(lines: seq<string>, lo: nat, hi: nat, i: nat, kind: Kind)
    requires lo <= hi <= |lines|
  {
    exists k | lo <= k < hi :: k != i && Is(kind, lines[k])
  }

  /** Where a flat list starts when the line at `i` is taken out. */
  function TopWithout(lines: seq<string>, start: nat, end: nat, i: nat): (top: nat)
    requires start < end <= |lines| && start <= i
    ensures start <= top <= end
  {
    if i == start then First(lines, i + 1, end, FlatItem) else start
  }

  /** `name` is listed once more: by another line of a block or flat list, by an item that reads so
      on a line of its own, or by a line below a flow sequence that becomes a block. */
  predicate Remains(lines: seq<string>, name: string) {
    RemainsIn(lines, ShapeOf(lines), name)
  }

  predicate RemainsIn(lines: seq<string>, shape: Shape, name: string)
    requires Located(shape, |lines|)
  {
    match shape
    case Missing => false
    case EnabledFlow(key, items) =>
      && Plugin() in items && Dropped(items) != []
      && (|| SomeReads(Dropped(items), name, 4)
          || AnotherIn(lines, key + 1, First(lines, key + 1, |lines|, ListEnd), key, Item(name)))
    case EnabledBlock(start, end) => AnotherIn(lines, start, end, First(lines, start, end, Item(Plugin())), Item(name))
    case Inline(_, _, items) => Plugin() in items && SomeReads(Dropped(items), name, 2)
    case Flat(_, start, end) =>
      var i := First(lines, start, end, FlatMatch(Plugin()));
      var top := TopWithout(lines, start, end, i);
      AnotherIn(lines, top, First(lines, top, end, FlatBreak), i, FlatMatch(name))
    case Bare(_) => false
  }

  // ---- lines without one of them --------------------------------------------------------------------

  function Without(lines: seq<string>, i: nat): (shorter: seq<string>)
    requires i < |lines|
    ensures |shorter| == |lines| - 1
    ensures forall k | 0 <= k < |shorter| :: shorter[k] == lines[if k < i then k else k + 1]
  {
    Spliced(lines, i, i + 1, [])
  }

  lemma {:induction false} FirstWithout(lines: seq<string>, i: nat, lo: nat, hi: nat, kind: Kind)
    requires lo <= i < hi <= |lines| && !Is(kind, lines[i])
    ensures var f := First(lines, lo, hi, kind);
            First(Without(lines, i), lo, hi - 1, kind) == if f < i then f else f - 1
  {
    hide Is, First, Without;
    var f := First(lines, lo, hi, kind);
    FirstIs(Without(lines, i), lo, hi - 1, kind, if f < i then f else f - 1);
  }

  /** Nothing of this kind stands before the line that goes. */
  lemma {:induction false} FirstBelow(lines: seq<string>, i: nat, lo: nat, hi: nat, kind: Kind)
    requires lo <= i < hi <= |lines| && None?(lines, lo, i, kind)
    ensures First(Without(lines, i), lo, hi - 1, kind) == First(lines, i + 1, hi, kind) - 1
  {
    hide Is, First, Without;
    FirstIs(Without(lines, i), lo, hi - 1, kind, First(lines, i + 1, hi, kind) - 1);
  }

  lemma {:induction false} FirstAbove(lines: seq<string>, i: nat, lo: nat, hi: nat, more: nat, kind: Kind)
    requires i < |lines| && lo <= hi <= |lines| && First(lines, lo, hi, kind) < i
    requires First(lines, lo, hi, kind) < hi && First(lines, lo, hi, kind) < more <= |lines| - 1
    ensures First(Without(lines, i), lo, more, kind) == First(lines, lo, hi, kind)
  {
    hide Is, First, Without;
    FirstIs(Without(lines, i), lo, more, kind, First(lines, lo, hi, kind));
  }

  lemma {:induction false} FoundWithout(lines: seq<string>, i: nat, lo: nat, hi: nat, kind: Kind)
    requires lo <= i < hi <= |lines|
    ensures First(Without(lines, i), lo, hi - 1, kind) < hi - 1 <==> AnotherIn(lines, lo, hi, i, kind)
  {
    hide Is, First, Without;
    var shorter := Without(lines, i);
    var f := First(shorter, lo, hi - 1, kind);
    if f < hi - 1 {
      assert Is(kind, lines[if f < i then f else f + 1]);
    }
    if AnotherIn(lines, lo, hi, i, kind) {
      var k :| lo <= k < hi && k != i && Is(kind, lines[k]);
      assert Is(kind, shorter[if k < i then k else k - 1]);
    }
  }

  /** The same lines further down or up are searched alike. */
  lemma {:induction false} FirstShifted(a: seq<string>, b: seq<string>, i: nat, j: nat, n: nat, kind: Kind)
    requires i + n <= |a| && j + n <= |b| && a[i..i + n] == b[j..j + n]
    ensures First(a, i, i + n, kind) - i == First(b, j, j + n, kind) - j
  {
    hide Is, First;
    var f := First(b, j, j + n, kind) - j;
    forall k | i <= k < i + n ensures a[k] == b[j + (k - i)] {
      assert a[i..i + n][k - i] == b[j..j + n][k - i];
    }
    FirstIs(a, i, i + n, kind, i + f);
  }

  // ---- block lists --------------------------------------------------------------------------------

  /** A list item is no key. */
  lemma ItemIsNoKey(line: string, name: string)
    requires Is(Item(name), line)
    ensures !Is(PluginsKey, line) && !Is(TopKey, line) && !Is(EnabledKey, line) && !Is(ListEnd, line)
  {
    hide TrimStart, TrimEnd, IndexOf, ScalarValue, Indent;
    TrimEndIsPrefix(TrimStart(line));
    assert TrimStart(line)[0] == '-';
  }

  lemma SectionRange(lines: seq<string>, p: nat, end: nat)
    requires Section(lines, p, end)
    ensures p < end <= |lines|
  {
  }

  lemma SectionShrinks(lines: seq<string>, p: nat, end: nat, i: nat)
    requires Section(lines, p, end) && p < i < end && !Is(TopKey, lines[i])
    ensures Section(Without(lines, i), p, end - 1)
  {
    hide Is, First, Without;
    FirstAbove(lines, i, 0, |lines|, |lines| - 1, PluginsKey);
    FirstWithout(lines, i, p + 1, |lines|, TopKey);
  }

  lemma BlockShrinks(lines: seq<string>, p: nat, end: nat, start: nat, stop: nat, i: nat)
    requires Section(lines, p, end) && IsBlock(lines, p, end, start, stop) && start <= i < stop
    requires Is(Item(Plugin()), lines[i])
    ensures Section(Without(lines, i), p, end - 1) && IsBlock(Without(lines, i), p, end - 1, start, stop - 1)
  {
    hide Is, First, EnabledItems, Section, Without;
    ItemIsNoKey(lines[i], Plugin());
    SectionShrinks(lines, p, end, i);
    FirstWithout(lines, i, p + 1, end, EnabledKey);
    FirstWithout(lines, i, start, end, ListEnd);
    assert Without(lines, i)[start - 1] == lines[start - 1];
  }

  lemma BlockRemains(lines: seq<string>, start: nat, stop: nat, shorter: seq<string>, name: string)
    requires start <= |lines| && ShapeOf(lines) == EnabledBlock(start, stop)
    requires Edited(lines, EnabledBlock(start, stop), false) == Some(shorter)
    ensures Reads(shorter, name) <==> Remains(lines, name)
  {
    hide Is, First, Plugin, Section, IsBlock, ShapeOf, Without;
    var p, end := ShapeSays(lines);
    var i := First(lines, start, stop, Item(Plugin()));
    WithoutIs(lines, i);
    SectionRange(lines, p, end);
    BlockShrinks(lines, p, end, start, stop, i);
    SaysShape(shorter, p, end - 1, EnabledBlock(start, stop - 1));
    FoundWithout(lines, i, start, stop, Item(name));
  }

  lemma WithoutIs(lines: seq<string>, i: nat)
    requires i < |lines|
    ensures Without(lines, i) == Spliced(lines, i, i + 1, [])
  {
  }

  // ---- flat lists -----------------------------------------------------------------------------------

  lemma FlatMatchKinds(line: string, name: string)
    requires Is(FlatMatch(name), line)
    ensures !Is(TopKey, line) && !Is(EnabledKey, line) && !Is(FlatBreak, line) && Is(FlatItem, line)
  {
    hide Indent, ListItem, ScalarValue, KeyName;
    ItemIsNoKey(line, name);
  }

  lemma FlatShrinks(lines: seq<string>, p: nat, end: nat, start: nat, i: nat)
    requires Section(lines, p, end) && IsFlat(lines, p, end, start) && start <= i < end
    requires Is(FlatMatch(Plugin()), lines[i])
    ensures var shorter := Without(lines, i);
            var top := TopWithout(lines, start, end, i);
            && Section(shorter, p, end - 1)
            && (if top == end then IsBare(shorter, p, end - 1)
                else IsFlat(shorter, p, end - 1, if top > i then top - 1 else top))
  {
    hide Is, First, InlineItems, Section, Without;
    FlatMatchKinds(lines[i], Plugin());
    SectionShrinks(lines, p, end, i);
    FirstWithout(lines, i, p + 1, end, EnabledKey);
    assert Without(lines, i)[p] == lines[p];
    if i == start {
      FirstBelow(lines, i, p + 1, end, FlatItem);
    } else {
      FirstAbove(lines, i, p + 1, end, end - 1, FlatItem);
    }
  }

  /** From the top of the list to the next line of another indent. */
  lemma {:induction false} FlatFound(lines: seq<string>, start: nat, end: nat, i: nat, top: nat, name: string)
    requires start <= i < end <= |lines| && top < end && Is(FlatMatch(Plugin()), lines[i])
    requires if i == start then top > i else top == start
    ensures var shorter := Without(lines, i);
            var stop := First(lines, top, end, FlatBreak);
            var newTop := if top > i then top - 1 else top;
            var newStop := First(shorter, newTop, end - 1, FlatBreak);
            First(shorter, newTop, newStop, FlatMatch(name)) < newStop <==> AnotherIn(lines, top, stop, i, FlatMatch(name))
  {
    hide Is, First, Without;
    var stop := First(lines, top, end, FlatBreak);
    FlatMatchKinds(lines[i], Plugin());
    if top > i {
      FoundMoved(lines, i, top, end, FlatBreak, FlatMatch(name));
    } else {
      FirstWithout(lines, i, top, end, FlatBreak);
      if stop < i {
        FoundAbove(lines, i, top, stop, FlatMatch(name));
      } else {
        FoundWithout(lines, i, top, stop, FlatMatch(name));
      }
    }
  }

  lemma {:induction false} FoundMoved(lines: seq<string>, i: nat, top: nat, end: nat, ending: Kind, kind: Kind)
    requires i < top <= end <= |lines|
    ensures var shorter := Without(lines, i);
            var stop := First(lines, top, end, ending);
            && First(shorter, top - 1, end - 1, ending) == stop - 1
            && (First(shorter, top - 1, stop - 1, kind) < stop - 1 <==> AnotherIn(lines, top, stop, i, kind))
  {
    hide Is, First, Without;
    var shorter := Without(lines, i);
    var stop := First(lines, top, end, ending);
    FirstIs(shorter, top - 1, end - 1, ending, stop - 1);
    var f := First(lines, top, stop, kind);
    FirstIs(shorter, top - 1, stop - 1, kind, f - 1);
  }

  lemma {:induction false} FoundAbove(lines: seq<string>, i: nat, lo: nat, hi: nat, kind: Kind)
    requires lo <= hi <= i < |lines|
    ensures First(Without(lines, i), lo, hi, kind) < hi <==> AnotherIn(lines, lo, hi, i, kind)
  {
    hide Is, First, Without;
    var f := First(lines, lo, hi, kind);
    FirstIs(Without(lines, i), lo, hi, kind, f);
  }

  lemma FlatRemains(lines: seq<string>, p: nat, start: nat, end: nat, shorter: seq<string>, name: string)
    requires p < start < end <= |lines| && ShapeOf(lines) == Flat(p, start, end)
    requires Edited(lines, Flat(p, start, end), false) == Some(shorter)
    ensures Reads(shorter, name) <==> Remains(lines, name)
  {
    hide Is, First, Plugin, Section, IsFlat, IsBare, ShapeOf, Without, TopWithout, AnotherIn;
    var q, e := ShapeSays(lines);
    FlatSearches(lines, p, start, end, Plugin());
    var i := First(lines, start, end, FlatMatch(Plugin()));
    WithoutIs(lines, i);
    FlatShrinks(lines, p, end, start, i);
    TopMeans(lines, start, end, i);
    var top := TopWithout(lines, start, end, i);
    if top == end {
      SaysShape(shorter, p, end - 1, Bare(p));
      NothingThere(lines, end, First(lines, end, end, FlatBreak), i, FlatMatch(name));
    } else {
      SaysShape(shorter, p, end - 1, Flat(p, if top > i then top - 1 else top, end - 1));
      FlatFound(lines, start, end, i, top, name);
    }
  }

  lemma TopMeans(lines: seq<string>, start: nat, end: nat, i: nat)
    requires start <= i < end <= |lines|
    ensures var top := TopWithout(lines, start, end, i); if i == start then top > i else top == start
  {
    hide Is, First;
  }

  lemma NothingThere(lines: seq<string>, lo: nat, hi: nat, i: nat, kind: Kind)
    requires lo == hi <= |lines|
    ensures !AnotherIn(lines, lo, hi, i, kind)
  {
  }

  // ---- flow sequences -------------------------------------------------------------------------------

  lemma ToggledOff(items: seq<string>)
    ensures Toggled(items, false) == if Plugin() in items then Some(Dropped(items)) else None
  {
    hide Plugin;
    var i := IndexOf(items, Plugin());
    assert i == |items| ==> items[..i] == items;
  }

  lemma NoItems()
    ensures FlowItems("[]") == Some([])
  {
    NoComment("[]", 0);
    TrimStartId("[]");
    TrimEndId("[]");
    assert "[]"[1..1] == "";
    TrimStartId("");
    TrimEndId("");
  }

  lemma EmptySplit(key: string)
    requires key != "" && !IsWhitespace(key[0]) && !IsWhitespace(key[|key| - 1]) && ':' !in key
    ensures var text := key + ": []";
            IndexOf(text, ':') == |key| && Trim(text[..|key|]) == key && Trim(text[|key| + 1..]) == "[]"
  {
    hide TrimStart, TrimEnd, IsWhitespace, IndexOf;
    var text := key + ": []";
    ColonFirst();
    FindAppend(key, ": []", ':');
    FindNone(key, ':');
    assert text[..|key|] == key && text[|key| + 1..] == " []";
    TrimStartId(key);
    TrimEndId(key);
    BracketsTrimmed();
  }

  lemma ColonFirst()
    ensures IndexOf(": []", ':') == 0
  {
  }

  lemma BracketsTrimmed()
    ensures Trim(" []") == "[]"
  {
    assert " []"[1..] == "[]";
    TrimStartId("[]");
    TrimEndId("[]");
  }

  /** A key with an empty flow sequence. */
  lemma EmptyFlow(indent: nat, key: string)
    requires key != "" && !IsWhitespace(key[0]) && !IsWhitespace(key[|key| - 1]) && ':' !in key
    requires key[0] != '#' && key[0] != '-'
    ensures var line := Spaces(indent) + key + ": []";
            && Indent(line) == Some(indent) && SplitKey(line) == Some((key, "[]")) && KeyName(line) == Some(key)
  {
    hide TrimStart, Trim, IsWhitespace, IndexOf, Utf8Size;
    var text := key + ": []";
    var line := Spaces(indent) + key + ": []";
    assert line == Spaces(indent) + text;
    assert text[0] == key[0];
    SpacesTrimmed(indent, text);
    assert line[..|line| - |text|] == Spaces(indent);
    SpacesSize(Spaces(indent));
    EmptySplit(key);
  }

  lemma EmptyLines()
    ensures Is(EnabledKey, "  enabled: []") && !Is(TopKey, "  enabled: []") && EnabledItems("  enabled: []") == Some([])
    ensures Is(PluginsKey, "plugins: []") && InlineItems("plugins: []") == Some([])
    ensures '\n' !in "  enabled: []" && '\n' !in "plugins: []"
  {
    hide Indent, SplitKey, FlowItems;
    assert Spaces(2) + "enabled" + ": []" == "  enabled: []";
    assert Spaces(0) + "plugins" + ": []" == "plugins: []";
    EmptyFlow(2, "enabled");
    EmptyFlow(0, "plugins");
    NoItems();
  }

  lemma EmptiedFlow(lines: seq<string>, key: nat, items: seq<string>, name: string)
    requires key < |lines| && ShapeOf(lines) == EnabledFlow(key, items)
    ensures !Reads(Spliced(lines, key, key + 1, EnabledLines([])), name)
  {
    hide Is, First, EnabledItems, InlineItems, Section, ShapeOf;
    var p, end := ShapeSays(lines);
    var line := "  enabled: []";
    var longer := Spliced(lines, key, key + 1, [line]);
    EmptyLines();
    SectionGrows(lines, p, end, key, key + 1, [line]);
    assert longer[key] == line;
    assert forall k | 0 <= k < key :: longer[k] == lines[k];
    FirstIs(longer, p + 1, end, EnabledKey, key);
    SaysShape(longer, p, end, EnabledFlow(key, []));
  }

  /** Below a flow sequence the list that replaces it ends where the next key is. */
  lemma ListEndsThere(lines: seq<string>, p: nat, end: nat, key: nat)
    requires Section(lines, p, end) && p <= key < end
    ensures First(lines, key + 1, |lines|, ListEnd) == First(lines, key + 1, end, ListEnd)
  {
    hide Is, First;
    var stop := First(lines, key + 1, end, ListEnd);
    if stop == end < |lines| {
      TopIsEnd(lines[end]);
    }
    FirstIs(lines, key + 1, |lines|, ListEnd, stop);
  }

  lemma TopIsEnd(line: string)
    requires Is(TopKey, line)
    ensures Is(ListEnd, line)
  {
  }

  /** What is found among the items, or else below them. */
  lemma {:induction false} FoundInBoth(lines: seq<string>, at: nat, hi: nat, indent: nat, items: seq<string>, kind: Kind)
    requires Holds(lines, at, indent, items) && at + |items| <= hi <= |lines|
    ensures First(lines, at, hi, kind) < hi <==>
            || (exists i | 0 <= i < |items| :: Is(kind, ItemLine(indent, items[i])))
            || First(lines, at + |items|, hi, kind) < hi
  {
    hide Is, First, ItemLine;
    var f := First(lines, at, hi, kind);
    var mid := at + |items|;
    if f < mid {
      assert lines[at + (f - at)] == ItemLine(indent, items[f - at]);
    } else {
      FirstLater(lines, at, mid, hi, kind);
      forall i | 0 <= i < |items| ensures !Is(kind, ItemLine(indent, items[i])) {
        assert lines[at + i] == ItemLine(indent, items[i]);
      }
    }
  }

  /** The block that a flow sequence becomes ends after its items and the lines that were below. */
  lemma {:induction false} BlockEnd(lines: seq<string>, longer: seq<string>, key: nat, end: nat, more: seq<string>, stop: nat)
    requires key < end <= |lines| && |longer| == |lines| + |more| && longer[key + 1 + |more|..] == lines[key + 1..]
    requires Holds(longer, key + 1, 4, more) && stop == First(longer, key + 1, end + |more|, ListEnd)
    ensures stop == First(lines, key + 1, end, ListEnd) + |more|
  {
    hide Is, First, ItemLine;
    var top, n := key + 1 + |more|, end - key - 1;
    ItemLinesKinds(4, more);
    FirstPastItems(longer, key + 1, end + |more|, 4, more, ListEnd);
    FirstLater(longer, key + 1, top, end + |more|, ListEnd);
    assert longer[top..top + n] == longer[top..][..n] == lines[key + 1..][..n] == lines[key + 1..end];
    FirstShifted(longer, lines, top, key + 1, n, ListEnd);
  }

  lemma FlowRemains(lines: seq<string>, key: nat, items: seq<string>, more: seq<string>, name: string)
    requires key < |lines| && ShapeOf(lines) == EnabledFlow(key, items) && more != []
    ensures var longer := Spliced(lines, key, key + 1, EnabledLines(more));
            Reads(longer, name) <==>
            || SomeReads(more, name, 4)
            || AnotherIn(lines, key + 1, First(lines, key + 1, |lines|, ListEnd), key, Item(name))
  {
    hide Is, First, ItemLine, EnabledItems, InlineItems, Section, IsBlock, IsFlow, ShapeOf, Holds, ItemLines, EnabledHead;
    var p, end := ShapeSays(lines);
    var stop := FlowBecomesBlock(lines, p, end, key, items, more);
    var longer := Spliced(lines, key, key + 1, EnabledLines(more));
    FlowKey(lines, p, end, key, items);
    BlockStop(longer, p, end + |more|, key + 1, stop);
    SaysShape(longer, p, end + |more|, EnabledBlock(key + 1, stop));
    SplicedHolds(lines, key, key + 1, EnabledHead(), 4, more);
    BlockEnd(lines, longer, key, end, more, stop);
    ListEndsThere(lines, p, end, key);
    FoundInBoth(longer, key + 1, stop, 4, more, Item(name));
    LinesBelow(lines, longer, key, |more|, stop - |more|, Item(name));
  }

  lemma FlowKey(lines: seq<string>, p: nat, end: nat, key: nat, items: seq<string>)
    requires IsFlow(lines, p, end, key, items)
    ensures p < key < end <= |lines|
  {
  }

  lemma BlockStop(lines: seq<string>, p: nat, end: nat, start: nat, stop: nat)
    requires IsBlock(lines, p, end, start, stop)
    ensures start <= stop <= end <= |lines| && First(lines, start, end, ListEnd) == stop
  {
  }

  lemma {:induction false} LinesBelow(lines: seq<string>, longer: seq<string>, key: nat, n: nat, stop: nat, kind: Kind)
    requires key < |lines| && |longer| == |lines| + n && longer[key + 1 + n..] == lines[key + 1..]
    requires key + 1 <= stop <= |lines|
    ensures First(longer, key + 1 + n, stop + n, kind) < stop + n <==> AnotherIn(lines, key + 1, stop, key, kind)
  {
    hide Is, First;
    var size := stop - key - 1;
    assert longer[key + 1 + n..key + 1 + n + size] == longer[key + 1 + n..][..size] == lines[key + 1..][..size] == lines[key + 1..stop];
    FirstShifted(longer, lines, key + 1 + n, key + 1, size, kind);
  }

  // ---- inline lists -----------------------------------------------------------------------------------

  lemma EmptiedInline(lines: seq<string>, p: nat, end: nat, items: seq<string>, name: string)
    requires p < end <= |lines| && ShapeOf(lines) == Inline(p, end, items)
    ensures !Reads(Spliced(lines, p, end, FlatLines([])), name)
  {
    hide Is, First, EnabledItems, InlineItems, Section, ShapeOf;
    var q, e := ShapeSays(lines);
    var line := "plugins: []";
    var longer := Spliced(lines, p, end, [line]);
    EmptyLines();
    assert longer[p] == line && longer[..p] == lines[..p] && longer[p + 1..] == lines[end..];
    InlineSection(lines, p, end, longer, p + 1, []);
    SaysShape(longer, p, p + 1, Inline(p, p + 1, []));
  }

  /** In a section of item lines every line of the flat list is read. */
  lemma {:induction false} ItemsAreRead(lines: seq<string>, p: nat, grown: nat, items: seq<string>, name: string)
    requires Section(lines, p, grown) && grown == p + 1 + |items| && Holds(lines, p + 1, 2, items)
    requires InlineItems(lines[p]) == None
    ensures Reads(lines, name) <==> exists k | p + 1 <= k < grown :: Is(FlatMatch(name), lines[k])
  {
    hide Is, First, InlineItems, ItemLine, Section, ShapeOf;
    ItemLinesKinds(2, items);
    SectionRange(lines, p, grown);
    FirstPastItems(lines, p + 1, grown, 2, items, EnabledKey);
    FirstPastItems(lines, p + 1, grown, 2, items, FlatBreak);
    var top := First(lines, p + 1, grown, FlatItem);
    forall k | p + 1 <= k < top ensures !Is(FlatMatch(name), lines[k]) {
      FlatMatchIsFlat(lines[k], name);
    }
    if top == grown {
      SaysShape(lines, p, grown, Bare(p));
    } else {
      SaysShape(lines, p, grown, Flat(p, top, grown));
      FirstLater(lines, p + 1, top, grown, FlatBreak);
    }
  }

  lemma InlineRemains(lines: seq<string>, p: nat, end: nat, items: seq<string>, more: seq<string>, name: string)
    requires p < end <= |lines| && ShapeOf(lines) == Inline(p, end, items) && more != []
    ensures Reads(Spliced(lines, p, end, FlatLines(more)), name) <==> SomeReads(more, name, 2)
  {
    hide Is, First, ItemLine, EnabledItems, InlineItems, Section, IsInline, ShapeOf, PluginsHead, ItemLines, Reads;
    var q, e := ShapeSays(lines);
    var longer := Spliced(lines, p, end, FlatLines(more));
    var grown := p + 1 + |more|;
    PluginsLine();
    SplicedHolds(lines, p, end, PluginsHead(), 2, more);
    InlineSection(lines, p, end, longer, grown, more);
    ItemsAreRead(longer, p, grown, more, name);
    MatchesAreItems(longer, p + 1, more, name);
  }

  lemma MatchesAreItems(lines: seq<string>, at: nat, items: seq<string>, name: string)
    requires Holds(lines, at, 2, items)
    ensures (exists k | at <= k < at + |items| :: Is(FlatMatch(name), lines[k])) <==> SomeReads(items, name, 2)
  {
    hide Is, ItemLine;
    forall i | 0 <= i < |items| ensures lines[at + i] == ItemLine(2, items[i]) && Is(FlatMatch(name), lines[at + i]) == ReadsAs(items[i], name, 2) {
      FlatMatchIsItem(items[i], name);
    }
    if k :| at <= k < at + |items| && Is(FlatMatch(name), lines[k]) {
      assert lines[at + (k - at)] == lines[k];
      assert ReadsAs(items[k - at], name, 2);
    }
    if SomeReads(items, name, 2) {
      var i :| 0 <= i < |items| && ReadsAs(items[i], name, 2);
      assert Is(FlatMatch(name), lines[at + i]);
    }
  }

  // ---- any list ---------------------------------------------------------------------------------------

  lemma RemovedReads(lines: seq<string>, shorter: seq<string>, name: string)
    requires Edited(lines, ShapeOf(lines), false) == Some(shorter)
    ensures Reads(shorter, name) <==> Remains(lines, name)
  {
    hide Is, First, ShapeOf, Plugin, EnabledLines, FlatLines, ItemLine, Toggled, Reads, Dropped, SomeReads, AnotherIn;
    match ShapeOf(lines)
    case EnabledFlow(key, items) =>
      ToggledOff(items);
      if Dropped(items) == [] {
        EmptiedFlow(lines, key, items, name);
      } else {
        FlowRemains(lines, key, items, Dropped(items), name);
      }
    case EnabledBlock(start, end) => BlockRemains(lines, start, end, shorter, name);
    case Inline(p, end, items) =>
      ToggledOff(items);
      if Dropped(items) == [] {
        EmptiedInline(lines, p, end, items, name);
        NoneReads(name);
      } else {
        InlineRemains(lines, p, end, items, Dropped(items), name);
      }
    case Flat(p, start, end) => FlatRemains(lines, p, start, end, shorter, name);
    case _ =>
  }

  lemma NoneReads(name: string)
    ensures !SomeReads([], name, 2)
  {
  }

  // ---- the text that is written -------------------------------------------------------------------------

  lemma BlankIsNothing(kind: Kind)
    ensures !Is(kind, "")
  {
    assert TrimStart("") == "";
    assert TrimEnd("") == "";
  }

  /** A place in the lines, or the end of them when a blank line follows. */
  function Later(lines: seq<string>, i: nat): nat {
    if i == |lines| then i + 1 else i
  }

  lemma {:induction false} FirstBlank(lines: seq<string>, lo: nat, hi: nat, kind: Kind)
    requires lo <= hi <= |lines|
    ensures First(lines + [""], lo, Later(lines, hi), kind) == Later(lines, First(lines, lo, hi, kind))
  {
    hide Is, First;
    BlankIsNothing(kind);
    var i := First(lines, lo, hi, kind);
    assert forall k | 0 <= k < |lines| :: (lines + [""])[k] == lines[k];
    FirstIs(lines + [""], lo, Later(lines, hi), kind, Later(lines, i));
  }

  function LaterShape(lines: seq<string>, shape: Shape): Shape {
    match shape
    case EnabledBlock(start, end) => EnabledBlock(start, Later(lines, end))
    case Inline(p, end, items) => Inline(p, Later(lines, end), items)
    case Flat(p, start, end) => Flat(p, start, Later(lines, end))
    case _ => shape
  }

  lemma LaterLess(lines: seq<string>, i: nat, j: nat)
    requires i <= j <= |lines|
    ensures i <= Later(lines, i) <= Later(lines, j) <= |lines| + 1 && (i < |lines| ==> Later(lines, i) == i)
    ensures Later(lines, i) < Later(lines, j) <==> i < j
  {
  }

  lemma {:induction false} WithinBlank(lines: seq<string>, p: nat, end: nat)
    requires p < end <= |lines|
    ensures Within(lines + [""], p, Later(lines, end)) == LaterShape(lines, Within(lines, p, end))
  {
    hide Is, First, EnabledItems, InlineItems, Later;
    var longer := lines + [""];
    var key, item := First(lines, p + 1, end, EnabledKey), First(lines, p + 1, end, FlatItem);
    LaterLess(lines, key, end);
    LaterLess(lines, item, end);
    FirstBlank(lines, p + 1, end, EnabledKey);
    FirstBlank(lines, p + 1, end, FlatItem);
    assert longer[p] == lines[p];
    if key < end {
      assert longer[key] == lines[key];
      FirstBlank(lines, key + 1, end, ListEnd);
    }
  }

  lemma {:induction false} ShapeBlank(lines: seq<string>)
    ensures ShapeOf(lines + [""]) == LaterShape(lines, ShapeOf(lines))
  {
    hide Is, First, Within;
    var n := |lines|;
    var p := First(lines, 0, n, PluginsKey);
    FirstBlank(lines, 0, n, PluginsKey);
    if p < n {
      FirstBlank(lines, p + 1, n, TopKey);
      WithinBlank(lines, p, First(lines, p + 1, n, TopKey));
    }
  }

  /** A blank line at the end changes nothing for the reader. */
  lemma {:induction false} ReadsBlank(lines: seq<string>, name: string)
    ensures Reads(lines + [""], name) == Reads(lines, name)
  {
    hide Is, First, ShapeOf;
    ShapeBlank(lines);
    match ShapeOf(lines)
    case EnabledBlock(start, end) => FirstBlank(lines, start, end, Item(name));
    case Flat(p, start, end) =>
      FirstBlank(lines, start, end, FlatBreak);
      FirstBlank(lines, start, First(lines, start, end, FlatBreak), FlatMatch(name));
    case _ =>
  }

  lemma LinesOfFeed()
    ensures Lines("\n") == [""]
  {
    assert "\n"[..0] == "" && "\n"[1..] == "";
  }

  /** Whatever lines are written, the reader reads them. */
  lemma {:induction false} JoinedReads(lines: seq<string>, trailing: bool, name: string)
    requires NoFeeds(lines)
    ensures Contains(JoinYaml(lines, trailing), name) == Reads(lines, name)
  {
    hide Lines, Reads, Join;
    var n := |lines| - 1;
    if n <= 0 && (lines == [] || lines[0] == "") {
      BlankWritten(lines, trailing);
      LinesOfFeed();
      ReadsBlank([], name);
      assert [] + [""] == [""];
    } else if trailing || lines[n] != "" {
      LinesOfJoined(lines, trailing);
      SimilarListed(lines, Lines(JoinYaml(lines, trailing)), name);
    } else {
      var others := lines[..n];
      assert lines == others + [""];
      JoinSplit(others, "");
      assert Join(others) + "\n" + "" == Join(others) + "\n" && Join(lines) != "";
      LinesOfEnded(others, "");
      LinesOfNothing();
      assert Lines(JoinYaml(lines, trailing)) == Stripped(others);
      SimilarStripped(others);
      SimilarListed(others, Stripped(others), name);
      ReadsBlank(others, name);
    }
  }

  lemma {:induction false} BlankWritten(lines: seq<string>, trailing: bool)
    requires lines == [] || lines == [""]
    ensures JoinYaml(lines, trailing) == "\n"
  {
  }

  lemma {:induction false} DroppedHasNoFeeds(items: seq<string>)
    requires NoFeeds(items)
    ensures NoFeeds(Dropped(items))
  {
    hide Plugin;
  }

  lemma {:induction false} SplicedNoFeeds(lines: seq<string>, a: nat, b: nat, inserted: seq<string>)
    requires a <= b <= |lines| && NoFeeds(lines) && NoFeeds(inserted)
    ensures NoFeeds(Spliced(lines, a, b, inserted))
  {
  }

  lemma {:induction false} WrittenHaveNoFeeds(items: seq<string>)
    requires NoFeeds(items)
    ensures NoFeeds(EnabledLines(items)) && NoFeeds(FlatLines(items))
  {
    hide EnabledHead, PluginsHead, ItemLines, NoFeeds;
    Heads();
    EmptyLines();
    OneHasNoFeed("  enabled: []");
    OneHasNoFeed("plugins: []");
    HeadedLines(EnabledHead(), 4, items);
    HeadedLines(PluginsHead(), 2, items);
  }

  lemma OneHasNoFeed(line: string)
    requires '\n' !in line
    ensures NoFeeds([line])
  {
  }

  lemma RemovedHasNoFeeds(lines: seq<string>, shorter: seq<string>)
    requires NoFeeds(lines) && Edited(lines, ShapeOf(lines), false) == Some(shorter)
    ensures NoFeeds(shorter)
  {
    hide Is, First, ShapeOf, Plugin, EnabledLines, FlatLines, ItemLine, Toggled, Dropped, NoFeeds, Spliced;
    ShapeHasNoFeeds(lines);
    NothingHasNoFeeds();
    match ShapeOf(lines)
    case EnabledFlow(key, items) =>
      ToggledOff(items);
      DroppedHasNoFeeds(items);
      WrittenHaveNoFeeds(Dropped(items));
      SplicedNoFeeds(lines, key, key + 1, EnabledLines(Dropped(items)));
    case EnabledBlock(start, end) =>
      var i := First(lines, start, end, Item(Plugin()));
      SplicedNoFeeds(lines, i, i + 1, []);
    case Inline(p, end, items) =>
      ToggledOff(items);
      DroppedHasNoFeeds(items);
      WrittenHaveNoFeeds(Dropped(items));
      SplicedNoFeeds(lines, p, end, FlatLines(Dropped(items)));
    case Flat(p, start, end) =>
      var i := First(lines, p + 1, end, FlatMatch(Plugin()));
      SplicedNoFeeds(lines, i, i + 1, []);
    case _ =>
  }

  // ---- the results ----------------------------------------------------------------------------------------

  /** After an edit that takes the plugin out once, the reader finds exactly what remains. */
  lemma {:induction false} RemovedExactly(content: string, name: string)
    requires Edited(Lines(content), ShapeOf(Lines(content)), false).Some?
    ensures Contains(Remove(content), name) <==> Remains(Lines(content), name)
  {
    hide ShapeOf, Lines, Edited, JoinYaml, Reads, Remains, Appended;
    var lines := Lines(content);
    var shorter := Edited(lines, ShapeOf(lines), false).value;
    MissingStays(lines);
    LinesHaveNoFeeds(content);
    RemovedHasNoFeeds(lines, shorter);
    JoinedReads(shorter, EndsWithFeed(content), name);
    RemovedReads(lines, shorter, name);
  }

  lemma MissingStays(lines: seq<string>)
    requires Edited(lines, ShapeOf(lines), false).Some?
    ensures ShapeOf(lines) != Missing
  {
    hide ShapeOf;
  }

  /** A text from which nothing is taken does not list the plugin. */
  lemma UntouchedLacks(lines: seq<string>)
    requires Edited(lines, ShapeOf(lines), false).None?
    ensures !Reads(lines, Plugin()) && !Remains(lines, Plugin())
  {
    hide Is, First, ShapeOf, Plugin, EnabledLines, FlatLines, ItemLine, Toggled, Dropped, SomeReads;
    match ShapeOf(lines)
    case EnabledFlow(key, items) => ToggledOff(items);
    case Inline(p, end, items) => ToggledOff(items);
    case Flat(p, start, end) => FlatSearches(lines, p, start, end, Plugin());
    case _ =>
  }

  /** The reader still finds the plugin after a removal exactly when it was listed once more. */
  lemma {:induction false} StillContained(content: string)
    ensures Contains(Remove(content), Plugin()) <==> Remains(Lines(content), Plugin())
  {
    hide ShapeOf, Lines, Edited, JoinYaml, Remains, Reads, Plugin;
    var lines := Lines(content);
    if Edited(lines, ShapeOf(lines), false).Some? {
      RemovedExactly(content, Plugin());
    } else {
      UntouchedLacks(lines);
    }
  }

  /** From a block list nothing else is taken. */
  lemma {:induction false} RemovalKeepsOthers(content: string, name: string)
    requires ShapeOf(Lines(content)).EnabledBlock? && name != Plugin()
    ensures Contains(Remove(content), name) <==> Contains(content, name)
  {
    hide Is, First, ShapeOf, Lines, JoinYaml, Plugin;
    var lines := Lines(content);
    var shape := ShapeOf(lines);
    var i := First(lines, shape.start, shape.end, Item(Plugin()));
    if i < shape.end {
      RemovedExactly(content, name);
      ItemsDiffer(lines[i], name);
    }
  }

  lemma ItemsDiffer(line: string, name: string)
    requires Is(Item(Plugin()), line) && name != Plugin()
    ensures !Is(Item(name), line)
  {
  }

  /** The plugin twice in a list. */
  function TwiceLines(): seq<string> {
    [PluginsHead(), EnabledHead(), ItemLine(4, Plugin()), ItemLine(4, Plugin())]
  }

  lemma TwiceRemains()
    ensures Remains(TwiceLines(), Plugin())
  {
    hide Is, First, ItemLine, EnabledItems, InlineItems, Plugin, Plain, EnabledHead, PluginsHead;
    var lines := TwiceLines();
    PluginsLine();
    EnabledLine();
    ItemLineKinds(4, Plugin());
    PluginIsPlain();
    ReadsAsItself(4, Plugin(), Plugin());
    FirstIs(lines, 0, 4, PluginsKey, 0);
    FirstIs(lines, 1, 4, TopKey, 4);
    FirstIs(lines, 1, 4, EnabledKey, 1);
    FirstIs(lines, 2, 4, ListEnd, 4);
    SaysShape(lines, 0, 4, EnabledBlock(2, 4));
    FirstIs(lines, 2, 4, Item(Plugin()), 2);
    assert Is(Item(Plugin()), lines[3]);
  }

  /** A configuration from which the plugin is removed and in which the reader still finds it. */
  lemma RemovedButContained() returns (content: string)
    ensures Contains(Remove(content), Plugin())
  {
    hide Lines, Plugin, Contains, JoinYaml, TwiceLines, Remains;
    content := JoinYaml(TwiceLines(), true);
    TwiceRemains();
    TwiceIsClean();
    LinesBack(TwiceLines(), true);
    StillContained(content);
  }

  lemma TwiceIsClean()
    ensures NoFeeds(TwiceLines()) && TwiceLines() != []
    ensures forall i | 0 <= i < |TwiceLines()| :: '\r' !in TwiceLines()[i]
  {
    hide ItemLine, Plugin;
    Heads();
    ItemLineText(4, Plugin());
    PluginLineHasNoReturn(4);
  }
}
