/** The Hermes editor and its reader agree: what one call writes, the other reads. */
module HermesAgreement {
  import opened Wrappers
  import opened YamlText
  import opened HermesConfig
  import opened HermesLines

  // ---- first lines of spliced texts ---------------------------------------------------------

  lemma {:induction false} FirstIs(lines: seq<string>, lo: nat, hi: nat, kind: Kind, i: nat)
    requires lo <= i <= hi <= |lines|
    requires i < hi ==> Is(kind, lines[i])
    requires forall k | lo <= k < i :: !Is(kind, lines[k])
    ensures First(lines, lo, hi, kind) == i
  {
  }

  ghost predicate None?(lines: seq<string>, lo: nat, hi: nat, kind: Kind)
    requires lo <= hi <= |lines|
  {
    forall k | lo <= k < hi :: !Is(kind, lines[k])
  }

  /** What was found after the spliced part is found there still. */
  lemma FirstAfter(lines: seq<string>, a: nat, b: nat, inserted: seq<string>, lo: nat, hi: nat, kind: Kind)
    requires lo <= a <= b <= hi <= |lines|
    requires None?(lines, lo, a, kind) && None?(inserted, 0, |inserted|, kind)
    ensures First(Spliced(lines, a, b, inserted), lo, hi - b + a + |inserted|, kind) ==
            First(lines, b, hi, kind) - b + a + |inserted|
  {
    hide Is, First;
    var longer := Spliced(lines, a, b, inserted);
    var d := a + |inserted| - b;
    var i := First(lines, b, hi, kind);
    forall k | lo <= k < i + d ensures !Is(kind, longer[k]) {
      if k < a {
        assert longer[k] == lines[k];
      } else if k < a + |inserted| {
        assert longer[k] == inserted[k - a];
      } else {
        assert longer[k] == lines[k - d];
      }
    }
    assert i < hi ==> longer[i + d] == lines[i];
    FirstIs(longer, lo, hi + d, kind, i + d);
  }

  /** What was found before it is found still. */
  lemma {:induction false} FirstBefore(lines: seq<string>, a: nat, b: nat, inserted: seq<string>, lo: nat, hi: nat, more: nat, kind: Kind)
    requires a <= b <= |lines| && lo <= hi <= |lines| && First(lines, lo, hi, kind) < hi
    requires First(lines, lo, hi, kind) < a && First(lines, lo, hi, kind) < more <= |Spliced(lines, a, b, inserted)|
    ensures First(Spliced(lines, a, b, inserted), lo, more, kind) == First(lines, lo, hi, kind)
  {
    hide Is, First;
    var longer := Spliced(lines, a, b, inserted);
    var i := First(lines, lo, hi, kind);
    forall k | lo <= k <= i ensures longer[k] == lines[k] {
    }
    FirstIs(longer, lo, more, kind, i);
  }

  /** A search that starts later, where nothing was missed. */
  lemma {:induction false} FirstLater(lines: seq<string>, lo: nat, mid: nat, hi: nat, kind: Kind)
    requires lo <= hi <= |lines| && lo <= mid <= First(lines, lo, hi, kind)
    ensures First(lines, mid, hi, kind) == First(lines, lo, hi, kind)
  {
    FirstIs(lines, mid, hi, kind, First(lines, lo, hi, kind));
  }

  // ---- the lines the editor writes ------------------------------------------------------------

  lemma {:induction false} FindNone(s: string, c: char)
    requires c !in s
    ensures IndexOf(s, c) == |s|
  {
  }

  function KeyLine(indent: nat, key: string): string {
    Spaces(indent) + key + ":"
  }

  lemma KeySplit(key: string)
    requires key != "" && !IsWhitespace(key[0]) && !IsWhitespace(key[|key| - 1]) && ':' !in key
    ensures var text := key + ":";
            IndexOf(text, ':') == |key| && Trim(text[..|key|]) == key && Trim(text[|key| + 1..]) == ""
  {
    hide TrimStart, TrimEnd, IsWhitespace;
    var text := key + ":";
    FindAppend(key, ":", ':');
    FindNone(key, ':');
    assert text[..|key|] == key && text[|key| + 1..] == "";
    TrimStartId(key);
    TrimEndId(key);
    TrimStartId("");
    TrimEndId("");
  }

  lemma KeyLineIs(indent: nat, key: string)
    requires key != "" && !IsWhitespace(key[0]) && !IsWhitespace(key[|key| - 1]) && ':' !in key
    requires key[0] != '#' && key[0] != '-'
    ensures Indent(KeyLine(indent, key)) == Some(indent)
    ensures SplitKey(KeyLine(indent, key)) == Some((key, "")) && KeyName(KeyLine(indent, key)) == Some(key)
  {
    hide TrimStart, Trim, IsWhitespace, IndexOf, Utf8Size;
    var text := key + ":";
    var line := KeyLine(indent, key);
    assert line == Spaces(indent) + text;
    assert text[0] == key[0];
    SpacesTrimmed(indent, text);
    assert line[..|line| - |text|] == Spaces(indent);
    SpacesSize(Spaces(indent));
    KeySplit(key);
  }

  lemma PluginsLine()
    ensures PluginsHead() == KeyLine(0, "plugins")
    ensures Is(PluginsKey, PluginsHead()) && InlineItems(PluginsHead()) == None
    ensures '\n' !in PluginsHead()
  {
    hide Indent, SplitKey, FlowItems;
    assert Spaces(0) == "";
    KeyLineIs(0, "plugins");
    NothingFlows();
  }

  lemma EnabledLine()
    ensures EnabledHead() == KeyLine(2, "enabled")
    ensures Is(EnabledKey, EnabledHead()) && !Is(TopKey, EnabledHead()) && EnabledItems(EnabledHead()) == None
    ensures '\n' !in EnabledHead()
  {
    hide Indent, SplitKey, FlowItems;
    assert Spaces(2) == "  ";
    KeyLineIs(2, "enabled");
    NothingFlows();
  }

  lemma NothingFlows()
    ensures FlowItems("") == None
  {
    assert CommentStart("", 0, UNQUOTED) == 0;
    assert StripComment("") == "";
    TrimStartId("");
    TrimEndId("");
  }

  /** An item line is of none of the kinds that divide the text. */
  lemma ItemLineKinds(indent: nat, item: string)
    ensures var line := ItemLine(indent, item);
            && !Is(PluginsKey, line) && !Is(TopKey, line) && !Is(EnabledKey, line) && !Is(ListEnd, line)
            && (indent == 2 ==> !Is(FlatBreak, line))
    ensures ItemLine(indent, item) != "" && ('\n' !in item ==> '\n' !in ItemLine(indent, item))
  {
    hide ItemLine, ScalarValue;
    ItemLineIs(indent, item);
    ItemLineText(indent, item);
  }

  /** In a flat list a line is searched for as in any other. */
  lemma FlatMatchIsItem(item: string, name: string)
    ensures Is(FlatMatch(name), ItemLine(2, item)) == Is(Item(name), ItemLine(2, item))
  {
    hide ItemLine, ScalarValue;
    ItemLineIs(2, item);
  }

  lemma PluginLineIsFlat()
    ensures Is(FlatItem, ItemLine(2, Plugin()))
  {
    hide ItemLine, Plugin, Plain, ListItem;
    PluginIsPlain();
    PlainReadBack(2, Plugin());
    ItemLineIs(2, Plugin());
  }

  lemma ItemLineText(indent: nat, item: string)
    ensures ItemLine(indent, item) != "" && ('\n' !in item ==> '\n' !in ItemLine(indent, item))
  {
  }

  lemma PluginIsPlain()
    ensures Plain(Plugin())
  {
    SimpleIsPlain(Plugin());
  }

  /** A plain item's line reads as that item and no other. */
  lemma ReadsAsItself(indent: nat, item: string, name: string)
    requires Plain(item)
    ensures Is(Item(name), ItemLine(indent, item)) <==> name == item
  {
    hide ItemLine, ListItem;
    PlainReadBack(indent, item);
    ItemLineIs(indent, item);
  }

  // ---- the shapes, one by one -------------------------------------------------------------------

  /** The section of the plugins starts at `p` and ends before `end`. */
  predicate Section(lines: seq<string>, p: nat, end: nat) {
    && p < end <= |lines|
    && First(lines, 0, |lines|, PluginsKey) == p && First(lines, p + 1, |lines|, TopKey) == end
  }

  predicate IsFlow(lines: seq<string>, p: nat, end: nat, key: nat, items: seq<string>) {
    && p < key < end <= |lines|
    && First(lines, p + 1, end, EnabledKey) == key && EnabledItems(lines[key]) == Some(items)
  }

  predicate IsBlock(lines: seq<string>, p: nat, end: nat, start: nat, stop: nat) {
    && p + 1 < start <= stop <= end <= |lines|
    && First(lines, p + 1, end, EnabledKey) == start - 1 && EnabledItems(lines[start - 1]) == None
    && First(lines, start, end, ListEnd) == stop
  }

  predicate IsInline(lines: seq<string>, p: nat, end: nat, items: seq<string>) {
    && p < end <= |lines|
    && First(lines, p + 1, end, EnabledKey) == end && InlineItems(lines[p]) == Some(items)
  }

  predicate IsFlat(lines: seq<string>, p: nat, end: nat, start: nat) {
    && p < start < end <= |lines|
    && First(lines, p + 1, end, EnabledKey) == end && InlineItems(lines[p]) == None
    && First(lines, p + 1, end, FlatItem) == start
  }

  predicate IsBare(lines: seq<string>, p: nat, end: nat) {
    && p < end <= |lines|
    && First(lines, p + 1, end, EnabledKey) == end && InlineItems(lines[p]) == None
    && First(lines, p + 1, end, FlatItem) == end
  }

  ghost predicate Says(lines: seq<string>, p: nat, end: nat, shape: Shape) {
    match shape
    case Missing => false
    case EnabledFlow(key, items) => IsFlow(lines, p, end, key, items)
    case EnabledBlock(start, stop) => IsBlock(lines, p, end, start, stop)
    case Inline(plugins, e, items) => plugins == p && e == end && IsInline(lines, p, end, items)
    case Flat(plugins, start, e) => plugins == p && e == end && IsFlat(lines, p, end, start)
    case Bare(plugins) => plugins == p && IsBare(lines, p, end)
  }

  lemma ShapeSays(lines: seq<string>) returns (p: nat, end: nat)
    requires ShapeOf(lines) != Missing
    ensures Section(lines, p, end) && Says(lines, p, end, ShapeOf(lines))
  {
    hide Is, First, EnabledItems, InlineItems;
    p := First(lines, 0, |lines|, PluginsKey);
    end := First(lines, p + 1, |lines|, TopKey);
  }

  lemma SaysShape(lines: seq<string>, p: nat, end: nat, shape: Shape)
    requires Section(lines, p, end) && Says(lines, p, end, shape)
    ensures ShapeOf(lines) == shape
  {
    hide Is, First, EnabledItems, InlineItems;
  }

  // ---- the shape after each edit ----------------------------------------------------------------

  /** The section still starts where it did, and ends as much later as it grew. */
  lemma SectionGrows(lines: seq<string>, p: nat, end: nat, a: nat, b: nat, inserted: seq<string>)
    requires Section(lines, p, end) && p < a <= b <= end
    requires None?(inserted, 0, |inserted|, TopKey)
    ensures Section(Spliced(lines, a, b, inserted), p, end - b + a + |inserted|)
  {
    hide Is, First;
    var n := |lines|;
    var longer := Spliced(lines, a, b, inserted);
    FirstBefore(lines, a, b, inserted, 0, n, |longer|, PluginsKey);
    FirstAfter(lines, a, b, inserted, p + 1, n, TopKey);
    FirstLater(lines, p + 1, b, n, TopKey);
  }

  lemma ItemLinesKinds(indent: nat, items: seq<string>)
    ensures var lines := ItemLines(indent, items);
            && None?(lines, 0, |lines|, PluginsKey) && None?(lines, 0, |lines|, TopKey)
            && None?(lines, 0, |lines|, EnabledKey) && None?(lines, 0, |lines|, ListEnd)
            && (indent == 2 ==> None?(lines, 0, |lines|, FlatBreak))
  {
    hide Is, ItemLine;
    forall i | 0 <= i < |items| {
      ItemLineKinds(indent, items[i]);
    }
  }

  /** Where the items of a list are in the new lines. */
  ghost predicate Holds(lines: seq<string>, at: nat, indent: nat, items: seq<string>) {
    at + |items| <= |lines| && forall i | 0 <= i < |items| :: lines[at + i] == ItemLine(indent, items[i])
  }

  lemma SplicedHolds(lines: seq<string>, a: nat, b: nat, first: string, indent: nat, items: seq<string>)
    requires a <= b <= |lines|
    ensures var longer := Spliced(lines, a, b, [first] + ItemLines(indent, items));
            && a < |longer| && longer[a] == first && Holds(longer, a + 1, indent, items)
            && longer[..a] == lines[..a] && longer[a + 1 + |items|..] == lines[b..]
  {
    hide ItemLine;
    var inserted := [first] + ItemLines(indent, items);
    var longer := Spliced(lines, a, b, inserted);
    forall i | 0 <= i < |items| ensures longer[a + 1 + i] == ItemLine(indent, items[i]) {
      assert longer[a + 1 + i] == inserted[1 + i];
    }
  }

  /** The items are inside what is searched, none of them of this kind. */
  lemma {:induction false} FirstPastItems(lines: seq<string>, at: nat, hi: nat, indent: nat, items: seq<string>, kind: Kind)
    requires Holds(lines, at, indent, items) && at + |items| <= hi <= |lines|
    requires None?(ItemLines(indent, items), 0, |items|, kind)
    ensures First(lines, at, hi, kind) >= at + |items|
  {
    hide Is, ItemLine;
    assert forall i | 0 <= i < |items| :: !Is(kind, ItemLines(indent, items)[i]);
    forall k | at <= k < at + |items| ensures !Is(kind, lines[k]) {
      assert lines[at + (k - at)] == ItemLines(indent, items)[k - at];
    }
  }

  lemma HeadedNone(head: string, lines: seq<string>, kind: Kind)
    requires !Is(kind, head) && None?(lines, 0, |lines|, kind)
    ensures None?([head] + lines, 0, 1 + |lines|, kind)
  {
    hide Is;
    assert forall i | 0 <= i < |lines| :: ([head] + lines)[1 + i] == lines[i];
  }

  lemma SamePrefix(a: seq<string>, b: seq<string>, n: nat)
    requires n <= |a| && n <= |b| && a[..n] == b[..n]
    ensures forall k | 0 <= k < n :: a[k] == b[k]
  {
    assert forall k | 0 <= k < n :: a[..n][k] == a[k] && b[..n][k] == b[k];
  }

  lemma FlowBecomesBlock(lines: seq<string>, p: nat, end: nat, key: nat, items: seq<string>, more: seq<string>)
    returns (stop: nat)
    requires Section(lines, p, end) && IsFlow(lines, p, end, key, items) && more != []
    ensures var longer := Spliced(lines, key, key + 1, EnabledLines(more));
            && Section(longer, p, end + |more|) && IsBlock(longer, p, end + |more|, key + 1, stop)
            && stop >= key + 1 + |more| && Holds(longer, key + 1, 4, more)
  {
    hide Is, First, ItemLine, EnabledItems, InlineItems, Plugin, EnabledHead, PluginsHead, Plain, Section, ItemLines, None?;
    var inserted := [EnabledHead()] + ItemLines(4, more);
    var longer := Spliced(lines, key, key + 1, inserted);
    EnabledLine();
    ItemLinesKinds(4, more);
    HeadedNone(EnabledHead(), ItemLines(4, more), TopKey);
    SectionGrows(lines, p, end, key, key + 1, inserted);
    var grown := end + |more|;
    SplicedHolds(lines, key, key + 1, EnabledHead(), 4, more);
    SamePrefix(longer, lines, key);
    FirstIs(longer, p + 1, grown, EnabledKey, key);
    FirstPastItems(longer, key + 1, grown, 4, more, ListEnd);
    stop := First(longer, key + 1, grown, ListEnd);
  }

  lemma {:induction false} InlineBecomesFlat(lines: seq<string>, p: nat, end: nat, items: seq<string>, more: seq<string>)
    requires Section(lines, p, end) && IsInline(lines, p, end, items) && more != [] && more[0] == Plugin()
    ensures var longer := Spliced(lines, p, end, FlatLines(more));
            var grown := p + 1 + |more|;
            && Section(longer, p, grown) && IsFlat(longer, p, grown, p + 1)
            && First(longer, p + 1, grown, FlatBreak) == grown && Holds(longer, p + 1, 2, more)
  {
    hide Is, First, ItemLine, EnabledItems, InlineItems, Plugin, EnabledHead, PluginsHead, Plain, Section, ItemLines, None?;
    var longer := Spliced(lines, p, end, FlatLines(more));
    var grown := p + 1 + |more|;
    PluginsLine();
    ItemLinesKinds(2, more);
    SplicedHolds(lines, p, end, PluginsHead(), 2, more);
    InlineSection(lines, p, end, longer, grown, more);
    FirstPastItems(longer, p + 1, grown, 2, more, EnabledKey);
    FirstPastItems(longer, p + 1, grown, 2, more, FlatBreak);
    PluginLineIsFlat();
    assert longer[p + 1 + 0] == ItemLine(2, Plugin());
    FirstIs(longer, p + 1, grown, FlatItem, p + 1);
  }

  lemma InlineSection(lines: seq<string>, p: nat, end: nat, longer: seq<string>, grown: nat, more: seq<string>)
    requires Section(lines, p, end) && grown == p + 1 + |more| <= |longer|
    requires longer[..p] == lines[..p] && longer[grown..] == lines[end..] && Is(PluginsKey, longer[p])
    requires Holds(longer, p + 1, 2, more)
    ensures Section(longer, p, grown)
  {
    hide Is, First, ItemLine;
    assert forall k | 0 <= k < p :: longer[k] == longer[..p][k] == lines[k];
    FirstIs(longer, 0, |longer|, PluginsKey, p);
    ItemLinesKinds(2, more);
    FirstPastItems(longer, p + 1, |longer|, 2, more, TopKey);
    assert grown < |longer| ==> longer[grown] == longer[grown..][0] == lines[end..][0] == lines[end];
    assert |longer| - grown == |lines| - end;
    FirstIs(longer, p + 1, |longer|, TopKey, grown);
  }

  lemma BlockGrows(lines: seq<string>, p: nat, end: nat, start: nat, stop: nat)
    requires Section(lines, p, end) && IsBlock(lines, p, end, start, stop)
    ensures var longer := Spliced(lines, start, start, [ItemLine(4, Plugin())]);
            Section(longer, p, end + 1) && IsBlock(longer, p, end + 1, start, stop + 1)
  {
    hide Is, First, ItemLine, EnabledItems, InlineItems, Plugin, EnabledHead, PluginsHead, Plain, Section;
    var inserted := [ItemLine(4, Plugin())];
    var longer := Spliced(lines, start, start, inserted);
    ItemLineKinds(4, Plugin());
    SectionGrows(lines, p, end, start, start, inserted);
    FirstBefore(lines, start, start, inserted, p + 1, end, end + 1, EnabledKey);
    assert longer[start - 1] == lines[start - 1];
    FirstAfter(lines, start, start, inserted, start, end, ListEnd);
  }

  lemma FlatGrows(lines: seq<string>, p: nat, end: nat, start: nat)
    requires Section(lines, p, end) && IsFlat(lines, p, end, start)
    ensures var longer := Spliced(lines, start, start, [ItemLine(2, Plugin())]);
            && Section(longer, p, end + 1) && IsFlat(longer, p, end + 1, start)
            && First(longer, start, end + 1, FlatBreak) == First(lines, start, end, FlatBreak) + 1
  {
    hide Is, First, ItemLine, EnabledItems, InlineItems, Plugin, EnabledHead, PluginsHead, Plain, Section;
    var inserted := [ItemLine(2, Plugin())];
    var longer := Spliced(lines, start, start, inserted);
    ItemLineKinds(2, Plugin());
    PluginLineIsFlat();
    SectionGrows(lines, p, end, start, start, inserted);
    FirstAfter(lines, start, start, inserted, p + 1, end, EnabledKey);
    FirstLater(lines, p + 1, start, end, EnabledKey);
    assert longer[p] == lines[p];
    assert forall k | p + 1 <= k < start :: longer[k] == lines[k];
    FirstIs(longer, p + 1, end + 1, FlatItem, start);
    FirstAfter(lines, start, start, inserted, start, end, FlatBreak);
  }

  lemma BareGrows(lines: seq<string>, p: nat, end: nat) returns (stop: nat)
    requires Section(lines, p, end) && IsBare(lines, p, end)
    ensures var longer := Spliced(lines, p + 1, p + 1, [EnabledHead(), ItemLine(4, Plugin())]);
            && Section(longer, p, end + 2) && IsBlock(longer, p, end + 2, p + 2, stop)
            && stop >= p + 3 && longer[p + 2] == ItemLine(4, Plugin())
  {
    hide Is, First, ItemLine, EnabledItems, InlineItems, Plugin, EnabledHead, PluginsHead, Plain, Section;
    var inserted := [EnabledHead(), ItemLine(4, Plugin())];
    var longer := Spliced(lines, p + 1, p + 1, inserted);
    EnabledLine();
    ItemLineKinds(4, Plugin());
    SectionGrows(lines, p, end, p + 1, p + 1, inserted);
    assert longer[p + 1] == EnabledHead() && longer[p + 2] == ItemLine(4, Plugin());
    FirstIs(longer, p + 1, end + 2, EnabledKey, p + 1);
    stop := First(longer, p + 2, end + 2, ListEnd);
  }
}
