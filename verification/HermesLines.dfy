/** Splitting a text into lines and joining them again, and what the reader makes of it. */
module HermesLines {
  import opened Wrappers
  import opened YamlText
  import opened HermesConfig

  /** The same line, but for a carriage return at its end. */
  predicate SameLine(a: string, b: string) {
    a == b || a == b + ['\r']
  }

  ghost predicate Similar(a: seq<string>, b: seq<string>) {
    |a| == |b| && forall i | 0 <= i < |a| :: SameLine(a[i], b[i])
  }

  lemma SameKind(a: string, b: string, kind: Kind)
    requires SameLine(a, b)
    ensures Is(kind, a) == Is(kind, b)
    ensures EnabledItems(a) == EnabledItems(b) && InlineItems(a) == InlineItems(b)
  {
    hide Indent, SplitKey, ListItem, ScalarValue, FlowItems;
    ReturnInIndent(b);
    ReturnInKey(b);
    ReturnInItem(b);
  }

  lemma SimilarFirst(a: seq<string>, b: seq<string>, lo: nat, hi: nat, kind: Kind)
    requires Similar(a, b) && lo <= hi <= |a|
    ensures First(a, lo, hi, kind) == First(b, lo, hi, kind)
  {
    hide Is, SameLine;
    forall i | 0 <= i < |a| ensures Is(kind, a[i]) == Is(kind, b[i]) {
      SameKind(a[i], b[i], kind);
    }
    assert Flags(a, kind) == Flags(b, kind);
  }

  lemma SimilarWithin(a: seq<string>, b: seq<string>, p: nat, end: nat)
    requires Similar(a, b) && p < end <= |a|
    ensures Within(a, p, end) == Within(b, p, end)
  {
    hide First, SameLine, Is, EnabledItems, InlineItems;
    SimilarFirst(a, b, p + 1, end, EnabledKey);
    SimilarFirst(a, b, p + 1, end, FlatItem);
    SameKind(a[p], b[p], PluginsKey);
    var key := First(a, p + 1, end, EnabledKey);
    if key < end {
      SameKind(a[key], b[key], EnabledKey);
      SimilarFirst(a, b, key + 1, end, ListEnd);
    }
  }

  lemma SimilarShape(a: seq<string>, b: seq<string>)
    requires Similar(a, b)
    ensures ShapeOf(a) == ShapeOf(b)
  {
    hide First, SameLine, Is, Within, Located;
    var n := |a|;
    var p := First(a, 0, n, PluginsKey);
    SimilarFirst(a, b, 0, n, PluginsKey);
    if p < n {
      SimilarFirst(a, b, p + 1, n, TopKey);
      SimilarWithin(a, b, p, First(a, p + 1, n, TopKey));
    }
  }

  lemma SimilarListed(a: seq<string>, b: seq<string>, name: string)
    requires Similar(a, b)
    ensures Reads(a, name) == Reads(b, name)
  {
    hide First, SameLine, Is, ShapeOf;
    SimilarShape(a, b);
    match ShapeOf(a)
    case EnabledBlock(start, end) => SimilarFirst(a, b, start, end, Item(name));
    case Flat(_, start, end) =>
      SimilarFirst(a, b, start, end, FlatBreak);
      SimilarFirst(a, b, start, First(a, start, end, FlatBreak), FlatMatch(name));
    case _ =>
  }

  // ---- lines of a text ----------------------------------------------------------------------

  predicate NoFeeds(lines: seq<string>) {
    forall i | 0 <= i < |lines| :: '\n' !in lines[i]
  }

  function Stripped(lines: seq<string>): (stripped: seq<string>)
    ensures |stripped| == |lines|
    ensures forall i | 0 <= i < |lines| :: stripped[i] == StripReturn(lines[i])
  {
    seq(|lines|, i requires 0 <= i < |lines| => StripReturn(lines[i]))
  }

  lemma {:induction false} LinesHaveNoFeeds(text: string)
    ensures NoFeeds(Lines(text))
    decreases |text|
  {
    if text != "" {
      var i := IndexOf(text, '\n');
      if i < |text| {
        LinesHaveNoFeeds(text[i + 1..]);
      } else {
        assert text[..i] == text;
      }
    }
  }

  /** A text that does not end its last line has something in it. */
  lemma {:induction false} LastLine(text: string)
    requires text != "" && !EndsWithFeed(text)
    ensures Lines(text) != [] && Lines(text)[|Lines(text)| - 1] != ""
    decreases |text|
  {
    var i := IndexOf(text, '\n');
    if i < |text| {
      LastLine(text[i + 1..]);
    }
  }

  lemma {:induction false} FindInLine(line: string, more: string)
    requires '\n' !in line
    ensures IndexOf(line + "\n" + more, '\n') == |line|
  {
    if line == "" {
      assert line + "\n" + more == "\n" + more;
    } else {
      assert (line + "\n" + more)[1..] == line[1..] + "\n" + more;
      FindInLine(line[1..], more);
    }
  }

  lemma {:induction false} FirstLine(line: string, more: string)
    requires '\n' !in line
    ensures Lines(line + "\n" + more) == [StripReturn(line)] + Lines(more)
  {
    FindInLine(line, more);
    var text := line + "\n" + more;
    assert text[..|line|] == line && text[|line| + 1..] == more;
  }

  lemma {:induction false} NoFeed(line: string)
    requires '\n' !in line
    ensures IndexOf(line, '\n') == |line|
  {
  }

  /** Lines that are all ended come back, without their carriage returns. */
  lemma {:induction false} LinesOfEnded(lines: seq<string>, more: string)
    requires NoFeeds(lines) && lines != []
    ensures Lines(Join(lines) + "\n" + more) == Stripped(lines) + Lines(more)
    decreases |lines|
  {
    hide StripReturn, Lines;
    if |lines| == 1 {
      FirstLine(lines[0], more);
    } else {
      var others := lines[1..];
      LinesOfEnded(others, more);
      FirstLine(lines[0], Join(others) + "\n" + more);
      assert Join(lines) + "\n" + more == lines[0] + "\n" + (Join(others) + "\n" + more);
      assert Stripped(lines) == [StripReturn(lines[0])] + Stripped(others);
      assert [StripReturn(lines[0])] + (Stripped(others) + Lines(more)) == Stripped(lines) + Lines(more);
    }
  }

  lemma {:induction false} LinesOfOne(line: string)
    requires '\n' !in line && line != ""
    ensures Lines(line) == [line]
  {
    NoFeed(line);
  }

  /** The last line, when nothing ends it, keeps its carriage return. */
  lemma {:induction false} LinesOfOpen(lines: seq<string>)
    requires NoFeeds(lines) && lines != [] && lines[|lines| - 1] != ""
    ensures Lines(Join(lines)) == Stripped(lines[..|lines| - 1]) + [lines[|lines| - 1]]
  {
    hide StripReturn, Lines;
    var n := |lines| - 1;
    var last := lines[n];
    LinesOfOne(last);
    assert lines == lines[..n] + [last];
    if n == 0 {
      assert Join(lines) == last;
      assert Stripped(lines[..0]) == [];
    } else {
      JoinSplit(lines[..n], last);
      LinesOfEnded(lines[..n], last);
    }
  }

  lemma {:induction false} JoinSplit(lines: seq<string>, last: string)
    requires lines != []
    ensures Join(lines + [last]) == Join(lines) + "\n" + last
    decreases |lines|
  {
    if |lines| > 1 {
      assert (lines + [last])[1..] == lines[1..] + [last];
      JoinSplit(lines[1..], last);
    }
  }

  lemma SimilarStripped(lines: seq<string>)
    ensures Similar(lines, Stripped(lines))
  {
    forall i | 0 <= i < |lines| ensures SameLine(lines[i], Stripped(lines)[i]) {
      var line := lines[i];
      assert line != "" ==> line == line[..|line| - 1] + [line[|line| - 1]];
    }
  }

  /** The reader sees the lines that were joined. */
  lemma LinesOfJoined(lines: seq<string>, trailing: bool)
    requires NoFeeds(lines) && lines != [] && (!trailing ==> lines[|lines| - 1] != "")
    ensures Similar(lines, Lines(JoinYaml(lines, trailing)))
  {
    hide Lines, Join, Similar, Stripped;
    if trailing {
      LinesOfEnded(lines, "");
      LinesOfNothing();
      assert Join(lines) + "\n" + "" == Join(lines) + "\n";
      assert Stripped(lines) + [] == Stripped(lines);
      SimilarStripped(lines);
    } else {
      var n := |lines| - 1;
      LinesOfOpen(lines);
      JoinNotEmpty(lines);
      SimilarStripped(lines[..n]);
      SimilarThen(lines[..n], Stripped(lines[..n]), lines[n]);
      assert lines[..n] + [lines[n]] == lines;
    }
  }

  lemma LinesOfNothing()
    ensures Lines("") == [] && StripReturn("") == ""
  {
  }

  lemma SimilarThen(a: seq<string>, b: seq<string>, line: string)
    requires Similar(a, b)
    ensures Similar(a + [line], b + [line])
  {
  }

  lemma {:induction false} JoinNotEmpty(lines: seq<string>)
    requires lines != [] && lines[|lines| - 1] != ""
    ensures Join(lines) != "" && (NoFeeds(lines) ==> !EndsWithFeed(Join(lines)))
    decreases |lines|
  {
    if |lines| > 1 {
      JoinNotEmpty(lines[1..]);
    }
  }

  lemma {:induction false} JoinCons(line: string, others: seq<string>)
    requires others != []
    ensures Join([line] + others) == line + "\n" + Join(others)
  {
    assert ([line] + others)[1..] == others;
  }
}
