/** A removal after an insertion: the reader sees what it saw before, and the text comes back
    exactly when no line that the editor rewrites ends in a carriage return. */
module HermesRoundTrip {
  import opened Wrappers
  import opened YamlText
  import opened HermesConfig
  import opened HermesLines
  import opened HermesAgreement
  import opened HermesTheorems
  import opened HermesResults
  import opened HermesRemoval

  // ---- lines with their carriage returns ----------------------------------------------------------

  /** The lines of a text, each as it stands before its line feed. */
  function RawLines(text: string): seq<string>
    decreases |text|
  {
    if text == "" then []
    else
      var i := IndexOf(text, '\n');
      if i == |text| then [text] else [text[..i]] + RawLines(text[i + 1..])
  }

  predicate EndsWithReturn(line: string) {
    line != "" && line[|line| - 1] == '\r'
  }

  /** Somewhere a carriage return stands before a line feed. */
  predicate HoldsReturn(text: string) {
    exists k | 0 <= k < |text| - 1 :: text[k] == '\r' && text[k + 1] == '\n'
  }

  /** Line `i` of `n` is not the last, or the last one is ended too. */
  predicate IsEnded(i: nat, n: nat, trailing: bool) {
    trailing || i + 1 < n
  }

  /** A text whose lines are all ended, for which there is more than one. */
  lemma JoinedCons(line: string, others: seq<string>, rest: string, trailing: bool)
    requires others != [] && rest != "" && JoinYaml(others, trailing) == rest && EndsWithFeed(rest) == trailing
    ensures JoinYaml([line] + others, trailing) == line + "\n" + rest
  {
    hide Join;
    JoinCons(line, others);
  }

  lemma {:induction false} RawJoined(text: string)
    requires text != ""
    ensures RawLines(text) != [] && JoinYaml(RawLines(text), EndsWithFeed(text)) == text
    decreases |text|
  {
    hide IndexOf, JoinYaml, EndsWithFeed;
    var i := IndexOf(text, '\n');
    TextSplit(text, i);
    if i == |text| {
      JoinedOne(text);
    } else if text[i + 1..] == "" {
      JoinedOne(text[..i]);
      assert RawLines(text) == [text[..i]];
    } else {
      var line, rest := text[..i], text[i + 1..];
      RawJoined(rest);
      JoinedCons(line, RawLines(rest), rest, EndsWithFeed(rest));
    }
  }

  lemma JoinedOne(line: string)
    ensures JoinYaml([line], true) == line + "\n" && (line != "" ==> JoinYaml([line], false) == line)
  {
  }

  lemma {:induction false} LinesOfRaw(text: string)
    ensures var raw := RawLines(text);
            && |Lines(text)| == |raw|
            && forall i | 0 <= i < |raw| :: Lines(text)[i] == if IsEnded(i, |raw|, EndsWithFeed(text)) then StripReturn(raw[i]) else raw[i]
    decreases |text|
  {
    hide IndexOf, StripReturn, EndsWithFeed;
    var i := IndexOf(text, '\n');
    TextSplit(text, i);
    if text != "" && i < |text| {
      LinesOfRaw(text[i + 1..]);
    }
  }

  lemma {:induction false} ReturnSplit(text: string, i: nat)
    requires i < |text| && text[i] == '\n' && '\n' !in text[..i]
    ensures HoldsReturn(text) <==> EndsWithReturn(text[..i]) || HoldsReturn(text[i + 1..])
  {
    var rest := text[i + 1..];
    if HoldsReturn(text) {
      var k :| 0 <= k < |text| - 1 && text[k] == '\r' && text[k + 1] == '\n';
      assert forall j | 0 <= j < i :: text[..i][j] == text[j];
      assert k + 1 >= i;
      if k > i {
        assert rest[k - i - 1] == '\r' && rest[k - i - 1 + 1] == '\n';
      }
    }
    if EndsWithReturn(text[..i]) {
      assert text[i - 1] == '\r' && text[i - 1 + 1] == '\n';
    }
    if HoldsReturn(rest) {
      var k :| 0 <= k < |rest| - 1 && rest[k] == '\r' && rest[k + 1] == '\n';
      assert text[i + 1 + k] == '\r' && text[i + 1 + k + 1] == '\n';
    }
  }

  predicate SomeReturn(raw: seq<string>, trailing: bool) {
    exists i | 0 <= i < |raw| :: EndsWithReturn(raw[i]) && IsEnded(i, |raw|, trailing)
  }

  lemma ReturnCons(line: string, others: seq<string>, trailing: bool)
    requires others == [] ==> trailing
    ensures SomeReturn([line] + others, trailing) <==> EndsWithReturn(line) || SomeReturn(others, trailing)
  {
    hide EndsWithReturn;
    var raw := [line] + others;
    assert forall i | 0 <= i < |others| :: raw[i + 1] == others[i];
    if SomeReturn(raw, trailing) {
      var i :| 0 <= i < |raw| && EndsWithReturn(raw[i]) && IsEnded(i, |raw|, trailing);
      if i > 0 {
        assert EndsWithReturn(others[i - 1]) && IsEnded(i - 1, |others|, trailing);
      }
    }
    if EndsWithReturn(line) {
      assert EndsWithReturn(raw[0]) && IsEnded(0, |raw|, trailing);
    }
    if SomeReturn(others, trailing) {
      var i :| 0 <= i < |others| && EndsWithReturn(others[i]) && IsEnded(i, |others|, trailing);
      assert EndsWithReturn(raw[i + 1]) && IsEnded(i + 1, |raw|, trailing);
    }
  }

  lemma {:induction false} ReturnsInRaw(text: string)
    ensures HoldsReturn(text) <==> SomeReturn(RawLines(text), EndsWithFeed(text))
    decreases |text|
  {
    hide IndexOf, EndsWithReturn, HoldsReturn, SomeReturn;
    var i := IndexOf(text, '\n');
    TextSplit(text, i);
    if text == "" || i == |text| {
      OneLineReturns(text);
    } else {
      var line, rest := text[..i], text[i + 1..];
      ReturnSplit(text, i);
      ReturnsInRaw(rest);
      if rest == "" {
        OneLineReturns(rest);
        ReturnCons(line, [], true);
        NoReturn(EndsWithFeed(rest));
      } else {
        RawJoined(rest);
        ReturnCons(line, RawLines(rest), EndsWithFeed(text));
      }
    }
  }

  lemma NoReturn(trailing: bool)
    ensures !SomeReturn([], trailing) && !SomeReturn([], true)
  {
  }

  lemma OneLineReturns(text: string)
    requires '\n' !in text
    ensures !HoldsReturn(text) && !SomeReturn([text], false) && !SomeReturn([], false)
  {
  }

  // ---- lines that lose their ends -------------------------------------------------------------------

  lemma {:induction false} JoinShrinks(less: seq<string>, lines: seq<string>)
    requires |less| == |lines| && forall i | 0 <= i < |lines| :: |less[i]| <= |lines[i]|
    ensures |Join(less)| <= |Join(lines)|
    ensures (exists i | 0 <= i < |lines| :: |less[i]| < |lines[i]|) ==> |Join(less)| < |Join(lines)|
    decreases |lines|
  {
    if |lines| > 1 {
      assert forall i | 0 <= i < |lines| - 1 :: less[1..][i] == less[i + 1] && lines[1..][i] == lines[i + 1];
      JoinShrinks(less[1..], lines[1..]);
      if i :| 0 <= i < |lines| && |less[i]| < |lines[i]| {
        if i > 0 {
          assert |less[1..][i - 1]| < |lines[1..][i - 1]|;
        }
      }
    }
  }

  /** Shortened lines join to the same text only when none of them was shortened. */
  lemma {:induction false} SameJoined(less: seq<string>, lines: seq<string>, trailing: bool)
    requires |less| == |lines| >= 2 && forall i | 0 <= i < |lines| :: less[i] <= lines[i]
    ensures JoinYaml(less, trailing) == JoinYaml(lines, trailing) <==> less == lines
  {
    JoinShrinks(less, lines);
    assert Join(less) != "" && Join(lines) != "";
    if less != lines {
      var i :| 0 <= i < |lines| && less[i] != lines[i];
      assert |less[i]| < |lines[i]|;
    }
  }

  // ---- what an edit and its undoing make of the lines -------------------------------------------------

  /** Where the list is that the plugin is put into. */
  function ListStart(lines: seq<string>): nat {
    var shape := ShapeOf(lines);
    if shape.EnabledBlock? || shape.Flat? then shape.start else 0
  }

  function Found(lines: seq<string>, lo: nat, hi: nat, kind: Kind): Option<nat>
    requires lo <= hi <= |lines|
  {
    var i := First(lines, lo, hi, kind);
    if i < hi then Some(i) else None
  }

  /** The line that a removal takes out. */
  function TakenOut(lines: seq<string>): Option<nat> {
    TakenFrom(lines, ShapeOf(lines))
  }

  function TakenFrom(lines: seq<string>, shape: Shape): Option<nat>
    requires Located(shape, |lines|)
  {
    match shape
    case EnabledBlock(start, end) => Found(lines, start, end, Item(Plugin()))
    case Flat(p, _, end) => Found(lines, p + 1, end, FlatMatch(Plugin()))
    case _ => None
  }

  lemma TakenOutIs(lines: seq<string>)
    requires TakenOut(lines).Some?
    ensures ShapeOf(lines) != Missing && TakenOut(lines).value < |lines|
    ensures Edited(lines, ShapeOf(lines), false) == Some(Without(lines, TakenOut(lines).value))
  {
    hide First, Is, ShapeOf, Plugin;
    WithoutIs(lines, TakenOut(lines).value);
  }

  lemma SimilarTakenOut(a: seq<string>, b: seq<string>)
    requires Similar(a, b)
    ensures TakenOut(a) == TakenOut(b)
  {
    hide First, SameLine, Is, ShapeOf, Plugin;
    SimilarShape(a, b);
    match ShapeOf(a)
    case EnabledBlock(start, end) => SimilarFirst(a, b, start, end, Item(Plugin()));
    case Flat(p, _, end) => SimilarFirst(a, b, p + 1, end, FlatMatch(Plugin()));
    case _ =>
  }

  /** The line that is put in. */
  function NewLine(lines: seq<string>): string {
    ItemLine(if ShapeOf(lines).Flat? then 2 else 4, Plugin())
  }

  /** A block or flat list with the plugin put in at its start. */
  function Inserted(lines: seq<string>): seq<string>
    requires ListStart(lines) <= |lines|
  {
    Spliced(lines, ListStart(lines), ListStart(lines), [NewLine(lines)])
  }

  /** The line that was put in is the first that removal finds. */
  lemma InsertedTakenOut(lines: seq<string>)
    requires ShapeOf(lines).EnabledBlock? || ShapeOf(lines).Flat?
    ensures 1 < |lines| && ListStart(lines) <= |lines| && TakenOut(Inserted(lines)) == Some(ListStart(lines))
  {
    hide Is, First, ItemLine, EnabledItems, InlineItems, Plugin, Plain, Section, IsBlock, IsFlat, ShapeOf;
    var p, end := ShapeSays(lines);
    var shape := ShapeOf(lines);
    var longer := Inserted(lines);
    PluginIsPlain();
    assert longer[shape.start] == NewLine(lines);
    if shape.EnabledBlock? {
      BlockGrows(lines, p, end, shape.start, shape.end);
      SaysShape(longer, p, end + 1, EnabledBlock(shape.start, shape.end + 1));
      ReadsAsItself(4, Plugin(), Plugin());
      FirstIs(longer, shape.start, shape.end + 1, Item(Plugin()), shape.start);
    } else {
      FlatGrows(lines, p, end, shape.start);
      SaysShape(longer, p, end + 1, Flat(p, shape.start, end + 1));
      ReadsAsItself(2, Plugin(), Plugin());
      FlatMatchIsItem(Plugin(), Plugin());
      NoneAbove(lines, longer, p, shape.start, end);
      FirstIs(longer, p + 1, end + 1, FlatMatch(Plugin()), shape.start);
    }
  }

  lemma NoneAbove(lines: seq<string>, longer: seq<string>, p: nat, start: nat, end: nat)
    requires IsFlat(lines, p, end, start) && start <= |longer| && longer[..start] == lines[..start]
    ensures forall k | p + 1 <= k < start :: !Is(FlatMatch(Plugin()), longer[k])
  {
    hide Is, InlineItems, Plugin;
    SamePrefix(longer, lines, start);
    forall k | p + 1 <= k < start ensures !Is(FlatMatch(Plugin()), longer[k]) {
      FlatMatchIsFlat(lines[k], Plugin());
    }
  }

  /** A line that is read back without its carriage return, unless nothing ends it. */
  predicate ReadBack(back: seq<string>, lines: seq<string>, at: nat, trailing: bool) {
    && |back| == |lines|
    && forall i | 0 <= i < |lines| :: back[i] == if trailing || i + 1 < |lines| || at == |lines| then StripReturn(lines[i]) else lines[i]
  }

  lemma {:induction false} JoinedBack(lines: seq<string>, trailing: bool)
    requires NoFeeds(lines) && lines != [] && (!trailing ==> lines[|lines| - 1] != "")
    ensures var text := JoinYaml(lines, trailing);
            && |Lines(text)| == |lines| && EndsWithFeed(text) == trailing
            && forall i | 0 <= i < |lines| :: Lines(text)[i] == if IsEnded(i, |lines|, trailing) then StripReturn(lines[i]) else lines[i]
  {
    hide Lines, Join, StripReturn;
    if trailing {
      LinesOfEnded(lines, "");
      LinesOfNothing();
      assert Join(lines) + "\n" + "" == Join(lines) + "\n";
    } else {
      LinesOfOpen(lines);
      JoinNotEmpty(lines);
    }
  }

  lemma {:induction false} TakenBack(lines: seq<string>, longer: seq<string>, back: seq<string>, at: nat, line: string, trailing: bool)
    requires at <= |lines| && longer == Spliced(lines, at, at, [line]) && |back| == |longer|
    requires forall i | 0 <= i < |longer| :: back[i] == if IsEnded(i, |longer|, trailing) then StripReturn(longer[i]) else longer[i]
    ensures ReadBack(Without(back, at), lines, at, trailing)
  {
    hide StripReturn;
  }

  lemma {:induction false} EditedIs(content: string)
    requires ShapeOf(Lines(content)).EnabledBlock? || ShapeOf(Lines(content)).Flat?
    requires Ensure(content) != content
    ensures ListStart(Lines(content)) <= |Lines(content)|
    ensures Edited(Lines(content), ShapeOf(Lines(content)), true) == Some(Inserted(Lines(content)))
    ensures Ensure(content) == JoinYaml(Inserted(Lines(content)), EndsWithFeed(content))
  {
    hide Is, First, ShapeOf, Plugin, Lines, JoinYaml, ItemLine;
  }

  /** The lines that are written when the plugin is put in and taken out again. */
  lemma {:induction false} ThereAndBack(content: string) returns (back: seq<string>)
    requires ShapeOf(Lines(content)).EnabledBlock? || ShapeOf(Lines(content)).Flat?
    requires Ensure(content) != content
    ensures Remove(Ensure(content)) == JoinYaml(back, EndsWithFeed(content))
    ensures |Lines(content)| >= 2 && ReadBack(back, Lines(content), ListStart(Lines(content)), EndsWithFeed(content))
  {
    hide Is, First, ShapeOf, Plugin, Lines, JoinYaml, ItemLine, Edited, Ensure, Similar, ListStart, TakenOut, EndsWithFeed, ReadBack, Inserted, NewLine;
    EditedIs(content);
    var lines := Lines(content);
    var longer := Inserted(lines);
    EmptyText(content);
    LinesHaveNoFeeds(content);
    AddedIsWritable(lines, longer);
    EndsWell(content);
    var text := Ensure(content);
    LinesOfJoined(longer, EndsWithFeed(content));
    JoinedBack(longer, EndsWithFeed(content));
    InsertedTakenOut(lines);
    SimilarTakenOut(longer, Lines(text));
    TakenOutIs(Lines(text));
    back := Without(Lines(text), ListStart(lines));
    InsertedIs(lines);
    TakenBack(lines, longer, Lines(text), ListStart(lines), NewLine(lines), EndsWithFeed(content));
  }

  lemma InsertedIs(lines: seq<string>)
    requires ListStart(lines) <= |lines|
    ensures Inserted(lines) == Spliced(lines, ListStart(lines), ListStart(lines), [NewLine(lines)])
  {
  }

  lemma {:induction false} EndsWell(content: string)
    requires content != ""
    ensures !EndsWithFeed(content) ==> Lines(content) != [] && Lines(content)[|Lines(content)| - 1] != ""
  {
    hide EndsWithFeed;
    if !EndsWithFeed(content) {
      LastLine(content);
    }
  }

  // ---- the results ------------------------------------------------------------------------------------

  /** In a block or flat list the reader sees after both what it saw before. */
  lemma {:induction false} RemovalRestoresReading(content: string, name: string)
    requires ShapeOf(Lines(content)).EnabledBlock? || ShapeOf(Lines(content)).Flat?
    requires Ensure(content) != content
    ensures Contains(Remove(Ensure(content)), name) <==> Contains(content, name)
  {
    hide ShapeOf, Lines, Ensure, Remove, Reads, JoinYaml, ListStart, EndsWithFeed;
    var lines := Lines(content);
    var back := ThereAndBack(content);
    LinesHaveNoFeeds(content);
    BackIsSimilar(back, lines, ListStart(lines), EndsWithFeed(content));
    SimilarListed(lines, back, name);
    JoinedReads(back, EndsWithFeed(content), name);
  }

  lemma BackIsSimilar(back: seq<string>, lines: seq<string>, at: nat, trailing: bool)
    requires ReadBack(back, lines, at, trailing) && NoFeeds(lines)
    ensures Similar(lines, back) && NoFeeds(back)
  {
    hide SameLine;
    forall i | 0 <= i < |lines| ensures SameLine(lines[i], back[i]) && '\n' !in back[i] {
      StripsToSame(lines[i]);
      Same(lines[i]);
    }
  }

  /** The text as far as the editor ends its lines: with an empty list at the end of the text, the
      last line too. */
  function Rewritten(content: string): string {
    if ListStart(Lines(content)) == |Lines(content)| then content + "\n" else content
  }

  /** In a block or flat list, removing the plugin gives back the very text that it was added to
      if and only if no line that is ended, or that the plugin was added below, ends in a
      carriage return. */
  lemma {:induction false} RemoveUndoesEnsure(content: string)
    requires ShapeOf(Lines(content)).EnabledBlock? || ShapeOf(Lines(content)).Flat?
    requires Ensure(content) != content
    ensures Remove(Ensure(content)) == content <==> !HoldsReturn(Rewritten(content))
  {
    hide ShapeOf, Lines, RawLines, Ensure, Remove, JoinYaml, ListStart, EndsWithFeed, HoldsReturn, SomeReturn, ReadBack;
    var lines, raw, trailing := Lines(content), RawLines(content), EndsWithFeed(content);
    var at := ListStart(lines);
    var back := ThereAndBack(content);
    LinesOfRaw(content);
    LinesOfNothing();
    RawJoined(content);
    BackOfRaw(back, lines, raw, at, trailing);
    SameJoined(back, raw, trailing);
    ReturnsInRaw(content);
    LastReturn(content);
  }

  predicate Loses(raw: seq<string>, at: nat, trailing: bool) {
    || SomeReturn(raw, trailing)
    || (at == |raw| && raw != [] && EndsWithReturn(raw[|raw| - 1]))
  }

  lemma BackOfRaw(back: seq<string>, lines: seq<string>, raw: seq<string>, at: nat, trailing: bool)
    requires ReadBack(back, lines, at, trailing) && |lines| == |raw|
    requires forall i | 0 <= i < |raw| :: lines[i] == if IsEnded(i, |raw|, trailing) then StripReturn(raw[i]) else raw[i]
    ensures |back| == |raw| && forall i | 0 <= i < |raw| :: back[i] <= raw[i]
    ensures back == raw <==> !Loses(raw, at, trailing)
  {
  }

  /** One more line feed shows the carriage return at the end of a text. */
  lemma {:induction false} LastReturn(content: string)
    requires content != ""
    ensures RawLines(content) != []
    ensures HoldsReturn(content + "\n") <==>
            || HoldsReturn(content)
            || EndsWithReturn(RawLines(content)[|RawLines(content)| - 1])
  {
    hide RawLines, HoldsReturn, EndsWithReturn, EndsWithFeed, JoinYaml, SomeReturn;
    var raw := RawLines(content);
    RawJoined(content);
    FeedReturns(content);
    if EndsWithFeed(content) {
      ReturnsInRaw(content);
      EndedReturns(content, raw);
    } else {
      RawLast(content);
    }
  }

  lemma FeedReturns(content: string)
    ensures HoldsReturn(content + "\n") <==> HoldsReturn(content) || EndsWithReturn(content)
  {
    var longer := content + "\n";
    if HoldsReturn(content) {
      var k :| 0 <= k < |content| - 1 && content[k] == '\r' && content[k + 1] == '\n';
      assert longer[k] == '\r' && longer[k + 1] == '\n';
    }
    if EndsWithReturn(content) {
      assert longer[|content| - 1] == '\r' && longer[|content| - 1 + 1] == '\n';
    }
  }

  lemma EndedReturns(content: string, raw: seq<string>)
    requires EndsWithFeed(content) && raw != []
    ensures !EndsWithReturn(content)
    ensures EndsWithReturn(raw[|raw| - 1]) ==> SomeReturn(raw, true)
  {
  }

  lemma {:induction false} RawLast(text: string)
    requires text != "" && !EndsWithFeed(text)
    ensures var raw := RawLines(text); raw != [] && EndsWithReturn(raw[|raw| - 1]) == EndsWithReturn(text)
    decreases |text|
  {
    hide IndexOf, EndsWithReturn, EndsWithFeed;
    var i := IndexOf(text, '\n');
    TextSplit(text, i);
    if i < |text| {
      var rest := text[i + 1..];
      RawLast(rest);
      SameEnd(text, i + 1);
      LastOfCons(text[..i], RawLines(rest));
    }
  }

  lemma SameEnd(text: string, i: nat)
    requires i < |text|
    ensures EndsWithReturn(text[i..]) == EndsWithReturn(text)
  {
  }

  lemma LastOfCons(line: string, others: seq<string>)
    requires others != []
    ensures var raw := [line] + others; raw[|raw| - 1] == others[|others| - 1]
  {
  }
}
