/** The parts of a terminal screen that detection rules look at, and which rule wins. Positions
    are counted in characters. */
module ScreenRegions {
  import opened Wrappers
  import opened YamlText

  // ---- lines and where they start ---------------------------------------------------------

  /** The text cut after each line feed. */
  function Segments(text: string): seq<string>
    decreases |text|
  {
    if text == "" then []
    else
      var i := IndexOf(text, '\n');
      if i == |text| then [text] else [text[..i + 1]] + Segments(text[i + 1..])
  }

  function Concat(segments: seq<string>): string {
    if segments == [] then "" else segments[0] + Concat(segments[1..])
  }

  /** A line of `lines()`, from its segment. */
  function LineOf(segment: string): string {
    if segment != "" && segment[|segment| - 1] == '\n' then StripReturn(segment[..|segment| - 1]) else segment
  }

  function LinesOf(segments: seq<string>): (lines: seq<string>)
    ensures |lines| == |segments|
    ensures forall i | 0 <= i < |segments| :: lines[i] == LineOf(segments[i])
  {
    seq(|segments|, i requires 0 <= i < |segments| => LineOf(segments[i]))
  }

  lemma {:induction false} SegmentsJoin(text: string)
    ensures Concat(Segments(text)) == text
    decreases |text|
  {
    if text != "" {
      var i := IndexOf(text, '\n');
      if i < |text| {
        SegmentsJoin(text[i + 1..]);
        assert text == text[..i + 1] + text[i + 1..];
        assert Segments(text)[1..] == Segments(text[i + 1..]);
      } else {
        assert Concat([text]) == text + Concat([]);
      }
    }
  }

  lemma LineOfFirst(text: string, i: nat)
    requires i < |text| && text[i] == '\n'
    ensures LineOf(text[..i + 1]) == StripReturn(text[..i])
  {
    hide StripReturn;
    assert text[..i + 1][..i] == text[..i];
  }

  lemma LineOfLast(text: string)
    requires '\n' !in text
    ensures LineOf(text) == text
  {
    hide StripReturn;
  }

  lemma LinesOfCons(first: string, others: seq<string>)
    ensures LinesOf([first] + others) == [LineOf(first)] + LinesOf(others)
  {
    hide LineOf;
  }

  /** Segments and lines correspond, index by index. */
  lemma {:induction false} LinesAreOfSegments(text: string)
    ensures Lines(text) == LinesOf(Segments(text))
    decreases |text|
  {
    hide StripReturn, LineOf, LinesOf, IndexOf;
    if text != "" {
      var i := IndexOf(text, '\n');
      if i < |text| {
        LinesAreOfSegments(text[i + 1..]);
        LineOfFirst(text, i);
        LinesOfCons(text[..i + 1], Segments(text[i + 1..]));
      } else {
        assert text[..i] == text;
        LineOfLast(text);
        assert LinesOf([text]) == [LineOf(text)];
      }
    }
  }

  /** Where segment `i` begins. */
  function StartOf(segments: seq<string>, i: nat): nat
    requires i <= |segments|
  {
    |Concat(segments[..i])|
  }

  lemma {:induction false} ConcatSplit(a: seq<string>, b: seq<string>)
    ensures Concat(a + b) == Concat(a) + Concat(b)
    decreases |a|
  {
    if a == [] {
      assert a + b == b;
    } else {
      assert (a + b)[1..] == a[1..] + b;
      ConcatSplit(a[1..], b);
    }
  }

  /** `line_starts` as a function: each position that a segment begins at. */
  function Starts(text: string): (starts: seq<nat>)
    ensures |starts| == |Segments(text)|
  {
    var segments := Segments(text);
    seq(|segments|, i requires 0 <= i < |segments| => StartOf(segments, i))
  }

  /** The positions after the line feeds among the first `n` characters. */
  function AfterFeeds(text: string, n: nat): seq<nat>
    requires n <= |text|
  {
    if n == 0 then []
    else AfterFeeds(text, n - 1) + if text[n - 1] == '\n' then [n] else []
  }

  function Shifted(starts: seq<nat>, distance: nat): (shifted: seq<nat>)
    ensures |shifted| == |starts| && forall i | 0 <= i < |starts| :: shifted[i] == starts[i] + distance
  {
    seq(|starts|, i requires 0 <= i < |starts| => starts[i] + distance)
  }

  lemma {:induction false} FeedsOfRest(text: string, k: nat, n: nat)
    requires k <= |text| && n <= |text| - k && '\n' !in text[..k]
    ensures AfterFeeds(text, k + n) == Shifted(AfterFeeds(text[k..], n), k)
    decreases k + n
  {
    if n > 0 {
      FeedsOfRest(text, k, n - 1);
      assert text[k..][n - 1] == text[k + n - 1];
    } else if k > 0 {
      assert text[..k][k - 1] == text[k - 1];
      assert text[..k - 1] == text[..k][..k - 1];
      FeedsOfRest(text, k - 1, 0);
    }
  }

  lemma {:induction false} FeedsFrom(text: string, k: nat, n: nat)
    requires k <= |text| && n <= |text| - k
    ensures AfterFeeds(text, k + n) == AfterFeeds(text, k) + Shifted(AfterFeeds(text[k..], n), k)
    decreases n
  {
    if n > 0 {
      FeedsFrom(text, k, n - 1);
      assert text[k..][n - 1] == text[k + n - 1];
    }
  }

  /** A text with a line feed is its first segment and the rest. */
  lemma {:induction false} SegmentsCons(text: string, i: nat)
    requires text != "" && i == IndexOf(text, '\n') && i < |text|
    ensures Segments(text) == [text[..i + 1]] + Segments(text[i + 1..])
    ensures text == text[..i + 1] + text[i + 1..] && text[i] == '\n' && '\n' !in text[..i]
  {
    hide IndexOf;
  }

  lemma ConcatOne(segment: string)
    ensures Concat([segment]) == segment && Concat([]) == ""
  {
    assert segment + Concat([]) == segment;
  }

  lemma StartsAfter(first: string, rest: seq<string>, j: nat)
    requires j <= |rest|
    ensures StartOf([first] + rest, j + 1) == |first| + StartOf(rest, j)
    ensures StartOf([first] + rest, 0) == 0
  {
    hide Concat;
    assert ([first] + rest)[..j + 1] == [first] + rest[..j];
    assert ([first] + rest)[..0] == [];
    ConcatSplit([first], rest[..j]);
    ConcatOne(first);
  }

  lemma {:induction false} OneSegment(text: string)
    requires text != "" && IndexOf(text, '\n') == |text|
    ensures Segments(text) == [text] && '\n' !in text
  {
    assert text[..|text|] == text;
  }

  /** The starts of a text are those of its rest, after the first line. */
  lemma {:induction false} StartsCons(text: string, i: nat)
    requires text != "" && i == IndexOf(text, '\n') && i < |text|
    ensures Starts(text) == [0] + Shifted(Starts(text[i + 1..]), i + 1)
  {
    hide Segments, IndexOf, StartOf;
    SegmentsCons(text, i);
    var first, rest := text[..i + 1], Segments(text[i + 1..]);
    forall j | 0 <= j < |rest| ensures StartOf([first] + rest, j + 1) == i + 1 + StartOf(rest, j) {
      StartsAfter(first, rest, j);
    }
    StartsAfter(first, rest, 0);
  }

  function Trimmed(found: seq<nat>, length: nat): seq<nat>
    requires found != []
  {
    if found[|found| - 1] == length then found[..|found| - 1] else found
  }

  /** The positions found in a text, from those of its rest. */
  lemma FeedsCons(text: string, i: nat)
    requires text != "" && i == IndexOf(text, '\n') && i < |text|
    ensures AfterFeeds(text, |text|) == [i + 1] + Shifted(AfterFeeds(text[i + 1..], |text| - i - 1), i + 1)
  {
    hide Segments, IndexOf;
    SegmentsCons(text, i);
    FeedsOfRest(text, i, 0);
    assert AfterFeeds(text, i + 1) == [i + 1];
    FeedsFrom(text, i + 1, |text| - i - 1);
  }

  /** The positions that the scan collects, once the one after a last line feed is dropped. */
  lemma {:induction false} FeedsAreStarts(text: string)
    requires text != ""
    ensures Starts(text) == Trimmed([0] + AfterFeeds(text, |text|), |text|)
    decreases |text|
  {
    hide Segments, IndexOf, Starts, AfterFeeds;
    var i := IndexOf(text, '\n');
    if i == |text| {
      OneStart(text);
    } else {
      var rest := text[i + 1..];
      FeedsCons(text, i);
      StartsCons(text, i);
      var found := [0] + AfterFeeds(rest, |rest|);
      assert [0] + AfterFeeds(text, |text|) == [0] + Shifted(found, i + 1);
      if rest == "" {
        NoStarts();
      } else {
        FeedsAreStarts(rest);
        assert Shifted(found, i + 1)[|found| - 1] == found[|found| - 1] + i + 1;
        assert Trimmed([0] + Shifted(found, i + 1), |text|) == [0] + Shifted(Trimmed(found, |rest|), i + 1);
      }
    }
  }

  lemma {:induction false} OneStart(text: string)
    requires text != "" && IndexOf(text, '\n') == |text|
    ensures Starts(text) == Trimmed([0] + AfterFeeds(text, |text|), |text|)
  {
    hide Segments, IndexOf, AfterFeeds, StartOf;
    OneSegment(text);
    assert text[..|text|] == text;
    FeedsOfRest(text, |text|, 0);
    NoStarts();
    StartsAfter(text, [], 0);
    assert [text] + [] == [text];
    assert AfterFeeds(text, |text|) == Shifted(AfterFeeds(text[|text|..], 0), |text|);
    assert AfterFeeds(text[|text|..], 0) == [] by {
      assert text[|text|..] == "";
    }
    assert Starts(text) == [0];
  }

  lemma NoStarts()
    ensures Starts("") == [] && AfterFeeds("", 0) == []
  {
  }

  /** src/agent_detection.rs `line_starts`. */
  method LineStarts(content: string) returns (starts: seq<nat>)
    ensures starts == Starts(content) && |starts| == |Lines(content)|
  {
    LinesAreOfSegments(content);
    if content == "" {
      return [];
    }
    starts := [0];
    for index := 0 to |content|
      invariant starts == [0] + AfterFeeds(content, index)
    {
      if content[index] == '\n' {
        starts := starts + [index + 1];
      }
    }
    FeedsAreStarts(content);
    if starts[|starts| - 1] == |content| {
      starts := starts[..|starts| - 1];
    }
  }

  function SliceFrom(content: string, index: nat): string {
    var starts := Starts(content);
    if index < |starts| && starts[index] <= |content| then content[starts[index]..] else ""
  }

  function SliceTo(content: string, index: nat): string {
    var starts := Starts(content);
    if index < |starts| && starts[index] <= |content| then content[..starts[index]] else content
  }

  /** Slicing at a line start is cutting the list of segments. */
  lemma {:induction false} SlicesAreSegments(content: string, index: nat)
    requires index <= |Segments(content)|
    ensures SliceTo(content, index) == Concat(Segments(content)[..index])
    ensures SliceFrom(content, index) == Concat(Segments(content)[index..])
  {
    var segments := Segments(content);
    SegmentsJoin(content);
    ConcatSplit(segments[..index], segments[index..]);
    assert segments == segments[..index] + segments[index..];
    if index == |segments| {
      assert segments[..index] == segments && segments[index..] == [];
    }
  }

  lemma {:induction false} SegmentsOfSuffix(text: string, index: nat)
    requires index <= |Segments(text)|
    ensures Segments(Concat(Segments(text)[index..])) == Segments(text)[index..]
    decreases |text|
  {
    hide Segments, IndexOf;
    var segments := Segments(text);
    SegmentsJoin(text);
    NoSegments();
    if index == 0 {
      assert segments[0..] == segments;
    } else if index == |segments| {
      assert segments[index..] == [];
    } else {
      MoreSegments(text);
      var i := IndexOf(text, '\n');
      SegmentsCons(text, i);
      assert segments[index..] == Segments(text[i + 1..])[index - 1..];
      SegmentsOfSuffix(text[i + 1..], index - 1);
    }
  }

  lemma NoSegments()
    ensures Segments("") == []
  {
  }

  lemma {:induction false} MoreSegments(text: string)
    requires |Segments(text)| > 1
    ensures text != "" && IndexOf(text, '\n') < |text|
  {
    hide IndexOf;
  }

  // ---- the prompt box ----------------------------------------------------------------------

  const RULE := '\U{2500}'

  /** How many rule characters a text begins with. */
  function RuleChars(text: string): (n: nat)
    ensures n <= |text|
  {
    if text != "" && text[0] == RULE then 1 + RuleChars(text[1..]) else 0
  }

  /** src/agent_detection.rs `is_horizontal_rule`. */
  predicate IsHorizontalRule(line: string) {
    var trimmed := Trim(line);
    var n := RuleChars(trimmed);
    n > 0 && (TrimStart(trimmed[n..]) == "" || n >= 3)
  }

  function Rules(n: nat): (s: string)
    ensures |s| == n && forall i | 0 <= i < n :: s[i] == RULE
  {
    seq(n, _ => RULE)
  }

  lemma {:induction false} TrimEndAfter(s: string, rest: string)
    requires s == "" || !IsWhitespace(s[|s| - 1])
    ensures TrimEnd(s + rest) == s + TrimEnd(rest)
    decreases |rest|
  {
    hide IsWhitespace;
    if rest == "" {
      assert s + rest == s;
    } else if IsWhitespace(rest[|rest| - 1]) {
      assert (s + rest)[..|s + rest| - 1] == s + rest[..|rest| - 1];
      TrimEndAfter(s, rest[..|rest| - 1]);
    }
  }

  lemma {:induction false} TrimEndOf(rest: string)
    ensures TrimEnd(rest) == "" <==> OnlySpace(rest)
    ensures TrimEnd(rest) <= rest
  {
    hide IsWhitespace, OnlySpace;
    TrimEndIsPrefix(rest);
    if rest == "" {
      NothingIsSpace();
    } else if IsWhitespace(rest[|rest| - 1]) {
      TrimEndOf(rest[..|rest| - 1]);
      BlankMore(rest);
    } else {
      NotBlank(rest);
    }
  }

  lemma NothingIsSpace()
    ensures OnlySpace("")
  {
  }

  lemma BlankMore(s: string)
    requires s != "" && IsWhitespace(s[|s| - 1])
    ensures OnlySpace(s) <==> OnlySpace(s[..|s| - 1])
  {
    var short := s[..|s| - 1];
    assert forall k | 0 <= k < |short| :: short[k] == s[k];
    if OnlySpace(short) {
      forall k | 0 <= k < |s| ensures IsWhitespace(s[k]) {
        if k < |short| {
          assert IsWhitespace(short[k]);
        }
      }
    }
  }

  lemma NotBlank(s: string)
    requires s != "" && !IsWhitespace(s[|s| - 1])
    ensures !OnlySpace(s)
  {
  }

  lemma {:induction false} RulesCounted(n: nat, rest: string)
    requires rest == "" || rest[0] != RULE
    ensures RuleChars(Rules(n) + rest) == n && (Rules(n) + rest)[n..] == rest
  {
    if n > 0 {
      assert (Rules(n) + rest)[1..] == Rules(n - 1) + rest;
      RulesCounted(n - 1, rest);
    } else {
      assert Rules(0) + rest == rest;
    }
  }

  lemma {:induction false} TrimStartOfTrimmed(s: string)
    requires s == "" || !IsWhitespace(s[|s| - 1])
    ensures TrimStart(s) == "" <==> s == ""
  {
    TrimStartIsSuffix(s);
    if s != "" && TrimStart(s) == "" {
      TrimsAway(s);
      assert false;
    }
  }

  lemma {:induction false} TrimsAway(s: string)
    requires TrimStart(s) == ""
    ensures OnlySpace(s)
  {
    if s != "" {
      TrimsAway(s[1..]);
      assert forall k | 1 <= k < |s| :: s[k] == s[1..][k - 1];
    }
  }

  lemma RuleIsNoSpace()
    ensures !IsWhitespace(RULE)
  {
  }

  /** A line is a rule if and only if, after white space, it has one rule character or more and then only white
      space, or three or more and then anything. */
  lemma RuleExactly(a: string, n: nat, rest: string)
    requires OnlySpace(a) && (rest == "" || rest[0] != RULE)
    requires n == 0 && rest != "" ==> !IsWhitespace(rest[0])
    ensures IsHorizontalRule(a + Rules(n) + rest) <==> n > 0 && (n >= 3 || OnlySpace(rest))
  {
    hide TrimStart, TrimEnd, IsWhitespace, OnlySpace, RuleChars, Rules;
    var line, text := a + Rules(n) + rest, Rules(n) + rest;
    var trimmed := TrimEnd(rest);
    RuleIsNoSpace();
    assert line == a + text;
    assert n > 0 ==> text[0] == RULE;
    assert n == 0 ==> text == rest;
    assert text == "" || !IsWhitespace(text[0]);
    BlankStart(a, text);
    TrimEndAfter(Rules(n), rest);
    TrimEndOf(rest);
    assert Trim(line) == Rules(n) + trimmed;
    assert trimmed == "" || trimmed[0] == rest[0];
    RulesCounted(n, trimmed);
    TrimStartOfTrimmed(trimmed);
  }

  function CountRules(lines: seq<string>): nat {
    if lines == [] then 0 else (if IsHorizontalRule(lines[0]) then 1 else 0) + CountRules(lines[1..])
  }

  lemma {:induction false} CountSplit(a: seq<string>, b: seq<string>)
    ensures CountRules(a + b) == CountRules(a) + CountRules(b)
    decreases |a|
  {
    if a == [] {
      assert a + b == b;
    } else {
      assert (a + b)[1..] == a[1..] + b;
      CountSplit(a[1..], b);
    }
  }

  /** src/agent_detection.rs `prompt_box_top_border_index`: the second rule from the end. */
  method PromptBoxTopBorderIndex(lines: seq<string>) returns (top: Option<nat>)
    ensures top.None? <==> CountRules(lines) < 2
    ensures top.Some? ==> top.value < |lines| && IsHorizontalRule(lines[top.value]) && CountRules(lines[top.value + 1..]) == 1
  {
    hide IsHorizontalRule;
    var borders := 0;
    for index := |lines| downto 0
      invariant borders == CountRules(lines[index..]) < 2
    {
      assert lines[index..] == [lines[index]] + lines[index + 1..];
      if IsHorizontalRule(lines[index]) {
        borders := borders + 1;
        if borders == 2 {
          CountSplit(lines[..index], lines[index..]);
          assert lines == lines[..index] + lines[index..];
          return Some(index);
        }
      }
    }
    assert lines[0..] == lines;
    top := None;
  }

  function RuleFlags(lines: seq<string>): (flags: seq<bool>)
    ensures |flags| == |lines| && forall i | 0 <= i < |lines| :: flags[i] == IsHorizontalRule(lines[i])
  {
    seq(|lines|, i requires 0 <= i < |lines| => IsHorizontalRule(lines[i]))
  }

  /** The first rule line, or how many lines there are. */
  function FirstRule(lines: seq<string>): (i: nat)
    ensures i <= |lines|
    ensures i < |lines| ==> IsHorizontalRule(lines[i])
    ensures forall k | 0 <= k < i :: !IsHorizontalRule(lines[k])
  {
    var flags := RuleFlags(lines);
    var i := FirstTrue(flags, 0, |lines|);
    assert forall k | 0 <= k < i :: !flags[k];
    i
  }

  /** The four parts of a screen with a prompt box whose top border is line `top`. */
  function Above(content: string, top: nat): string {
    SliceTo(content, top)
  }

  function BoxEnd(content: string, top: nat): (end: nat)
    requires top < |Lines(content)|
    ensures top < end <= |Lines(content)|
  {
    top + 1 + FirstRule(Lines(content)[top + 1..])
  }

  function Body(content: string, top: nat): string
    requires top < |Lines(content)|
  {
    var starts := Starts(content);
    var start := if top + 1 < |starts| then starts[top + 1] else |content|;
    var end := if BoxEnd(content, top) < |starts| then starts[BoxEnd(content, top)] else |content|;
    if start <= end <= |content| then content[start..end] else ""
  }

  lemma {:induction false} StartsAreOrdered(content: string, i: nat, j: nat)
    requires i <= j <= |Segments(content)|
    ensures StartOf(Segments(content), i) <= StartOf(Segments(content), j) <= |content|
    ensures content[StartOf(Segments(content), i)..StartOf(Segments(content), j)] == Concat(Segments(content)[i..j])
  {
    var segments := Segments(content);
    SegmentsJoin(content);
    ConcatSplit(segments[..i], segments[i..j]);
    ConcatSplit(segments[..j], segments[j..]);
    assert segments[..j] == segments[..i] + segments[i..j];
    assert segments == segments[..j] + segments[j..];
  }

  lemma {:induction false} StartAtEnd(content: string)
    ensures StartOf(Segments(content), |Segments(content)|) == |content|
  {
    SegmentsJoin(content);
    assert Segments(content)[..|Segments(content)|] == Segments(content);
  }

  lemma {:induction false} BodyIsSegments(content: string, top: nat)
    requires top < |Lines(content)|
    ensures |Lines(content)| == |Segments(content)|
    ensures Body(content, top) == Concat(Segments(content)[top + 1..BoxEnd(content, top)])
  {
    hide FirstRule, IsHorizontalRule, Segments, Lines;
    LinesAreOfSegments(content);
    StartAtEnd(content);
    StartsAreOrdered(content, top + 1, BoxEnd(content, top));
    var starts := Starts(content);
    assert forall i | 0 <= i < |starts| :: starts[i] == StartOf(Segments(content), i);
  }

  lemma {:induction false} FourParts(segments: seq<string>, top: nat, end: nat)
    requires top < end <= |segments|
    ensures Concat(segments) ==
            Concat(segments[..top]) + segments[top] + Concat(segments[top + 1..end]) + Concat(segments[end..])
  {
    var a, b, c, d := segments[..top], [segments[top]], segments[top + 1..end], segments[end..];
    hide Concat;
    assert segments == a + b + c + d;
    ConcatSplit(a, b);
    ConcatSplit(a + b, c);
    ConcatSplit(a + b + c, d);
    ConcatOne(segments[top]);
  }

  /** What is above the box, its top border, its body and the rest make up the screen. */
  lemma {:induction false} PromptBoxPartition(content: string, top: nat)
    requires top < |Lines(content)|
    ensures |Lines(content)| == |Segments(content)|
    ensures content == Above(content, top) + Segments(content)[top] + Body(content, top) + SliceFrom(content, BoxEnd(content, top))
  {
    hide IsHorizontalRule, Segments, Lines, FirstRule, Body, SliceFrom, SliceTo, Concat;
    var end := BoxEnd(content, top);
    LinesAreOfSegments(content);
    BodyIsSegments(content, top);
    SlicesAreSegments(content, top);
    SlicesAreSegments(content, end);
    SegmentsJoin(content);
    FourParts(Segments(content), top, end);
  }

  /** No line of the body is a rule, and below it comes one, or the end of the screen. With the
      top border as the code finds it, it is a rule. */
  lemma {:induction false} BodyHasNoRule(content: string, top: nat)
    requires top < |Lines(content)|
    ensures forall k | top < k < BoxEnd(content, top) :: !IsHorizontalRule(Lines(content)[k])
    ensures BoxEnd(content, top) < |Lines(content)| ==> IsHorizontalRule(Lines(content)[BoxEnd(content, top)])
    ensures CountRules(Lines(content)[top + 1..]) >= 1 ==> BoxEnd(content, top) < |Lines(content)|
  {
    hide IsHorizontalRule, Lines, CountRules;
    var below := Lines(content)[top + 1..];
    var end := BoxEnd(content, top);
    assert forall k | 0 <= k < |below| :: below[k] == Lines(content)[top + 1 + k];
    assert forall k | top < k < end :: Lines(content)[k] == below[k - top - 1];
    if end == |Lines(content)| {
      NoRules(below);
    }
  }

  lemma {:induction false} NoRules(lines: seq<string>)
    requires forall k | 0 <= k < |lines| :: !IsHorizontalRule(lines[k])
    ensures CountRules(lines) == 0
    decreases |lines|
  {
    hide IsHorizontalRule;
    if lines != [] {
      NoRules(lines[1..]);
    }
  }

  // ---- the last lines that are not blank -------------------------------------------------------

  predicate Blank(line: string) {
    Trim(line) == ""
  }

  /** A line counts as blank if and only if all of it is white space. */
  lemma BlankMeans(line: string)
    ensures Blank(line) <==> forall k | 0 <= k < |line| :: IsWhitespace(line[k])
  {
    hide TrimStart, TrimEnd, IsWhitespace;
    if OnlySpace(line) {
      BlankStart(line, "");
      assert line + "" == line;
      TrimEndOf("");
    } else if Blank(line) {
      var t := TrimStart(line);
      TrimEndOf(t);
      TrimsAway(line);
    }
  }

  function CountFull(lines: seq<string>): nat {
    if lines == [] then 0 else (if Blank(lines[0]) then 0 else 1) + CountFull(lines[1..])
  }

  /** The earliest of the last `count` lines before `end` that are not blank. */
  function BottomStart(lines: seq<string>, end: nat, count: nat, found: Option<nat>): Option<nat>
    requires end <= |lines|
  {
    if count == 0 || end == 0 then found
    else if Blank(lines[end - 1]) then BottomStart(lines, end - 1, count, found)
    else BottomStart(lines, end - 1, count - 1, Some(end - 1))
  }

  /** src/agent_detection.rs `bottom_non_empty_lines`. */
  function BottomNonEmptyLines(content: string, count: nat): string {
    match BottomStart(Lines(content), |Lines(content)|, count, None)
    case None => ""
    case Some(start) => SliceFrom(content, start)
  }

  function Least(a: nat, b: nat): nat {
    if a < b then a else b
  }

  lemma {:induction false} FullSplit(a: seq<string>, b: seq<string>)
    ensures CountFull(a + b) == CountFull(a) + CountFull(b)
    decreases |a|
  {
    if a == [] {
      assert a + b == b;
    } else {
      assert (a + b)[1..] == a[1..] + b;
      FullSplit(a[1..], b);
    }
  }

  /** Moving the border by one line. */
  lemma MoveBorder(lines: seq<string>, end: nat)
    requires 0 < end <= |lines|
    ensures var full := if Blank(lines[end - 1]) then 0 else 1;
            && CountFull(lines[end - 1..]) == full + CountFull(lines[end..])
            && CountFull(lines[..end]) == CountFull(lines[..end - 1]) + full
  {
    hide Blank;
    var line := lines[end - 1];
    assert lines[end - 1..] == [line] + lines[end..];
    assert lines[..end] == lines[..end - 1] + [line];
    FullSplit([line], lines[end..]);
    FullSplit(lines[..end - 1], [line]);
    assert CountFull([line]) == (if Blank(line) then 0 else 1) + CountFull([]);
  }

  lemma {:induction false} BottomCounts(lines: seq<string>, end: nat, count: nat, found: Option<nat>)
    requires end <= |lines| && (found.Some? ==> end <= found.value < |lines| && !Blank(lines[found.value]))
    requires CountFull(lines[end..]) == if found.Some? then CountFull(lines[found.value..]) else 0
    ensures var start := BottomStart(lines, end, count, found);
            && (start.Some? ==> start.value < |lines| && !Blank(lines[start.value]))
            && (start.None? ==> found.None? && Least(count, CountFull(lines[..end])) == 0)
            && (start.Some? ==>
                  CountFull(lines[start.value..]) == CountFull(lines[end..]) + Least(count, CountFull(lines[..end])))
    decreases end
  {
    hide Blank, CountFull;
    if count != 0 && end != 0 {
      MoveBorder(lines, end);
      if Blank(lines[end - 1]) {
        BottomCounts(lines, end - 1, count, found);
      } else {
        BottomCounts(lines, end - 1, count - 1, Some(end - 1));
      }
    } else if end == 0 {
      assert lines[..0] == [];
      NoneFull();
    }
  }

  lemma NoneFull()
    ensures CountFull([]) == 0
  {
  }

  /** A suffix that starts later has fewer lines that are not blank; one that starts earlier is
      no shorter. */
  lemma LaterHasFewer(lines: seq<string>, start: nat, j: nat)
    requires start < j <= |lines| && !Blank(lines[start])
    ensures CountFull(lines[j..]) < CountFull(lines[start..])
  {
    hide Blank, CountFull;
    MoveBorder(lines, start + 1);
    assert lines[start + 1..] == lines[start + 1..j] + lines[j..];
    FullSplit(lines[start + 1..j], lines[j..]);
  }

  lemma EarlierIsLonger(segments: seq<string>, start: nat, j: nat)
    requires j <= start <= |segments|
    ensures |Concat(segments[j..])| >= |Concat(segments[start..])|
  {
    hide Concat;
    assert segments[j..] == segments[j..start] + segments[start..];
    ConcatSplit(segments[j..start], segments[start..]);
  }

  /** The text from the first line on that the function picks has as many lines that are not
      blank as asked for, or as there are, and is the shortest that starts at a line and does. */
  lemma {:induction false} BottomIsShortest(content: string, count: nat, j: nat)
    requires j <= |Segments(content)|
    ensures var k := Least(count, CountFull(Lines(content)));
            && CountFull(Lines(BottomNonEmptyLines(content, count))) == k
            && (CountFull(Lines(Concat(Segments(content)[j..]))) >= k ==>
                  |Concat(Segments(content)[j..])| >= |BottomNonEmptyLines(content, count)|)
    ensures exists i | 0 <= i <= |Segments(content)| :: BottomNonEmptyLines(content, count) == Concat(Segments(content)[i..])
  {
    hide Blank, Segments, Lines, CountFull, Concat, SliceFrom, SliceTo, BottomStart;
    var lines, segments := Lines(content), Segments(content);
    LinesAreOfSegments(content);
    assert lines[|lines|..] == [] && lines[..|lines|] == lines;
    NoneFull();
    BottomCounts(lines, |lines|, count, None);
    SuffixLines(content, j);
    match BottomStart(lines, |lines|, count, None)
    case None =>
      SuffixLines(content, |segments|);
      assert segments[|segments|..] == [];
      ConcatOne("");
    case Some(start) =>
      SlicesAreSegments(content, start);
      SuffixLines(content, start);
      if j > start {
        LaterHasFewer(lines, start, j);
      } else {
        EarlierIsLonger(segments, start, j);
      }
  }

  lemma {:induction false} SuffixLines(content: string, j: nat)
    requires j <= |Segments(content)|
    ensures |Lines(content)| == |Segments(content)|
    ensures Lines(Concat(Segments(content)[j..])) == Lines(content)[j..]
  {
    hide Segments, Lines, LineOf;
    LinesAreOfSegments(content);
    SegmentsOfSuffix(content, j);
    LinesAreOfSegments(Concat(Segments(content)[j..]));
  }

  // ---- which rule wins ------------------------------------------------------------------------------

  /** A rule, as far as the choice goes: its priority, and whether its gate matched. */
  datatype Rule = Rule(priority: int, matches: bool)

  /** src/agent_detection.rs `evaluate`: the first of the matches with the greatest priority. */
  method Evaluate(rules: seq<Rule>) returns (winner: Option<nat>)
    ensures winner.None? <==> forall i | 0 <= i < |rules| :: !rules[i].matches
    ensures winner.Some? ==>
              && winner.value < |rules| && rules[winner.value].matches
              && (forall i | 0 <= i < |rules| && rules[i].matches :: rules[i].priority <= rules[winner.value].priority)
              && (forall i | 0 <= i < winner.value && rules[i].matches :: rules[i].priority < rules[winner.value].priority)
  {
    winner := None;
    for index := 0 to |rules|
      invariant winner.None? ==> forall i | 0 <= i < index :: !rules[i].matches
      invariant winner.Some? ==>
                  && winner.value < index && rules[winner.value].matches
                  && (forall i | 0 <= i < index && rules[i].matches :: rules[i].priority <= rules[winner.value].priority)
                  && (forall i | 0 <= i < winner.value && rules[i].matches :: rules[i].priority < rules[winner.value].priority)
    {
      if !rules[index].matches {
        continue;
      }
      if winner.Some? && rules[winner.value].priority >= rules[index].priority {
        continue;
      }
      winner := Some(index);
    }
  }
}
