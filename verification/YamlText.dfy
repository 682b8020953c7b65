/** The line and scalar helpers of the Hermes configuration editor. */
module YamlText {
  import opened Wrappers

  // ---- white space --------------------------------------------------------------------

  /** The white space of Unicode. */
  predicate IsWhitespace(c: char) {
    || '\t' <= c <= '\r' || c == ' '
    || c == '\U{85}' || c == '\U{A0}' || c == '\U{1680}' || '\U{2000}' <= c <= '\U{200A}'
    || c == '\U{2028}' || c == '\U{2029}' || c == '\U{202F}' || c == '\U{205F}' || c == '\U{3000}'
  }

  function TrimStart(s: string): (t: string)
    ensures |t| <= |s|
    ensures t != "" ==> !IsWhitespace(t[0])
  {
    if s != "" && IsWhitespace(s[0]) then TrimStart(s[1..]) else s
  }

  function TrimEnd(s: string): (t: string)
    ensures |t| <= |s|
    ensures t != "" ==> !IsWhitespace(t[|t| - 1])
  {
    if s != "" && IsWhitespace(s[|s| - 1]) then TrimEnd(s[..|s| - 1]) else s
  }

  lemma {:induction false} TrimStartIsSuffix(s: string)
    ensures TrimStart(s) == s[|s| - |TrimStart(s)|..]
  {
    if s != "" && IsWhitespace(s[0]) {
      TrimStartIsSuffix(s[1..]);
    }
  }

  lemma {:induction false} TrimEndIsPrefix(s: string)
    ensures TrimEnd(s) <= s
  {
    if s != "" && IsWhitespace(s[|s| - 1]) {
      TrimEndIsPrefix(s[..|s| - 1]);
    }
  }

  function Trim(s: string): string {
    TrimEnd(TrimStart(s))
  }

  predicate OnlySpace(s: string) {
    forall k | 0 <= k < |s| :: IsWhitespace(s[k])
  }

  lemma {:induction false} BlankStart(a: string, s: string)
    requires OnlySpace(a) && (s == "" || !IsWhitespace(s[0]))
    ensures TrimStart(a + s) == s
    decreases |a|
  {
    if a == "" {
      assert a + s == s;
    } else {
      assert (a + s)[1..] == a[1..] + s;
      BlankStart(a[1..], s);
    }
  }

  lemma {:induction false} BlankEnd(s: string, b: string)
    requires OnlySpace(b) && (s == "" || !IsWhitespace(s[|s| - 1]))
    ensures TrimEnd(s + b) == s
    decreases |b|
  {
    if b == "" {
      assert s + b == s;
    } else {
      assert (s + b)[..|s + b| - 1] == s + b[..|b| - 1];
      BlankEnd(s, b[..|b| - 1]);
    }
  }

  /** How many bytes a character takes in UTF-8. */
  function Utf8Length(c: char): nat {
    if c < '\U{80}' then 1 else if c < '\U{800}' then 2 else if c < '\U{10000}' then 3 else 4
  }

  function Utf8Size(s: string): nat {
    if s == "" then 0 else Utf8Length(s[0]) + Utf8Size(s[1..])
  }

  /** Where the first true flag from `lo` on is; `hi` when there is none before it. */
  function FirstTrue(flags: seq<bool>, lo: nat, hi: nat): (i: nat)
    requires lo <= hi <= |flags|
    ensures lo <= i <= hi
    ensures i < hi ==> flags[i]
    ensures forall k | lo <= k < i :: !flags[k]
    decreases hi - lo
  {
    if lo == hi || flags[lo] then lo else FirstTrue(flags, lo + 1, hi)
  }

  // ---- lines ------------------------------------------------------------------------------

  function StripReturn(line: string): string {
    if line != "" && line[|line| - 1] == '\r' then line[..|line| - 1] else line
  }

  /** The lines of a text. Each line feed ends one, with a carriage return before it. */
  function Lines(text: string): seq<string>
    decreases |text|
  {
    if text == "" then []
    else
      var i := IndexOf(text, '\n');
      if i == |text| then [text] else [StripReturn(text[..i])] + Lines(text[i + 1..])
  }

  function Join(lines: seq<string>): string {
    if lines == [] then ""
    else if |lines| == 1 then lines[0]
    else lines[0] + "\n" + Join(lines[1..])
  }

  /** src/agent_integrations.rs `join_yaml_lines`. */
  function JoinYaml(lines: seq<string>, trailingNewline: bool): string {
    var result := Join(lines);
    if trailingNewline || result == "" then result + "\n" else result
  }

  // ---- scalars ------------------------------------------------------------------------------

  /** Where a scan for a comment is: inside which quote, and after a backslash or not. */
  datatype Quoting = Quoting(quote: Option<char>, escaped: bool)

  const UNQUOTED := Quoting(None, false)

  /** The state after `c`. */
  function After(q: Quoting, c: char): Quoting {
    if q.quote.Some? then
      if q.quote.value == '"' && c == '\\' && !q.escaped then q.(escaped := true)
      else Quoting(if c == q.quote.value && !q.escaped then None else q.quote, false)
    else if c == '"' || c == '\'' then q.(quote := Some(c))
    else q
  }

  /** Where the comment starts when the scan is at `i`; the length when there is none. */
  function CommentStart(value: string, i: nat, q: Quoting): (k: nat)
    requires i <= |value|
    ensures i <= k <= |value|
    decreases |value| - i
  {
    if i == |value| then i
    else if q.quote.None? && value[i] == '#' && (i == 0 || IsWhitespace(value[i - 1])) then i
    else CommentStart(value, i + 1, After(q, value[i]))
  }

  function StripComment(value: string): string {
    var k := CommentStart(value, 0, UNQUOTED);
    if k < |value| then TrimEnd(value[..k]) else value
  }

  function Unquoted(value: string): string {
    if |value| >= 2 && value[0] == value[|value| - 1] && (value[0] == '"' || value[0] == '\'') then value[1..|value| - 1]
    else value
  }

  function ScalarValue(value: string): string {
    Unquoted(Trim(StripComment(value)))
  }

  /** The items from `i` on, when `current` has been read of the first of them. */
  function ItemsFrom(inner: string, i: nat, current: string, q: Quoting): Option<seq<string>>
    requires i <= |inner|
    decreases |inner| - i
  {
    if i == |inner| then
      if q.quote.Some? then None else Some([ScalarValue(current)])
    else if q.quote.None? && inner[i] == ',' then
      match ItemsFrom(inner, i + 1, "", q)
      case None => None
      case Some(items) => Some([ScalarValue(current)] + items)
    else ItemsFrom(inner, i + 1, current + [inner[i]], After(q, inner[i]))
  }

  /** `[a, b]`: the items, or nothing when the value is not a flow sequence. */
  function FlowItems(value: string): Option<seq<string>> {
    var v := Trim(StripComment(value));
    if v == "" || v[0] != '[' then None
    else if |v| < 2 || v[|v| - 1] != ']' then None
    else
      var inner := Trim(v[1..|v| - 1]);
      if inner == "" then Some([]) else ItemsFrom(inner, 0, "", UNQUOTED)
  }

  // ---- keys and list items ----------------------------------------------------------------

  predicate StartsWith(s: string, c: char) {
    s != "" && s[0] == c
  }

  function Indent(line: string): Option<nat> {
    var trimmed := TrimStart(line);
    if trimmed == "" || StartsWith(trimmed, '#') then None
    else Some(Utf8Size(line[..|line| - |trimmed|]))
  }

  /** The key of a line and what follows its colon, both trimmed. */
  function SplitKey(line: string): Option<(string, string)> {
    var trimmed := TrimStart(line);
    var colon := IndexOf(trimmed, ':');
    if trimmed == "" || StartsWith(trimmed, '#') || StartsWith(trimmed, '-') || colon == |trimmed| then None
    else Some((Trim(trimmed[..colon]), Trim(trimmed[colon + 1..])))
  }

  function KeyName(line: string): Option<string> {
    match SplitKey(line)
    case None => None
    case Some((key, _)) => if key == "" then None else Some(key)
  }

  function KeyAt(line: string, indent: nat): Option<string> {
    if Indent(line) == Some(indent) then KeyName(line) else None
  }

  function KeyValueAt(line: string, indent: nat, key: string): Option<string> {
    if Indent(line) != Some(indent) then None
    else
      match SplitKey(line)
      case None => None
      case Some((k, value)) => if k == key then Some(value) else None
  }

  function ListItem(line: string): Option<string> {
    if "- " <= Trim(line) then Some(Trim(Trim(line)[2..])) else None
  }

  function ListItemAt(line: string, indent: nat): Option<string> {
    if Indent(line) == Some(indent) then ListItem(line) else None
  }

  // ---- a carriage return at the end of a line does not matter --------------------------------

  lemma {:induction false} TrimStartAppend(s: string, c: char)
    requires IsWhitespace(c)
    ensures TrimStart(s + [c]) == if TrimStart(s) == "" then "" else TrimStart(s) + [c]
  {
    if s == "" {
      assert s + [c] == [c];
      assert [c][1..] == "";
    } else if IsWhitespace(s[0]) {
      assert (s + [c])[1..] == s[1..] + [c];
      TrimStartAppend(s[1..], c);
    }
  }

  lemma TrimAppend(s: string, c: char)
    requires IsWhitespace(c)
    ensures Trim(s + [c]) == Trim(s)
  {
    TrimStartAppend(s, c);
    var t := TrimStart(s);
    assert (t + [c])[..|t|] == t;
  }

  lemma {:induction false} FindAppend(s: string, more: string, c: char)
    ensures IndexOf(s + more, c) == if IndexOf(s, c) < |s| then IndexOf(s, c) else |s| + IndexOf(more, c)
  {
    if s == "" {
      assert s + more == more;
    } else if s[0] != c {
      assert (s + more)[1..] == s[1..] + more;
      FindAppend(s[1..], more, c);
    }
  }

  lemma ReturnInIndent(line: string)
    ensures Indent(line + ['\r']) == Indent(line)
  {
    hide TrimStart, Utf8Size;
    TrimStartAppend(line, '\r');
    var k := |line| - |TrimStart(line)|;
    assert (line + ['\r'])[..k] == line[..k];
  }

  /** The part before the first colon is the same, the part after it up to white space. */
  lemma {:induction false} ReturnInSplit(trimmed: string)
    ensures var longer := trimmed + ['\r'];
            var colon := IndexOf(trimmed, ':');
            && (colon == |trimmed| ==> IndexOf(longer, ':') == |longer|)
            && (colon < |trimmed| ==>
                  IndexOf(longer, ':') == colon && longer[..colon] == trimmed[..colon]
                  && Trim(longer[colon + 1..]) == Trim(trimmed[colon + 1..]))
  {
    hide IndexOf, Trim;
    var longer := trimmed + ['\r'];
    var colon := IndexOf(trimmed, ':');
    FindAppend(trimmed, ['\r'], ':');
    NoColon();
    if colon < |trimmed| {
      assert longer[colon + 1..] == trimmed[colon + 1..] + ['\r'];
      TrimAppend(trimmed[colon + 1..], '\r');
    }
  }

  lemma NoColon()
    ensures IndexOf(['\r'], ':') == 1
  {
  }

  lemma ReturnInKey(line: string)
    ensures SplitKey(line + ['\r']) == SplitKey(line)
  {
    hide TrimStart, IndexOf, Trim;
    TrimStartAppend(line, '\r');
    ReturnInSplit(TrimStart(line));
  }

  lemma ReturnInItem(line: string)
    ensures ListItem(line + ['\r']) == ListItem(line)
  {
    TrimAppend(line, '\r');
  }

  // ---- reading back what was written ------------------------------------------------------------

  /** A text that stands for itself in a block list. */
  predicate Plain(item: string) {
    item != "" && ScalarValue(item) == item
  }

  lemma {:induction false} TrimStartId(s: string)
    requires s == "" || !IsWhitespace(s[0])
    ensures TrimStart(s) == s
  {
  }

  lemma {:induction false} TrimEndId(s: string)
    requires s == "" || !IsWhitespace(s[|s| - 1])
    ensures TrimEnd(s) == s
  {
  }

  lemma {:induction false} NoComment(s: string, i: nat)
    requires i <= |s| && forall k | i <= k < |s| :: s[k] != '#' && s[k] != '"' && s[k] != '\''
    ensures CommentStart(s, i, UNQUOTED) == |s|
    decreases |s| - i
  {
    if i < |s| {
      NoComment(s, i + 1);
    }
  }

  /** Without quotes, comment signs and outer white space a text is plain. */
  lemma {:induction false} SimpleIsPlain(item: string)
    requires item != "" && !IsWhitespace(item[0]) && !IsWhitespace(item[|item| - 1])
    requires forall k | 0 <= k < |item| :: item[k] != '#' && item[k] != '"' && item[k] != '\''
    ensures Plain(item)
  {
    NoComment(item, 0);
    TrimStartId(item);
    TrimEndId(item);
  }

  /** What a plain text says of itself: nothing is trimmed from it, no comment is cut off. */
  lemma {:induction false} PlainIsTrimmed(item: string)
    requires Plain(item)
    ensures Trim(item) == item
  {
    var k := CommentStart(item, 0, UNQUOTED);
    var stripped := StripComment(item);
    assert |stripped| <= |item|;
    assert |Trim(stripped)| <= |stripped|;
    assert |Unquoted(Trim(stripped))| <= |Trim(stripped)|;
    assert k == |item|;
  }

  function Spaces(n: nat): (s: string)
    ensures |s| == n && forall i | 0 <= i < n :: s[i] == ' '
  {
    seq(n, _ => ' ')
  }

  /** A list item as the editor writes it. */
  function ItemLine(indent: nat, item: string): string {
    Spaces(indent) + "- " + item
  }

  lemma {:induction false} SpacesTrimmed(n: nat, s: string)
    requires s != "" && !IsWhitespace(s[0])
    ensures TrimStart(Spaces(n) + s) == s
    decreases n
  {
    var line := Spaces(n) + s;
    if n > 0 {
      assert line[1..] == Spaces(n - 1) + s;
      SpacesTrimmed(n - 1, s);
    } else {
      assert line == s;
    }
  }

  lemma {:induction false} SpacesSize(s: string)
    requires forall i | 0 <= i < |s| :: s[i] == ' '
    ensures Utf8Size(s) == |s|
  {
    if s != "" {
      SpacesSize(s[1..]);
    }
  }

  /** Whatever the item is, its line is a list line at that indent and never a key. */
  lemma ItemLineIs(indent: nat, item: string)
    ensures Indent(ItemLine(indent, item)) == Some(indent)
    ensures KeyName(ItemLine(indent, item)) == None
  {
    var line := ItemLine(indent, item);
    assert line == Spaces(indent) + ("- " + item);
    SpacesTrimmed(indent, "- " + item);
    assert line[..|line| - |"- " + item|] == Spaces(indent);
    SpacesSize(Spaces(indent));
  }

  /** What is left of an item line is the item, trimmed. */
  lemma ItemText(indent: nat, item: string)
    requires item != "" && !IsWhitespace(item[|item| - 1])
    ensures Trim(ItemLine(indent, item)) == "- " + item
  {
    hide TrimStart, TrimEnd;
    var text := "- " + item;
    assert ItemLine(indent, item) == Spaces(indent) + text;
    SpacesTrimmed(indent, text);
    assert text[|text| - 1] == item[|item| - 1];
    TrimEndId(text);
  }

  /** A plain item is read back from its line. */
  lemma PlainReadBack(indent: nat, item: string)
    requires Plain(item)
    ensures ListItem(ItemLine(indent, item)) == Some(item)
  {
    hide Trim, ItemLine, ScalarValue;
    PlainIsTrimmed(item);
    LastNotWhitespace(item);
    ItemText(indent, item);
    var text := "- " + item;
    assert text[..2] == "- " && text[2..] == item;
  }

  lemma {:induction false} LastNotWhitespace(s: string)
    requires s != "" && Trim(s) == s
    ensures !IsWhitespace(s[|s| - 1])
  {
  }
}
