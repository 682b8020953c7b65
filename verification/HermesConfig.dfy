/** The `plugins.enabled` list of a Hermes configuration: the shapes it can have, the reader,
    and the editor that adds or removes one plugin. */
module HermesConfig {
  import opened Wrappers
  import opened YamlText

  /** The plugin that is added and removed, and the two keys above a list. */
  function Plugin(): string {
    "term-server-agent-events"
  }

  function PluginsHead(): string {
    "plugins:"
  }

  function EnabledHead(): string {
    "  enabled:"
  }

  /** What the code looks for in a line. */
  datatype Kind =
    | PluginsKey
    | TopKey
    | EnabledKey
    | ListEnd
    | FlatItem
    | FlatBreak
    | Item(name: string)
    | FlatMatch(name: string)

  predicate Is(kind: Kind, line: string) {
    match kind
    case PluginsKey => KeyAt(line, 0) == Some("plugins")
    case TopKey => Indent(line) == Some(0) && KeyName(line).Some?
    case EnabledKey => KeyAt(line, 2) == Some("enabled")
    case ListEnd => Indent(line).Some? && Indent(line).value <= 2 && KeyName(line).Some?
    case FlatItem => ListItemAt(line, 2).Some?
    case FlatBreak => Indent(line).Some? && Indent(line).value != 2
    case Item(name) => ListItem(line).Some? && ScalarValue(ListItem(line).value) == name
    case FlatMatch(name) => ListItemAt(line, 2).Some? && ScalarValue(ListItemAt(line, 2).value) == name
  }

  function Flags(lines: seq<string>, kind: Kind): (flags: seq<bool>)
    ensures |flags| == |lines|
    ensures forall i | 0 <= i < |lines| :: flags[i] == Is(kind, lines[i])
  {
    seq(|lines|, i requires 0 <= i < |lines| => Is(kind, lines[i]))
  }

  /** The first such line from `lo` on; `hi` when there is none before it. */
  function First(lines: seq<string>, lo: nat, hi: nat, kind: Kind): (i: nat)
    requires lo <= hi <= |lines|
    ensures lo <= i <= hi
    ensures i < hi ==> Is(kind, lines[i])
    ensures forall k | lo <= k < i :: !Is(kind, lines[k])
  {
    var flags := Flags(lines, kind);
    var i := FirstTrue(flags, lo, hi);
    assert forall k | lo <= k < i :: !flags[k];
    i
  }

  function EnabledItems(line: string): Option<seq<string>> {
    match KeyValueAt(line, 2, "enabled")
    case None => None
    case Some(value) => FlowItems(value)
  }

  function InlineItems(line: string): Option<seq<string>> {
    match KeyValueAt(line, 0, "plugins")
    case None => None
    case Some(value) => FlowItems(value)
  }

  /** How the plugins are listed, and where. */
  datatype Shape =
    | Missing
    | EnabledFlow(key: nat, items: seq<string>)           // enabled: [a, b]
    | EnabledBlock(start: nat, end: nat)                  // enabled: and a list below it
    | Inline(plugins: nat, end: nat, items: seq<string>)  // plugins: [a, b]
    | Flat(plugins: nat, start: nat, end: nat)            // a list right below plugins:
    | Bare(plugins: nat)                                  // plugins: and none of these

  predicate Located(shape: Shape, n: nat) {
    match shape
    case Missing => true
    case EnabledFlow(key, _) => 0 < key < n
    case EnabledBlock(start, end) => 1 < start <= end <= n
    case Inline(plugins, end, _) => plugins < end <= n
    case Flat(plugins, start, end) => plugins < start < end <= n
    case Bare(plugins) => plugins < n
  }

  /** In the section that `plugins:` opens, up to the next top-level key. */
  function Within(lines: seq<string>, plugins: nat, end: nat): (shape: Shape)
    requires plugins < end <= |lines|
    ensures Located(shape, |lines|)
  {
    var key := First(lines, plugins + 1, end, EnabledKey);
    var item := First(lines, plugins + 1, end, FlatItem);
    if key < end then
      match EnabledItems(lines[key])
      case Some(items) => EnabledFlow(key, items)
      case None => EnabledBlock(key + 1, First(lines, key + 1, end, ListEnd))
    else
      match InlineItems(lines[plugins])
      case Some(items) => Inline(plugins, end, items)
      case None => if item < end then Flat(plugins, item, end) else Bare(plugins)
  }

  lemma WithinNeverMissing(lines: seq<string>, p: nat, end: nat)
    requires p < end <= |lines|
    ensures Within(lines, p, end) != Missing
  {
  }

  function ShapeOf(lines: seq<string>): (shape: Shape)
    ensures Located(shape, |lines|)
  {
    var p := First(lines, 0, |lines|, PluginsKey);
    if p == |lines| then Missing else Within(lines, p, First(lines, p + 1, |lines|, TopKey))
  }

  // ---- the reader ---------------------------------------------------------------------------

  predicate Listed(lines: seq<string>, shape: Shape, name: string)
    requires Located(shape, |lines|)
  {
    match shape
    case Missing => false
    case EnabledFlow(_, items) => name in items
    case EnabledBlock(start, end) => First(lines, start, end, Item(name)) < end
    case Inline(_, _, items) => name in items
    case Flat(_, start, end) =>
      var stop := First(lines, start, end, FlatBreak);
      First(lines, start, stop, FlatMatch(name)) < stop
    case Bare(_) => false
  }

  predicate Reads(lines: seq<string>, name: string) {
    Listed(lines, ShapeOf(lines), name)
  }

  /** Does the configuration enable the plugin called `name`? */
  predicate Contains(content: string, name: string) {
    Reads(Lines(content), name)
  }

  // ---- the editor ---------------------------------------------------------------------------

  /** The items with the plugin put first or taken out; nothing when they are right already. */
  function Toggled(items: seq<string>, enabled: bool): Option<seq<string>> {
    var i := IndexOf(items, Plugin());
    if enabled == (i < |items|) then None
    else if enabled then Some([Plugin()] + items)
    else Some(items[..i] + items[i + 1..])
  }

  function ItemLines(indent: nat, items: seq<string>): (lines: seq<string>)
    ensures |lines| == |items|
    ensures forall i | 0 <= i < |items| :: lines[i] == ItemLine(indent, items[i])
  {
    seq(|items|, i requires 0 <= i < |items| => ItemLine(indent, items[i]))
  }

  function EnabledLines(items: seq<string>): seq<string> {
    if items == [] then ["  enabled: []"] else [EnabledHead()] + ItemLines(4, items)
  }

  function FlatLines(items: seq<string>): seq<string> {
    if items == [] then ["plugins: []"] else [PluginsHead()] + ItemLines(2, items)
  }

  function Spliced(lines: seq<string>, a: nat, b: nat, inserted: seq<string>): seq<string>
    requires a <= b <= |lines|
  {
    lines[..a] + inserted + lines[b..]
  }

  /** A list of lines with the plugin put in at `at`, or its first line taken out. */
  function EditedList(lines: seq<string>, at: nat, lo: nat, hi: nat, kind: Kind, line: string, enabled: bool): Option<seq<string>>
    requires at <= |lines| && lo <= hi <= |lines|
  {
    var i := First(lines, lo, hi, kind);
    if enabled == (i < hi) then None
    else if enabled then Some(Spliced(lines, at, at, [line]))
    else Some(Spliced(lines, i, i + 1, []))
  }

  /** The new lines; nothing when the text stays as it is. */
  function Edited(lines: seq<string>, shape: Shape, enabled: bool): Option<seq<string>>
    requires Located(shape, |lines|)
  {
    match shape
    case Missing => None
    case EnabledFlow(key, items) =>
      (match Toggled(items, enabled)
       case None => None
       case Some(more) => Some(Spliced(lines, key, key + 1, EnabledLines(more))))
    case EnabledBlock(start, end) =>
      EditedList(lines, start, start, end, Item(Plugin()), ItemLine(4, Plugin()), enabled)
    case Inline(plugins, end, items) =>
      (match Toggled(items, enabled)
       case None => None
       case Some(more) => Some(Spliced(lines, plugins, end, FlatLines(more))))
    case Flat(plugins, start, end) =>
      EditedList(lines, start, plugins + 1, end, FlatMatch(Plugin()), ItemLine(2, Plugin()), enabled)
    case Bare(plugins) =>
      if enabled then Some(Spliced(lines, plugins + 1, plugins + 1, [EnabledHead(), ItemLine(4, Plugin())]))
      else None
  }

  predicate EndsWithFeed(text: string) {
    text != "" && text[|text| - 1] == '\n'
  }

  function WithoutFeeds(text: string): string {
    if EndsWithFeed(text) then WithoutFeeds(text[..|text| - 1]) else text
  }

  const TAIL: seq<string> := [PluginsHead(), EnabledHead(), ItemLine(4, Plugin())]

  /** A text without plugins gets them at its end. */
  function Appended(content: string): string {
    var text := WithoutFeeds(content);
    (if text == "" then "" else text + "\n") + JoinYaml(TAIL, true)
  }

  /** src/agent_integrations.rs `update_hermes_enabled_plugin`. */
  function Update(content: string, enabled: bool): string {
    var shape := ShapeOf(Lines(content));
    if shape == Missing then
      if enabled then Appended(content) else content
    else
      match Edited(Lines(content), shape, enabled)
      case None => content
      case Some(lines) => JoinYaml(lines, EndsWithFeed(content))
  }

  function Ensure(content: string): string {
    Update(content, true)
  }

  function Remove(content: string): string {
    Update(content, false)
  }
}
