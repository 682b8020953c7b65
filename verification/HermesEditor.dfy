/** The Hermes editor and reader as they run: scans with quote and escape state, and lines that
    are inserted, removed and spliced, each proved to compute what the results are about. */
module HermesEditor {
  import opened Wrappers
  import opened YamlText
  import opened HermesConfig

  /** src/agent_integrations.rs `strip_yaml_inline_comment`. */
  method StripYamlInlineComment(value: string) returns (stripped: string)
    ensures stripped == StripComment(value)
  {
    var quote: Option<char> := None;
    var escaped := false;
    for index := 0 to |value|
      invariant CommentStart(value, 0, UNQUOTED) == CommentStart(value, index, Quoting(quote, escaped))
      invariant quote.None? ==> !escaped
    {
      var ch := value[index];
      if quote.Some? {
        if quote.value == '"' && ch == '\\' && !escaped {
          escaped := true;
          continue;
        }
        if ch == quote.value && !escaped {
          quote := None;
        }
        escaped := false;
        continue;
      }
      if ch == '"' || ch == '\'' {
        quote := Some(ch);
      } else if ch == '#' && (index == 0 || IsWhitespace(value[index - 1])) {
        return TrimEnd(value[..index]);
      }
    }
    stripped := value;
  }

  /** The items of `inner`, from its first character to its last. */
  method SplitFlowItems(inner: string) returns (items: Option<seq<string>>)
    ensures items == ItemsFrom(inner, 0, "", UNQUOTED)
  {
    hide ScalarValue;
    var found: seq<string> := [];
    var current := "";
    var quote: Option<char> := None;
    var escaped := false;
    Prepended([], ItemsFrom(inner, 0, "", UNQUOTED));
    for i := 0 to |inner|
      invariant ItemsFrom(inner, 0, "", UNQUOTED) == Prefixed(found, ItemsFrom(inner, i, current, Quoting(quote, escaped)))
      invariant quote.None? ==> !escaped
    {
      var ch := inner[i];
      if quote.Some? {
        current := current + [ch];
        if quote.value == '"' && ch == '\\' && !escaped {
          escaped := true;
          continue;
        }
        if ch == quote.value && !escaped {
          quote := None;
        }
        escaped := false;
        continue;
      }
      if ch == '"' || ch == '\'' {
        quote := Some(ch);
        current := current + [ch];
      } else if ch == ',' {
        FoundAppended(found, ScalarValue(current), ItemsFrom(inner, i + 1, "", UNQUOTED));
        found := found + [ScalarValue(current)];
        current := "";
      } else {
        current := current + [ch];
      }
    }
    if quote.Some? {
      return None;
    }
    items := Some(found + [ScalarValue(current)]);
  }

  /** The items found so far and those still to come. */
  function Prefixed(found: seq<string>, rest: Option<seq<string>>): Option<seq<string>> {
    match rest
    case None => None
    case Some(items) => Some(found + items)
  }

  lemma Prepended(none: seq<string>, rest: Option<seq<string>>)
    requires none == []
    ensures Prefixed(none, rest) == rest
  {
    assert rest.Some? ==> none + rest.value == rest.value;
  }

  lemma FoundAppended(found: seq<string>, item: string, rest: Option<seq<string>>)
    ensures Prefixed(found, Prefixed([item], rest)) == Prefixed(found + [item], rest)
  {
    assert rest.Some? ==> found + ([item] + rest.value) == found + [item] + rest.value;
  }

  /** src/agent_integrations.rs `yaml_flow_sequence_items`. */
  method YamlFlowSequenceItems(value: string) returns (items: Option<seq<string>>)
    ensures items == FlowItems(value)
  {
    hide ItemsFrom, StripComment, Trim;
    var stripped := StripYamlInlineComment(value);
    var v := Trim(stripped);
    if v == "" || v[0] != '[' || |v| < 2 || v[|v| - 1] != ']' {
      return None;
    }
    var inner := Trim(v[1..|v| - 1]);
    if inner == "" {
      return Some([]);
    }
    items := SplitFlowItems(inner);
  }

  /** src/agent_integrations.rs `hermes_enabled_plugins_contain`. */
  method HermesEnabledPluginsContain(content: string, name: string) returns (contains: bool)
    ensures contains == Contains(content, name)
  {
    hide Is, Lines, First, EnabledItems, InlineItems;
    var lines := Lines(content);
    var pluginsIndex := First(lines, 0, |lines|, PluginsKey);
    if pluginsIndex == |lines| {
      return false;
    }
    var pluginsEnd := First(lines, pluginsIndex + 1, |lines|, TopKey);
    var enabledIndex := First(lines, pluginsIndex + 1, pluginsEnd, EnabledKey);
    if enabledIndex < pluginsEnd {
      var flow := EnabledItems(lines[enabledIndex]);
      if flow.Some? {
        return name in flow.value;
      }
      var listStart := enabledIndex + 1;
      var listEnd := First(lines, listStart, pluginsEnd, ListEnd);
      return First(lines, listStart, listEnd, Item(name)) < listEnd;
    }
    var inlineItems := InlineItems(lines[pluginsIndex]);
    if inlineItems.Some? {
      return name in inlineItems.value;
    }
    var flatListStart := First(lines, pluginsIndex + 1, pluginsEnd, FlatItem);
    if flatListStart < pluginsEnd {
      var listEnd := First(lines, flatListStart, pluginsEnd, FlatBreak);
      return First(lines, flatListStart, listEnd, FlatMatch(name)) < listEnd;
    }
    contains := false;
  }

  /** The plugin put first among the items, or its first occurrence taken out. */
  method Toggle(items: seq<string>, enabled: bool) returns (more: Option<seq<string>>)
    ensures more == Toggled(items, enabled)
  {
    hide Plugin;
    var existing := IndexOf(items, Plugin());
    if enabled == (existing < |items|) {
      return None;
    }
    var changed := items;
    if enabled {
      changed := [Plugin()] + changed;
    } else {
      changed := changed[..existing] + changed[existing + 1..];
    }
    more := Some(changed);
  }

  /** The list below `enabled:`, or its flow sequence. */
  method EditEnabled(lines: seq<string>, key: nat, pluginsEnd: nat, enabled: bool) returns (edited: Option<seq<string>>)
    requires 0 < key < pluginsEnd <= |lines|
    ensures edited == Edited(lines, match EnabledItems(lines[key])
                                    case Some(items) => EnabledFlow(key, items)
                                    case None => EnabledBlock(key + 1, First(lines, key + 1, pluginsEnd, ListEnd)), enabled)
  {
    hide Is, First, EnabledItems, EnabledLines, Toggled, Plugin, ItemLine;
    var flow := EnabledItems(lines[key]);
    if flow.Some? {
      var items := Toggle(flow.value, enabled);
      if items.None? {
        return None;
      }
      return Some(lines[..key] + EnabledLines(items.value) + lines[key + 1..]);
    }
    var listStart := key + 1;
    var listEnd := First(lines, listStart, pluginsEnd, ListEnd);
    var existing := First(lines, listStart, listEnd, Item(Plugin()));
    if enabled == (existing < listEnd) {
      return None;
    }
    var changed := EditLines(lines, listStart, existing, ItemLine(4, Plugin()), enabled);
    edited := Some(changed);
  }

  /** The section of the plugins, in whichever shape it is. */
  method EditSection(lines: seq<string>, pluginsIndex: nat, pluginsEnd: nat, enabled: bool) returns (edited: Option<seq<string>>)
    requires pluginsIndex < pluginsEnd <= |lines|
    ensures edited == Edited(lines, Within(lines, pluginsIndex, pluginsEnd), enabled)
  {
    hide Is, First, EnabledItems, InlineItems, EnabledLines, FlatLines, Toggled, Plugin, ItemLine, EnabledHead;
    var inlineItems := InlineItems(lines[pluginsIndex]);
    var enabledIndex := First(lines, pluginsIndex + 1, pluginsEnd, EnabledKey);
    var flatListStart := First(lines, pluginsIndex + 1, pluginsEnd, FlatItem);
    if enabledIndex < pluginsEnd {
      edited := EditEnabled(lines, enabledIndex, pluginsEnd, enabled);
      return;
    }
    if inlineItems.Some? {
      var items := Toggle(inlineItems.value, enabled);
      if items.None? {
        return None;
      }
      return Some(lines[..pluginsIndex] + FlatLines(items.value) + lines[pluginsEnd..]);
    }
    if flatListStart < pluginsEnd {
      var existing := First(lines, pluginsIndex + 1, pluginsEnd, FlatMatch(Plugin()));
      if enabled == (existing < pluginsEnd) {
        return None;
      }
      var changed := EditLines(lines, flatListStart, existing, ItemLine(2, Plugin()), enabled);
      return Some(changed);
    }
    if enabled {
      var changed := lines[..pluginsIndex + 1] + [EnabledHead()] + lines[pluginsIndex + 1..];
      changed := changed[..pluginsIndex + 2] + [ItemLine(4, Plugin())] + changed[pluginsIndex + 2..];
      assert changed == Spliced(lines, pluginsIndex + 1, pluginsIndex + 1, [EnabledHead(), ItemLine(4, Plugin())]);
      return Some(changed);
    }
    edited := None;
  }

  /** src/agent_integrations.rs `update_hermes_enabled_plugin`. */
  method UpdateHermesEnabledPlugin(content: string, enabled: bool) returns (updated: string)
    ensures updated == Update(content, enabled)
  {
    hide Is, Lines, First, Appended, JoinYaml, Within, Edited;
    var trailingNewline := EndsWithFeed(content);
    var lines := Lines(content);
    var pluginsIndex := First(lines, 0, |lines|, PluginsKey);
    if pluginsIndex == |lines| {
      return if enabled then Appended(content) else content;
    }
    var pluginsEnd := First(lines, pluginsIndex + 1, |lines|, TopKey);
    WithinNeverMissing(lines, pluginsIndex, pluginsEnd);
    var edited := EditSection(lines, pluginsIndex, pluginsEnd, enabled);
    if edited.None? {
      return content;
    }
    lines := edited.value;
    updated := JoinYaml(lines, trailingNewline);
  }

  /** One line put in at `at`, or the one at `existing` taken out. */
  method EditLines(lines: seq<string>, at: nat, existing: nat, line: string, enabled: bool) returns (edited: seq<string>)
    requires at <= |lines| && (!enabled ==> existing < |lines|)
    ensures edited == if enabled then Spliced(lines, at, at, [line]) else Spliced(lines, existing, existing + 1, [])
  {
    edited := lines;
    if enabled {
      edited := edited[..at] + [line] + edited[at..];
    } else {
      edited := edited[..existing] + edited[existing + 1..];
    }
  }
}
