/** One entry of a list as it stands in the text, and the line that holds it. */
module HermesEntries {
  import opened Wrappers
  import opened YamlText
  import opened HermesConfig
  import opened HermesLines
  import opened HermesAgreement
  import opened HermesScalars

  /** One entry of a list, the way it stands in the text. */
  datatype Entry = Entry(before: string, text: string, after: string, comment: string, value: string)

  predicate OneLine(s: string) {
    '\n' !in s && '\r' !in s
  }

  ghost predicate Good(e: Entry) {
    && OnlySpace(e.before) && Written(e.text, e.value) && Follows(e.after, e.comment)
    && OneLine(e.before) && OneLine(e.text) && OneLine(e.after) && OneLine(e.comment)
  }

  function Shown(e: Entry): string {
    e.before + e.text + e.after + e.comment
  }

  function EntryLine(indent: nat, e: Entry): string {
    Spaces(indent) + "- " + Shown(e)
  }

  /** The plugin as the editor writes it. */
  const NEW: Entry := Entry("", Plugin(), "", "", Plugin())

  lemma NewIsGood()
    ensures Good(NEW) && forall indent :: EntryLine(indent, NEW) == ItemLine(indent, Plugin())
  {
    hide Plugin, Simple, OneLine;
    assert Shown(NEW) == Plugin();
    PluginIsSimple();
    assert OneLine("") by {
      NothingIsOneLine();
    }
  }

  lemma NothingIsOneLine()
    ensures OneLine("")
  {
  }

  lemma PluginIsSimple()
    ensures Simple(Plugin()) && OneLine(Plugin())
  {
  }

  // ---- a line of a list ----------------------------------------------------------------------------

  lemma {:induction false} EndStays(s: string, c: string)
    requires c != "" && !IsWhitespace(c[0])
    ensures TrimEnd(s + c) == s + TrimEnd(c) && TrimEnd(c) != "" && TrimEnd(c)[0] == c[0]
    decreases |c|
  {
    if IsWhitespace(c[|c| - 1]) {
      assert (s + c)[..|s + c| - 1] == s + c[..|c| - 1];
      EndStays(s, c[..|c| - 1]);
    }
  }

  lemma {:induction false} BlankGoes(s: string, b: string)
    requires OnlySpace(b) && s != "" && !IsWhitespace(s[|s| - 1])
    ensures TrimEnd(s + b + "") == s
  {
    hide TrimEnd, IsWhitespace, OnlySpace;
    BlankEnd(s, b);
    assert s + b + "" == s + b;
  }

  lemma {:induction false} CommentStays(s: string, b: string, comment: string)
    requires Follows(b, comment) && comment != ""
    ensures TrimEnd(s + b + comment) == s + (b + TrimEnd(comment))
    ensures Follows(b, TrimEnd(comment)) && TrimEnd(comment) != ""
  {
    hide TrimEnd, IsWhitespace, OnlySpace;
    DashIsNone();
    EndStays(s + b, comment);
    var c := TrimEnd(comment);
    assert s + b + c == s + (b + c);
  }

  lemma EntryText(indent: nat, e: Entry) returns (rest: string)
    requires Good(e)
    ensures Trim(EntryLine(indent, e)) == "- " + e.before + e.text + rest
    ensures rest == if e.comment == "" then "" else e.after + TrimEnd(e.comment)
    ensures e.comment != "" ==> Follows(e.after, TrimEnd(e.comment)) && TrimEnd(e.comment) != ""
  {
    hide TrimStart, TrimEnd, Written, OnlySpace, Follows, Unquoted, IsWhitespace, OneLine;
    WrittenTrimmed(e.text, e.value);
    var s := "- " + e.before + e.text;
    assert s[|s| - 1] == e.text[|e.text| - 1];
    assert EntryLine(indent, e) == Spaces(indent) + (s + e.after + e.comment);
    DashIsNone();
    SpacesTrimmed(indent, s + e.after + e.comment);
    if e.comment == "" {
      FollowedByBlank(e);
      BlankGoes(s, e.after);
    } else {
      CommentStays(s, e.after, e.comment);
    }
    rest := if e.comment == "" then "" else e.after + TrimEnd(e.comment);
  }

  lemma FollowedByBlank(e: Entry)
    requires Good(e)
    ensures OnlySpace(e.after)
  {
  }

  lemma DashIsNone()
    ensures !IsWhitespace('-') && !IsWhitespace('#')
  {
  }

  lemma EntryReads(e: Entry, rest: string)
    requires Good(e) && rest == if e.comment == "" then "" else e.after + TrimEnd(e.comment)
    requires e.comment != "" ==> Follows(e.after, TrimEnd(e.comment)) && TrimEnd(e.comment) != ""
    ensures ScalarValue(Trim(e.before + e.text + rest)) == e.value
  {
    hide TrimStart, TrimEnd, ScalarValue, Written, OnlySpace, Unquoted, IsWhitespace, OneLine;
    WrittenTrimmed(e.text, e.value);
    if e.comment == "" {
      EmptyIsBlank();
      TrimsTo(e.before, e.text, "");
      assert e.before + e.text + "" == e.before + e.text + rest;
      WrittenReads("", e.text, "", "", e.value);
      assert "" + e.text + "" + "" == e.text;
    } else {
      var c := TrimEnd(e.comment);
      var s := e.text + rest;
      EndsTrimmed(e.comment);
      assert s[0] == e.text[0] && s[|s| - 1] == c[|c| - 1];
      EmptyIsBlank();
      TrimsTo(e.before, s, "");
      assert e.before + s + "" == e.before + e.text + rest;
      WrittenReads("", e.text, e.after, c, e.value);
      assert "" + e.text + e.after + c == s;
    }
  }

  lemma {:induction false} EndsTrimmed(s: string)
    ensures TrimEnd(s) != "" ==> !IsWhitespace(TrimEnd(s)[|TrimEnd(s)| - 1])
  {
  }

  lemma EmptyIsBlank()
    ensures OnlySpace("")
  {
  }

  /** The line of an entry lists that entry and nothing else. */
  lemma EntryLineIs(indent: nat, e: Entry, name: string)
    requires Good(e)
    ensures var line := EntryLine(indent, e);
            && (Is(Item(name), line) <==> name == e.value)
            && (indent == 2 ==> (Is(FlatMatch(name), line) <==> name == e.value) && Is(FlatItem, line) && !Is(FlatBreak, line))
            && !Is(PluginsKey, line) && !Is(TopKey, line) && !Is(EnabledKey, line) && !Is(ListEnd, line)
            && OneLine(line) && line != ""
  {
    hide Trim, TrimEnd, ScalarValue, Written, OnlySpace, Follows, Unquoted, IsWhitespace, EntryLine, OneLine;
    var line := EntryLine(indent, e);
    var rest := EntryText(indent, e);
    var text := "- " + e.before + e.text + rest;
    assert text[..2] == "- " && text[2..] == e.before + e.text + rest;
    EntryReads(e, rest);
    EntryIndent(indent, e);
  }

  lemma EntryIndent(indent: nat, e: Entry)
    requires Good(e)
    ensures Indent(EntryLine(indent, e)) == Some(indent) && KeyName(EntryLine(indent, e)) == None
    ensures OneLine(EntryLine(indent, e)) && EntryLine(indent, e) != ""
  {
    hide TrimEnd, Written, Follows, OnlySpace;
    var text := "- " + Shown(e);
    var line := EntryLine(indent, e);
    assert line == Spaces(indent) + text;
    SpacesTrimmed(indent, text);
    assert line[..|line| - |text|] == Spaces(indent);
    SpacesSize(Spaces(indent));
  }
}
