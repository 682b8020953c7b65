/** Flow sequences: whatever the entries are and however each is written, they are read as themselves. */
module HermesFlows {
  import opened Wrappers
  import opened YamlText
  import opened HermesScalars
  import opened HermesEntries

  /** An entry of a flow sequence: no comment can follow it, and a comma must be in quotes. */
  ghost predicate FlowGood(e: Entry) {
    Good(e) && e.comment == "" && (e.text == e.value ==> ',' !in e.value)
  }

  function Cell(e: Entry): string {
    e.before + e.text + e.after
  }

  /** The entries with commas between them. */
  function Cells(entries: seq<Entry>): string {
    if entries == [] then "" else if |entries| == 1 then Cell(entries[0]) else Cell(entries[0]) + "," + Cells(entries[1..])
  }

  function Values(entries: seq<Entry>): (values: seq<string>)
    ensures |values| == |entries|
    ensures forall i | 0 <= i < |entries| :: values[i] == entries[i].value
  {
    seq(|entries|, i requires 0 <= i < |entries| => entries[i].value)
  }

  ghost predicate AllFlowGood(entries: seq<Entry>) {
    forall i | 0 <= i < |entries| :: FlowGood(entries[i])
  }

  // ---- the scan for the items -------------------------------------------------------------------------

  lemma {:induction false} ScanPlain(s: string, i: nat, j: nat, current: string)
    requires i <= j <= |s|
    requires forall k | i <= k < j :: s[k] != ',' && s[k] != '"' && s[k] != '\''
    ensures ItemsFrom(s, i, current, UNQUOTED) == ItemsFrom(s, j, current + s[i..j], UNQUOTED)
    decreases j - i
  {
    if i < j {
      ScanPlain(s, i + 1, j, current + [s[i]]);
      assert current + [s[i]] + s[i + 1..j] == current + s[i..j];
    } else {
      assert current + s[i..j] == current;
    }
  }

  lemma {:induction false} ScanInside(s: string, i: nat, j: nat, current: string, quote: char)
    requires i <= j <= |s|
    requires forall k | i <= k < j :: s[k] != quote && (quote == '"' ==> s[k] != '\\')
    ensures ItemsFrom(s, i, current, Quoting(Some(quote), false)) == ItemsFrom(s, j, current + s[i..j], Quoting(Some(quote), false))
    decreases j - i
  {
    if i < j {
      ScanInside(s, i + 1, j, current + [s[i]], quote);
      assert current + [s[i]] + s[i + 1..j] == current + s[i..j];
    } else {
      assert current + s[i..j] == current;
    }
  }

  lemma ScanOpens(s: string, i: nat, current: string, quote: char)
    requires i < |s| && s[i] == quote && (quote == '"' || quote == '\'')
    ensures ItemsFrom(s, i, current, UNQUOTED) == ItemsFrom(s, i + 1, current + [quote], Quoting(Some(quote), false))
    ensures ItemsFrom(s, i, current, Quoting(Some(quote), false)) == ItemsFrom(s, i + 1, current + [quote], UNQUOTED)
  {
  }

  lemma QuotedParts(s: string, i: nat, text: string, value: string, quote: char)
    requires i + |text| <= |s| && s[i..i + |text|] == text && InQuotes(text, value, quote)
    ensures var j := i + |text| - 1; i < j && s[i] == quote && s[j] == quote && s[i + 1..j] == value
    ensures forall k | i + 1 <= k < i + |text| - 1 :: s[k] in value
  {
    var j := i + |text| - 1;
    assert forall k | i <= k <= j :: s[k] == text[k - i];
    assert forall k | 1 <= k < |text| - 1 :: text[k] == value[k - 1];
    assert forall k | i + 1 <= k < j :: s[k] == value[k - i - 1];
  }

  lemma ScanQuotes(s: string, i: nat, current: string, text: string, value: string, quote: char)
    requires i + |text| <= |s| && s[i..i + |text|] == text
    requires InQuotes(text, value, quote) && (quote == '"' || quote == '\'')
    ensures ItemsFrom(s, i, current, UNQUOTED) == ItemsFrom(s, i + |text|, current + text, UNQUOTED)
  {
    hide ItemsFrom;
    var j := i + |text| - 1;
    QuotedParts(s, i, text, value, quote);
    ScanOpens(s, i, current, quote);
    ScanInside(s, i + 1, j, current + [quote], quote);
    ScanOpens(s, j, current + [quote] + value, quote);
    assert current + [quote] + value + [quote] == current + text;
  }

  lemma ScanWritten(s: string, i: nat, current: string, text: string, value: string)
    requires i + |text| <= |s| && s[i..i + |text|] == text
    requires Written(text, value) && (text == value ==> ',' !in value)
    ensures ItemsFrom(s, i, current, UNQUOTED) == ItemsFrom(s, i + |text|, current + text, UNQUOTED)
  {
    hide ItemsFrom, InQuotes;
    if InQuotes(text, value, '"') {
      ScanQuotes(s, i, current, text, value, '"');
    } else if InQuotes(text, value, '\'') {
      ScanQuotes(s, i, current, text, value, '\'');
    } else {
      assert forall k | i <= k < i + |text| :: s[k] == text[k - i] && text[k - i] in value;
      ScanPlain(s, i, i + |text|, current);
    }
  }

  lemma BlankHasNoComma(b: string)
    requires OnlySpace(b)
    ensures forall k | 0 <= k < |b| :: b[k] != ',' && b[k] != '"' && b[k] != '\''
  {
  }

  lemma ScanBlank(s: string, i: nat, current: string, b: string)
    requires i + |b| <= |s| && s[i..i + |b|] == b && OnlySpace(b)
    ensures ItemsFrom(s, i, current, UNQUOTED) == ItemsFrom(s, i + |b|, current + b, UNQUOTED)
  {
    hide ItemsFrom, OnlySpace;
    BlankHasNoComma(b);
    assert forall k | i <= k < i + |b| :: s[k] == b[k - i];
    ScanPlain(s, i, i + |b|, current);
  }

  lemma PartsOf(s: string, i: nat, e: Entry)
    requires i + |Cell(e)| <= |s| && s[i..i + |Cell(e)|] == Cell(e)
    ensures s[i..i + |e.before|] == e.before
    ensures var j := i + |e.before|; s[j..j + |e.text|] == e.text && s[j + |e.text|..j + |e.text| + |e.after|] == e.after
  {
    var j := i + |e.before|;
    var c := Cell(e);
    assert c[..|e.before|] == e.before && c[|e.before|..|e.before| + |e.text|] == e.text && c[|e.before| + |e.text|..] == e.after;
    assert s[i..j] == s[i..i + |c|][..|e.before|];
    assert s[j..j + |e.text|] == s[i..i + |c|][|e.before|..|e.before| + |e.text|];
    assert s[j + |e.text|..j + |e.text| + |e.after|] == s[i..i + |c|][|e.before| + |e.text|..];
  }

  lemma EntryParts(e: Entry)
    requires FlowGood(e)
    ensures OnlySpace(e.before) && Written(e.text, e.value) && OnlySpace(e.after) && Follows(e.after, "")
  {
  }

  lemma {:induction false} ScanCell(s: string, i: nat, e: Entry)
    requires FlowGood(e) && i + |Cell(e)| <= |s| && s[i..i + |Cell(e)|] == Cell(e)
    ensures ItemsFrom(s, i, "", UNQUOTED) == ItemsFrom(s, i + |Cell(e)|, Cell(e), UNQUOTED)
    ensures ScalarValue(Cell(e)) == e.value
  {
    hide ItemsFrom, ScalarValue, Written, OnlySpace, Good;
    EntryParts(e);
    PartsOf(s, i, e);
    var j := i + |e.before|;
    ScanBlank(s, i, "", e.before);
    ScanWritten(s, j, "" + e.before, e.text, e.value);
    ScanBlank(s, j + |e.text|, "" + e.before + e.text, e.after);
    assert "" + e.before + e.text + e.after == Cell(e);
    WrittenReads(e.before, e.text, e.after, "", e.value);
    assert e.before + e.text + e.after + "" == Cell(e);
  }

  lemma {:induction false} ItemsAre(s: string, i: nat, entries: seq<Entry>)
    requires AllFlowGood(entries) && entries != []
    requires i <= |s| && s[i..] == Cells(entries)
    ensures ItemsFrom(s, i, "", UNQUOTED) == Some(Values(entries))
    decreases |entries|
  {
    hide ScalarValue, Cell, FlowGood;
    var e := entries[0];
    var j := i + |Cell(e)|;
    assert Cells(entries)[..|Cell(e)|] == Cell(e);
    assert s[i..j] == s[i..][..|Cell(e)|];
    ScanCell(s, i, e);
    if |entries| == 1 {
      assert s[i..] == Cell(e);
      assert Values(entries) == [e.value];
    } else {
      assert Cells(entries)[|Cell(e)|] == ',' && Cells(entries)[|Cell(e)| + 1..] == Cells(entries[1..]);
      assert s[j] == s[i..][|Cell(e)|];
      assert s[j + 1..] == s[i..][|Cell(e)| + 1..];
      ItemsAre(s, j + 1, entries[1..]);
      assert Values(entries) == [e.value] + Values(entries[1..]);
    }
  }

  // ---- the sequence -------------------------------------------------------------------------------------

  lemma SkipCell(s: string, i: nat, e: Entry)
    requires FlowGood(e) && i + |Cell(e)| <= |s| && s[i..i + |Cell(e)|] == Cell(e)
    ensures CommentStart(s, i, UNQUOTED) == CommentStart(s, i + |Cell(e)|, UNQUOTED)
  {
    hide CommentStart, Written, OnlySpace, Good;
    EntryParts(e);
    PartsOf(s, i, e);
    SkipBlank(s, i, e.before);
    SkipWritten(s, i + |e.before|, e.text, e.value);
    SkipBlank(s, i + |e.before| + |e.text|, e.after);
  }

  lemma {:induction false} SkipCells(s: string, i: nat, entries: seq<Entry>)
    requires AllFlowGood(entries) && i + |Cells(entries)| <= |s| && s[i..i + |Cells(entries)|] == Cells(entries)
    ensures CommentStart(s, i, UNQUOTED) == CommentStart(s, i + |Cells(entries)|, UNQUOTED)
    decreases |entries|
  {
    hide CommentStart, Cell, FlowGood;
    if entries != [] {
      var e, cells := entries[0], Cells(entries);
      var j := i + |Cell(e)|;
      assert cells[..|Cell(e)|] == Cell(e);
      assert s[i..j] == s[i..i + |cells|][..|Cell(e)|];
      SkipCell(s, i, e);
      if |entries| > 1 {
        var others := Cells(entries[1..]);
        assert cells[|Cell(e)|] == ',' && cells[|Cell(e)| + 1..] == others;
        assert s[j] == s[i..i + |cells|][|Cell(e)|];
        SkipPlain(s, j, j + 1);
        assert s[j + 1..j + 1 + |others|] == s[i..i + |cells|][|Cell(e)| + 1..];
        SkipCells(s, j + 1, entries[1..]);
      }
    }
  }

  /** White space next to the brackets is not part of the first and last entry. */
  ghost predicate FlowList(entries: seq<Entry>) {
    && AllFlowGood(entries)
    && (entries != [] ==> entries[0].before == "" && entries[|entries| - 1].after == "")
  }

  function Flow(a: string, entries: seq<Entry>, b: string): string {
    "[" + a + Cells(entries) + b + "]"
  }

  lemma TextTrimmed(entries: seq<Entry>, i: nat)
    requires AllFlowGood(entries) && i < |entries|
    ensures Trimmed(entries[i].text) && entries[i].text != ""
  {
    hide Trimmed, OnlySpace, Good, Written;
    EntryParts(entries[i]);
    WrittenTrimmed(entries[i].text, entries[i].value);
    TrimmedIsThere(entries[i].text);
  }

  lemma {:induction false} CellsStart(entries: seq<Entry>)
    requires AllFlowGood(entries) && entries != []
    ensures Cells(entries) != ""
    ensures entries[0].before == "" ==> Cells(entries)[0] == entries[0].text[0]
  {
    hide FlowGood, Trimmed;
    TextTrimmed(entries, 0);
  }

  lemma {:induction false} CellsEnd(entries: seq<Entry>)
    requires AllFlowGood(entries) && entries != [] && entries[|entries| - 1].after == ""
    ensures Cells(entries) != "" && entries[|entries| - 1].text != ""
    ensures Cells(entries)[|Cells(entries)| - 1] == entries[|entries| - 1].text[|entries[|entries| - 1].text| - 1]
    decreases |entries|
  {
    hide FlowGood, Trimmed;
    TextTrimmed(entries, |entries| - 1);
    if |entries| > 1 {
      CellsEnd(entries[1..]);
    }
  }

  lemma TrimmedIsThere(s: string)
    requires Trimmed(s)
    ensures s != ""
  {
  }

  lemma {:induction false} CellsTrimmed(entries: seq<Entry>)
    requires FlowList(entries) && entries != []
    ensures Trimmed(Cells(entries))
  {
    hide Cells, FlowGood;
    CellsStart(entries);
    CellsEnd(entries);
    TextTrimmed(entries, 0);
    TextTrimmed(entries, |entries| - 1);
  }

  lemma {:induction false} InnerOf(a: string, entries: seq<Entry>, b: string)
    requires OnlySpace(a) && FlowList(entries) && OnlySpace(b)
    ensures Trim(a + Cells(entries) + b) == Cells(entries)
  {
    hide TrimStart, TrimEnd, OnlySpace, Cells, Trimmed, FlowList;
    if entries == [] {
      NoCells();
      BlankTrims(a, b);
      assert a + "" + b == a + b;
    } else {
      CellsTrimmed(entries);
      TrimsTo(a, Cells(entries), b);
    }
  }

  lemma NoCells()
    ensures Cells([]) == ""
  {
  }

  lemma BlankTrims(a: string, b: string)
    requires OnlySpace(a) && OnlySpace(b)
    ensures Trim(a + b) == ""
  {
    assert OnlySpace(a + b);
    BlankStart(a + b, "");
    assert a + b + "" == a + b;
    TrimEndId("");
  }

  lemma FlowStripped(a: string, entries: seq<Entry>, b: string, c: string, comment: string)
    requires OnlySpace(a) && AllFlowGood(entries) && OnlySpace(b) && Follows(c, comment)
    ensures Trim(StripComment(Flow(a, entries, b) + c + comment)) == Flow(a, entries, b)
  {
    hide TrimStart, TrimEnd, Trim, CommentStart, Cells, AllFlowGood, OnlySpace, IsWhitespace;
    var flow := Flow(a, entries, b);
    var s := flow + c + comment;
    var i := 1 + |a|;
    var j := i + |Cells(entries)|;
    assert s[0] == '[' && s[1..i] == a && s[i..j] == Cells(entries) && s[j..j + |b|] == b && s[j + |b|] == ']';
    SkipPlain(s, 0, 1);
    SkipBlank(s, 1, a);
    SkipCells(s, i, entries);
    SkipBlank(s, j, b);
    SkipPlain(s, j + |b|, j + |b| + 1);
    CommentThere(flow, c, comment);
    assert s[..|flow| + |c|] == flow + c;
    Brackets(flow);
    EmptyIsBlank();
    TrimsTo("", flow, c);
    assert "" + flow + c == flow + c;
    if comment != "" {
      TrimAgain("", flow, c);
    } else {
      assert s == flow + c;
    }
  }

  lemma Brackets(flow: string)
    requires |flow| >= 2 && flow[0] == '[' && flow[|flow| - 1] == ']'
    ensures Trimmed(flow)
  {
  }

  /** Whatever the entries of a flow sequence are, they are read as themselves, in order. */
  lemma FlowReads(a: string, entries: seq<Entry>, b: string, c: string, comment: string)
    requires OnlySpace(a) && FlowList(entries) && OnlySpace(b) && Follows(c, comment)
    ensures FlowItems(Flow(a, entries, b) + c + comment) == Some(Values(entries))
  {
    hide TrimStart, TrimEnd, Trim, StripComment, OnlySpace, ItemsFrom, FlowGood;
    var flow := Flow(a, entries, b);
    FlowStripped(a, entries, b, c, comment);
    assert flow[1..|flow| - 1] == a + Cells(entries) + b;
    InnerOf(a, entries, b);
    if entries != [] {
      CellsStart(entries);
      assert Cells(entries)[0..] == Cells(entries);
      ItemsAre(Cells(entries), 0, entries);
    }
  }
}
