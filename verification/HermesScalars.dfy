/** How a list entry may be written: plainly or in quotes, with white space around it and a comment
    after it. Every such writing is read as the entry itself. */
module HermesScalars {
  import opened Wrappers
  import opened YamlText

  // ---- white space -------------------------------------------------------------------------------

  /** Neither end is white space. */
  predicate Trimmed(s: string) {
    s != "" && !IsWhitespace(s[0]) && !IsWhitespace(s[|s| - 1])
  }

  lemma TrimsTo(a: string, s: string, b: string)
    requires OnlySpace(a) && Trimmed(s) && OnlySpace(b)
    ensures Trim(a + s + b) == s
  {
    hide TrimStart, TrimEnd;
    assert a + s + b == a + (s + b);
    assert (s + b)[0] == s[0];
    BlankStart(a, s + b);
    BlankEnd(s, b);
  }

  // ---- one entry ------------------------------------------------------------------------------------

  /** A text without quotes, comment signs and outer white space. */
  predicate Simple(s: string) {
    Trimmed(s) && forall k | 0 <= k < |s| :: s[k] != '#' && s[k] != '"' && s[k] != '\''
  }

  predicate InQuotes(text: string, value: string, quote: char) {
    && quote !in value && (quote == '"' ==> '\\' !in value)
    && text == [quote] + value + [quote]
  }

  /** `text` is how `value` may be written. */
  predicate Written(text: string, value: string) {
    || (text == value && Simple(value))
    || InQuotes(text, value, '"')
    || InQuotes(text, value, '\'')
  }

  /** What may follow an entry: white space, and after it a comment. */
  predicate Follows(b: string, comment: string) {
    OnlySpace(b) && (comment == "" || (b != "" && comment[0] == '#'))
  }

  lemma {:induction false} SkipPlain(s: string, i: nat, j: nat)
    requires i <= j <= |s|
    requires forall k | i <= k < j :: s[k] != '#' && s[k] != '"' && s[k] != '\''
    ensures CommentStart(s, i, UNQUOTED) == CommentStart(s, j, UNQUOTED)
    decreases j - i
  {
    if i < j {
      SkipPlain(s, i + 1, j);
    }
  }

  lemma {:induction false} SkipInside(s: string, i: nat, j: nat, quote: char)
    requires i <= j <= |s|
    requires forall k | i <= k < j :: s[k] != quote && (quote == '"' ==> s[k] != '\\')
    ensures CommentStart(s, i, Quoting(Some(quote), false)) == CommentStart(s, j, Quoting(Some(quote), false))
    decreases j - i
  {
    if i < j {
      SkipInside(s, i + 1, j, quote);
    }
  }

  lemma SkipQuotes(s: string, i: nat, text: string, value: string, quote: char)
    requires i + |text| <= |s| && s[i..i + |text|] == text
    requires InQuotes(text, value, quote) && (quote == '"' || quote == '\'')
    ensures CommentStart(s, i, UNQUOTED) == CommentStart(s, i + |text|, UNQUOTED)
  {
    var j := i + |text| - 1;
    assert forall k | i <= k <= j :: s[k] == text[k - i];
    assert forall k | 1 <= k < |text| - 1 :: text[k] == value[k - 1];
    assert forall k | i + 1 <= k < j :: s[k] == value[k - i - 1];
    SkipInside(s, i + 1, j, quote);
    assert CommentStart(s, i, UNQUOTED) == CommentStart(s, i + 1, Quoting(Some(quote), false));
    assert CommentStart(s, j, Quoting(Some(quote), false)) == CommentStart(s, j + 1, UNQUOTED);
  }

  lemma SkipWritten(s: string, i: nat, text: string, value: string)
    requires i + |text| <= |s| && s[i..i + |text|] == text && Written(text, value)
    ensures CommentStart(s, i, UNQUOTED) == CommentStart(s, i + |text|, UNQUOTED)
  {
    hide CommentStart, InQuotes;
    if InQuotes(text, value, '"') {
      SkipQuotes(s, i, text, value, '"');
    } else if InQuotes(text, value, '\'') {
      SkipQuotes(s, i, text, value, '\'');
    } else {
      assert forall k | i <= k < i + |text| :: s[k] == text[k - i];
      SkipPlain(s, i, i + |text|);
    }
  }

  lemma BlankIsPlain(b: string)
    requires OnlySpace(b)
    ensures forall k | 0 <= k < |b| :: b[k] != '#' && b[k] != '"' && b[k] != '\''
  {
  }

  lemma SkipBlank(s: string, i: nat, b: string)
    requires i + |b| <= |s| && s[i..i + |b|] == b && OnlySpace(b)
    ensures CommentStart(s, i, UNQUOTED) == CommentStart(s, i + |b|, UNQUOTED)
  {
    hide CommentStart, OnlySpace;
    BlankIsPlain(b);
    assert forall k | i <= k < i + |b| :: s[k] == b[k - i];
    SkipPlain(s, i, i + |b|);
  }

  /** The comment starts where it was put. */
  lemma {:induction false} CommentThere(pre: string, b: string, comment: string)
    requires Follows(b, comment)
    ensures CommentStart(pre + b + comment, |pre|, UNQUOTED) == |pre| + |b|
  {
    hide OnlySpace;
    var s := pre + b + comment;
    assert s[|pre|..|pre| + |b|] == b;
    SkipBlank(s, |pre|, b);
    if comment != "" {
      LastBlank(b);
      assert s[|pre| + |b|] == comment[0] && s[|pre| + |b| - 1] == b[|b| - 1];
    }
  }

  lemma LastBlank(b: string)
    requires OnlySpace(b) && b != ""
    ensures IsWhitespace(b[|b| - 1])
  {
  }

  lemma WrittenTrimmed(text: string, value: string)
    requires Written(text, value)
    ensures Trimmed(text) && Unquoted(text) == value
  {
    if text == value && Simple(value) {
    } else {
      assert text[1..|text| - 1] == value;
    }
  }

  /** However an entry is written, it is read as itself: in quotes or not, with white space around it, and
      with a comment after it. */
  lemma WrittenReads(a: string, text: string, b: string, comment: string, value: string)
    requires OnlySpace(a) && Written(text, value) && Follows(b, comment)
    ensures ScalarValue(a + text + b + comment) == value
  {
    hide TrimStart, TrimEnd, Trim, CommentStart, Written, OnlySpace, Trimmed, Unquoted;
    var s := a + text + b + comment;
    WrittenTrimmed(text, value);
    assert s[0..|a|] == a && s[|a|..|a| + |text|] == text;
    SkipBlank(s, 0, a);
    SkipWritten(s, |a|, text, value);
    CommentThere(a + text, b, comment);
    assert s[..|a + text| + |b|] == a + text + b;
    TrimsTo(a, text, b);
    if comment != "" {
      TrimAgain(a, text, b);
    } else {
      assert s == a + text + b;
    }
  }

  lemma {:induction false} TrimAgain(a: string, text: string, b: string)
    requires OnlySpace(a) && Trimmed(text) && OnlySpace(b)
    ensures Trim(TrimEnd(a + text + b)) == text
  {
    hide TrimStart, TrimEnd, Trim;
    BlankEnd(a + text, b);
    TrimsTo(a, text, "");
    assert a + text + "" == a + text;
  }
}
