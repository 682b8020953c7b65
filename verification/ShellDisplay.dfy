/** How a command is shown for approval, against the way a shell would read it back. */
module ShellDisplay {
  import opened Wrappers

  // ---- the printer -----------------------------------------------------------------------

  predicate IsSafe(c: char) {
    || 'a' <= c <= 'z' || 'A' <= c <= 'Z' || '0' <= c <= '9'
    || c in {'_', '-', '.', '/', ':', '@', '+', '=', ','}
  }

  predicate AllSafe(value: string) {
    forall i | 0 <= i < |value| :: IsSafe(value[i])
  }

  /** Each quote closes the quoted text, stands escaped, and opens it again. */
  function QuotesReplaced(value: string): string {
    if value == "" then ""
    else (if value[0] == '\'' then "'\\''" else [value[0]]) + QuotesReplaced(value[1..])
  }

  /** src/access.rs `shell_quote`. */
  function ShellQuote(value: string): string {
    if value != "" && AllSafe(value) then value else "'" + QuotesReplaced(value) + "'"
  }

  /** src/access.rs `command_display`. */
  function CommandDisplay(command: seq<string>): string {
    if command == [] then ""
    else if |command| == 1 then ShellQuote(command[0])
    else ShellQuote(command[0]) + " " + CommandDisplay(command[1..])
  }

  // ---- the shell's side: sections 2.2.1, 2.2.2 and 2.3 of POSIX.1-2017 -----------------------

  datatype Mode = Plain | Escaped | Quoted

  /** The words that are complete, the one that is being read, and how. */
  datatype Scan = Scan(words: seq<string>, word: Option<string>, mode: Mode)

  predicate IsBlank(c: char) {
    c == ' ' || c == '\t'
  }

  /** Characters that mean more than themselves when they are not quoted: operators, comments,
      expansions, patterns, double quotes, and the end of the line. */
  predicate IsSpecial(c: char) {
    c in {'|', '&', ';', '<', '>', '(', ')', '$', '`', '"', '\n', '*', '?', '[', ']', '#', '~', '%', '!', '{', '}'}
  }

  function Text(word: Option<string>): string {
    if word.Some? then word.value else ""
  }

  function Extended(s: Scan, c: char): Scan {
    s.(word := Some(Text(s.word) + [c]), mode := if s.mode == Escaped then Plain else s.mode)
  }

  /** One character. There is no answer where the text is more than a list of plain words. */
  function Next(s: Scan, c: char): Option<Scan> {
    match s.mode
    case Quoted => Some(if c == '\'' then s.(mode := Plain) else Extended(s, c))
    case Escaped => Some(if c == '\n' then s.(mode := Plain) else Extended(s, c))
    case Plain =>
      if IsBlank(c) then Some(if s.word.Some? then Scan(s.words + [s.word.value], None, Plain) else s)
      else if c == '\\' then Some(s.(mode := Escaped))
      else if c == '\'' then Some(s.(word := Some(Text(s.word)), mode := Quoted))
      else if IsSpecial(c) then None
      else Some(Extended(s, c))
  }

  function Run(s: Scan, text: string): Option<Scan>
    decreases |text|
  {
    if text == "" then Some(s)
    else
      match Next(s, text[0])
      case None => None
      case Some(t) => Run(t, text[1..])
  }

  const START := Scan([], None, Plain)

  /** The words of a command line, if it consists of words and ends outside quotes. */
  function Words(text: string): Option<seq<string>> {
    match Run(START, text)
    case None => None
    case Some(s) =>
      if s.mode != Plain then None
      else Some(if s.word.Some? then s.words + [s.word.value] else s.words)
  }

  // ---- round trip -----------------------------------------------------------------------------

  lemma {:induction false} RunAppend(s: Scan, a: string, b: string)
    requires Run(s, a).Some?
    ensures Run(s, a + b) == Run(Run(s, a).value, b)
    decreases |a|
  {
    hide Next;
    if a == "" {
      assert a + b == b;
    } else {
      assert (a + b)[1..] == a[1..] + b;
      RunAppend(Next(s, a[0]).value, a[1..], b);
    }
  }

  lemma {:induction false} SafeRuns(words: seq<string>, before: string, value: string)
    requires AllSafe(value)
    ensures value != "" || before != "" ==>
              Run(Scan(words, if before == "" then None else Some(before), Plain), value) ==
              Some(Scan(words, Some(before + value), Plain))
    decreases |value|
  {
    hide IsSafe, Next;
    if value == "" {
      assert before + value == before;
    } else {
      var c := value[0];
      var s := Scan(words, if before == "" then None else Some(before), Plain);
      SafeRuns(words, before + [c], value[1..]);
      SafeNext(s, c);
      assert before + [c] + value[1..] == before + value;
      assert Text(s.word) + [c] == before + [c];
    }
  }

  lemma SafeNext(s: Scan, c: char)
    requires s.mode == Plain && IsSafe(c)
    ensures Next(s, c) == Some(Extended(s, c))
  {
  }

  /** A quote inside: closed, escaped, inside again. */
  lemma QuoteRuns(words: seq<string>, before: string)
    ensures Run(Scan(words, Some(before), Quoted), "'\\''") == Some(Scan(words, Some(before + "'"), Quoted))
  {
    var s := Scan(words, Some(before), Quoted);
    var text := "'\\''";
    var s1 := s.(mode := Plain);
    var s2 := s.(mode := Escaped);
    var s3 := Scan(words, Some(before + "'"), Plain);
    assert Next(s, '\'') == Some(s1) && Next(s1, '\\') == Some(s2) && Next(s2, '\'') == Some(s3);
    assert text[1..] == "\\''" && text[1..][1..] == "''" && text[1..][1..][1..] == "'" && text[1..][1..][1..][1..] == "";
    assert Run(s3, "'") == Some(s3.(mode := Quoted));
    assert Run(s2, "''") == Run(s3, "'");
  }

  lemma {:induction false} InsideRuns(words: seq<string>, before: string, value: string)
    ensures Run(Scan(words, Some(before), Quoted), QuotesReplaced(value)) == Some(Scan(words, Some(before + value), Quoted))
    decreases |value|
  {
    if value == "" {
      assert before + value == before;
    } else {
      var c := value[0];
      var first := if c == '\'' then "'\\''" else [c];
      InsideRuns(words, before + [c], value[1..]);
      assert before + [c] + value[1..] == before + value;
      if c == '\'' {
        QuoteRuns(words, before);
      } else {
        assert [c][1..] == "";
      }
      RunAppend(Scan(words, Some(before), Quoted), first, QuotesReplaced(value[1..]));
    }
  }

  /** A shown argument is read as one word, that argument. */
  lemma ArgumentRuns(words: seq<string>, value: string)
    ensures Run(Scan(words, None, Plain), ShellQuote(value)) == Some(Scan(words, Some(value), Plain))
  {
    var s := Scan(words, None, Plain);
    if value != "" && AllSafe(value) {
      SafeRuns(words, "", value);
      assert "" + value == value;
    } else {
      var inside := Scan(words, Some(""), Quoted);
      assert "'"[1..] == "";
      assert Run(s, "'") == Some(inside);
      InsideRuns(words, "", value);
      assert "" + value == value;
      RunAppend(s, "'", QuotesReplaced(value));
      RunAppend(s, "'" + QuotesReplaced(value), "'");
    }
  }

  lemma {:induction false} CommandRuns(words: seq<string>, command: seq<string>)
    requires command != []
    ensures Run(Scan(words, None, Plain), CommandDisplay(command)) ==
            Some(Scan(words + command[..|command| - 1], Some(command[|command| - 1]), Plain))
    decreases |command|
  {
    hide ShellQuote;
    var s := Scan(words, None, Plain);
    ArgumentRuns(words, command[0]);
    if |command| == 1 {
      assert words + command[..0] == words;
    } else {
      var rest := command[1..];
      assert " "[1..] == "";
      assert Run(Scan(words, Some(command[0]), Plain), " ") == Some(Scan(words + [command[0]], None, Plain));
      CommandRuns(words + [command[0]], rest);
      RunAppend(s, ShellQuote(command[0]), " ");
      RunAppend(s, ShellQuote(command[0]) + " ", CommandDisplay(rest));
      assert words + [command[0]] + rest[..|rest| - 1] == words + command[..|command| - 1];
    }
  }

  /** Reading the shown command gives back exactly its arguments: empty ones, blanks and quotes
      in them, and every special character. */
  lemma {:induction false} DisplayReadsBack(command: seq<string>)
    ensures Words(CommandDisplay(command)) == Some(command)
  {
    hide Next, Run, CommandDisplay;
    if command == [] {
      NothingReadsBack();
    } else {
      CommandRuns([], command);
      assert [] + command[..|command| - 1] == command[..|command| - 1];
      assert [] + command[..|command| - 1] + [command[|command| - 1]] == command;
    }
  }

  lemma NothingReadsBack()
    ensures Words(CommandDisplay([])) == Some([])
  {
  }

  /** Two commands that are shown alike are the same. */
  lemma {:induction false} DisplayIsInjective(a: seq<string>, b: seq<string>)
    requires CommandDisplay(a) == CommandDisplay(b)
    ensures a == b
  {
    hide CommandDisplay;
    DisplayReadsBack(a);
    DisplayReadsBack(b);
  }

  // ---- which arguments are quoted ----------------------------------------------------------------

  lemma {:induction false} QuotesReplacedLonger(value: string)
    ensures |QuotesReplaced(value)| >= |value|
    ensures '\'' !in value ==> QuotesReplaced(value) == value
  {
    if value != "" {
      QuotesReplacedLonger(value[1..]);
    }
  }

  /** An argument is shown as it is if and only if it is not empty and made of letters, digits and
      `_-./:@+=,`; any other stands between quotes, as it is unless there is a quote in it. */
  lemma ShownAsItIs(value: string)
    ensures CommandDisplay([value]) == value <==>
            value != "" && forall c | c in value :: 'a' <= c <= 'z' || 'A' <= c <= 'Z' || '0' <= c <= '9' || c in "_-./:@+=,"
    ensures CommandDisplay([value]) != value && '\'' !in value ==> CommandDisplay([value]) == "'" + value + "'"
  {
    QuotesReplacedLonger(value);
    forall c ensures IsSafe(c) <==> 'a' <= c <= 'z' || 'A' <= c <= 'Z' || '0' <= c <= '9' || c in "_-./:@+=," {
      SafeChars(c);
    }
    if AllSafe(value) {
      forall c | c in value ensures IsSafe(c) {
      }
    } else {
      var i :| 0 <= i < |value| && !IsSafe(value[i]);
      assert value[i] in value;
    }
  }

  lemma SafeChars(c: char)
    ensures IsSafe(c) <==> 'a' <= c <= 'z' || 'A' <= c <= 'Z' || '0' <= c <= '9' || c in "_-./:@+=,"
  {
    var others := "_-./:@+=,";
    assert others == ['_', '-', '.', '/', ':', '@', '+', '=', ','];
  }
}
