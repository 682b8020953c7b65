/** Streaming redaction of command output: a scanner that is fed chunks and holds back a
    tail, against a scan of the whole output at once. */
module Redaction {
  import opened Wrappers

  // ---- the whole output at once ----------------------------------------------------

  /** `n` is the length of the longest pattern that `s` starts with. */
  ghost predicate IsLongest(patterns: set<Bytes>, s: Bytes, n: nat) {
    && (exists p | p in patterns :: p <= s && |p| == n)
    && (forall p | p in patterns && p <= s :: |p| <= n)
  }

  ghost predicate StartsWithAny(patterns: set<Bytes>, s: Bytes) {
    exists p | p in patterns :: p <= s
  }

  ghost function Longest(patterns: set<Bytes>, s: Bytes): (n: nat)
    requires StartsWithAny(patterns, s)
    ensures IsLongest(patterns, s, n) && n <= |s|
  {
    LongestExists(patterns, s);
    var n: nat :| IsLongest(patterns, s, n);
    n
  }

  lemma {:induction false} LongestExists(patterns: set<Bytes>, s: Bytes)
    requires StartsWithAny(patterns, s)
    ensures exists n: nat :: IsLongest(patterns, s, n)
    decreases |patterns|
  {
    var p :| p in patterns && p <= s;
    var others := patterns - {p};
    if StartsWithAny(others, s) {
      LongestExists(others, s);
      var n: nat :| IsLongest(others, s, n);
      var q :| q in others && q <= s && |q| == n;
      assert q in patterns;
      assert IsLongest(patterns, s, if n > |p| then n else |p|);
    } else {
      forall q | q in patterns && q <= s ensures q == p {
        assert q != p ==> q in others;
      }
      assert IsLongest(patterns, s, |p|);
    }
  }

  /** A byte of the output, copied, or a stretch of it that a marker stands for. */
  datatype Piece = Copied(b: byte) | Replaced(original: Bytes)
  {
    function Original(): Bytes {
      if Copied? then [b] else original
    }
  }

  /** The first piece of `s`: the longest pattern that starts here, if there is one. */
  ghost function Head(patterns: set<Bytes>, s: Bytes): (piece: Piece)
    requires s != []
    ensures 0 < |piece.Original()| <= |s| && piece.Original() == s[..|piece.Original()|]
  {
    if StartsWithAny(patterns, s) && Longest(patterns, s) > 0 then Replaced(s[..Longest(patterns, s)])
    else Copied(s[0])
  }

  /** The leftmost, longest-first division of `s`. */
  ghost function Pieces(patterns: set<Bytes>, s: Bytes): seq<Piece>
    decreases |s|
  {
    if s == [] then []
    else [Head(patterns, s)] + Pieces(patterns, s[|Head(patterns, s).Original()|..])
  }

  function Shown(piece: Piece, marker: Bytes): Bytes {
    if piece.Copied? then [piece.b] else marker
  }

  function Render(pieces: seq<Piece>, marker: Bytes): Bytes {
    if pieces == [] then [] else Shown(pieces[0], marker) + Render(pieces[1..], marker)
  }

  function Originals(pieces: seq<Piece>): Bytes {
    if pieces == [] then [] else pieces[0].Original() + Originals(pieces[1..])
  }

  ghost function Redact(patterns: set<Bytes>, marker: Bytes, s: Bytes): Bytes {
    Render(Pieces(patterns, s), marker)
  }

  // ---- what the division guarantees ------------------------------------------------

  ghost predicate Proper(patterns: set<Bytes>) {
    [] !in patterns
  }

  ghost predicate OccursAt(p: Bytes, s: Bytes, i: nat) {
    i <= |s| && p <= s[i..]
  }

  predicate Contains(haystack: Bytes, needle: Bytes) {
    needle != [] && exists i | 0 <= i <= |haystack| :: needle <= haystack[i..]
  }

  /** What the first piece says about the patterns that start here. */
  lemma HeadDecides(patterns: set<Bytes>, s: Bytes)
    requires Proper(patterns) && s != []
    ensures Head(patterns, s).Replaced? <==> StartsWithAny(patterns, s)
    ensures Head(patterns, s).Replaced? ==> IsLongest(patterns, s, |Head(patterns, s).original|)
  {
    if StartsWithAny(patterns, s) {
      var p :| p in patterns && p <= s;
      assert |p| <= Longest(patterns, s);
    }
  }

  lemma {:induction false} NothingLost(patterns: set<Bytes>, s: Bytes)
    ensures Originals(Pieces(patterns, s)) == s
    decreases |s|
  {
    hide Head;
    if s != [] {
      var n := |Head(patterns, s).Original()|;
      NothingLost(patterns, s[n..]);
      assert s == s[..n] + s[n..];
    }
  }

  /** Where the original text of piece `k` begins. */
  function Start(pieces: seq<Piece>, k: nat): nat
    requires k <= |pieces|
  {
    |Originals(pieces[..k])|
  }

  lemma {:induction false} OriginalsSplit(a: seq<Piece>, b: seq<Piece>)
    ensures Originals(a + b) == Originals(a) + Originals(b)
  {
    if a == [] {
      assert a + b == b;
    } else {
      assert (a + b)[1..] == a[1..] + b;
      OriginalsSplit(a[1..], b);
    }
  }

  /** A piece starts where it says, and is copied only where no pattern starts. */
  ghost predicate Fits(patterns: set<Bytes>, s: Bytes, piece: Piece, at: nat) {
    && at + |piece.Original()| <= |s|
    && piece.Original() == s[at..at + |piece.Original()|]
    && (piece.Copied? ==> !StartsWithAny(patterns, s[at..]))
    && (piece.Replaced? ==> StartsWithAny(patterns, s[at..]) && IsLongest(patterns, s[at..], |piece.original|))
  }

  lemma StartOfNext(first: Piece, others: seq<Piece>, k: nat)
    requires k <= |others|
    ensures Start([first] + others, k + 1) == |first.Original()| + Start(others, k)
    ensures Start([first] + others, 0) == 0
  {
    assert ([first] + others)[..k + 1] == [first] + others[..k];
    assert ([first] + others)[..0] == [];
  }

  lemma FitsFurtherOn(patterns: set<Bytes>, s: Bytes, n: nat, piece: Piece, at: nat)
    requires n <= |s| && Fits(patterns, s[n..], piece, at)
    ensures Fits(patterns, s, piece, n + at)
  {
    hide StartsWithAny, IsLongest;
    assert s[n..][at..] == s[n + at..];
  }

  lemma HeadFits(patterns: set<Bytes>, s: Bytes)
    requires Proper(patterns) && s != []
    ensures Fits(patterns, s, Head(patterns, s), 0)
  {
    hide Head, StartsWithAny, IsLongest;
    HeadDecides(patterns, s);
    assert s[0..] == s;
  }

  lemma {:induction false} PieceAt(patterns: set<Bytes>, s: Bytes, k: nat)
    requires Proper(patterns) && k < |Pieces(patterns, s)|
    ensures Fits(patterns, s, Pieces(patterns, s)[k], Start(Pieces(patterns, s), k))
    decreases |s|
  {
    hide Head, Fits, Start;
    var first := Head(patterns, s);
    var n := |first.Original()|;
    var others := Pieces(patterns, s[n..]);
    if k == 0 {
      HeadFits(patterns, s);
      StartOfNext(first, others, 0);
    } else {
      PieceAt(patterns, s[n..], k - 1);
      StartOfNext(first, others, k - 1);
      FitsFurtherOn(patterns, s, n, others[k - 1], Start(others, k - 1));
    }
  }

  /** The piece that holds position `i` of the text. */
  lemma {:induction false} PieceHolding(pieces: seq<Piece>, i: nat) returns (k: nat)
    requires i < |Originals(pieces)|
    ensures k < |pieces| && Start(pieces, k) <= i < Start(pieces, k) + |pieces[k].Original()|
    decreases |pieces|
  {
    hide Start;
    assert pieces == [pieces[0]] + pieces[1..];
    var n := |pieces[0].Original()|;
    if i < n {
      k := 0;
      StartOfNext(pieces[0], pieces[1..], 0);
    } else {
      var j := PieceHolding(pieces[1..], i - n);
      k := j + 1;
      StartOfNext(pieces[0], pieces[1..], j);
    }
  }

  /** Every occurrence of a pattern begins inside a stretch that is replaced. */
  lemma OccurrencesAreReplaced(patterns: set<Bytes>, s: Bytes, p: Bytes, i: nat) returns (k: nat)
    requires Proper(patterns) && p in patterns && OccursAt(p, s, i)
    ensures var pieces := Pieces(patterns, s);
            k < |pieces| && pieces[k].Replaced? && Start(pieces, k) <= i < Start(pieces, k) + |pieces[k].original|
  {
    hide Head, Pieces, Start;
    NothingLost(patterns, s);
    assert i < |s|;
    k := PieceHolding(Pieces(patterns, s), i);
    PieceAt(patterns, s, k);
    assert StartsWithAny(patterns, s[i..]);
  }

  lemma {:induction false} StartAfter(pieces: seq<Piece>, k: nat)
    requires k < |pieces|
    ensures Start(pieces, k + 1) == Start(pieces, k) + |pieces[k].Original()|
    ensures Start(pieces, k) <= |Originals(pieces)|
  {
    OriginalsSplit(pieces[..k], [pieces[k]]);
    assert pieces[..k + 1] == pieces[..k] + [pieces[k]];
    assert Originals([pieces[k]]) == pieces[k].Original() + Originals([]);
    OriginalsSplit(pieces[..k], pieces[k..]);
    assert pieces == pieces[..k] + pieces[k..];
  }

  lemma {:induction false} StartAtEnd(pieces: seq<Piece>)
    ensures Start(pieces, |pieces|) == |Originals(pieces)|
  {
    assert pieces[..|pieces|] == pieces;
  }

  /** A run of copied pieces renders as the stretch of text it covers. */
  lemma {:induction false} CopiedRun(patterns: set<Bytes>, s: Bytes, low: int, high: int)
    requires Proper(patterns) && 0 <= low <= high <= |Pieces(patterns, s)|
    requires forall k | low <= k < high :: Pieces(patterns, s)[k].Copied?
    ensures Start(Pieces(patterns, s), high) == Start(Pieces(patterns, s), low) + (high - low) <= |s|
    ensures Render(Pieces(patterns, s)[low..high], []) ==
            s[Start(Pieces(patterns, s), low)..Start(Pieces(patterns, s), high)]
    decreases high - low
  {
    hide Head, Pieces, Start, StartsWithAny, IsLongest;
    var pieces := Pieces(patterns, s);
    NothingLost(patterns, s);
    if low == high {
      if low == |pieces| {
        StartAtEnd(pieces);
      } else {
        StartAfter(pieces, low);
      }
      assert pieces[low..high] == [];
    } else {
      PieceAt(patterns, s, low);
      CopiedRun(patterns, s, low + 1, high);
      StartAfter(pieces, low);
      var at := Start(pieces, low);
      assert pieces[low..high][1..] == pieces[low + 1..high];
      assert pieces[low].b == s[at];
      assert s[at..Start(pieces, high)] == [s[at]] + s[at + 1..Start(pieces, high)];
    }
  }

  /** What is copied through between two markers contains no pattern. */
  lemma {:induction false} CopiedRunsAreClean(patterns: set<Bytes>, s: Bytes, low: nat, high: nat, p: Bytes)
    requires Proper(patterns) && p in patterns
    requires low <= high <= |Pieces(patterns, s)|
    requires forall k | low <= k < high :: Pieces(patterns, s)[k].Copied?
    ensures !Contains(Render(Pieces(patterns, s)[low..high], []), p)
  {
    hide Head, Pieces, Start, Render;
    var run := Render(Pieces(patterns, s)[low..high], []);
    forall i | 0 <= i <= |run| ensures !(p <= run[i..]) {
      NoPatternAt(patterns, s, low, high, p, i);
    }
  }

  lemma {:induction false} NoPatternAt(patterns: set<Bytes>, s: Bytes, low: nat, high: nat, p: Bytes, i: nat)
    requires Proper(patterns) && p in patterns
    requires low <= high <= |Pieces(patterns, s)|
    requires forall k | low <= k < high :: Pieces(patterns, s)[k].Copied?
    requires i <= |Render(Pieces(patterns, s)[low..high], [])|
    ensures !(p <= Render(Pieces(patterns, s)[low..high], [])[i..])
  {
    hide Head, Pieces, Start, Render, StartsWithAny, IsLongest;
    CopiedRun(patterns, s, low, high);
    if i < high - low {
      CopiedRun(patterns, s, low, low + i);
      PieceAt(patterns, s, low + i);
      NotAPrefix(patterns, s, Start(Pieces(patterns, s), low) + i, Start(Pieces(patterns, s), high), p);
      assert Render(Pieces(patterns, s)[low..high], [])[i..] ==
             s[Start(Pieces(patterns, s), low) + i..Start(Pieces(patterns, s), high)];
    } else {
      assert |p| > 0;
    }
  }

  lemma NotAPrefix(patterns: set<Bytes>, s: Bytes, at: nat, end: nat, p: Bytes)
    requires at <= end <= |s| && p in patterns && !StartsWithAny(patterns, s[at..])
    ensures !(p <= s[at..end])
  {
    assert s[at..] == s[at..end] + s[end..];
  }

  // ---- the scan ----------------------------------------------------------------------

  /** The list is tried in order, so the first match is the longest when it is sorted. */
  predicate LongestFirst(patterns: seq<Bytes>) {
    forall i, j | 0 <= i < j < |patterns| :: |patterns[i]| >= |patterns[j]|
  }

  function FirstMatch(patterns: seq<Bytes>, s: Bytes): Option<nat> {
    if patterns == [] then None
    else if patterns[0] <= s then Some(|patterns[0]|)
    else FirstMatch(patterns[1..], s)
  }

  ghost function SetOf(patterns: seq<Bytes>): set<Bytes> {
    set p | p in patterns
  }

  lemma {:induction false} FirstIsLongest(patterns: seq<Bytes>, s: Bytes)
    requires LongestFirst(patterns)
    ensures FirstMatch(patterns, s).Some? <==> StartsWithAny(SetOf(patterns), s)
    ensures FirstMatch(patterns, s).Some? ==> IsLongest(SetOf(patterns), s, FirstMatch(patterns, s).value)
    decreases |patterns|
  {
    if patterns != [] {
      FirstIsLongest(patterns[1..], s);
      assert SetOf(patterns) == {patterns[0]} + SetOf(patterns[1..]);
      assert forall p | p in SetOf(patterns) :: |p| <= |patterns[0]|;
      if patterns[0] <= s {
        assert patterns[0] in SetOf(patterns);
      } else if FirstMatch(patterns[1..], s).Some? {
        var n := FirstMatch(patterns[1..], s).value;
        var p :| p in SetOf(patterns[1..]) && p <= s && |p| == n;
        assert p in SetOf(patterns);
      }
    }
  }

  lemma LongestIsUnique(patterns: set<Bytes>, s: Bytes, m: nat, n: nat)
    requires IsLongest(patterns, s, m) && IsLongest(patterns, s, n)
    ensures m == n
  {
  }

  /** With at least the longest pattern's length in view, what may follow does not change
      which patterns start here. */
  lemma InView(patterns: set<Bytes>, window: Bytes, rest: Bytes, p: Bytes)
    requires rest == [] || |p| <= |window|
    ensures p <= window + rest <==> p <= window
  {
    if rest == [] {
      assert window + rest == window;
    } else {
      assert (window + rest)[..|p|] == window[..|p|];
    }
  }

  lemma HeadDecided(patterns: set<Bytes>, window: Bytes, rest: Bytes)
    requires Proper(patterns) && window != []
    requires forall p | p in patterns :: |p| <= |window| || rest == []
    ensures Head(patterns, window + rest) == Head(patterns, window)
  {
    var s := window + rest;
    forall p | p in patterns ensures p <= s <==> p <= window {
      InView(patterns, window, rest, p);
    }
    assert StartsWithAny(patterns, s) <==> StartsWithAny(patterns, window);
    if StartsWithAny(patterns, window) {
      var n := Longest(patterns, window);
      assert IsLongest(patterns, s, n);
      LongestIsUnique(patterns, s, n, Longest(patterns, s));
      assert s[..n] == window[..n];
    }
  }

  /** One step of the scan, taken with the longest pattern in view, is a step of the
      division whatever follows. */
  lemma StepDecided(patterns: set<Bytes>, marker: Bytes, window: Bytes, rest: Bytes)
    requires Proper(patterns) && window != []
    requires forall p | p in patterns :: |p| <= |window| || rest == []
    ensures var head := Head(patterns, window);
            Redact(patterns, marker, window + rest) ==
            Shown(head, marker) + Redact(patterns, marker, window[|head.Original()|..] + rest)
  {
    hide Head;
    HeadDecided(patterns, window, rest);
    var n := |Head(patterns, window).Original()|;
    assert (window + rest)[n..] == window[n..] + rest;
  }

  /** The first entry of the sorted list that matches is the head of the division. */
  lemma {:induction false} FirstMatchIsHead(patterns: seq<Bytes>, window: Bytes)
    requires GoodList(patterns) && window != []
    ensures match FirstMatch(patterns, window)
            case Some(n) => 0 < n <= |window| && Head(SetOf(patterns), window) == Replaced(window[..n])
            case None => Head(SetOf(patterns), window) == Copied(window[0])
  {
    hide FirstMatch;
    FirstIsLongest(patterns, window);
    if FirstMatch(patterns, window).Some? {
      var n := FirstMatch(patterns, window).value;
      MatchFits(patterns, window);
      LongestIsUnique(SetOf(patterns), window, n, Longest(SetOf(patterns), window));
    }
  }

  /** The scan of src/access.rs `push` from `offset` up to `limit`: what it writes, and where
      it stops, which a match may carry past the limit. */
  function Scan(patterns: seq<Bytes>, marker: Bytes, pending: Bytes, offset: nat, limit: nat): (r: (Bytes, nat))
    requires offset <= |pending| && limit <= |pending| && [] !in patterns
    ensures offset <= r.1 <= |pending| && limit <= r.1
    decreases |pending| - offset
  {
    if offset >= limit then ([], offset)
    else
      match FirstMatch(patterns, pending[offset..])
      case Some(n) =>
        MatchFits(patterns, pending[offset..]);
        var r := Scan(patterns, marker, pending, offset + n, limit);
        (marker + r.0, r.1)
      case None =>
        var r := Scan(patterns, marker, pending, offset + 1, limit);
        ([pending[offset]] + r.0, r.1)
  }

  lemma {:induction false} MatchFits(patterns: seq<Bytes>, s: Bytes)
    requires FirstMatch(patterns, s).Some? && [] !in patterns
    ensures 0 < FirstMatch(patterns, s).value <= |s|
    decreases |patterns|
  {
    if !(patterns[0] <= s) {
      MatchFits(patterns[1..], s);
    }
  }

  function MaxLength(patterns: seq<Bytes>): nat {
    if patterns == [] then 0
    else if |patterns[0]| >= MaxLength(patterns[1..]) then |patterns[0]| else MaxLength(patterns[1..])
  }

  lemma {:induction false} NoneLonger(patterns: seq<Bytes>)
    ensures forall p | p in patterns :: |p| <= MaxLength(patterns)
    ensures patterns != [] ==> exists p | p in patterns :: |p| == MaxLength(patterns)
  {
    if patterns != [] {
      NoneLonger(patterns[1..]);
      assert patterns == [patterns[0]] + patterns[1..];
      if |patterns[0]| >= MaxLength(patterns[1..]) {
        assert patterns[0] in patterns;
      } else {
        var p :| p in patterns[1..] && |p| == MaxLength(patterns[1..]);
        assert p in patterns;
      }
    }
  }

  ghost predicate GoodList(patterns: seq<Bytes>) {
    LongestFirst(patterns) && [] !in patterns
  }

  /** What the scan wrote and what it left give, with anything that may follow, the
      redaction of the whole. */
  lemma {:induction false} ScanRedacts(patterns: seq<Bytes>, marker: Bytes, pending: Bytes, offset: nat, limit: nat, rest: Bytes)
    requires GoodList(patterns) && offset <= |pending| && limit <= |pending|
    requires rest == [] || limit + MaxLength(patterns) <= |pending| + 1
    ensures var (out, end) := Scan(patterns, marker, pending, offset, limit);
            Redact(SetOf(patterns), marker, pending[offset..] + rest) ==
            out + Redact(SetOf(patterns), marker, pending[end..] + rest)
    decreases |pending| - offset
  {
    hide Head, Redact, FirstMatch;
    if offset < limit {
      var window := pending[offset..];
      NoneLonger(patterns);
      StepDecided(SetOf(patterns), marker, window, rest);
      FirstMatchIsHead(patterns, window);
      var n := |Head(SetOf(patterns), window).Original()|;
      assert window[n..] == pending[offset + n..];
      ScanRedacts(patterns, marker, pending, offset + n, limit, rest);
      var (out, end) := Scan(patterns, marker, pending, offset + n, limit);
      Regroup(Shown(Head(SetOf(patterns), window), marker), out, Redact(SetOf(patterns), marker, pending[end..] + rest));
    }
  }

  lemma ScanStep(patterns: seq<Bytes>, marker: Bytes, pending: Bytes, offset: nat, limit: nat, before: Bytes)
    requires offset < limit <= |pending| && [] !in patterns
    ensures match FirstMatch(patterns, pending[offset..])
            case Some(n) =>
              && 0 < n <= |pending| - offset
              && var (out, end) := Scan(patterns, marker, pending, offset + n, limit);
                 var whole := Scan(patterns, marker, pending, offset, limit);
                 (before + whole.0, whole.1) == (before + marker + out, end)
            case None =>
              var (out, end) := Scan(patterns, marker, pending, offset + 1, limit);
              var whole := Scan(patterns, marker, pending, offset, limit);
              (before + whole.0, whole.1) == (before + [pending[offset]] + out, end)
  {
    hide FirstMatch;
    match FirstMatch(patterns, pending[offset..])
    case Some(n) =>
      MatchFits(patterns, pending[offset..]);
      Regroup(before, marker, Scan(patterns, marker, pending, offset + n, limit).0);
    case None =>
      Regroup(before, [pending[offset]], Scan(patterns, marker, pending, offset + 1, limit).0);
  }

  lemma {:induction false} ScanDone(patterns: seq<Bytes>, marker: Bytes, pending: Bytes, offset: nat, limit: nat)
    requires limit <= offset <= |pending| && [] !in patterns
    ensures Scan(patterns, marker, pending, offset, limit) == ([], offset)
  {
  }

  lemma Regroup(a: Bytes, b: Bytes, c: Bytes)
    ensures a + (b + c) == (a + b) + c
  {
  }

  // ---- chunks ------------------------------------------------------------------------

  function SaturatingSub(a: nat, b: nat): nat {
    if a < b then 0 else a - b
  }

  /** How far a push may scan: all of it at the end, else what leaves one byte less than the
      longest pattern. */
  function Limit(pending: Bytes, maxPatternLen: nat, final: bool): (n: nat)
    ensures n <= |pending|
  {
    if final then |pending| else SaturatingSub(|pending|, SaturatingSub(maxPatternLen, 1))
  }

  /** One call of `push` on a redactor that holds back `pending`: what it returns and what
      it holds back next. Without patterns everything passes straight through. */
  function Pushed(patterns: seq<Bytes>, marker: Bytes, pending: Bytes, bytes: Bytes, final: bool): (Bytes, Bytes)
    requires [] !in patterns
  {
    if patterns == [] then (bytes, pending)
    else
      var all := pending + bytes;
      var (out, end) := Scan(patterns, marker, all, 0, Limit(all, MaxLength(patterns), final));
      (out, all[end..])
  }

  function Concat(chunks: seq<Bytes>): Bytes {
    if chunks == [] then [] else chunks[0] + Concat(chunks[1..])
  }

  /** Everything returned by pushing the chunks one by one and then closing. */
  function Streamed(patterns: seq<Bytes>, marker: Bytes, pending: Bytes, chunks: seq<Bytes>): Bytes
    requires [] !in patterns
    decreases |chunks|
  {
    if chunks == [] then Pushed(patterns, marker, pending, [], true).0
    else
      var (out, held) := Pushed(patterns, marker, pending, chunks[0], false);
      out + Streamed(patterns, marker, held, chunks[1..])
  }

  /** The tail held back between calls is shorter than the longest pattern. */
  lemma {:induction false} HeldTailIsShort(patterns: seq<Bytes>, marker: Bytes, pending: Bytes, bytes: Bytes)
    requires GoodList(patterns) && patterns != []
    ensures |Pushed(patterns, marker, pending, bytes, false).1| < MaxLength(patterns)
    ensures Pushed(patterns, marker, pending, bytes, true).1 == []
  {
    NoneLonger(patterns);
    assert MaxLength(patterns) > 0;
  }

  lemma {:induction false} PassThrough(marker: Bytes, s: Bytes)
    ensures Redact({}, marker, s) == s
    decreases |s|
  {
    if s != [] {
      PassThrough(marker, s[1..]);
      var pieces := Pieces({}, s);
      assert pieces[1..] == Pieces({}, s[1..]);
    }
  }

  /** What one push returns, and the redaction of what it holds with what follows, make up
      the redaction of it all. */
  lemma PushRedacts(patterns: seq<Bytes>, marker: Bytes, pending: Bytes, bytes: Bytes, rest: Bytes, final: bool)
    requires GoodList(patterns) && patterns != [] && (final ==> rest == [])
    ensures var (out, held) := Pushed(patterns, marker, pending, bytes, final);
            Redact(SetOf(patterns), marker, pending + bytes + rest) == out + Redact(SetOf(patterns), marker, held + rest)
  {
    hide Redact, Scan;
    var all := pending + bytes;
    var limit := Limit(all, MaxLength(patterns), final);
    NoneLonger(patterns);
    assert all[0..] == all;
    if limit == 0 {
      ScanNothing(patterns, marker, all);
    } else {
      ScanRedacts(patterns, marker, all, 0, limit, rest);
    }
  }

  lemma {:induction false} ScanNothing(patterns: seq<Bytes>, marker: Bytes, pending: Bytes)
    requires [] !in patterns
    ensures Scan(patterns, marker, pending, 0, 0) == ([], 0)
  {
  }

  /** However the output is cut into chunks, what comes out is the redaction of the whole. */
  lemma {:induction false} ChunksDoNotMatter(patterns: seq<Bytes>, marker: Bytes, pending: Bytes, chunks: seq<Bytes>)
    requires GoodList(patterns) && (patterns == [] ==> pending == [])
    ensures Streamed(patterns, marker, pending, chunks) == Redact(SetOf(patterns), marker, pending + Concat(chunks))
    decreases |chunks|
  {
    hide Redact, Scan;
    if chunks == [] {
      assert pending + [] + [] == pending + Concat(chunks);
      if patterns == [] {
        NothingToRedact(patterns, marker, []);
      } else {
        PushRedacts(patterns, marker, pending, [], [], true);
        HeldTailIsShort(patterns, marker, pending, []);
        RedactNothing(SetOf(patterns), marker);
      }
    } else {
      var rest := Concat(chunks[1..]);
      assert pending + chunks[0] + rest == pending + Concat(chunks);
      ChunksDoNotMatter(patterns, marker, Pushed(patterns, marker, pending, chunks[0], false).1, chunks[1..]);
      if patterns == [] {
        NothingToRedact(patterns, marker, Concat(chunks));
        NothingToRedact(patterns, marker, rest);
      } else {
        PushRedacts(patterns, marker, pending, chunks[0], rest, false);
      }
    }
  }

  lemma NothingToRedact(patterns: seq<Bytes>, marker: Bytes, s: Bytes)
    requires patterns == []
    ensures Redact(SetOf(patterns), marker, [] + s) == s
  {
    assert SetOf(patterns) == {} && [] + s == s;
    PassThrough(marker, s);
  }

  lemma RedactNothing(patterns: set<Bytes>, marker: Bytes)
    ensures Redact(patterns, marker, [] + []) == []
  {
  }

  // ---- the marker ----------------------------------------------------------------------

  ghost predicate Clean(patterns: seq<Bytes>, candidate: Bytes) {
    forall p | p in patterns :: !Contains(candidate, p)
  }

  function Ascii(text: string): (bytes: Bytes)
    ensures |bytes| == |text|
  {
    seq(|text|, i requires 0 <= i < |text| => if text[i] < 128 as char then text[i] as int else 63)
  }

  const REDACTED := Ascii("[REDACTED]")

  /** The texts that are tried first as a marker for the secret called `name`. */
  function MarkerTexts(name: Bytes): (texts: seq<Bytes>)
    ensures [] !in texts
  {
    [Ascii("[REDACTED: ") + name + Ascii("]"), Ascii("[REDACTED: SECRET]"), REDACTED, Ascii("<filtered>")]
  }

  /** Then the printable characters, one by one. */
  function Candidates(name: Bytes): (candidates: seq<Bytes>)
    ensures |candidates| == 98
  {
    MarkerTexts(name) + seq(94, i requires 0 <= i < 94 => [0x21 + i])
  }

  /** The first clean candidate, or nothing when none of them is clean. */
  ghost predicate IsChosen(name: Bytes, patterns: seq<Bytes>, marker: Bytes) {
    var candidates := Candidates(name);
    || (marker == [] && forall i | 0 <= i < |candidates| :: !Clean(patterns, candidates[i]))
    || exists i | 0 <= i < |candidates| ::
         marker == candidates[i] && Clean(patterns, marker) && forall j | 0 <= j < i :: !Clean(patterns, candidates[j])
  }

  /** A marker that names the secret is chosen whenever no pattern is in it: `[REDACTED: name]`. */
  lemma NamedMarker(name: Bytes, patterns: seq<Bytes>, marker: Bytes)
    requires IsChosen(name, patterns, marker)
    ensures var named := [91, 82, 69, 68, 65, 67, 84, 69, 68, 58, 32] + name + [93];
            Clean(patterns, named) <==> marker == named
  {
    hide Clean;
    var candidates := Candidates(name);
    var named := [91, 82, 69, 68, 65, 67, 84, 69, 68, 58, 32] + name + [93];
    NamedText();
    assert candidates[0] == MarkerTexts(name)[0] == named;
  }

  lemma NamedText()
    ensures Ascii("[REDACTED: ") == [91, 82, 69, 68, 65, 67, 84, 69, 68, 58, 32] && Ascii("]") == [93]
  {
    var text := "[REDACTED: ";
    assert text == ['[', 'R', 'E', 'D', 'A', 'C', 'T', 'E', 'D', ':', ' '];
  }

  /** src/access.rs `redaction_marker`: the four texts, then single printable characters. */
  method RedactionMarker(name: Bytes, patterns: seq<Bytes>) returns (marker: Bytes)
    ensures Clean(patterns, marker)
    ensures IsChosen(name, patterns, marker)
  {
    hide Contains;
    var texts := MarkerTexts(name);
    for i := 0 to |texts|
      invariant forall j | 0 <= j < i :: !Clean(patterns, Candidates(name)[j])
    {
      assert texts[i] == Candidates(name)[i];
      if forall p | p in patterns :: !Contains(texts[i], p) {
        return texts[i];
      }
    }
    for b := 0x21 to 0x7f
      invariant forall j | 0 <= j < |texts| + (b - 0x21) :: !Clean(patterns, Candidates(name)[j])
    {
      var candidate: Bytes := [b];
      assert candidate == Candidates(name)[|texts| + (b - 0x21)];
      if forall p | p in patterns :: !Contains(candidate, p) {
        return candidate;
      }
    }
    marker := [];
    forall p | p in patterns ensures !Contains([], p) {
      NothingIsClean(p);
    }
  }

  lemma NothingIsClean(p: Bytes)
    ensures !Contains([], p)
  {
  }

  // ---- the redactor ----------------------------------------------------------------------

  /** The patterns, longest first; equal lengths keep their order. */
  function SortByLength(patterns: seq<Bytes>): seq<Bytes> {
    if patterns == [] then []
    else InsertByLength(patterns[0], SortByLength(patterns[1..]))
  }

  function InsertByLength(p: Bytes, sorted: seq<Bytes>): seq<Bytes> {
    if sorted == [] || |p| >= |sorted[0]| then [p] + sorted
    else [sorted[0]] + InsertByLength(p, sorted[1..])
  }

  lemma {:induction false} InsertKeepsMembers(p: Bytes, sorted: seq<Bytes>)
    ensures multiset(InsertByLength(p, sorted)) == multiset(sorted) + multiset{p}
  {
    if sorted != [] && |p| < |sorted[0]| {
      InsertKeepsMembers(p, sorted[1..]);
      assert sorted == [sorted[0]] + sorted[1..];
    } else {
      assert multiset([p] + sorted) == multiset{p} + multiset(sorted);
    }
  }

  lemma LongestFirstCons(p: Bytes, sorted: seq<Bytes>)
    requires LongestFirst(sorted) && forall q | q in sorted :: |q| <= |p|
    ensures LongestFirst([p] + sorted)
  {
  }

  lemma LongestFirstHead(sorted: seq<Bytes>)
    requires LongestFirst(sorted) && sorted != []
    ensures LongestFirst(sorted[1..]) && forall q | q in sorted :: |q| <= |sorted[0]|
  {
  }

  lemma {:induction false} InsertKeepsOrder(p: Bytes, sorted: seq<Bytes>)
    requires LongestFirst(sorted)
    ensures LongestFirst(InsertByLength(p, sorted))
  {
    hide LongestFirst;
    if sorted == [] {
      assert [p] + sorted == [p];
      NoneLongestFirst();
      LongestFirstCons(p, []);
    } else if |p| >= |sorted[0]| {
      LongestFirstHead(sorted);
      LongestFirstCons(p, sorted);
    } else {
      LongestFirstHead(sorted);
      InsertKeepsOrder(p, sorted[1..]);
      InsertKeepsMembers(p, sorted[1..]);
      var inserted := InsertByLength(p, sorted[1..]);
      forall q | q in inserted ensures |q| <= |sorted[0]| {
        assert q in multiset(inserted);
        assert q == p || q in sorted[1..];
      }
      LongestFirstCons(sorted[0], inserted);
    }
  }

  lemma NoneLongestFirst()
    ensures LongestFirst([])
  {
  }

  lemma {:induction false} Sorted(patterns: seq<Bytes>)
    ensures LongestFirst(SortByLength(patterns))
    ensures multiset(SortByLength(patterns)) == multiset(patterns)
  {
    if patterns != [] {
      Sorted(patterns[1..]);
      InsertKeepsOrder(patterns[0], SortByLength(patterns[1..]));
      InsertKeepsMembers(patterns[0], SortByLength(patterns[1..]));
      assert patterns == [patterns[0]] + patterns[1..];
    }
  }

  lemma SameMembers(a: seq<Bytes>, b: seq<Bytes>)
    requires multiset(a) == multiset(b)
    ensures SetOf(a) == SetOf(b)
    ensures forall p :: p in a <==> p in b
    ensures a == [] <==> b == []
  {
    assert forall p :: p in a <==> p in multiset(a);
    assert forall p :: p in b <==> p in multiset(b);
    assert |a| == |multiset(a)| == |b|;
  }

  const MIN_DERIVED_SECRET_BYTES := 4
  const MAX_DERIVED_SECRET_BYTES := 1024

  /** The distinct non-empty variants, in the order they were pushed. */
  method CollectVariants(secret: Bytes, derived: seq<Bytes>) returns (variants: seq<Bytes>)
    ensures [] !in variants
    ensures forall i, j | 0 <= i < j < |variants| :: variants[i] != variants[j]
    ensures MIN_DERIVED_SECRET_BYTES <= |secret| <= MAX_DERIVED_SECRET_BYTES ==>
              forall v :: v in variants <==> v != [] && (v == secret || v in derived)
    ensures !(MIN_DERIVED_SECRET_BYTES <= |secret| <= MAX_DERIVED_SECRET_BYTES) ==>
              forall v :: v in variants <==> v != [] && v == secret
    ensures AreVariants(secret, derived, variants)
  {
    variants := if secret == [] then [] else [secret];
    if !(MIN_DERIVED_SECRET_BYTES <= |secret| <= MAX_DERIVED_SECRET_BYTES) {
      return;
    }
    for i := 0 to |derived|
      invariant [] !in variants
      invariant forall j, k | 0 <= j < k < |variants| :: variants[j] != variants[k]
      invariant forall v :: v in variants <==> v != [] && (v == secret || v in derived[..i])
    {
      assert derived[..i + 1] == derived[..i] + [derived[i]];
      if derived[i] != [] && derived[i] !in variants {
        variants := variants + [derived[i]];
      }
    }
    assert derived[..|derived|] == derived;
  }

  class OutputRedactor {
    var patterns: seq<Bytes>
    var replacement: Bytes
    var pending: Bytes
    var maxPatternLen: nat

    ghost predicate Valid()
      reads this
    {
      && GoodList(patterns)
      && (patterns == [] ==> pending == [])
      && (patterns != [] ==> maxPatternLen == MaxLength(patterns))
    }

    /** For the variants of the secret called `name`. Without a secret, or with an empty
        one, there are none. */
    constructor (name: Bytes, variants: seq<Bytes>)
      requires [] !in variants
      ensures Valid() && pending == []
      ensures SetOf(patterns) == SetOf(variants)
      ensures variants != [] ==> Clean(patterns, replacement) && IsChosen(name, patterns, replacement)
    {
      hide LongestFirst, SortByLength, MaxLength;
      if variants == [] {
        patterns, replacement, pending, maxPatternLen := [], REDACTED, [], 1;
        Sorted([]);
      } else {
        Sorted(variants);
        var sorted := SortByLength(variants);
        SameMembers(sorted, variants);
        var marker := RedactionMarker(name, sorted);
        patterns, replacement, pending, maxPatternLen := sorted, marker, [], MaxLength(sorted);
      }
    }

    /** src/access.rs `push`. */
    method Push(bytes: Bytes, finalChunk: bool) returns (output: Bytes)
      requires Valid()
      modifies this`pending
      ensures Valid()
      ensures (output, pending) == Pushed(patterns, replacement, old(pending), bytes, finalChunk)
    {
      hide Scan, FirstMatch, LongestFirst;
      if patterns == [] {
        return bytes;
      }
      pending := pending + bytes;
      ghost var all := pending;
      var limit := Limit(pending, maxPatternLen, finalChunk);
      output := [];
      var offset := 0;
      ghost var start := Scan(patterns, replacement, all, 0, limit).0;
      assert [] + start == start;
      while offset < limit
        invariant 0 <= offset <= |pending|
        invariant pending == all && limit <= |pending|
        invariant Scan(patterns, replacement, all, 0, limit) ==
                  (output + Scan(patterns, replacement, all, offset, limit).0, Scan(patterns, replacement, all, offset, limit).1)
        decreases |pending| - offset
      {
        ScanStep(patterns, replacement, pending, offset, limit, output);
        var matched := FirstMatch(patterns, pending[offset..]);
        if matched.Some? {
          output := output + replacement;
          offset := offset + matched.value;
        } else {
          output := output + [pending[offset]];
          offset := offset + 1;
        }
      }
      ScanDone(patterns, replacement, pending, offset, limit);
      assert output + [] == output;
      pending := pending[offset..];
    }
  }

  /** A secret of 4 to 1024 bytes is looked for in its encodings too. */
  ghost predicate AreVariants(secret: Bytes, derived: seq<Bytes>, list: seq<Bytes>) {
    forall v :: v in list <==> v != [] && (v == secret || (MIN_DERIVED_SECRET_BYTES <= |secret| <= MAX_DERIVED_SECRET_BYTES && v in derived))
  }

  /** `output` is `input` redacted for the secret and its encodings, with the marker that is chosen for these. */
  ghost predicate IsRedaction(name: Bytes, secret: Bytes, derived: seq<Bytes>, list: seq<Bytes>, marker: Bytes, input: Bytes, output: Bytes) {
    && AreVariants(secret, derived, list)
    && (list != [] ==> Clean(list, marker) && IsChosen(name, list, marker))
    && output == Redact(SetOf(list), marker, input)
  }

  lemma SameVariants(secret: Bytes, derived: seq<Bytes>, variants: seq<Bytes>, list: seq<Bytes>)
    requires AreVariants(secret, derived, variants) && SetOf(list) == SetOf(variants)
    ensures AreVariants(secret, derived, list) && (list != [] <==> variants != [])
  {
    assert forall v :: v in list <==> v in SetOf(list);
    assert forall v :: v in variants <==> v in SetOf(variants);
    if list != [] {
      assert list[0] in variants;
    }
    if variants != [] {
      assert variants[0] in list;
    }
  }

  /** The output of a command, read in chunks, through a redactor for its secret. */
  method StreamChild(name: Bytes, secret: Bytes, derived: seq<Bytes>, chunks: seq<Bytes>) returns (output: Bytes)
    ensures exists list: seq<Bytes>, marker: Bytes :: IsRedaction(name, secret, derived, list, marker, Concat(chunks), output)
  {
    hide Scan, Redact, LongestFirst, MaxLength, Pushed, Contains, IsChosen, SetOf, Clean, AreVariants;
    var variants := CollectVariants(secret, derived);
    var redactor := new OutputRedactor(name, variants);
    output := [];
    ghost var patterns, marker := redactor.patterns, redactor.replacement;
    SameVariants(secret, derived, variants, patterns);
    ghost var whole := Streamed(patterns, marker, [], chunks);
    ChunksDoNotMatter(patterns, marker, [], chunks);
    assert [] + Concat(chunks) == Concat(chunks);
    assert chunks[0..] == chunks && [] + whole == whole;
    for i := 0 to |chunks|
      invariant redactor.Valid() && redactor.patterns == patterns && redactor.replacement == marker
      invariant whole == output + Streamed(patterns, marker, redactor.pending, chunks[i..])
    {
      assert chunks[i..][1..] == chunks[i + 1..];
      var more := redactor.Push(chunks[i], false);
      Regroup(output, more, Streamed(patterns, marker, redactor.pending, chunks[i + 1..]));
      output := output + more;
    }
    var last := redactor.Push([], true);
    output := output + last;
    assert IsRedaction(name, secret, derived, patterns, marker, Concat(chunks), output);
  }
}
