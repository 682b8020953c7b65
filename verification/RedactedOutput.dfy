/** When redacted output as a whole contains no pattern. What is copied between two markers never
    does; across a marker's border it depends on how the patterns and the marker overlap. */
module RedactedOutput {
  import opened Wrappers
  import opened Redaction

  // ---- where the pieces are in the output -----------------------------------------------------

  /** Where piece `k` is in the output. */
  function OutputStart(pieces: seq<Piece>, marker: Bytes, k: nat): nat
    requires k <= |pieces|
  {
    |Render(pieces[..k], marker)|
  }

  lemma {:induction false} RenderSplit(a: seq<Piece>, b: seq<Piece>, marker: Bytes)
    ensures Render(a + b, marker) == Render(a, marker) + Render(b, marker)
    decreases |a|
  {
    if a == [] {
      assert a + b == b;
    } else {
      assert (a + b)[1..] == a[1..] + b;
      RenderSplit(a[1..], b, marker);
    }
  }

  /** A piece shows where it starts, and the next one after it. */
  lemma {:induction false} PieceShows(pieces: seq<Piece>, marker: Bytes, k: nat)
    requires k < |pieces|
    ensures var at, shown := OutputStart(pieces, marker, k), Shown(pieces[k], marker);
            var out := Render(pieces, marker);
            && OutputStart(pieces, marker, k + 1) == at + |shown| <= |out|
            && out[at..at + |shown|] == shown
    ensures OutputStart(pieces, marker, 0) == 0 && OutputStart(pieces, marker, |pieces|) == |Render(pieces, marker)|
  {
    var before, after := pieces[..k], pieces[k + 1..];
    RenderSplit(before, [pieces[k]], marker);
    RenderSplit(before + [pieces[k]], after, marker);
    OnePiece(pieces[k], marker);
    assert pieces[..k + 1] == before + [pieces[k]];
    assert pieces == before + [pieces[k]] + after;
    assert pieces[..0] == [] && pieces[..|pieces|] == pieces;
  }

  lemma {:induction false} OnePiece(piece: Piece, marker: Bytes)
    ensures Render([piece], marker) == Shown(piece, marker)
  {
    assert Render([piece], marker) == Shown(piece, marker) + Render([], marker);
  }

  /** The piece that shows position `i` of the output. */
  lemma {:induction false} PieceShowing(pieces: seq<Piece>, marker: Bytes, n: nat, i: nat) returns (k: nat)
    requires n <= |pieces| && i < OutputStart(pieces, marker, n)
    ensures k < n && OutputStart(pieces, marker, k) <= i < OutputStart(pieces, marker, k + 1)
    decreases n
  {
    hide OutputStart;
    if n == 0 {
      NothingShown(pieces, marker);
      assert false;
    }
    PieceShows(pieces, marker, n - 1);
    if i < OutputStart(pieces, marker, n - 1) {
      k := PieceShowing(pieces, marker, n - 1, i);
    } else {
      k := n - 1;
    }
  }

  lemma NothingShown(pieces: seq<Piece>, marker: Bytes)
    ensures OutputStart(pieces, marker, 0) == 0
  {
  }

  lemma {:induction false} StartsInOrder(pieces: seq<Piece>, marker: Bytes, k: nat, l: nat)
    requires k <= l <= |pieces|
    ensures OutputStart(pieces, marker, k) <= OutputStart(pieces, marker, l) <= |Render(pieces, marker)|
    ensures marker != [] ==> l - k <= OutputStart(pieces, marker, l) - OutputStart(pieces, marker, k)
    ensures Render(pieces, marker)[OutputStart(pieces, marker, k)..OutputStart(pieces, marker, l)] == Render(pieces[k..l], marker)
  {
    hide Render;
    var before, part, after := pieces[..k], pieces[k..l], pieces[l..];
    assert pieces[..l] == before + part && pieces == before + part + after;
    RenderSplit(before, part, marker);
    RenderSplit(before + part, after, marker);
    EachShows(part, marker);
  }

  lemma {:induction false} EachShows(pieces: seq<Piece>, marker: Bytes)
    ensures marker != [] ==> |pieces| <= |Render(pieces, marker)|
    decreases |pieces|
  {
    if pieces != [] {
      EachShows(pieces[1..], marker);
    }
  }

  /** What copied pieces show is what they stand for. */
  lemma {:induction false} RenderCopied(pieces: seq<Piece>, marker: Bytes)
    requires forall k | 0 <= k < |pieces| :: pieces[k].Copied?
    ensures Render(pieces, marker) == Originals(pieces)
    decreases |pieces|
  {
    if pieces != [] {
      RenderCopied(pieces[1..], marker);
    }
  }

  lemma LiesIn(haystack: Bytes, needle: Bytes, i: nat)
    requires needle != [] && i + |needle| <= |haystack| && haystack[i..i + |needle|] == needle
    ensures Contains(haystack, needle)
  {
    assert needle <= haystack[i..];
  }

  /** A slice of a slice. */
  lemma Within(out: Bytes, at: nat, part: Bytes, low: nat, high: nat)
    requires at + |part| <= |out| && out[at..at + |part|] == part && low <= high <= |part|
    ensures out[at + low..at + high] == part[low..high]
  {
    assert forall k | 0 <= k < |part| :: out[at + k] == out[at..at + |part|][k] == part[k];
    forall k | 0 <= k < high - low ensures out[at + low..at + high][k] == part[low..high][k] {
      assert out[at + (low + k)] == part[low + k];
    }
  }

  // ---- pieces that are scanned as they were put together ----------------------------------------

  /** Where a scan of `s` finds this piece first: a byte where no pattern begins, or the longest
      pattern that does. */
  ghost predicate Begins(patterns: set<Bytes>, piece: Piece, s: Bytes) {
    if piece.Copied? then !StartsWithAny(patterns, s)
    else piece.original in patterns && forall q | q in patterns && q <= s :: |q| <= |piece.original|
  }

  /** Each piece is what a scan finds where its own text and that of the pieces after it begin. */
  ghost predicate Scanned(patterns: set<Bytes>, pieces: seq<Piece>) {
    pieces != [] ==> Begins(patterns, pieces[0], Originals(pieces)) && Scanned(patterns, pieces[1..])
  }

  /** The text of such pieces is divided into them. */
  lemma {:induction false} ScannedBack(patterns: set<Bytes>, pieces: seq<Piece>)
    requires Proper(patterns) && Scanned(patterns, pieces)
    ensures Pieces(patterns, Originals(pieces)) == pieces
    decreases |pieces|
  {
    hide Head, StartsWithAny, IsLongest;
    if pieces != [] {
      var s := Originals(pieces);
      ScannedHead(patterns, pieces);
      assert s[|pieces[0].Original()|..] == Originals(pieces[1..]);
      ScannedBack(patterns, pieces[1..]);
    }
  }

  lemma {:induction false} ScannedHead(patterns: set<Bytes>, pieces: seq<Piece>)
    requires Proper(patterns) && Scanned(patterns, pieces) && pieces != []
    ensures Originals(pieces) != [] && Head(patterns, Originals(pieces)) == pieces[0]
  {
    hide Longest;
    var s, first := Originals(pieces), pieces[0];
    if first.Replaced? {
      assert first.original <= s;
      assert IsLongest(patterns, s, |first.original|);
      LongestIsUnique(patterns, s, |first.original|, Longest(patterns, s));
    }
  }

  /** Every division is such a list. */
  lemma {:induction false} PiecesAreScanned(patterns: set<Bytes>, s: Bytes)
    requires Proper(patterns)
    ensures Scanned(patterns, Pieces(patterns, s))
    decreases |s|
  {
    hide Head, StartsWithAny;
    if s != [] {
      var n := |Head(patterns, s).Original()|;
      var pieces := Pieces(patterns, s);
      NothingLost(patterns, s);
      HeadDecides(patterns, s);
      PiecesAreScanned(patterns, s[n..]);
      assert pieces[1..] == Pieces(patterns, s[n..]);
      if pieces[0].Replaced? {
        LongestIsPattern(patterns, s, n);
      }
    }
  }

  lemma LongestIsPattern(patterns: set<Bytes>, s: Bytes, n: nat)
    requires IsLongest(patterns, s, n) && n <= |s|
    ensures s[..n] in patterns
  {
    var p :| p in patterns && p <= s && |p| == n;
    assert p == s[..n];
  }

  /** So is any part of one: what follows a part does not matter to it. */
  lemma BeginsShorter(patterns: set<Bytes>, piece: Piece, s: Bytes, more: Bytes)
    requires Begins(patterns, piece, s + more)
    ensures Begins(patterns, piece, s)
  {
    assert forall q | q in patterns :: q <= s ==> q <= s + more;
  }

  lemma {:induction false} PrefixIsScanned(patterns: set<Bytes>, pieces: seq<Piece>, n: nat)
    requires Scanned(patterns, pieces) && n <= |pieces|
    ensures Scanned(patterns, pieces[..n])
    decreases n
  {
    hide Originals, Begins;
    if n > 0 {
      var less, more := pieces[..n], pieces[n..];
      assert pieces == less + more;
      OriginalsSplit(less, more);
      BeginsShorter(patterns, pieces[0], Originals(less), Originals(more));
      assert less[1..] == pieces[1..][..n - 1];
      PrefixIsScanned(patterns, pieces[1..], n - 1);
    }
  }

  lemma {:induction false} SuffixIsScanned(patterns: set<Bytes>, pieces: seq<Piece>, n: nat)
    requires Scanned(patterns, pieces) && n <= |pieces|
    ensures Scanned(patterns, pieces[n..])
    decreases n
  {
    if n > 0 {
      assert pieces[1..][n - 1..] == pieces[n..];
      SuffixIsScanned(patterns, pieces[1..], n - 1);
    }
  }

  lemma {:induction false} PartIsScanned(patterns: set<Bytes>, pieces: seq<Piece>, low: nat, high: nat)
    requires Scanned(patterns, pieces) && low <= high <= |pieces|
    ensures Scanned(patterns, pieces[low..high])
  {
    PrefixIsScanned(patterns, pieces, high);
    SuffixIsScanned(patterns, pieces[..high], low);
    assert pieces[..high][low..] == pieces[low..high];
  }

  // ---- when a pattern can appear ------------------------------------------------------------------

  /** `p` appears at `i` of what the pieces show, from in the first of them to in the last, and if
      each of them shows something they are no more than it is long. */
  ghost predicate Shows(patterns: set<Bytes>, marker: Bytes, pieces: seq<Piece>, p: Bytes, i: nat) {
    && pieces != [] && Scanned(patterns, pieces) && (marker != [] ==> |pieces| <= |p|)
    && i + |p| <= |Render(pieces, marker)| && Render(pieces, marker)[i..i + |p|] == p
    && i < |Shown(pieces[0], marker)|
    && |Render(pieces, marker)| < i + |p| + |Shown(pieces[|pieces| - 1], marker)|
  }

  ghost predicate CanShow(patterns: set<Bytes>, marker: Bytes) {
    exists p, pieces, i :: p in patterns && Shows(patterns, marker, pieces, p, i)
  }

  ghost predicate AlwaysClean(patterns: set<Bytes>, marker: Bytes) {
    forall s, p | p in patterns :: !Contains(Redact(patterns, marker, s), p)
  }

  /** Where an occurrence in the output begins and ends. */
  ghost predicate Spans(pieces: seq<Piece>, marker: Bytes, p: Bytes, i: nat, k: nat, l: nat) {
    && k < |pieces| && l < |pieces|
    && i + |p| <= |Render(pieces, marker)| && Render(pieces, marker)[i..i + |p|] == p
    && OutputStart(pieces, marker, k) <= i < OutputStart(pieces, marker, k + 1)
    && OutputStart(pieces, marker, l) < i + |p| <= OutputStart(pieces, marker, l + 1)
  }

  lemma FindSpan(pieces: seq<Piece>, marker: Bytes, p: Bytes, i: nat) returns (k: nat, l: nat)
    requires p != [] && i + |p| <= |Render(pieces, marker)| && Render(pieces, marker)[i..i + |p|] == p
    ensures Spans(pieces, marker, p, i, k, l) && k <= l
  {
    hide OutputStart, Render;
    AllShown(pieces, marker);
    k := PieceShowing(pieces, marker, |pieces|, i);
    l := PieceShowing(pieces, marker, |pieces|, i + |p| - 1);
    if l < k {
      StartsInOrder(pieces, marker, l + 1, k);
    }
  }

  /** The pieces from the one to the other show it too. */
  lemma {:induction false} PartShows(pieces: seq<Piece>, marker: Bytes, p: Bytes, i: nat, k: nat, l: nat)
    requires Spans(pieces, marker, p, i, k, l) && k <= l && p != []
    ensures var part, at := pieces[k..l + 1], OutputStart(pieces, marker, k);
            && (marker != [] ==> |part| <= |p|) && i >= at
            && i - at + |p| <= |Render(part, marker)| && Render(part, marker)[i - at..i - at + |p|] == p
            && i - at < |Shown(part[0], marker)|
            && |Render(part, marker)| < i - at + |p| + |Shown(part[|part| - 1], marker)|
  {
    hide OutputStart, Render;
    var out, at := Render(pieces, marker), OutputStart(pieces, marker, k);
    PieceShows(pieces, marker, k);
    PieceShows(pieces, marker, l);
    StartsInOrder(pieces, marker, k, l + 1);
    if k < l {
      StartsInOrder(pieces, marker, k + 1, l);
    }
    Within(out, at, Render(pieces[k..l + 1], marker), i - at, i - at + |p|);
  }

  /** The pieces that an occurrence in the output overlaps are enough to show it. */
  lemma {:induction false} OccurrenceShows(patterns: set<Bytes>, marker: Bytes, s: Bytes, p: Bytes, i: nat)
    requires Proper(patterns) && p in patterns
    requires i + |p| <= |Redact(patterns, marker, s)| && Redact(patterns, marker, s)[i..i + |p|] == p
    ensures CanShow(patterns, marker)
  {
    hide Pieces, OutputStart, Scanned, Render, Spans;
    var pieces := Pieces(patterns, s);
    assert p != [];
    var k, l := FindSpan(pieces, marker, p, i);
    SpanRange(pieces, marker, p, i, k, l);
    PartShows(pieces, marker, p, i, k, l);
    PiecesAreScanned(patterns, s);
    PartIsScanned(patterns, pieces, k, l + 1);
    assert Shows(patterns, marker, pieces[k..l + 1], p, i - OutputStart(pieces, marker, k));
  }

  lemma SpanRange(pieces: seq<Piece>, marker: Bytes, p: Bytes, i: nat, k: nat, l: nat)
    requires Spans(pieces, marker, p, i, k, l)
    ensures k < |pieces| && l < |pieces|
  {
  }

  lemma {:induction false} AllShown(pieces: seq<Piece>, marker: Bytes)
    ensures OutputStart(pieces, marker, |pieces|) == |Render(pieces, marker)|
  {
    assert pieces[..|pieces|] == pieces;
  }

  /** For every marker, redacted output is free of patterns for every input if and only if no
      pieces show one, each a byte or a pattern, that are scanned as they were put together; unless
      the marker is empty, no more of them than the pattern is long. */
  lemma OutputCleanExactly(patterns: set<Bytes>, marker: Bytes)
    requires Proper(patterns)
    ensures AlwaysClean(patterns, marker) <==> !CanShow(patterns, marker)
  {
    hide Redact;
    if CanShow(patterns, marker) {
      var p, pieces, i :| p in patterns && Shows(patterns, marker, pieces, p, i);
      ShownAppears(patterns, marker, pieces, p, i);
    }
    forall s, p | p in patterns && Contains(Redact(patterns, marker, s), p) ensures CanShow(patterns, marker) {
      var out := Redact(patterns, marker, s);
      var i :| 0 <= i <= |out| && p <= out[i..];
      assert out[i..i + |p|] == p;
      OccurrenceShows(patterns, marker, s, p, i);
    }
  }

  lemma {:induction false} ShownAppears(patterns: set<Bytes>, marker: Bytes, pieces: seq<Piece>, p: Bytes, i: nat)
    requires Proper(patterns) && Scanned(patterns, pieces) && p != []
    requires i + |p| <= |Render(pieces, marker)| && Render(pieces, marker)[i..i + |p|] == p
    ensures Contains(Redact(patterns, marker, Originals(pieces)), p)
  {
    hide Contains, Scanned, Render;
    ScannedBack(patterns, pieces);
    LiesIn(Render(pieces, marker), p, i);
  }

  // ---- the same for markers apart from the patterns -------------------------------------------------

  /** A pattern is made of an end of the marker, a part that is copied, and a beginning of the marker,
      where the marker stands for `l` before the part and for `r` after it. */
  ghost predicate Joins(patterns: set<Bytes>, marker: Bytes, p: Bytes, i: nat, j: nat, l: Bytes, r: Bytes) {
    && p in patterns && i <= j <= |p| && i <= |marker| && (0 < i || j < |p|)
    && marker[|marker| - i..] == p[..i] && p[j..] <= marker
    && (if i == 0 then l == [] else l in patterns && forall q | q in patterns && q <= l + (p[i..j] + r) :: |q| <= |l|)
    && (if j == |p| then r == [] else r in patterns)
    && forall k | 0 <= k < j - i :: !StartsWithAny(patterns, (p[i..j] + r)[k..])
  }

  ghost predicate CanJoin(patterns: set<Bytes>, marker: Bytes) {
    exists p, i, j, l, r :: Joins(patterns, marker, p, i, j, l, r)
  }

  function CopiedPieces(u: Bytes): (pieces: seq<Piece>)
    ensures |pieces| == |u| && forall k | 0 <= k < |u| :: pieces[k] == Copied(u[k])
  {
    seq(|u|, k requires 0 <= k < |u| => Copied(u[k]))
  }

  lemma {:induction false} CopiedOriginals(u: Bytes)
    ensures Originals(CopiedPieces(u)) == u
    decreases |u|
  {
    if u != [] {
      CopiedOriginals(u[1..]);
      assert CopiedPieces(u)[1..] == CopiedPieces(u[1..]);
    }
  }

  function Hidden(q: Bytes): seq<Piece> {
    if q == [] then [] else [Replaced(q)]
  }

  /** What the marker stands for is shown as it. */
  function Masked(q: Bytes, marker: Bytes): Bytes {
    if q == [] then [] else marker
  }

  lemma {:induction false} HiddenOriginals(q: Bytes, marker: Bytes)
    ensures Originals(Hidden(q)) == q && Render(Hidden(q), marker) == Masked(q, marker)
  {
    if q != [] {
      assert Originals([Replaced(q)]) == q + Originals([]);
      assert Render([Replaced(q)], marker) == marker + Render([], marker);
    }
  }

  /** Copied bytes before a pattern, or before nothing, in which none begins. */
  lemma {:induction false} CopiedAreScanned(patterns: set<Bytes>, u: Bytes, r: Bytes)
    requires r == [] || r in patterns
    requires forall k | 0 <= k < |u| :: !StartsWithAny(patterns, (u + r)[k..])
    ensures Scanned(patterns, CopiedPieces(u) + Hidden(r)) && Originals(CopiedPieces(u) + Hidden(r)) == u + r
    decreases |u|
  {
    hide StartsWithAny, Hidden, Originals;
    HiddenOriginals(r, []);
    CopiedOriginals(u);
    OriginalsSplit(CopiedPieces(u), Hidden(r));
    var pieces := CopiedPieces(u) + Hidden(r);
    if u == [] {
      assert pieces == Hidden(r);
      HiddenIsScanned(patterns, r);
    } else {
      assert pieces[1..] == CopiedPieces(u[1..]) + Hidden(r);
      assert (u + r)[0..] == u + r;
      forall k | 0 <= k < |u| - 1 ensures !StartsWithAny(patterns, (u[1..] + r)[k..]) {
        assert (u[1..] + r)[k..] == (u + r)[k + 1..];
      }
      CopiedAreScanned(patterns, u[1..], r);
    }
  }

  lemma {:induction false} HiddenIsScanned(patterns: set<Bytes>, r: Bytes)
    requires r == [] || r in patterns
    ensures Scanned(patterns, Hidden(r))
  {
    HiddenOriginals(r, []);
  }

  function Joined(l: Bytes, u: Bytes, r: Bytes): seq<Piece> {
    Hidden(l) + (CopiedPieces(u) + Hidden(r))
  }

  lemma {:induction false} JoinedIsScanned(patterns: set<Bytes>, l: Bytes, u: Bytes, r: Bytes)
    requires r == [] || r in patterns
    requires l != [] ==> l in patterns && forall q | q in patterns && q <= l + (u + r) :: |q| <= |l|
    requires forall k | 0 <= k < |u| :: !StartsWithAny(patterns, (u + r)[k..])
    ensures Scanned(patterns, Joined(l, u, r)) && Originals(Joined(l, u, r)) == l + (u + r)
  {
    hide Originals, StartsWithAny, CopiedPieces, Hidden, Scanned;
    var rest := CopiedPieces(u) + Hidden(r);
    CopiedAreScanned(patterns, u, r);
    HiddenOriginals(l, []);
    OriginalsSplit(Hidden(l), rest);
    HiddenThenScanned(patterns, l, rest);
  }

  lemma JoinEnds(patterns: set<Bytes>, marker: Bytes, p: Bytes, i: nat, j: nat, l: Bytes, r: Bytes)
    requires Proper(patterns) && Joins(patterns, marker, p, i, j, l, r)
    ensures var before, after := Masked(l, marker), Masked(r, marker);
            i <= j <= |p| && i <= |before| && before[|before| - i..] == p[..i] && p[j..] <= after
  {
    hide StartsWithAny;
  }

  /** Such a pattern does appear, whatever the marker: in the output for what stands before the
      copied part, that part, and what stands after it. */
  lemma JoinAppears(patterns: set<Bytes>, marker: Bytes, p: Bytes, i: nat, j: nat, l: Bytes, r: Bytes)
    requires Proper(patterns) && Joins(patterns, marker, p, i, j, l, r)
    ensures Contains(Redact(patterns, marker, l + p[i..j] + r), p)
  {
    hide Redact, Contains, StartsWithAny, Joined, Render, Originals, Scanned, Masked;
    var u := p[i..j];
    JoinEnds(patterns, marker, p, i, j, l, r);
    JoinedIsScanned(patterns, l, u, r);
    JoinRenders(marker, l, u, r);
    var before, after := Masked(l, marker), Masked(r, marker);
    Regroup(l, u, r);
    SpanOfParts(before, u, after, p, i, j);
    ShownAppears(patterns, marker, Joined(l, u, r), p, |before| - i);
  }

  lemma {:induction false} HiddenThenScanned(patterns: set<Bytes>, l: Bytes, rest: seq<Piece>)
    requires Scanned(patterns, rest)
    requires l != [] ==> l in patterns && forall q | q in patterns && q <= l + Originals(rest) :: |q| <= |l|
    ensures Scanned(patterns, Hidden(l) + rest)
  {
    var pieces := Hidden(l) + rest;
    if l == [] {
      assert pieces == rest;
    } else {
      assert pieces[1..] == rest;
      assert pieces[0] == Replaced(l);
    }
  }

  lemma {:induction false} JoinRenders(marker: Bytes, l: Bytes, u: Bytes, r: Bytes)
    ensures Render(Joined(l, u, r), marker) ==
            Masked(l, marker) + u + Masked(r, marker)
  {
    hide Hidden, Render;
    HiddenOriginals(l, marker);
    HiddenOriginals(r, marker);
    CopiedOriginals(u);
    RenderCopied(CopiedPieces(u), marker);
    RenderSplit(CopiedPieces(u), Hidden(r), marker);
    RenderSplit(Hidden(l), CopiedPieces(u) + Hidden(r), marker);
  }

  /** An end of one part, the middle, and a beginning of the other. */
  lemma SpanOfParts(before: Bytes, u: Bytes, after: Bytes, p: Bytes, i: nat, j: nat)
    requires i <= j <= |p| && i <= |before| && before[|before| - i..] == p[..i] && u == p[i..j] && p[j..] <= after
    ensures var out := before + u + after;
            |before| - i + |p| <= |out| && out[|before| - i..|before| - i + |p|] == p
  {
    var out := before + u + after;
    var at := |before| - i;
    assert p == p[..i] + p[i..j] + p[j..];
    assert out[at..|before|] == before[at..];
    assert out[|before|..|before| + |u|] == u;
    assert out[|before| + |u|..at + |p|] == after[..|p| - j];
    assert out[at..at + |p|] == out[at..|before|] + out[|before|..|before| + |u|] + out[|before| + |u|..at + |p|];
  }

  /** A marker that is not empty, lies in no pattern and holds none. */
  ghost predicate Apart(patterns: set<Bytes>, marker: Bytes) {
    marker != [] && forall p | p in patterns :: !Contains(marker, p) && !Contains(p, marker)
  }

  /** What is shown from in the first of several pieces to in the last, part by part. */
  lemma SpanSplit(a: Bytes, m: Bytes, b: Bytes, p: Bytes, i: nat)
    requires i < |a| && |a| + |m| < i + |p| <= |a| + |m| + |b| && (a + m + b)[i..i + |p|] == p
    ensures p == a[i..] + m + b[..i + |p| - |a| - |m|]
  {
    var out := a + m + b;
    assert out[i..i + |p|] == out[i..|a|] + out[|a|..|a| + |m|] + out[|a| + |m|..i + |p|];
    assert out[i..|a|] == a[i..] && out[|a|..|a| + |m|] == m && out[|a| + |m|..i + |p|] == b[..i + |p| - |a| - |m|];
  }

  lemma {:induction false} EndsSplit(pieces: seq<Piece>, marker: Bytes)
    requires |pieces| >= 2
    ensures var mid := pieces[1..|pieces| - 1];
            && Render(pieces, marker) == Shown(pieces[0], marker) + Render(mid, marker) + Shown(pieces[|pieces| - 1], marker)
            && Originals(pieces) == pieces[0].Original() + (Originals(mid) + pieces[|pieces| - 1].Original())
            && pieces == [pieces[0]] + mid + [pieces[|pieces| - 1]]
  {
    var mid, last := pieces[1..|pieces| - 1], pieces[|pieces| - 1];
    assert pieces == [pieces[0]] + mid + [last] && pieces[1..] == mid + [last];
    RenderSplit([pieces[0]] + mid, [last], marker);
    RenderSplit([pieces[0]], mid, marker);
    OnePiece(pieces[0], marker);
    OnePiece(last, marker);
    OriginalsSplit(mid, [last]);
    assert Originals([last]) == last.Original() + Originals([]);
  }

  /** Inside the pattern no piece is a marker, for it would lie in the pattern. */
  lemma {:induction false} MiddleIsCopied(mid: seq<Piece>, marker: Bytes, before: Bytes, after: Bytes, k: nat)
    requires k < |mid| && marker != [] && !Contains(before + Render(mid, marker) + after, marker)
    ensures mid[k].Copied?
  {
    hide Contains, Render, OutputStart;
    if mid[k].Replaced? {
      PieceShows(mid, marker, k);
      var m, at := Render(mid, marker), OutputStart(mid, marker, k);
      var whole := before + m + after;
      assert whole[|before|..|before| + |m|] == m;
      Within(whole, |before|, m, at, at + |marker|);
      LiesIn(whole, marker, |before| + at);
    }
  }

  /** What follows a copied piece begins no pattern. */
  lemma {:induction false} CopiedBegins(patterns: set<Bytes>, pieces: seq<Piece>, n: nat, u: Bytes, r: Bytes)
    requires Scanned(patterns, pieces) && n <= |pieces| && |u| == n && Originals(pieces) == u + r
    requires forall k | 0 <= k < n :: pieces[k].Copied?
    ensures forall k | 0 <= k < n :: !StartsWithAny(patterns, (u + r)[k..])
    decreases n
  {
    hide StartsWithAny;
    if n > 0 {
      assert (u + r)[0..] == u + r;
      assert Originals(pieces[1..]) == (u + r)[1..] == u[1..] + r;
      CopiedBegins(patterns, pieces[1..], n - 1, u[1..], r);
      forall k | 0 <= k < n ensures !StartsWithAny(patterns, (u + r)[k..]) {
        if k > 0 {
          assert (u + r)[k..] == (u[1..] + r)[k - 1..];
        }
      }
    }
  }

  lemma ByteIsNone(patterns: set<Bytes>, b: byte, p: Bytes)
    requires p in patterns && !StartsWithAny(patterns, [b])
    ensures p != [b]
  {
  }

  /** One piece shows no pattern on its own. */
  lemma {:induction false} OneShowsNone(patterns: set<Bytes>, marker: Bytes, piece: Piece, p: Bytes, i: nat)
    requires Apart(patterns, marker) && Proper(patterns) && p in patterns
    ensures !Shows(patterns, marker, [piece], p, i)
  {
    hide Contains, StartsWithAny, Render, Originals;
    assert p != [];
    OnePiece(piece, marker);
    OneOriginal(piece);
    var shown := Shown(piece, marker);
    if i + |p| <= |shown| && shown[i..i + |p|] == p {
      if piece.Replaced? {
        LiesIn(marker, p, i);
      } else if !StartsWithAny(patterns, [piece.b]) {
        ByteIsNone(patterns, piece.b, p);
      }
    }
  }

  lemma {:induction false} OneOriginal(piece: Piece)
    ensures Originals([piece]) == piece.Original()
  {
    assert Originals([piece]) == piece.Original() + Originals([]);
  }

  /** Copied pieces with an end of the marker before them or a beginning of it after them. */
  lemma {:induction false} PartsJoin(patterns: set<Bytes>, marker: Bytes, p: Bytes, a: Bytes, u: Bytes, b: Bytes, l: Bytes, r: Bytes, pieces: seq<Piece>)
    requires p in patterns && p == a + u + b && (a != [] || b != [])
    requires |a| <= |marker| && marker[|marker| - |a|..] == a && b <= marker
    requires if a == [] then l == [] else l in patterns && forall q | q in patterns && q <= l + (u + r) :: |q| <= |l|
    requires if b == [] then r == [] else r in patterns
    requires Scanned(patterns, pieces) && |u| <= |pieces| && Originals(pieces) == u + r
    requires forall k | 0 <= k < |u| :: pieces[k].Copied?
    ensures Joins(patterns, marker, p, |a|, |a| + |u|, l, r)
  {
    hide Scanned, StartsWithAny;
    assert p[..|a|] == a && p[|a|..|a| + |u|] == u && p[|a| + |u|..] == b;
    CopiedBegins(patterns, pieces, |u|, u, r);
  }

  function ByteOf(piece: Piece): Bytes {
    if piece.Copied? then [piece.b] else []
  }

  function PatternOf(piece: Piece): Bytes {
    if piece.Copied? then [] else piece.original
  }

  /** A pattern that several pieces show: an end of the first, the middle ones, which are copied,
      and a beginning of the last. */
  lemma {:induction false} ShownParts(patterns: set<Bytes>, marker: Bytes, pieces: seq<Piece>, p: Bytes, i: nat)
    requires Apart(patterns, marker) && p in patterns && |pieces| >= 2
    requires Shows(patterns, marker, pieces, p, i)
    ensures var first, mid, last := pieces[0], pieces[1..|pieces| - 1], pieces[|pieces| - 1];
            var a, b := Shown(first, marker), Shown(last, marker);
            && (forall k | 0 <= k < |mid| :: mid[k].Copied?)
            && exists n :: 0 < n <= |b| && i < |a| && p == a[i..] + Originals(mid) + b[..n]
  {
    hide Contains, Render, Originals, Scanned, StartsWithAny;
    var first, mid, last := pieces[0], pieces[1..|pieces| - 1], pieces[|pieces| - 1];
    EndsSplit(pieces, marker);
    var a, m, b := Shown(first, marker), Render(mid, marker), Shown(last, marker);
    var n := i + |p| - |a| - |m|;
    SpanSplit(a, m, b, p, i);
    forall k | 0 <= k < |mid| ensures mid[k].Copied? {
      MiddleIsCopied(mid, marker, a[i..], b[..n], k);
    }
    RenderCopied(mid, marker);
    assert p == a[i..] + Originals(mid) + b[..n];
  }

  /** The marker's part of what a piece shows. */
  function MarkerOf(piece: Piece, part: Bytes): Bytes {
    if piece.Copied? then [] else part
  }

  lemma EndOfFirst(first: Piece, marker: Bytes, i: nat)
    requires i < |Shown(first, marker)|
    ensures var before := MarkerOf(first, Shown(first, marker)[i..]);
            && Shown(first, marker)[i..] == before + ByteOf(first)
            && |before| <= |marker| && marker[|marker| - |before|..] == before && (first.Replaced? <==> before != [])
  {
  }

  lemma StartOfLast(last: Piece, marker: Bytes, n: nat)
    requires 0 < n <= |Shown(last, marker)|
    ensures var after := MarkerOf(last, Shown(last, marker)[..n]);
            Shown(last, marker)[..n] == ByteOf(last) + after && after <= marker && (last.Replaced? <==> after != [])
  {
  }

  lemma Regrouped(v: Bytes, w: Bytes, x: Bytes, y: Bytes, z: Bytes)
    ensures (v + w) + x + (y + z) == v + (w + x + y) + z
    ensures w + (x + (y + z)) == (w + x + y) + z
  {
  }

  /** Several pieces show a pattern only as a join. */
  lemma {:induction false} ShownJoins(patterns: set<Bytes>, marker: Bytes, pieces: seq<Piece>, p: Bytes, i: nat)
    requires Apart(patterns, marker) && Proper(patterns) && p in patterns && |pieces| >= 2
    requires Shows(patterns, marker, pieces, p, i)
    ensures CanJoin(patterns, marker)
  {
    hide Contains, Render, Originals, Scanned, StartsWithAny, Joins, Begins, Shown, MarkerOf, ByteOf, PatternOf;
    var first, mid, last := pieces[0], pieces[1..|pieces| - 1], pieces[|pieces| - 1];
    ShownParts(patterns, marker, pieces, p, i);
    var a, m, b := Shown(first, marker), Originals(mid), Shown(last, marker);
    var n :| 0 < n <= |b| && i < |a| && p == a[i..] + m + b[..n];
    EndOfFirst(first, marker, i);
    StartOfLast(last, marker, n);
    var u := ByteOf(first) + m + ByteOf(last);
    var before, after := MarkerOf(first, a[i..]), MarkerOf(last, b[..n]);
    Regrouped(before, ByteOf(first), m, ByteOf(last), after);
    RestIs(pieces, mid, m, u);
    ScannedParts(patterns, pieces);
    var rest := if first.Copied? then pieces else pieces[1..];
    if first.Copied? && last.Copied? {
      PatternOfCopied(last);
      CopiedBegins(patterns, rest, |u|, u, []);
      assert p == u;
      NotWhole(patterns, p, u);
    } else {
      PatternsOfEnds(patterns, pieces, u);
      PartsJoin(patterns, marker, p, before, u, after, PatternOf(first), PatternOf(last), rest);
    }
  }

  lemma PatternOfCopied(piece: Piece)
    requires piece.Copied?
    ensures PatternOf(piece) == []
  {
  }

  lemma {:induction false} PatternsOfEnds(patterns: set<Bytes>, pieces: seq<Piece>, u: Bytes)
    requires pieces != [] && Scanned(patterns, pieces)
    requires Originals(pieces) == PatternOf(pieces[0]) + (u + PatternOf(pieces[|pieces| - 1]))
    ensures var l, r := PatternOf(pieces[0]), PatternOf(pieces[|pieces| - 1]);
            && (if pieces[0].Copied? then l == [] else l in patterns && forall q | q in patterns && q <= l + (u + r) :: |q| <= |l|)
            && (if pieces[|pieces| - 1].Copied? then r == [] else r in patterns)
  {
    hide Scanned, Originals;
    ScannedParts(patterns, pieces);
  }

  lemma {:induction false} CopiedLength(pieces: seq<Piece>)
    requires forall k | 0 <= k < |pieces| :: pieces[k].Copied?
    ensures |Originals(pieces)| == |pieces|
    decreases |pieces|
  {
    if pieces != [] {
      CopiedLength(pieces[1..]);
    }
  }

  lemma NotWhole(patterns: set<Bytes>, p: Bytes, u: Bytes)
    requires p in patterns && p != []
    requires forall k | 0 <= k < |u| :: !StartsWithAny(patterns, (u + [])[k..])
    ensures p != u
  {
    if u != [] {
      assert (u + [])[0..] == u;
    }
  }

  /** The copied pieces, and what comes after them. */
  lemma RestIs(pieces: seq<Piece>, mid: seq<Piece>, m: Bytes, u: Bytes)
    requires |pieces| >= 2 && mid == pieces[1..|pieces| - 1] && forall k | 0 <= k < |mid| :: mid[k].Copied?
    requires m == Originals(mid) && u == ByteOf(pieces[0]) + m + ByteOf(pieces[|pieces| - 1])
    ensures var rest := if pieces[0].Copied? then pieces else pieces[1..];
            && |u| <= |rest| && (forall k | 0 <= k < |u| :: rest[k].Copied?)
            && Originals(rest) == u + PatternOf(pieces[|pieces| - 1])
    ensures Originals(pieces) == PatternOf(pieces[0]) + (u + PatternOf(pieces[|pieces| - 1]))
  {
    hide Originals, ByteOf, PatternOf;
    var first, last := pieces[0], pieces[|pieces| - 1];
    assert pieces[1..] == mid + [last] && pieces == [first] + (mid + [last]);
    OriginalsSplit(mid, [last]);
    OriginalsSplit([first], mid + [last]);
    OneOriginal(first);
    OneOriginal(last);
    CopiedLength(mid);
    RestCopied(pieces, mid);
    PartsOf(first);
    PartsOf(last);
    Regrouped([], ByteOf(first), m, ByteOf(last), PatternOf(last));
    if first.Copied? {
      assert [] + (u + PatternOf(last)) == u + PatternOf(last);
    } else {
      assert [] + (m + (ByteOf(last) + PatternOf(last))) == m + (ByteOf(last) + PatternOf(last));
    }
  }

  lemma PartsOf(piece: Piece)
    ensures piece.Original() == ByteOf(piece) + PatternOf(piece)
    ensures if piece.Copied? then PatternOf(piece) == [] && piece.Original() == ByteOf(piece)
            else ByteOf(piece) == [] && piece.Original() == PatternOf(piece)
  {
  }

  lemma RestCopied(pieces: seq<Piece>, mid: seq<Piece>)
    requires |pieces| >= 2 && mid == pieces[1..|pieces| - 1] && forall k | 0 <= k < |mid| :: mid[k].Copied?
    ensures var rest := if pieces[0].Copied? then pieces else pieces[1..];
            var n := |ByteOf(pieces[0])| + |mid| + |ByteOf(pieces[|pieces| - 1])|;
            n <= |rest| && forall k | 0 <= k < n :: rest[k].Copied?
  {
    assert forall k | 0 <= k < |mid| :: pieces[k + 1] == mid[k];
    forall k | 0 < k < |pieces| - 1 ensures pieces[k].Copied? {
      assert mid[k - 1] == pieces[k];
    }
  }

  lemma {:induction false} ScannedParts(patterns: set<Bytes>, pieces: seq<Piece>)
    requires pieces != [] && Scanned(patterns, pieces)
    ensures Scanned(patterns, pieces[1..])
    ensures pieces[0].Replaced? ==>
              pieces[0].original in patterns && forall q | q in patterns && q <= Originals(pieces) :: |q| <= |pieces[0].original|
    ensures pieces[|pieces| - 1].Replaced? ==> pieces[|pieces| - 1].original in patterns
  {
    SuffixIsScanned(patterns, pieces, |pieces| - 1);
  }

  /** With a marker apart from the patterns, redacted output is free of patterns for every input if
      and only if no pattern joins the marker: at its end, at its beginning, or at both. */
  lemma CleanUnlessJoined(patterns: set<Bytes>, marker: Bytes)
    requires Proper(patterns) && Apart(patterns, marker)
    ensures AlwaysClean(patterns, marker) <==> !CanJoin(patterns, marker)
  {
    hide Redact, AlwaysClean, Apart, Joins, Shows;
    OutputCleanExactly(patterns, marker);
    if CanJoin(patterns, marker) {
      JoinIsSeen(patterns, marker);
    }
    if CanShow(patterns, marker) {
      var p, pieces, i :| p in patterns && Shows(patterns, marker, pieces, p, i);
      SomeShown(patterns, marker, pieces, p, i);
      if |pieces| == 1 {
        OneShowsNone(patterns, marker, pieces[0], p, i);
        assert pieces == [pieces[0]];
      } else {
        ShownJoins(patterns, marker, pieces, p, i);
      }
    }
  }

  lemma JoinIsSeen(patterns: set<Bytes>, marker: Bytes)
    requires Proper(patterns) && CanJoin(patterns, marker)
    ensures !AlwaysClean(patterns, marker)
  {
    hide Contains, Redact;
    var p, i, j, l, r :| Joins(patterns, marker, p, i, j, l, r);
    JoinAppears(patterns, marker, p, i, j, l, r);
  }

  lemma SomeShown(patterns: set<Bytes>, marker: Bytes, pieces: seq<Piece>, p: Bytes, i: nat)
    requires Shows(patterns, marker, pieces, p, i)
    ensures pieces != []
  {
  }

  /** A suffix of `a` that is not empty is a prefix of `b`. */
  predicate Meets(a: Bytes, b: Bytes) {
    exists n | 0 < n <= |a| && n <= |b| :: a[|a| - n..] == b[..n]
  }

  lemma MeetsBy(a: Bytes, b: Bytes, n: nat)
    requires 0 < n <= |a| && n <= |b| && a[|a| - n..] == b[..n]
    ensures Meets(a, b)
  {
  }

  /** In particular it is when the patterns and the marker do not touch at all. */
  lemma NoOverlapIsClean(patterns: set<Bytes>, marker: Bytes)
    requires Proper(patterns) && Apart(patterns, marker)
    requires forall p | p in patterns :: !Meets(p, marker) && !Meets(marker, p)
    ensures AlwaysClean(patterns, marker)
  {
    hide AlwaysClean, Apart, StartsWithAny, Meets;
    CleanUnlessJoined(patterns, marker);
    if CanJoin(patterns, marker) {
      var p, i, j, l, r :| Joins(patterns, marker, p, i, j, l, r);
      if i > 0 {
        MeetsBy(marker, p, i);
      } else {
        MeetsBy(p, marker, |p| - j);
      }
    }
  }

  // ---- markers that the code chooses ----------------------------------------------------------------

  /** The empty marker, with which what is copied before and after a pattern meets, is chosen only
      when every printable byte is a pattern. */
  lemma EmptyMarkerMeans(name: Bytes, patterns: seq<Bytes>)
    requires IsChosen(name, patterns, [])
    ensures forall b: byte | 0x21 <= b < 0x7f :: [b] in patterns
  {
    hide Contains;
    var candidates := Candidates(name);
    forall b: byte | 0x21 <= b < 0x7f ensures [b] in patterns {
      assert candidates[4 + (b - 0x21)] == [b];
      var p :| p in patterns && Contains([b], p);
      InOneByte(b, p);
    }
  }

  lemma InOneByte(b: byte, p: Bytes)
    requires Contains([b], p)
    ensures p == [b]
  {
    var i :| 0 <= i <= 1 && p <= [b][i..];
    assert |p| == 1;
  }

  /** A secret with an 'x' in it is not in the second text, so one of the first two is chosen. */
  lemma ChosenText(name: Bytes, p: Bytes, marker: Bytes)
    requires 120 in p && IsChosen(name, [p], marker)
    ensures Clean([p], marker) && (marker == MarkerTexts(name)[0] || marker == MarkerTexts(name)[1])
    ensures Clean([p], MarkerTexts(name)[0]) ==> marker == MarkerTexts(name)[0]
  {
    hide Contains;
    var candidates := Candidates(name);
    SecondTextIsClean(p);
    assert candidates[0] == MarkerTexts(name)[0] && candidates[1] == MarkerTexts(name)[1];
  }

  lemma SecondTextIsClean(p: Bytes)
    requires 120 in p
    ensures Clean([p], Ascii("[REDACTED: SECRET]"))
  {
    var text := Ascii("[REDACTED: SECRET]");
    var k :| 0 <= k < |p| && p[k] == 120;
    assert forall i | 0 <= i < |text| :: text[i] != 120;
    forall i | 0 <= i <= |text| ensures !(p <= text[i..]) {
      assert i + k < |text| ==> text[i..][k] == text[i + k];
    }
  }

  /** The marker begins and ends with a bracket whatever the secret is called. */
  lemma ChosenBrackets(name: Bytes, p: Bytes, marker: Bytes)
    requires 120 in p && IsChosen(name, [p], marker)
    ensures Clean([p], marker) && marker != [] && marker[0] == 91 && marker[|marker| - 1] == 93
  {
    hide Contains, IsChosen;
    ChosenText(name, p, marker);
  }

  /** So the output can show the secret `x[` where its marker begins. */
  lemma ChosenMarkerJoins(name: Bytes, marker: Bytes)
    requires IsChosen(name, [[120, 91]], marker)
    ensures Clean([[120, 91]], marker)
    ensures Contains(Redact({[120, 91]}, marker, [120, 120, 91]), [120, 91])
  {
    hide Contains, Redact, IsChosen;
    var p: Bytes := [120, 91];
    ChosenBrackets(name, p, marker);
    assert p[1..] == [91] && p[1..] <= marker && p[0..1] == [120];
    assert marker[|marker| - 0..] == p[..0];
    assert (p[0..1] + p)[0..] == [120, 120, 91];
    assert !StartsWithAny({p}, [120, 120, 91]);
    JoinAppears({p}, marker, p, 0, 1, [], p);
    assert [] + p[0..1] + p == [120, 120, 91];
  }

  /** And the secret `]x` where it ends. */
  lemma ChosenMarkerEnds(name: Bytes, marker: Bytes)
    requires IsChosen(name, [[93, 120]], marker)
    ensures Clean([[93, 120]], marker)
    ensures Contains(Redact({[93, 120]}, marker, [93, 120, 120]), [93, 120])
  {
    hide Contains, Redact, IsChosen;
    var p: Bytes := [93, 120];
    ChosenBrackets(name, p, marker);
    assert p[..1] == [93] == marker[|marker| - 1..] && p[1..2] == [120] && p[2..] == [];
    assert ([120] + [])[0..] == [120];
    assert !StartsWithAny({p}, [120]);
    JoinAppears({p}, marker, p, 1, 2, p, []);
    assert p + p[1..2] + [] == [93, 120, 120];
  }

  /** And a secret that is `x` and its own marker. */
  lemma ChosenMarkerInside(name: Bytes, marker: Bytes)
    requires IsChosen(name, [[120] + MarkerTexts(name)[0]], marker)
    ensures Clean([[120] + MarkerTexts(name)[0]], marker)
    ensures var p := [120] + MarkerTexts(name)[0];
            Contains(Redact({p}, marker, [120] + p), p)
  {
    hide Contains, Redact, IsChosen;
    var text := MarkerTexts(name)[0];
    var p := [120] + text;
    LongerIsClean(text, p);
    ChosenText(name, p, marker);
    assert p[1..] == marker && p[0..1] == [120] && marker[|marker| - 0..] == p[..0];
    assert text[0] == 91 && p[1] == 91;
    assert ([120] + p)[0..] == [120] + p && ([120] + p)[1] == 120;
    assert !StartsWithAny({p}, [120] + p);
    JoinAppears({p}, marker, p, 0, 1, [], p);
    assert [] + p[0..1] + p == [120] + p;
  }

  lemma LongerIsClean(text: Bytes, p: Bytes)
    requires |p| > |text|
    ensures Clean([p], text)
  {
  }
}
