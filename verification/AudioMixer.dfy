/** Mixing the microphones of several peers into one stream: a jitter buffer for each peer, and
    one frame of 16-bit samples from whoever plays. */
module AudioMixers {
  import opened Wrappers

  type PeerId = nat

  const FRAME_SAMPLES: nat := 960
  const FRAME_BYTES: nat := 1920
  const JITTER_FRAMES: nat := 3
  const MAX_QUEUED_FRAMES: nat := 25

  predicate IsFrame(data: Bytes) {
    |data| == FRAME_BYTES
  }

  // ---- samples -------------------------------------------------------------------------

  const I16_MIN: int := -32768
  const I16_MAX: int := 32767
  const I32_MIN: int := -2147483648
  const I32_MAX: int := 2147483647

  /** `i16::from_le_bytes`. */
  function FromBytes(low: byte, high: byte): (sample: int)
    ensures I16_MIN <= sample <= I16_MAX
  {
    var v: int := low as int + 256 * (high as int);
    if v >= 32768 then v - 65536 else v
  }

  /** `to_le_bytes`. */
  function ToBytes(sample: int): (bytes: (byte, byte))
    requires I16_MIN <= sample <= I16_MAX
    ensures FromBytes(bytes.0, bytes.1) == sample
  {
    var v := if sample < 0 then sample + 65536 else sample;
    (v % 256, v / 256)
  }

  function Sample(frame: Bytes, k: nat): (sample: int)
    requires IsFrame(frame) && k < FRAME_SAMPLES
    ensures I16_MIN <= sample <= I16_MAX
  {
    FromBytes(frame[2 * k], frame[2 * k + 1])
  }

  /** A 32-bit sum keeps its lowest 32 bits. */
  function Wrapped(x: int): (w: int)
    ensures I32_MIN <= w <= I32_MAX
    ensures I32_MIN <= x <= I32_MAX ==> w == x
  {
    (x - I32_MIN) % 0x1_0000_0000 + I32_MIN
  }

  predicate AreFrames(active: seq<Bytes>) {
    forall i | 0 <= i < |active| :: IsFrame(active[i])
  }

  function Sum(active: seq<Bytes>, k: nat): int
    requires AreFrames(active) && k < FRAME_SAMPLES
  {
    if active == [] then 0 else Sum(active[..|active| - 1], k) + Sample(active[|active| - 1], k)
  }

  function WrappedSum(active: seq<Bytes>, k: nat): int
    requires AreFrames(active) && k < FRAME_SAMPLES
  {
    if active == [] then 0 else Wrapped(WrappedSum(active[..|active| - 1], k) + Sample(active[|active| - 1], k))
  }

  /** Division that truncates toward zero. */
  function Truncated(a: int, b: int): int
    requires b > 0
  {
    if a < 0 then -(-a / b) else a / b
  }

  function Clamped(x: int): (c: int)
    ensures I16_MIN <= c <= I16_MAX
  {
    if x < I16_MIN then I16_MIN else if x > I16_MAX then I16_MAX else x
  }

  function Divisor(n: nat): int {
    if n <= I32_MAX then n else I32_MAX
  }

  /** One mixed sample; silence when nobody plays. */
  function Mixed(active: seq<Bytes>, k: nat): (sample: int)
    requires AreFrames(active) && k < FRAME_SAMPLES
    ensures I16_MIN <= sample <= I16_MAX
  {
    if active == [] then 0 else Clamped(Truncated(WrappedSum(active, k), Divisor(|active|)))
  }

  lemma {:induction false} SumBounds(active: seq<Bytes>, k: nat, low: int, high: int)
    requires AreFrames(active) && k < FRAME_SAMPLES
    requires forall i | 0 <= i < |active| :: low <= Sample(active[i], k) <= high
    ensures low * |active| <= Sum(active, k) <= high * |active|
  {
    hide Sample;
    if active != [] {
      var n := |active|;
      SumBounds(active[..n - 1], k, low, high);
      assert low * n == low * (n - 1) + low && high * n == high * (n - 1) + high;
    }
  }

  /** Up to 65,536 samples of 16 bits fit in 32, after each addition. */
  lemma {:induction false} SumFits(active: seq<Bytes>, k: nat)
    requires AreFrames(active) && k < FRAME_SAMPLES && |active| <= 65536
    ensures WrappedSum(active, k) == Sum(active, k) && I32_MIN <= Sum(active, k) <= I32_MAX
  {
    hide Sample, Wrapped;
    SumBounds(active, k, I16_MIN, I16_MAX);
    if active != [] {
      SumFits(active[..|active| - 1], k);
    }
  }

  lemma WrappedAgain(x: int, y: int)
    ensures Wrapped(Wrapped(x) + y) == Wrapped(x + y)
  {
    var m := 0x1_0000_0000;
    var q := (x - I32_MIN) / m;
    assert Wrapped(x) == x - q * m;
    SameRemainder(x + y - I32_MIN, q);
  }

  lemma SameRemainder(a: int, q: int)
    ensures (a - q * 0x1_0000_0000) % 0x1_0000_0000 == a % 0x1_0000_0000
  {
    var m := 0x1_0000_0000;
    assert a - q * m == (a / m - q) * m + a % m;
  }

  /** Wrapping after each addition is wrapping once. */
  lemma {:induction false} WrapsOnce(active: seq<Bytes>, k: nat)
    requires AreFrames(active) && k < FRAME_SAMPLES
    ensures WrappedSum(active, k) == Wrapped(Sum(active, k))
    decreases |active|
  {
    hide Sample, Wrapped;
    if active == [] {
      NothingWraps();
    } else {
      var n := |active| - 1;
      WrapsOnce(active[..n], k);
      WrappedAgain(Sum(active[..n], k), Sample(active[n], k));
    }
  }

  lemma NothingWraps()
    ensures Wrapped(0) == 0
  {
  }

  lemma TruncatedBetween(sum: int, n: int, low: int, high: int)
    requires n > 0 && low * n <= sum <= high * n
    ensures low <= Truncated(sum, n) <= high
  {
    var q := Truncated(sum, n);
    if sum >= 0 {
      assert sum == n * q + sum % n;
      QuotientBetween(sum, n, q, low, high);
    } else {
      assert -sum == n * (-q) + (-sum) % n;
      QuotientBetween(-sum, n, -q, -high, -low);
    }
  }

  lemma QuotientBetween(sum: int, n: int, q: int, low: int, high: int)
    requires n > 0 && sum >= 0 && low * n <= sum <= high * n && n * q <= sum < n * q + n
    ensures low <= q <= high
  {
    assert q < low ==> n * (q + 1) <= n * low;
    assert q > high ==> n * (high + 1) <= n * q;
  }

  /** Every mixed sample lies between the least and the greatest that went into it, so the clamp
      never changes it. */
  lemma {:induction false} MixedIsBetween(active: seq<Bytes>, k: nat, low: int, high: int)
    requires AreFrames(active) && k < FRAME_SAMPLES && 0 < |active| <= 65536
    requires I16_MIN <= low && high <= I16_MAX
    requires forall i | 0 <= i < |active| :: low <= Sample(active[i], k) <= high
    ensures low <= Mixed(active, k) <= high
    ensures Mixed(active, k) == Truncated(Sum(active, k), |active|)
  {
    hide Sample, Truncated, WrappedSum, Sum;
    SumFits(active, k);
    SumBounds(active, k, low, high);
    TruncatedBetween(Sum(active, k), |active|, low, high);
  }

  /** What is mixed is the sum over the number of peers, rounded toward zero. */
  lemma {:induction false} MixedRoundsTowardZero(active: seq<Bytes>, k: nat)
    requires AreFrames(active) && k < FRAME_SAMPLES && 0 < |active| <= 65536
    ensures var sum, n, m := Sum(active, k), |active|, Mixed(active, k);
            if sum >= 0 then m >= 0 && n * m <= sum < n * m + n else m <= 0 && n * m - n < sum <= n * m
  {
    hide Sample, WrappedSum, Sum;
    MixedIsBetween(active, k, I16_MIN, I16_MAX);
    Division(Sum(active, k), |active|);
  }

  lemma Quotient(a: nat, n: nat) returns (q: nat)
    requires n > 0
    ensures a / n == q && n * q <= a < n * q + n
  {
    q := a / n;
  }

  lemma Division(sum: int, n: int)
    requires n > 0
    ensures var m := Truncated(sum, n);
            if sum >= 0 then m >= 0 && n * m <= sum < n * m + n else m <= 0 && n * m - n < sum <= n * m
  {
    if sum >= 0 {
      var q := Quotient(sum, n);
    } else {
      var q := Quotient(-sum, n);
      Negated(n, q);
    }
  }

  lemma Negated(n: int, q: int)
    ensures n * -q == -(n * q)
  {
  }

  /** All samples at the lowest value: a frame of them. */
  function Quietest(): (frame: Bytes)
    ensures IsFrame(frame) && forall k | 0 <= k < FRAME_SAMPLES :: Sample(frame, k) == I16_MIN
  {
    seq(FRAME_BYTES, i => if i % 2 == 0 then 0 else 128)
  }

  lemma {:induction false} SumOfQuietest(n: nat, k: nat)
    requires k < FRAME_SAMPLES
    ensures AreFrames(seq(n, _ => Quietest())) && Sum(seq(n, _ => Quietest()), k) == I16_MIN * n
  {
    hide Quietest, Sample;
    if n > 0 {
      SumOfQuietest(n - 1, k);
      assert seq(n, _ => Quietest())[..n - 1] == seq(n - 1, _ => Quietest());
    }
  }

  /** The sums of `n` samples all come out right. */
  ghost predicate AlwaysFits(n: nat) {
    forall active, k | |active| == n && AreFrames(active) && 0 <= k < FRAME_SAMPLES :: WrappedSum(active, k) == Sum(active, k)
  }

  /** They do for 65,536 peers, and for no more: the lowest samples of more peers leave 32 bits. */
  lemma SumFitsExactly(n: nat)
    ensures AlwaysFits(n) <==> n <= 65536
  {
    hide Sample, Quietest, Wrapped, Sum, WrappedSum;
    if n <= 65536 {
      forall active, k | |active| == n && AreFrames(active) && 0 <= k < FRAME_SAMPLES ensures WrappedSum(active, k) == Sum(active, k) {
        SumFits(active, k);
      }
    } else {
      var active := seq(n, _ => Quietest());
      SumOfQuietest(n, 0);
      WrapsOnce(active, 0);
      assert I16_MIN * n < I32_MIN;
      assert WrappedSum(active, 0) != Sum(active, 0);
    }
  }

  /** Every mix of `n` frames lies between the least and the greatest sample that went into it. */
  ghost predicate AlwaysBetween(n: nat) {
    forall active, k, low, high |
      && |active| == n && AreFrames(active) && 0 <= k < FRAME_SAMPLES && I16_MIN <= low && high <= I16_MAX
      && Ranges(active, k, low, high) :: low <= Mixed(active, k) <= high
  }

  predicate Ranges(active: seq<Bytes>, k: nat, low: int, high: int)
    requires AreFrames(active) && k < FRAME_SAMPLES
  {
    forall i | 0 <= i < |active| :: low <= Sample(active[i], k) <= high
  }

  lemma QuotientBelow(a: int, n: int, bound: int)
    requires n > 0 && 0 <= a < bound * n
    ensures a / n < bound
  {
    var q := a / n;
    assert n * q + a % n == a;
    assert q >= bound ==> n * q >= n * bound;
  }

  lemma QuotientAbove(sum: int, n: int)
    requires n > 0 && I16_MIN * n < sum
    ensures I16_MIN < Truncated(sum, n)
  {
    if sum < 0 {
      QuotientBelow(-sum, n, -I16_MIN);
    } else {
      QuotientBetween(sum, n, sum / n, 0, sum);
    }
  }

  /** No 32-bit sum is low enough to give the lowest sample when divided by so many. */
  lemma QuietestMix(n: nat)
    requires n > 65536
    ensures var active := seq(n, _ => Quietest());
            AreFrames(active) && Mixed(active, 0) > I16_MIN
  {
    hide Quietest, Sample, Sum, WrappedSum, Wrapped, Truncated;
    var active := seq(n, _ => Quietest());
    SumOfQuietest(n, 0);
    WrapsOnce(active, 0);
    QuotientAbove(WrappedSum(active, 0), Divisor(n));
  }

  /** They do for 65,536 peers, and for no more: so many lowest samples mix to a higher one. */
  lemma MixedIsBetweenExactly(n: nat)
    requires n > 0
    ensures AlwaysBetween(n) <==> n <= 65536
  {
    hide Sample, Quietest, Mixed;
    if n <= 65536 {
      forall active, k, low, high |
        && |active| == n && AreFrames(active) && 0 <= k < FRAME_SAMPLES && I16_MIN <= low && high <= I16_MAX
        && Ranges(active, k, low, high)
        ensures low <= Mixed(active, k) <= high
      {
        MixedIsBetween(active, k, low, high);
      }
    } else {
      var active := seq(n, _ => Quietest());
      QuietestMix(n);
      assert Ranges(active, 0, I16_MIN, I16_MIN);
    }
  }

  /** The mix of one peer too many, all at the lowest sample, is a high one. */
  lemma OnePeerMoreWraps()
    ensures var active := seq(65537, _ => Quietest());
            AreFrames(active) && Mixed(active, 0) > 0
  {
    hide Quietest, Sample, Sum, WrappedSum;
    SumOfQuietest(65537, 0);
    WrapsOnce(seq(65537, _ => Quietest()), 0);
    assert Wrapped(I16_MIN * 65537) == 2147450880;
  }

  // ---- one peer's buffer -------------------------------------------------------------------

  datatype Buffer = Buffer(frames: seq<Bytes>, playing: bool)

  const EMPTY := Buffer([], false)

  /** A full queue is cut down to its last three frames first. */
  function Pushed(buffer: Buffer, data: Bytes): Buffer {
    var n := |buffer.frames|;
    var kept := if n >= MAX_QUEUED_FRAMES then buffer.frames[n - JITTER_FRAMES..] else buffer.frames;
    buffer.(frames := kept + [data])
  }

  /** One tick: a peer starts to play with three frames queued, and stops when it has none. */
  function Ticked(buffer: Buffer): (Option<Bytes>, Buffer) {
    var playing := buffer.playing || |buffer.frames| >= JITTER_FRAMES;
    if !playing then (None, buffer)
    else if buffer.frames == [] then (None, buffer.(playing := false))
    else (Some(buffer.frames[0]), Buffer(buffer.frames[1..], true))
  }

  // ---- the mixer --------------------------------------------------------------------------------

  type Peers = map<PeerId, Buffer>

  /** The frames that the peers play, in the order in which they are visited. */
  function Played(peers: Peers, order: seq<PeerId>): seq<Bytes>
    requires forall i | 0 <= i < |order| :: order[i] in peers
  {
    if order == [] then []
    else
      var last := order[|order| - 1];
      Played(peers, order[..|order| - 1]) + if Ticked(peers[last]).0.Some? then [Ticked(peers[last]).0.value] else []
  }

  function TickedPeers(peers: Peers): Peers {
    map peer | peer in peers :: Ticked(peers[peer]).1
  }

  /** Each peer once. */
  ghost predicate Visits(order: seq<PeerId>, peers: set<PeerId>) {
    && (forall i, j | 0 <= i < j < |order| :: order[i] != order[j])
    && (forall peer :: peer in peers <==> peer in order)
  }

  // ---- the order of the map does not matter ---------------------------------------------------

  function Total(order: seq<PeerId>, weight: PeerId -> int): int {
    if order == [] then 0 else Total(order[..|order| - 1], weight) + weight(order[|order| - 1])
  }

  function Removed(order: seq<PeerId>, i: nat): seq<PeerId>
    requires i < |order|
  {
    order[..i] + order[i + 1..]
  }

  lemma {:induction false} TotalWithout(order: seq<PeerId>, i: nat, weight: PeerId -> int)
    requires i < |order|
    ensures Total(order, weight) == Total(Removed(order, i), weight) + weight(order[i])
    decreases |order|
  {
    var n := |order| - 1;
    if i == n {
      assert Removed(order, i) == order[..n];
    } else {
      TotalWithout(order[..n], i, weight);
      var rest := Removed(order, i);
      assert rest[..n - 1] == Removed(order[..n], i) && rest[n - 1] == order[n];
    }
  }

  lemma VisitsRest(order: seq<PeerId>, peers: set<PeerId>, i: nat)
    requires Visits(order, peers) && i < |order|
    ensures Visits(Removed(order, i), peers - {order[i]})
  {
    var rest := Removed(order, i);
    forall peer ensures peer in peers - {order[i]} <==> peer in rest {
      if peer in peers && peer != order[i] {
        var j :| 0 <= j < |order| && order[j] == peer;
        assert rest[if j < i then j else j - 1] == peer;
      }
      if peer in rest {
        var j :| 0 <= j < |rest| && rest[j] == peer;
        assert order[if j < i then j else j + 1] == peer;
      }
    }
  }

  lemma {:induction false} TotalsAgree(a: seq<PeerId>, b: seq<PeerId>, peers: set<PeerId>, weight: PeerId -> int)
    requires Visits(a, peers) && Visits(b, peers)
    ensures Total(a, weight) == Total(b, weight)
    decreases |a|
  {
    hide Visits;
    if a == [] {
      if b != [] {
        NotEmptyToo(b, a, peers);
      }
    } else {
      NotEmptyToo(a, b, peers);
      var n := |a| - 1;
      var i := IndexIn(a, b, peers, n);
      VisitsRest(a, peers, n);
      VisitsRest(b, peers, i);
      TotalsAgree(Removed(a, n), Removed(b, i), peers - {a[n]}, weight);
      TotalWithout(a, n, weight);
      TotalWithout(b, i, weight);
    }
  }

  lemma NotEmptyToo(a: seq<PeerId>, b: seq<PeerId>, peers: set<PeerId>)
    requires Visits(a, peers) && Visits(b, peers) && a != []
    ensures b != []
  {
    assert a[0] in a;
  }

  lemma IndexIn(a: seq<PeerId>, b: seq<PeerId>, peers: set<PeerId>, n: nat) returns (i: nat)
    requires Visits(a, peers) && Visits(b, peers) && n < |a|
    ensures i < |b| && b[i] == a[n]
  {
    assert a[n] in peers;
    i :| i < |b| && b[i] == a[n];
  }

  /** What a peer adds to a sample, and whether it plays at all. */
  function Volume(peers: Peers, k: nat): PeerId -> int
    requires forall peer | peer in peers && Ticked(peers[peer]).0.Some? :: IsFrame(Ticked(peers[peer]).0.value)
    requires k < FRAME_SAMPLES
  {
    peer => if peer in peers && Ticked(peers[peer]).0.Some? then Sample(Ticked(peers[peer]).0.value, k) else 0
  }

  function Plays(peers: Peers): PeerId -> int {
    peer => if peer in peers && Ticked(peers[peer]).0.Some? then 1 else 0
  }

  lemma {:induction false} PlayedTotals(peers: Peers, order: seq<PeerId>, k: nat)
    requires forall peer | peer in peers && Ticked(peers[peer]).0.Some? :: IsFrame(Ticked(peers[peer]).0.value)
    requires (forall i | 0 <= i < |order| :: order[i] in peers) && k < FRAME_SAMPLES
    ensures AreFrames(Played(peers, order))
    ensures Sum(Played(peers, order), k) == Total(order, Volume(peers, k))
    ensures |Played(peers, order)| == Total(order, Plays(peers))
    decreases |order|
  {
    hide Ticked, Sample, IsFrame;
    if order != [] {
      var n := |order| - 1;
      PlayedTotals(peers, order[..n], k);
      var before := Played(peers, order[..n]);
      if Ticked(peers[order[n]]).0.Some? {
        assert Played(peers, order)[..|before|] == before;
      } else {
        assert Played(peers, order) == before;
      }
    }
  }

  /** Whichever order the peers are visited in, every mixed sample is the same. */
  ghost predicate AllFrames(peers: Peers) {
    forall peer | peer in peers :: AreFrames(peers[peer].frames)
  }

  lemma TicksFrames(peers: Peers, peer: PeerId)
    requires AllFrames(peers) && peer in peers && Ticked(peers[peer]).0.Some?
    ensures IsFrame(Ticked(peers[peer]).0.value)
  {
  }

  /** Whichever order the peers are visited in, every mixed sample is the same. */
  lemma {:induction false} OrderDoesNotMatter(peers: Peers, a: seq<PeerId>, b: seq<PeerId>, k: nat)
    requires AllFrames(peers) && Visits(a, peers.Keys) && Visits(b, peers.Keys) && k < FRAME_SAMPLES
    ensures (forall i | 0 <= i < |a| :: a[i] in peers) && (forall i | 0 <= i < |b| :: b[i] in peers)
    ensures AreFrames(Played(peers, a)) && AreFrames(Played(peers, b))
    ensures |Played(peers, a)| == |Played(peers, b)| && Sum(Played(peers, a), k) == Sum(Played(peers, b), k)
    ensures Mixed(Played(peers, a), k) == Mixed(Played(peers, b), k)
  {
    hide Ticked, Sample, IsFrame, Sum, WrappedSum, Truncated, Clamped, AreFrames, Wrapped;
    forall peer | peer in peers && Ticked(peers[peer]).0.Some? ensures IsFrame(Ticked(peers[peer]).0.value) {
      TicksFrames(peers, peer);
    }
    PlayedTotals(peers, a, k);
    PlayedTotals(peers, b, k);
    TotalsAgree(a, b, peers.Keys, Volume(peers, k));
    TotalsAgree(a, b, peers.Keys, Plays(peers));
    WrapsOnce(Played(peers, a), k);
    WrapsOnce(Played(peers, b), k);
  }

  // ---- runs --------------------------------------------------------------------------------------

  datatype Action = Push(peer: PeerId, data: Bytes) | Tick | Retain(active: set<PeerId>)

  function BufferOf(peers: Peers, peer: PeerId): Buffer {
    if peer in peers then peers[peer] else EMPTY
  }

  function Next(peers: Peers, a: Action): Peers {
    match a
    case Push(peer, data) => if IsFrame(data) then peers[peer := Pushed(BufferOf(peers, peer), data)] else peers
    case Tick => TickedPeers(peers)
    case Retain(active) => map peer | peer in peers && peer in active :: peers[peer]
  }

  /** The buffers after these actions, from none. */
  function After(run: seq<Action>): Peers {
    if run == [] then map[] else Next(After(run[..|run| - 1]), run[|run| - 1])
  }

  /** What became of a peer's frames since it was first heard of, or last not retained: those it
      pushed, those it played, which of the pushed ones these were, and how many were dropped. */
  datatype History = History(pushed: seq<Bytes>, played: seq<Bytes>, which: seq<nat>, dropped: nat)

  const NEW := History([], [], [], 0)

  /** A frame that leaves the queue is played or dropped. */
  function Extended(h: History, before: Buffer, a: Action): History {
    match a
    case Push(_, data) =>
      h.(pushed := h.pushed + [data], dropped := h.dropped + Dropped(before))
    case Tick =>
      if Ticked(before).0.Some? then
        h.(played := h.played + [Ticked(before).0.value],
           which := h.which + [if |before.frames| <= |h.pushed| then |h.pushed| - |before.frames| else 0])
      else h
    case Retain(_) => h
  }

  /** How many frames a push takes out of the queue. */
  function Dropped(before: Buffer): nat {
    if |before.frames| >= MAX_QUEUED_FRAMES then |before.frames| - JITTER_FRAMES else 0
  }

  function NextHistory(h: History, before: Buffer, a: Action, peer: PeerId): History {
    match a
    case Push(q, data) => if q == peer && IsFrame(data) then Extended(h, before, a) else h
    case Tick => Extended(h, before, a)
    case Retain(active) => if peer in active then h else NEW
  }

  function HistoryOf(run: seq<Action>, peer: PeerId): History {
    if run == [] then NEW
    else
      var n := |run| - 1;
      NextHistory(HistoryOf(run[..n], peer), BufferOf(After(run[..n]), peer), run[n], peer)
  }

  /** The queue is the end of what was pushed; the frames before it were played, in order, or
      dropped. */
  ghost predicate Accounted(buffer: Buffer, h: History) {
    && |buffer.frames| <= MAX_QUEUED_FRAMES && AreFrames(h.pushed)
    && |h.pushed| == |h.played| + h.dropped + |buffer.frames|
    && buffer.frames == h.pushed[|h.pushed| - |buffer.frames|..]
    && |h.played| == |h.which|
    && (forall i | 0 <= i < |h.which| :: h.which[i] < |h.pushed| - |buffer.frames| && h.played[i] == h.pushed[h.which[i]])
    && (forall i, j | 0 <= i < j < |h.which| :: h.which[i] < h.which[j])
  }

  lemma NewAccounted()
    ensures Accounted(EMPTY, NEW)
  {
  }

  lemma PushAccounted(buffer: Buffer, h: History, peer: PeerId, data: Bytes)
    requires Accounted(buffer, h) && IsFrame(data)
    ensures Accounted(Pushed(buffer, data), Extended(h, buffer, Push(peer, data)))
  {
    var next := Extended(h, buffer, Push(peer, data));
    var left := |next.pushed| - |Pushed(buffer, data).frames|;
    assert forall i | 0 <= i < |next.pushed| :: IsFrame(next.pushed[i]);
    assert next.pushed[left..] == Pushed(buffer, data).frames;
  }

  lemma TickAccounted(buffer: Buffer, h: History)
    requires Accounted(buffer, h)
    ensures Accounted(Ticked(buffer).1, Extended(h, buffer, Tick))
  {
    var next := Extended(h, buffer, Tick);
    assert Ticked(buffer).0.Some? ==> next.which == h.which + [|h.pushed| - |buffer.frames|];
  }

  /** What one action does to one peer's buffer. */
  function NextBuffer(before: Buffer, a: Action, peer: PeerId): Buffer {
    match a
    case Push(q, data) => if q == peer && IsFrame(data) then Pushed(before, data) else before
    case Tick => Ticked(before).1
    case Retain(active) => if peer in active then before else EMPTY
  }

  lemma BufferSteps(peers: Peers, a: Action, peer: PeerId)
    ensures BufferOf(Next(peers, a), peer) == NextBuffer(BufferOf(peers, peer), a, peer)
  {
    hide Pushed, IsFrame;
    assert Ticked(EMPTY) == (None, EMPTY);
  }

  lemma StepAccounted(before: Buffer, h: History, a: Action, peer: PeerId)
    requires Accounted(before, h)
    ensures Accounted(NextBuffer(before, a, peer), NextHistory(h, before, a, peer))
  {
    hide Accounted, Pushed, Ticked, Extended, IsFrame;
    if a.Push? {
      if a.peer == peer && IsFrame(a.data) {
        PushAccounted(before, h, a.peer, a.data);
      }
    } else if a.Tick? {
      TickAccounted(before, h);
    } else if peer !in a.active {
      NewAccounted();
    }
  }

  lemma {:induction false} RunAccounted(run: seq<Action>, peer: PeerId)
    ensures Accounted(BufferOf(After(run), peer), HistoryOf(run, peer))
    decreases |run|
  {
    hide Accounted, NextBuffer, NextHistory, Next, BufferOf;
    if run == [] {
      NothingAccounted(peer);
    } else {
      var n := |run| - 1;
      RunAccounted(run[..n], peer);
      BufferSteps(After(run[..n]), run[n], peer);
      StepAccounted(BufferOf(After(run[..n]), peer), HistoryOf(run[..n], peer), run[n], peer);
    }
  }

  lemma NothingAccounted(peer: PeerId)
    ensures Accounted(BufferOf(map[], peer), NEW)
  {
  }

  /** After any pushes, ticks and retains, for every peer that is retained: the frames it pushed were
      played, dropped, or are queued; the queue holds at most 25, the last it pushed; and the i-th
      frame it played is the `which[i]`-th it pushed, with `which` increasing. */
  lemma {:induction false} FramesAreConserved(run: seq<Action>, peer: PeerId)
    requires peer in After(run)
    ensures var h, queue := HistoryOf(run, peer), After(run)[peer].frames;
            && |h.pushed| == |h.played| + h.dropped + |queue|
            && |queue| <= 25 && queue == h.pushed[|h.pushed| - |queue|..]
            && |h.which| == |h.played|
            && (forall i | 0 <= i < |h.played| :: h.which[i] < |h.pushed| && h.played[i] == h.pushed[h.which[i]])
            && (forall i, j | 0 <= i < j < |h.which| :: h.which[i] < h.which[j])
  {
    RunAccounted(run, peer);
  }

  lemma {:induction false} RunHasFrames(run: seq<Action>)
    ensures AllFrames(After(run))
  {
    forall peer | peer in After(run) ensures AreFrames(After(run)[peer].frames) {
      RunAccounted(run, peer);
    }
  }

  lemma {:induction false} AfterOne(run: seq<Action>, a: Action)
    ensures After(run + [a]) == Next(After(run), a)
  {
    assert (run + [a])[..|run|] == run;
  }

  // ---- who is heard ---------------------------------------------------------------------------------

  /** What a peer has queued after the first `i` actions. */
  function QueueAt(run: seq<Action>, i: nat, peer: PeerId): seq<Bytes>
    requires i <= |run|
  {
    BufferOf(After(run[..i]), peer).frames
  }

  /** The tick `j` found three frames or more, no tick from it to before `i` found none, and the peer was
      retained all the while. */
  ghost predicate PlaysSince(run: seq<Action>, j: nat, i: nat, peer: PeerId)
    requires j < i <= |run|
  {
    && run[j] == Tick && |QueueAt(run, j, peer)| >= 3
    && (forall m | j <= m < i && run[m] == Tick :: QueueAt(run, m, peer) != [])
    && (forall m | j < m < i && run[m].Retain? :: peer in run[m].active)
  }

  /** Some tick before the action `i` found three frames or more, and since then every tick found one and
      the peer was retained. */
  ghost predicate WasStarted(run: seq<Action>, i: nat, peer: PeerId)
    requires i <= |run|
  {
    exists j | 0 <= j < i :: PlaysSince(run, j, i, peer)
  }

  /** The same of the ticks up to the action `i`, this one included. */
  ghost predicate Heard(run: seq<Action>, i: nat, peer: PeerId)
    requires i < |run|
  {
    WasStarted(run, i + 1, peer)
  }

  lemma PrefixesAgree(run: seq<Action>, i: nat)
    requires 0 < i <= |run|
    ensures run[..i][..i - 1] == run[..i - 1] && run[..i][i - 1] == run[i - 1]
    ensures After(run[..i]) == Next(After(run[..i - 1]), run[i - 1])
  {
    hide Next;
    var prefix := run[..i];
    assert prefix[..|prefix| - 1] == run[..i - 1];
  }

  lemma StartedOnward(run: seq<Action>, i: nat, peer: PeerId)
    requires 0 < i <= |run|
    ensures WasStarted(run, i, peer) <==>
            match run[i - 1]
            case Tick => QueueAt(run, i - 1, peer) != [] && (|QueueAt(run, i - 1, peer)| >= 3 || WasStarted(run, i - 1, peer))
            case Retain(active) => peer in active && WasStarted(run, i - 1, peer)
            case Push(_, _) => WasStarted(run, i - 1, peer)
  {
    hide QueueAt;
    if WasStarted(run, i - 1, peer) {
      var j :| 0 <= j < i - 1 && PlaysSince(run, j, i - 1, peer);
      assert PlaysSince(run, j, i, peer) <==>
             (run[i - 1] == Tick ==> QueueAt(run, i - 1, peer) != []) && (run[i - 1].Retain? ==> peer in run[i - 1].active);
    }
    if run[i - 1] == Tick && |QueueAt(run, i - 1, peer)| >= 3 {
      assert PlaysSince(run, i - 1, i, peer);
    }
    if WasStarted(run, i, peer) {
      var j :| 0 <= j < i && PlaysSince(run, j, i, peer);
      assert j < i - 1 ==> PlaysSince(run, j, i - 1, peer);
    }
  }

  /** A peer is marked as playing exactly when it was started and not stopped since. */
  lemma {:induction false} PlayingMeans(run: seq<Action>, i: nat, peer: PeerId)
    requires i <= |run|
    ensures BufferOf(After(run[..i]), peer).playing <==> WasStarted(run, i, peer)
  {
    hide WasStarted, BufferOf, After, Next;
    if i == 0 {
      NothingStarted(run, peer);
    } else {
      PlayingMeans(run, i - 1, peer);
      StartedOnward(run, i, peer);
      PrefixesAgree(run, i);
      BufferSteps(After(run[..i - 1]), run[i - 1], peer);
    }
  }

  lemma NothingStarted(run: seq<Action>, peer: PeerId)
    ensures !BufferOf(After(run[..0]), peer).playing && !WasStarted(run, 0, peer)
  {
  }

  lemma HeardMeans(run: seq<Action>, i: nat, peer: PeerId)
    requires i < |run| && run[i] == Tick
    ensures Heard(run, i, peer) <==> QueueAt(run, i, peer) != [] && (|QueueAt(run, i, peer)| >= 3 || WasStarted(run, i, peer))
  {
    hide QueueAt, PlaysSince;
    StartedOnward(run, i + 1, peer);
  }

  lemma TickOf(run: seq<Action>, i: nat, peer: PeerId)
    requires i < |run| && run[i] == Tick
    ensures var queue := QueueAt(run, i, peer);
            Ticked(BufferOf(After(run[..i]), peer)).0 == if Heard(run, i, peer) then Some(queue[0]) else None
  {
    hide After, BufferOf, WasStarted, Heard;
    HeardMeans(run, i, peer);
    PlayingMeans(run, i, peer);
  }

  /** At a tick a peer plays the oldest frame it has queued if and only if its queue is not empty and
      some tick since it last found the queue empty, this one included, found three or more. Otherwise
      it plays none and keeps its queue. */
  lemma {:induction false} HeardExactly(run: seq<Action>, i: nat, peer: PeerId)
    requires i < |run| && run[i] == Tick
    ensures var before, after := HistoryOf(run[..i], peer), HistoryOf(run[..i + 1], peer);
            var queue := QueueAt(run, i, peer);
            && (Heard(run, i, peer) ==> queue != [])
            && after.played == before.played + (if Heard(run, i, peer) then [queue[0]] else [])
            && QueueAt(run, i + 1, peer) == (if Heard(run, i, peer) then queue[1..] else queue)
            && after.pushed == before.pushed && after.dropped == before.dropped
  {
    hide After, Heard, WasStarted;
    TickOf(run, i, peer);
    HeardMeans(run, i, peer);
    PlayingMeans(run, i, peer);
    PrefixesAgree(run, i + 1);
    BufferSteps(After(run[..i]), Tick, peer);
    HistoryStep(run, i, peer);
  }

  lemma {:induction false} HistoryStep(run: seq<Action>, i: nat, peer: PeerId)
    requires i < |run|
    ensures HistoryOf(run[..i + 1], peer) == NextHistory(HistoryOf(run[..i], peer), BufferOf(After(run[..i]), peer), run[i], peer)
  {
    hide NextHistory, After;
    var prefix := run[..i + 1];
    assert prefix[..|prefix| - 1] == run[..i];
  }

  /** With three frames queued a peer is heard at the next tick, and goes on at every tick, as long as it is
      retained, until a tick finds its queue empty. */
  lemma {:induction false} HeardUntilEmpty(run: seq<Action>, i: nat, k: nat, peer: PeerId)
    requires i <= k < |run| && run[i] == Tick && run[k] == Tick && |QueueAt(run, i, peer)| >= 3
    requires forall m | i <= m <= k && run[m] == Tick :: QueueAt(run, m, peer) != []
    requires forall m | i < m < k && run[m].Retain? :: peer in run[m].active
    ensures Heard(run, i, peer) && Heard(run, k, peer)
    ensures HistoryOf(run[..k + 1], peer).played == HistoryOf(run[..k], peer).played + [QueueAt(run, k, peer)[0]]
  {
    hide QueueAt, HistoryOf;
    assert PlaysSince(run, i, i + 1, peer);
    assert PlaysSince(run, i, k + 1, peer);
    HeardExactly(run, k, peer);
  }

  /** A whole frame goes to the end of a queue of fewer than 25; of a queue of 25 the last three stay. Anything
      else changes nothing, and neither does what other peers push. */
  lemma {:induction false} PushedExactly(run: seq<Action>, i: nat, peer: PeerId)
    requires i < |run| && run[i].Push?
    ensures var queue, next := QueueAt(run, i, peer), QueueAt(run, i + 1, peer);
            var before, after := HistoryOf(run[..i], peer), HistoryOf(run[..i + 1], peer);
            && |queue| <= 25
            && (if run[i].peer != peer || |run[i].data| != 1920 then next == queue && after == before
                else
                  && next == (if |queue| < 25 then queue else queue[22..]) + [run[i].data]
                  && after == before.(pushed := before.pushed + [run[i].data],
                                      dropped := before.dropped + if |queue| < 25 then 0 else 22))
  {
    hide After, Accounted, HistoryOf;
    RunAccounted(run[..i], peer);
    QueueBounded(BufferOf(After(run[..i]), peer), HistoryOf(run[..i], peer));
    PrefixesAgree(run, i + 1);
    BufferSteps(After(run[..i]), run[i], peer);
    HistoryStep(run, i, peer);
  }

  lemma QueueBounded(buffer: Buffer, h: History)
    requires Accounted(buffer, h)
    ensures |buffer.frames| <= 25
  {
  }

  /** What is heard at a tick after `run`, peer by peer. */
  ghost function HeardNext(run: seq<Action>, order: seq<PeerId>): seq<Bytes> {
    if order == [] then []
    else
      var peer := order[|order| - 1];
      HeardNext(run, order[..|order| - 1])
      + if Heard(run + [Tick], |run|, peer) && QueueAt(run, |run|, peer) != [] then [QueueAt(run, |run|, peer)[0]] else []
  }

  lemma {:induction false} TickNext(run: seq<Action>, peer: PeerId)
    requires peer in After(run)
    ensures Ticked(After(run)[peer]).0 ==
            if Heard(run + [Tick], |run|, peer) && QueueAt(run, |run|, peer) != [] then Some(QueueAt(run, |run|, peer)[0]) else None
  {
    hide Heard, After, Ticked;
    var longer := run + [Tick];
    assert longer[..|run|] == run && run[..|run|] == run;
    TickOf(longer, |run|, peer);
    HeardMeans(longer, |run|, peer);
  }

  /** The frames that are mixed are those that are heard. */
  lemma {:induction false} PlayedIsHeard(run: seq<Action>, order: seq<PeerId>)
    requires forall i | 0 <= i < |order| :: order[i] in After(run)
    ensures Played(After(run), order) == HeardNext(run, order)
    decreases |order|
  {
    hide Ticked, Heard, After, QueueAt;
    if order != [] {
      PlayedIsHeard(run, order[..|order| - 1]);
      TickNext(run, order[|order| - 1]);
    }
  }

  // ---- the mixer ------------------------------------------------------------------------------------

  /** The peers that are not left have ticked, the others not yet. */
  ghost predicate HalfTicked(before: Peers, peers: Peers, left: set<PeerId>) {
    && peers.Keys == before.Keys && left <= before.Keys
    && (forall peer | peer in left :: peers[peer] == before[peer])
    && (forall peer | peer in before && peer !in left :: peers[peer] == Ticked(before[peer]).1)
  }

  lemma OneTicked(before: Peers, peers: Peers, left: set<PeerId>, peer: PeerId)
    requires HalfTicked(before, peers, left) && peer in left
    ensures peers[peer] == before[peer]
    ensures HalfTicked(before, peers[peer := Ticked(before[peer]).1], left - {peer})
  {
    hide Ticked;
  }

  lemma AllTicked(before: Peers, peers: Peers)
    requires HalfTicked(before, peers, {})
    ensures peers == TickedPeers(before)
  {
    hide Ticked;
  }

  /** The visits so far, and what they played. */
  ghost predicate Visited(before: Peers, left: set<PeerId>, order: seq<PeerId>, active: seq<Bytes>) {
    && Visits(order, before.Keys - left)
    && (forall i | 0 <= i < |order| :: order[i] in before)
    && active == Played(before, order) && AreFrames(active) && |active| <= |order|
  }

  lemma OneVisited(before: Peers, left: set<PeerId>, order: seq<PeerId>, active: seq<Bytes>, peer: PeerId)
    requires Visited(before, left, order, active) && peer in left && left <= before.Keys
    requires Ticked(before[peer]).0.Some? ==> IsFrame(Ticked(before[peer]).0.value)
    ensures Visited(before, left - {peer}, order + [peer],
                    active + if Ticked(before[peer]).0.Some? then [Ticked(before[peer]).0.value] else [])
  {
    hide Ticked, IsFrame;
    assert (order + [peer])[..|order|] == order;
    forall q ensures q in before.Keys - (left - {peer}) <==> q in order + [peer] {
      assert q in before.Keys - left <==> q in order;
    }
  }

  class AudioMixer {
    var peers: Peers
    ghost var run: seq<Action>    // everything that was done to it

    ghost predicate Valid()
      reads this
    {
      peers == After(run)
    }

    constructor ()
      ensures Valid() && run == []
    {
      peers, run := map[], [];
    }

    /** src/audio.rs `push`: anything but a whole frame is ignored. */
    method Push(peer: PeerId, data: Bytes)
      requires Valid()
      modifies this
      ensures Valid() && run == old(run) + [Action.Push(peer, data)]
      ensures peers == Next(old(peers), Action.Push(peer, data))
    {
      hide Pushed, After;
      AfterOne(run, Action.Push(peer, data));
      run := run + [Action.Push(peer, data)];
      if |data| != FRAME_BYTES {
        return;
      }
      var buffer := if peer in peers then peers[peer] else EMPTY;
      var pushed := PushFrame(buffer, data);
      peers := peers[peer := pushed];
    }

    static method PushFrame(buffer: Buffer, data: Bytes) returns (pushed: Buffer)
      ensures pushed == Pushed(buffer, data)
    {
      var frames := buffer.frames;
      if |frames| >= MAX_QUEUED_FRAMES {
        while |frames| > JITTER_FRAMES
          invariant JITTER_FRAMES <= |frames| <= |buffer.frames|
          invariant frames == buffer.frames[|buffer.frames| - |frames|..]
        {
          frames := frames[1..];
        }
      }
      frames := frames + [data];
      pushed := buffer.(frames := frames);
    }

    /** src/audio.rs `retain`. */
    method Retain(active: set<PeerId>)
      requires Valid()
      modifies this
      ensures Valid() && run == old(run) + [Action.Retain(active)]
      ensures forall peer :: peer in peers <==> peer in old(peers) && peer in active
      ensures forall peer | peer in peers :: peers[peer] == old(peers)[peer]
    {
      hide After;
      AfterOne(run, Action.Retain(active));
      run := run + [Action.Retain(active)];
      peers := map peer | peer in peers && peer in active :: peers[peer];
    }

    /** The first half of src/audio.rs `mix_into`: every buffer ticks, in the map's own order. */
    method TickAll() returns (active: seq<Bytes>, ghost order: seq<PeerId>)
      requires Valid()
      modifies this
      ensures Valid() && run == old(run) + [Tick] && peers == TickedPeers(old(peers))
      ensures Visits(order, old(peers).Keys)
      ensures active == Played(old(peers), order) && AreFrames(active) && |active| <= |order|
      ensures active == HeardNext(old(run), order)
    {
      hide Ticked, HalfTicked, Visited, TickedPeers, AreFrames, AllFrames, After;
      active, order := [], [];
      ghost var before := peers;
      RunHasFrames(run);
      NobodyTicked(before);
      var left := peers.Keys;
      while left != {}
        invariant left <= peers.Keys == before.Keys
        invariant HalfTicked(before, peers, left)
        invariant Visited(before, left, order, active)
        invariant run == old(run)
        decreases |left|
      {
        var peer :| peer in left;
        OneTicked(before, peers, left, peer);
        if Ticked(before[peer]).0.Some? {
          TicksFrames(before, peer);
        }
        OneVisited(before, left, order, active, peer);
        var (frame, buffer) := Ticked(peers[peer]);
        order := order + [peer];
        active := active + if frame.Some? then [frame.value] else [];
        peers := peers[peer := buffer];
        left := left - {peer};
      }
      AllTicked(before, peers);
      AllVisited(before, order, active);
      PlayedIsHeard(run, order);
      AfterOne(run, Tick);
      run := run + [Tick];
    }

    /** src/audio.rs `mix_into`. */
    method MixInto(output: array<byte>) returns (ghost order: seq<PeerId>)
      requires Valid() && output.Length == FRAME_BYTES
      modifies this, output
      ensures Valid() && run == old(run) + [Tick] && peers == TickedPeers(old(peers))
      ensures Visits(order, old(peers).Keys)
      ensures AreFrames(HeardNext(old(run), order))
      ensures forall k | 0 <= k < FRAME_SAMPLES :: Sample(output[..], k) == Mixed(HeardNext(old(run), order), k)
    {
      var active;
      active, order := TickAll();
      MixFrames(active, output);
    }

    static method MixFrames(active: seq<Bytes>, output: array<byte>)
      requires AreFrames(active) && output.Length == FRAME_BYTES
      modifies output
      ensures forall k | 0 <= k < FRAME_SAMPLES :: Sample(output[..], k) == Mixed(active, k)
    {
      hide FromBytes, ToBytes, Mixed, WrappedSum;
      if active == [] {
        Silence(output);
        return;
      }
      for sample := 0 to FRAME_SAMPLES
        invariant forall k | 0 <= k < sample :: FromBytes(output[2 * k], output[2 * k + 1]) == Mixed(active, k)
      {
        var sum := SumAt(active, sample);
        var mixed := Clamped(Truncated(sum, Divisor(|active|)));
        MixedIs(active, sample);
        var bytes := ToBytes(mixed);
        output[2 * sample] := bytes.0;
        output[2 * sample + 1] := bytes.1;
      }
    }

    static method SumAt(active: seq<Bytes>, k: nat) returns (sum: int)
      requires AreFrames(active) && k < FRAME_SAMPLES
      ensures sum == WrappedSum(active, k)
    {
      hide Sample, Wrapped;
      sum := 0;
      for i := 0 to |active|
        invariant sum == WrappedSum(active[..i], k)
      {
        assert active[..i + 1][..i] == active[..i];
        sum := Wrapped(sum + Sample(active[i], k));
      }
      assert active[..|active|] == active;
    }

    static method Silence(output: array<byte>)
      requires output.Length == FRAME_BYTES
      modifies output
      ensures forall k | 0 <= k < FRAME_SAMPLES :: Sample(output[..], k) == Mixed([], k)
    {
      for i := 0 to output.Length
        invariant forall j | 0 <= j < i :: output[j] == 0
      {
        output[i] := 0;
      }
    }
  }

  lemma {:induction false} MixedIs(active: seq<Bytes>, k: nat)
    requires AreFrames(active) && k < FRAME_SAMPLES && active != []
    ensures Mixed(active, k) == Clamped(Truncated(WrappedSum(active, k), Divisor(|active|)))
  {
  }

  lemma NobodyTicked(before: Peers)
    ensures HalfTicked(before, before, before.Keys)
    ensures Visited(before, before.Keys, [], [])
  {
    hide Ticked;
  }

  lemma {:induction false} AllVisited(before: Peers, order: seq<PeerId>, active: seq<Bytes>)
    requires Visited(before, {}, order, active)
    ensures Visits(order, before.Keys) && active == Played(before, order) && AreFrames(active) && |active| <= |order|
  {
    assert before.Keys - {} == before.Keys;
  }
}
