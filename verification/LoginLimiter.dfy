/** The limiter of failed logins: a window of attempts for each client, in a map of bounded
    size, and what any run of attempts can achieve against it. */
module LoginLimiters {
  import opened Wrappers

  type Client = string

  datatype AttemptWindow = AttemptWindow(attempts: nat, resetsAt: nat)

  const LOGIN_WINDOW_SECONDS: nat := 900
  const MAX_TRACKED_CLIENTS: nat := 4096
  const ALLOWED_ATTEMPTS: nat := 8

  type Attempts = map<Client, AttemptWindow>

  /** Accepted, or refused for so many seconds. */
  datatype Answer = Accepted | Refused(wait: nat)

  // ---- one attempt ---------------------------------------------------------------------

  /** The windows that have not elapsed. */
  function Live(attempts: Attempts, now: nat): (live: Attempts)
    ensures live.Keys <= attempts.Keys
  {
    map client | client in attempts && attempts[client].resetsAt > now :: attempts[client]
  }

  predicate Soonest(attempts: Attempts, client: Client) {
    client in attempts && forall other | other in attempts :: attempts[client].resetsAt <= attempts[other].resetsAt
  }

  /** Whose window may make room for `key`; there can be several that expire together. */
  predicate MayEvict(live: Attempts, key: Client, evicted: Option<Client>) {
    if |live| >= MAX_TRACKED_CLIENTS && key !in live then evicted.Some? && Soonest(live, evicted.value)
    else evicted == None
  }

  function Without(live: Attempts, evicted: Option<Client>): Attempts {
    if evicted.Some? then live - {evicted.value} else live
  }

  /** The window of the attempt, with the attempt counted in eight bits that saturate. */
  function Counted(kept: Attempts, key: Client, now: nat): AttemptWindow {
    var window := if key in kept then kept[key] else AttemptWindow(0, now + LOGIN_WINDOW_SECONDS);
    window.(attempts := if window.attempts >= 255 then 255 else window.attempts + 1)
  }

  function AnswerOf(window: AttemptWindow, now: nat): Answer {
    if window.attempts <= ALLOWED_ATTEMPTS then Accepted
    else Refused(if window.resetsAt <= now + 1 then 1 else window.resetsAt - now)
  }

  /** An attempt by `key` at `now`: the answer, and the windows afterwards. */
  function Consumed(attempts: Attempts, key: Client, now: nat, evicted: Option<Client>): (Answer, Attempts) {
    var kept := Without(Live(attempts, now), evicted);
    var window := Counted(kept, key, now);
    (AnswerOf(window, now), kept[key := window])
  }

  // ---- runs ------------------------------------------------------------------------------

  /** What happens to the limiter: an attempt, with who was evicted for it, or the reset that
      follows a login. */
  datatype Action =
    | Attempt(key: Client, now: nat, evicted: Option<Client>)
    | Reset(key: Client)

  function Applied(attempts: Attempts, a: Action): Attempts {
    match a
    case Attempt(key, now, evicted) => Consumed(attempts, key, now, evicted).1
    case Reset(key) => attempts - {key}
  }

  function After(run: seq<Action>): Attempts {
    if run == [] then map[] else Applied(After(run[..|run| - 1]), run[|run| - 1])
  }

  /** The answer that attempt `i` of the run got. */
  function AnswerAt(run: seq<Action>, i: nat): Answer
    requires i < |run| && run[i].Attempt?
  {
    Consumed(After(run[..i]), run[i].key, run[i].now, run[i].evicted).0
  }

  /** When the last of the first `n` actions that look at the clock looked at it. */
  function LastTime(run: seq<Action>, n: nat): nat
    requires n <= |run|
  {
    if n == 0 then 0 else if run[n - 1].Attempt? then run[n - 1].now else LastTime(run, n - 1)
  }

  /** The clock does not go back, and evictions are those of the limiter. */
  predicate Possible(run: seq<Action>) {
    forall i | 0 <= i < |run| && run[i].Attempt? ::
      LastTime(run, i) <= run[i].now && MayEvict(Live(After(run[..i]), run[i].now), run[i].key, run[i].evicted)
  }

  /** Takes the window of `key` away before it has elapsed: its reset, or its eviction for
      another client. */
  predicate Disturbs(a: Action, key: Client) {
    match a
    case Attempt(_, _, evicted) => evicted == Some(key)
    case Reset(k) => k == key
  }

  function Disturbances(run: seq<Action>, n: nat, key: Client): nat
    requires n <= |run|
  {
    if n == 0 then 0 else Disturbances(run, n - 1, key) + if Disturbs(run[n - 1], key) then 1 else 0
  }

  predicate AcceptedWithin(run: seq<Action>, i: nat, key: Client, t: nat)
    requires i < |run|
  {
    run[i].Attempt? && run[i].key == key && t <= run[i].now < t + LOGIN_WINDOW_SECONDS && AnswerAt(run, i) == Accepted
  }

  /** How many of the first `n` actions were attempts by `key`, in the interval and accepted. */
  function AcceptedCount(run: seq<Action>, n: nat, key: Client, t: nat): nat
    requires n <= |run|
  {
    if n == 0 then 0
    else AcceptedCount(run, n - 1, key, t) + if AcceptedWithin(run, n - 1, key, t) then 1 else 0
  }

  lemma {:induction false} AfterNext(run: seq<Action>, i: nat)
    requires i < |run|
    ensures After(run[..i + 1]) == Applied(After(run[..i]), run[i])
  {
    hide Applied;
    assert run[..i + 1][..i] == run[..i];
  }

  lemma {:induction false} PossibleAt(run: seq<Action>, i: nat)
    requires Possible(run) && i < |run| && run[i].Attempt?
    ensures LastTime(run, i) <= run[i].now && run[i].evicted != Some(run[i].key)
    ensures MayEvict(Live(After(run[..i]), run[i].now), run[i].key, run[i].evicted)
  {
    hide After, LastTime, Live;
  }

  /** Somebody is evicted if and only if the client has no window that still runs while 4096 others
      have one, and then it is one of those whose window ends first. */
  lemma EvictedEndsFirst(run: seq<Action>, i: nat)
    requires Possible(run) && i < |run| && run[i].Attempt?
    ensures var windows, key, now, evicted := After(run[..i]), run[i].key, run[i].now, run[i].evicted;
            && (evicted.Some? <==>
                  && |set c | c in windows && windows[c].resetsAt > now| >= 4096
                  && !(key in windows && windows[key].resetsAt > now))
            && (evicted.Some? ==>
                  && evicted.value in windows && windows[evicted.value].resetsAt > now
                  && forall c | c in windows && windows[c].resetsAt > now :: windows[evicted.value].resetsAt <= windows[c].resetsAt)
  {
    hide After, LastTime;
    PossibleAt(run, i);
    var windows, now := After(run[..i]), run[i].now;
    var live := Live(windows, now);
    assert live.Keys == set c | c in windows && windows[c].resetsAt > now;
    assert |live| == |live.Keys|;
    assert forall c | c in windows && windows[c].resetsAt > now :: c in live && live[c] == windows[c];
  }

  // ---- fifteen, and eight more for each disturbance ----------------------------------------

  function Spent(window: AttemptWindow): nat {
    if window.attempts < ALLOWED_ATTEMPTS then window.attempts else ALLOWED_ATTEMPTS
  }

  /** How many attempts the interval from `t` has let through, given the key's window now and
      `k` disturbances: a window that began before the interval spent its first attempt outside
      it, one that begins in it follows at most one of those, and a third begins after it. Each
      disturbance makes room for one window more. */
  ghost predicate Bounded(window: Option<AttemptWindow>, now: nat, t: nat, count: nat, k: nat) {
    && (now < t ==> count == 0)
    && match window
    case None => count <= 15 + 8 * k && (now < t + LOGIN_WINDOW_SECONDS ==> count <= 7 + 8 * k)
    case Some(w) =>
      && w.attempts >= 1 && LOGIN_WINDOW_SECONDS <= w.resetsAt <= now + LOGIN_WINDOW_SECONDS
      && var start := w.resetsAt - LOGIN_WINDOW_SECONDS;
         if start < t then count + 1 <= Spent(w) + 8 * k
         else if start < t + LOGIN_WINDOW_SECONDS then count <= 7 + Spent(w) + 8 * k
         else count <= 15 + 8 * k
  }

  function WindowOf(attempts: Attempts, key: Client): Option<AttemptWindow> {
    if key in attempts then Some(attempts[key]) else None
  }

  lemma ElapsedBounded(attempts: Attempts, key: Client, before: nat, now: nat, t: nat, count: nat, k: nat)
    requires Bounded(WindowOf(attempts, key), before, t, count, k) && before <= now
    ensures Bounded(WindowOf(Live(attempts, now), key), now, t, count, k)
  {
  }

  lemma DisturbedBounded(window: Option<AttemptWindow>, now: nat, t: nat, count: nat, k: nat)
    requires Bounded(window, now, t, count, k)
    ensures Bounded(None, now, t, count, k + 1)
  {
  }

  lemma AttemptBounded(kept: Attempts, key: Client, now: nat, t: nat, count: nat, k: nat)
    requires Bounded(WindowOf(kept, key), now, t, count, k)
    requires key in kept ==> kept[key].resetsAt > now
    ensures var window := Counted(kept, key, now);
            var more := if t <= now < t + LOGIN_WINDOW_SECONDS && AnswerOf(window, now) == Accepted then count + 1 else count;
            Bounded(Some(window), now, t, more, k)
  {
  }

  lemma StepBounded(before: Attempts, a: Action, key: Client, last: nat, t: nat, count: nat, k: nat)
    requires Bounded(WindowOf(before, key), last, t, count, k)
    requires a.Attempt? ==> last <= a.now && a.evicted != Some(a.key)
    ensures var counts := a.Attempt? && a.key == key && t <= a.now < t + LOGIN_WINDOW_SECONDS
                          && Consumed(before, a.key, a.now, a.evicted).0 == Accepted;
            Bounded(WindowOf(Applied(before, a), key), if a.Attempt? then a.now else last, t,
                    if counts then count + 1 else count, if Disturbs(a, key) then k + 1 else k)
  {
    hide Bounded;
    if a.Attempt? {
      ElapsedBounded(before, key, last, a.now, t, count, k);
      var live := Live(before, a.now);
      var kept := Without(live, a.evicted);
      if a.evicted == Some(key) {
        DisturbedBounded(WindowOf(live, key), a.now, t, count, k);
      } else {
        assert WindowOf(kept, key) == WindowOf(live, key);
        if a.key == key {
          AttemptBounded(kept, key, a.now, t, count, k);
        }
      }
    } else {
      DisturbedBounded(WindowOf(before, key), last, t, count, k);
    }
  }

  lemma {:induction false} RunBounded(run: seq<Action>, n: nat, key: Client, t: nat)
    requires Possible(run) && n <= |run|
    ensures Bounded(WindowOf(After(run[..n]), key), LastTime(run, n), t, AcceptedCount(run, n, key, t), Disturbances(run, n, key))
    decreases n
  {
    hide Bounded, Possible, Consumed, Applied, WindowOf, After, Disturbs;
    if n == 0 {
      NothingBounded(t);
      NothingAfter(run, key);
    } else {
      var i := n - 1;
      RunBounded(run, i, key, t);
      if run[i].Attempt? {
        PossibleAt(run, i);
      }
      AfterNext(run, i);
      StepBounded(After(run[..i]), run[i], key, LastTime(run, i), t, AcceptedCount(run, i, key, t), Disturbances(run, i, key));
    }
  }

  lemma NothingAfter(run: seq<Action>, key: Client)
    ensures WindowOf(After(run[..0]), key) == None
  {
    assert run[..0] == [];
  }

  lemma NothingBounded(t: nat)
    ensures Bounded(None, 0, t, 0, 0)
  {
  }

  /** In any 900 seconds at most fifteen attempts of one client are let through, and eight more
      for each time its window was reset or evicted, whatever happens to other clients. */
  lemma {:induction false} AtMostFifteen(run: seq<Action>, key: Client, t: nat)
    requires Possible(run)
    ensures AcceptedCount(run, |run|, key, t) <= 15 + 8 * Disturbances(run, |run|, key)
  {
    assert run[..|run|] == run;
    RunBounded(run, |run|, key, t);
  }

  // ---- that many are reached ------------------------------------------------------------------

  /** The same attempt `n` times. */
  function Burst(key: Client, now: nat, n: nat): (run: seq<Action>)
    ensures |run| == n && forall i | 0 <= i < n :: run[i] == Attempt(key, now, None)
  {
    seq(n, _ => Attempt(key, now, None))
  }

  lemma {:induction false} ExtendCount(run: seq<Action>, more: seq<Action>, n: nat, key: Client, t: nat)
    requires n <= |run|
    ensures AcceptedCount(run + more, n, key, t) == AcceptedCount(run, n, key, t)
    ensures Disturbances(run + more, n, key) == Disturbances(run, n, key) && LastTime(run + more, n) == LastTime(run, n)
    decreases n
  {
    if n > 0 {
      ExtendCount(run, more, n - 1, key, t);
      assert (run + more)[..n - 1] == run[..n - 1];
    }
  }

  function Only(key: Client, window: Option<AttemptWindow>): Attempts {
    if window.Some? then map[key := window.value] else map[]
  }

  /** A run of one client so far: its only window, how many attempts counted, the last time, and
      how often it was disturbed. */
  ghost predicate Alone(run: seq<Action>, key: Client, window: Option<AttemptWindow>, t: nat, count: nat, last: nat, k: nat) {
    && Possible(run)
    && After(run) == Only(key, window)
    && AcceptedCount(run, |run|, key, t) == count
    && LastTime(run, |run|) == last
    && Disturbances(run, |run|, key) == k
  }

  lemma {:induction false} PossibleMore(run: seq<Action>, a: Action)
    requires Possible(run)
    requires a.Attempt? ==> LastTime(run, |run|) <= a.now && MayEvict(Live(After(run), a.now), a.key, a.evicted)
    ensures Possible(run + [a])
  {
    hide MayEvict, After, Live, LastTime;
    var longer := run + [a];
    forall i | 0 <= i < |longer| && longer[i].Attempt?
      ensures LastTime(longer, i) <= longer[i].now
      ensures MayEvict(Live(After(longer[..i]), longer[i].now), longer[i].key, longer[i].evicted)
    {
      assert longer[..i] == run[..i];
      ExtendCount(run, [a], i, "", 0);
      if i == |run| {
        assert run[..i] == run;
      }
    }
  }

  function Next(window: Option<AttemptWindow>, now: nat): AttemptWindow {
    if window.Some? && window.value.resetsAt > now then window.value.(attempts := window.value.attempts + 1)
    else AttemptWindow(1, now + LOGIN_WINDOW_SECONDS)
  }

  /** Fewer than eight attempts are counted in the window. */
  predicate HasRoom(window: Option<AttemptWindow>, now: nat) {
    window.Some? && window.value.resetsAt > now ==> window.value.attempts < ALLOWED_ATTEMPTS
  }

  lemma AloneConsumes(key: Client, window: Option<AttemptWindow>, now: nat)
    requires HasRoom(window, now)
    ensures MayEvict(Live(Only(key, window), now), key, None)
    ensures Consumed(Only(key, window), key, now, None) == (Accepted, Only(key, Some(Next(window, now))))
  {
    var live := Live(Only(key, window), now);
    assert live == if window.Some? && window.value.resetsAt > now then Only(key, window) else map[];
    assert live[key := Next(window, now)] == map[key := Next(window, now)];
  }

  lemma OneMore(run: seq<Action>, key: Client, window: Option<AttemptWindow>, t: nat, count: nat, last: nat, k: nat, now: nat)
    requires Alone(run, key, window, t, count, last, k) && last <= now && t <= now < t + LOGIN_WINDOW_SECONDS
    requires HasRoom(window, now)
    ensures Alone(run + [Attempt(key, now, None)], key, Some(Next(window, now)), t, count + 1, now, k)
  {
    hide MayEvict, Live, Consumed, Possible, Next, After, Only, HasRoom;
    var a := Attempt(key, now, None);
    var longer := run + [a];
    var n := |run|;
    assert longer[..n] == run && longer[..n + 1] == longer;
    AloneConsumes(key, window, now);
    ExtendCount(run, [a], n, key, t);
    PossibleMore(run, a);
    AfterNext(longer, n);
  }

  lemma OneReset(run: seq<Action>, key: Client, window: Option<AttemptWindow>, t: nat, count: nat, last: nat, k: nat)
    requires Alone(run, key, window, t, count, last, k)
    ensures Alone(run + [Reset(key)], key, None, t, count, last, k + 1)
  {
    hide MayEvict, Live, Possible, After;
    var longer := run + [Reset(key)];
    var n := |run|;
    assert longer[..n] == run && longer[..n + 1] == longer;
    ExtendCount(run, [Reset(key)], n, key, t);
    PossibleMore(run, Reset(key));
    AfterNext(longer, n);
    assert Only(key, window) - {key} == map[];
  }

  lemma {:induction false} BurstCounts(run: seq<Action>, key: Client, window: AttemptWindow, t: nat, count: nat, last: nat, k: nat,
                                       now: nat, n: nat)
    requires Alone(run, key, Some(window), t, count, last, k) && last <= now && t <= now < t + LOGIN_WINDOW_SECONDS
    requires n > 0 && window.resetsAt > now && window.attempts + n <= ALLOWED_ATTEMPTS
    ensures Alone(run + Burst(key, now, n), key, Some(window.(attempts := window.attempts + n)), t, count + n, now, k)
    decreases n
  {
    hide Alone;
    assert run + Burst(key, now, n - 1) + [Attempt(key, now, None)] == run + Burst(key, now, n);
    if n == 1 {
      assert run + Burst(key, now, 0) == run;
      OneMore(run, key, Some(window), t, count, last, k, now);
    } else {
      BurstCounts(run, key, window, t, count, last, k, now, n - 1);
      OneMore(run + Burst(key, now, n - 1), key, Some(window.(attempts := window.attempts + n - 1)), t, count + n - 1, now, k, now);
    }
  }

  /** No bound below is kept: one attempt, seven more just before its window ends, eight when it
      has, and eight after each of `k` resets. */
  lemma {:induction false} FifteenIsReached(key: Client, k: nat) returns (run: seq<Action>, t: nat)
    ensures Possible(run) && Disturbances(run, |run|, key) == k
    ensures AcceptedCount(run, |run|, key, t) == 15 + 8 * k
  {
    t := 1;
    run := ReachedWith(key, k);
  }

  lemma {:induction false} ReachedWith(key: Client, k: nat) returns (run: seq<Action>)
    ensures Alone(run, key, Some(AttemptWindow(8, 1800)), 1, 15 + 8 * k, 900, k)
    decreases k
  {
    hide Alone;
    if k == 0 {
      run := [Attempt(key, 0, None)];
      FirstAlone(run, key);
      run := FifteenFrom(run, key);
    } else {
      run := ReachedWith(key, k - 1);
      OneReset(run, key, Some(AttemptWindow(8, 1800)), 1, 15 + 8 * (k - 1), 900, k - 1);
      run := run + [Reset(key)];
      OneMore(run, key, None, 1, 15 + 8 * (k - 1), 900, k, 900);
      run := run + [Attempt(key, 900, None)];
      BurstCounts(run, key, AttemptWindow(1, 1800), 1, 16 + 8 * (k - 1), 900, k, 900, 7);
      run := run + Burst(key, 900, 7);
    }
  }

  lemma FifteenFrom(first: seq<Action>, key: Client) returns (run: seq<Action>)
    requires Alone(first, key, Some(AttemptWindow(1, 900)), 1, 0, 0, 0)
    ensures Alone(run, key, Some(AttemptWindow(8, 1800)), 1, 15, 900, 0)
  {
    hide Alone;
    BurstCounts(first, key, AttemptWindow(1, 900), 1, 0, 0, 0, 899, 7);
    run := first + Burst(key, 899, 7);
    OneMore(run, key, Some(AttemptWindow(8, 900)), 1, 7, 899, 0, 900);
    run := run + [Attempt(key, 900, None)];
    BurstCounts(run, key, AttemptWindow(1, 1800), 1, 8, 900, 0, 900, 7);
    run := run + Burst(key, 900, 7);
  }

  lemma FirstAlone(run: seq<Action>, key: Client)
    requires run == [Attempt(key, 0, None)]
    ensures Alone(run, key, Some(AttemptWindow(1, 900)), 1, 0, 0, 0)
  {
    assert run[..0] == [];
    assert Live(map[], 0) == map[];
    assert AcceptedCount(run, 0, key, 1) == 0 && Disturbances(run, 0, key) == 0;
  }

  // ---- how long a refusal lasts --------------------------------------------------------------

  /** Windows as the limiter makes them. */
  ghost predicate Sound(attempts: Attempts, now: nat) {
    forall client | client in attempts :: attempts[client].resetsAt <= now + LOGIN_WINDOW_SECONDS
  }

  lemma AppliedIsSound(attempts: Attempts, a: Action, before: nat)
    requires Sound(attempts, before) && (a.Attempt? ==> before <= a.now)
    ensures Sound(Applied(attempts, a), if a.Attempt? then a.now else before)
  {
  }

  /** A refusal names between one and 900 seconds, and ends exactly when the window does. */
  lemma RefusalIsExact(attempts: Attempts, key: Client, before: nat, now: nat, evicted: Option<Client>)
    requires Sound(attempts, before) && before <= now
    ensures var (answer, after) := Consumed(attempts, key, now, evicted);
            answer.Refused? ==>
              && 1 <= answer.wait <= LOGIN_WINDOW_SECONDS
              && key in after && after[key].attempts > ALLOWED_ATTEMPTS && after[key].resetsAt == now + answer.wait
  {
  }

  /** While the window stands every attempt is refused; once it has elapsed it may be gone. */
  ghost predicate Blocked(window: Option<AttemptWindow>, now: nat, until: nat) {
    match window
    case None => now >= until
    case Some(w) => w.resetsAt == until && w.attempts > ALLOWED_ATTEMPTS
  }

  lemma StepBlocked(before: Attempts, a: Action, key: Client, last: nat, until: nat)
    requires Blocked(WindowOf(before, key), last, until) && !Disturbs(a, key)
    requires a.Attempt? ==> last <= a.now && (a.key == key ==> a.now < until)
    ensures Blocked(WindowOf(Applied(before, a), key), if a.Attempt? then a.now else last, until)
  {
  }

  lemma {:induction false} RunIsSound(run: seq<Action>, n: nat)
    requires Possible(run) && n <= |run|
    ensures Sound(After(run[..n]), LastTime(run, n))
    decreases n
  {
    hide Sound, Possible, Applied, After;
    if n == 0 {
      assert run[..0] == [];
      NothingIsSound();
    } else {
      RunIsSound(run, n - 1);
      if run[n - 1].Attempt? {
        PossibleAt(run, n - 1);
      }
      AfterNext(run, n - 1);
      AppliedIsSound(After(run[..n - 1]), run[n - 1], LastTime(run, n - 1));
    }
  }

  lemma NothingIsSound()
    ensures Sound(After([]), 0)
  {
  }

  /** From the refusal at `i` until its end the window blocks. */
  lemma {:induction false} BlockedUntil(run: seq<Action>, i: nat, n: nat, key: Client, until: nat)
    requires Possible(run) && i < n <= |run| && run[i].Attempt?
    requires Blocked(WindowOf(After(run[..i + 1]), key), run[i].now, until)
    requires forall j | i < j < n :: !Disturbs(run[j], key)
    requires forall j | i < j < n && run[j].Attempt? && run[j].key == key :: run[j].now < until
    ensures Blocked(WindowOf(After(run[..n]), key), LastTime(run, n), until)
    decreases n
  {
    hide Blocked, Possible, Applied, WindowOf, After, Disturbs;
    if n > i + 1 {
      var k := n - 1;
      BlockedUntil(run, i, k, key, until);
      if run[k].Attempt? {
        PossibleAt(run, k);
      }
      AfterNext(run, k);
      StepBlocked(After(run[..k]), run[k], key, LastTime(run, k), until);
    }
  }

  /** A refusal names between one and 900 seconds. Unless the client's window is reset or evicted in
      between, every attempt before their end is refused, and the first one at or after it is
      accepted, whatever happens to other clients. */
  lemma RefusedThenAccepted(run: seq<Action>, key: Client, i: nat, j: nat)
    requires Possible(run) && i < j < |run| && run[i].Attempt? && run[j].Attempt? && run[i].key == key && run[j].key == key
    requires AnswerAt(run, i).Refused?
    requires forall k | i < k < j :: !Disturbs(run[k], key)
    requires forall k | i < k < j && run[k].Attempt? && run[k].key == key :: run[k].now < run[i].now + AnswerAt(run, i).wait
    ensures 1 <= AnswerAt(run, i).wait <= LOGIN_WINDOW_SECONDS
    ensures AnswerAt(run, j).Refused? <==> run[j].now < run[i].now + AnswerAt(run, i).wait
  {
    hide Possible, After, Sound, Consumed, Disturbs;
    RunIsSound(run, i);
    PossibleAt(run, i);
    RefusalIsExact(After(run[..i]), key, LastTime(run, i), run[i].now, run[i].evicted);
    AfterNext(run, i);
    var until := run[i].now + AnswerAt(run, i).wait;
    BlockedUntil(run, i, j, key, until);
    PossibleAt(run, j);
    BlockedAnswers(After(run[..j]), run[j], key, LastTime(run, j), until);
  }

  lemma BlockedAnswers(before: Attempts, a: Action, key: Client, last: nat, until: nat)
    requires a.Attempt? && Blocked(WindowOf(before, key), last, until) && last <= a.now && a.key == key && a.evicted != Some(key)
    ensures Consumed(before, key, a.now, a.evicted).0.Refused? <==> a.now < until
  {
  }

  // ---- the limiter ------------------------------------------------------------------------------

  lemma SubsetCount(a: set<Client>, b: set<Client>)
    requires a <= b
    ensures |a| <= |b|
  {
    assert b == a + (b - a);
  }

  lemma StaysSmall(attempts: Attempts, key: Client, now: nat, evicted: Option<Client>)
    requires |attempts| <= MAX_TRACKED_CLIENTS && MayEvict(Live(attempts, now), key, evicted)
    ensures |Consumed(attempts, key, now, evicted).1| <= MAX_TRACKED_CLIENTS
  {
    hide Soonest, Counted;
    var live := Live(attempts, now);
    var kept := Without(live, evicted);
    SubsetCount(live.Keys, attempts.Keys);
    assert kept.Keys == if evicted.Some? then live.Keys - {evicted.value} else live.Keys;
    assert kept[key := Counted(kept, key, now)].Keys == kept.Keys + {key};
    if evicted.Some? {
      assert evicted.value in live.Keys by {
        SoonestIsThere(live, evicted.value);
      }
    }
  }

  /** No run makes the limiter track more than 4096 clients. */
  lemma {:induction false} RunStaysSmall(run: seq<Action>, n: nat)
    requires Possible(run) && n <= |run|
    ensures |After(run[..n])| <= MAX_TRACKED_CLIENTS
    decreases n
  {
    hide Possible, After, Consumed, MayEvict, Live;
    if n == 0 {
      NothingTracked(run);
    } else {
      var i := n - 1;
      var before := After(run[..i]);
      RunStaysSmall(run, i);
      AfterNext(run, i);
      if run[i].Attempt? {
        PossibleAt(run, i);
        StaysSmall(before, run[i].key, run[i].now, run[i].evicted);
      } else {
        SubsetCount((before - {run[i].key}).Keys, before.Keys);
      }
    }
  }

  lemma NothingTracked(run: seq<Action>)
    ensures |After(run[..0])| == 0
  {
    assert run[..0] == [];
  }

  lemma SoonestIsThere(attempts: Attempts, client: Client)
    requires Soonest(attempts, client)
    ensures client in attempts
  {
  }

  class LoginLimiter {
    var attempts: Attempts

    ghost predicate Valid()
      reads this
    {
      |attempts| <= MAX_TRACKED_CLIENTS
    }

    constructor ()
      ensures Valid() && attempts == map[]
    {
      attempts := map[];
    }

    /** src/auth.rs `consume`. */
    method Consume(key: Client, now: nat) returns (answer: Answer, evicted: Option<Client>)
      requires Valid()
      modifies this
      ensures Valid()
      ensures MayEvict(Live(old(attempts), now), key, evicted)
      ensures (answer, attempts) == Consumed(old(attempts), key, now, evicted)
      ensures attempts == Applied(old(attempts), Action.Attempt(key, now, evicted))
    {
      hide MayEvict, Soonest, Live;
      ghost var before := attempts;
      DropElapsed(now);
      evicted := MakeRoom(key);
      ghost var kept := attempts;
      assert kept == Without(Live(before, now), evicted);
      StaysSmall(before, key, now, evicted);
      if key !in attempts {
        attempts := attempts[key := AttemptWindow(0, now + LOGIN_WINDOW_SECONDS)];
      }
      var window := attempts[key];
      window := window.(attempts := if window.attempts >= 255 then 255 else window.attempts + 1);
      attempts := attempts[key := window];
      assert window == Counted(kept, key, now);
      assert attempts == kept[key := window];
      if window.attempts > ALLOWED_ATTEMPTS {
        var left := if window.resetsAt < now then 0 else window.resetsAt - now;
        answer := Refused(if left < 1 then 1 else left);
      } else {
        answer := Accepted;
      }
    }

    method DropElapsed(now: nat)
      modifies this
      ensures attempts == Live(old(attempts), now)
    {
      attempts := map client | client in attempts && attempts[client].resetsAt > now :: attempts[client];
    }

    /** The window that expires soonest makes room for a client that is not tracked. */
    method MakeRoom(key: Client) returns (evicted: Option<Client>)
      modifies this
      ensures MayEvict(old(attempts), key, evicted) && attempts == Without(old(attempts), evicted)
    {
      evicted := None;
      if |attempts| >= MAX_TRACKED_CLIENTS && key !in attempts {
        var soonest := FindSoonest();
        evicted := Some(soonest);
        attempts := attempts - {soonest};
      }
    }

    /** A client whose window expires soonest. */
    method FindSoonest() returns (client: Client)
      requires attempts != map[]
      ensures Soonest(attempts, client)
    {
      var left := attempts.Keys;
      client :| client in left;
      left := left - {client};
      while left != {}
        invariant left <= attempts.Keys && client in attempts
        invariant forall other | other in attempts && other !in left :: attempts[client].resetsAt <= attempts[other].resetsAt
        decreases |left|
      {
        var other :| other in left;
        if attempts[other].resetsAt < attempts[client].resetsAt {
          client := other;
        }
        left := left - {other};
      }
    }

    /** src/auth.rs `reset`. */
    method Reset(key: Client)
      requires Valid()
      modifies this
      ensures Valid() && attempts == old(attempts) - {key}
      ensures attempts == Applied(old(attempts), Action.Reset(key))
    {
      SubsetCount((attempts - {key}).Keys, attempts.Keys);
      attempts := attempts - {key};
    }
  }
}
