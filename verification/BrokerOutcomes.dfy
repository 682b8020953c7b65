/** What becomes of a candidate in one retirement round, whatever the other calls and the brokers do
    in between, and what every step does to every table of the pool. */
module BrokerOutcomes {
  import opened Wrappers
  import opened BrokerModel
  import opened BrokerInvariant
  import opened BrokerRuns
  import opened BrokerLookups

  // ---- one retirement round ----------------------------------------------------------------------

  /** What a round sees of a candidate and does to it. */
  datatype Deed =
    | AnsweredEmpty | AnsweredBusy | Silent | SilentAndGone
    | TookOut | FoundOut
    | Stopped | NotStopped
    | WentBack | Forgotten

  /** The part of the round of `p` in this step that is about `path`. */
  function DeedOf(s: Pool, e: Event, p: Pid, path: Path): Option<Deed>
    requires Enabled(s, e)
  {
    match e
    case CandidateAsked(q, answered, gone) =>
      if q != p || s.tasks[p].left[0] != path then None
      else if answered then Some(if s.held[path] == {} then AnsweredEmpty else AnsweredBusy)
      else Some(if gone then SilentAndGone else Silent)
    case TakenOut(q) => if q != p || s.tasks[p].path != path then None else Some(if path in s.draining then TookOut else FoundOut)
    case ShutdownSent(q, _, acknowledged) =>
      if q != p || s.tasks[p].path != path then None else Some(if acknowledged then Stopped else NotStopped)
    case PutBackIn(q) => if q != p || s.tasks[p].path != path then None else Some(WentBack)
    case Cleaned(q) => if q != p || s.tasks[p].path != path then None else Some(Forgotten)
    case _ => None
  }

  ghost function History(s: Pool, events: seq<Event>, p: Pid, path: Path): seq<Deed>
    decreases |events|
  {
    if events == [] || !Enabled(s, events[0]) then []
    else
      var deed := DeedOf(s, events[0], p, path);
      (if deed.Some? then [deed.value] else []) + History(Step(s, events[0]), events[1..], p, path)
  }

  /** The steps of a round after it has looked at the draining list. */
  predicate InRound(e: Event) {
    e.CandidateAsked? || e.TakenOut? || e.ShutdownSent? || e.PutBackIn? || e.Cleaned?
  }

  ghost predicate OneRound(events: seq<Event>, p: Pid) {
    forall i | 0 <= i < |events| :: PidOf(events[i]) == Some(p) ==> InRound(events[i])
  }

  ghost predicate Candidates(left: seq<Path>, path: Path, history: seq<Deed>) {
    if path !in left then history == []
    else
      || history == [AnsweredBusy] || history == [Silent]
      || history == [AnsweredEmpty, FoundOut]
      || history == [AnsweredEmpty, TookOut, Stopped, Forgotten]
      || history == [AnsweredEmpty, TookOut, NotStopped, WentBack]
      || history == [SilentAndGone, FoundOut]
      || history == [SilentAndGone, TookOut, Forgotten]
  }

  /** What is still to come for a generation, seen from where the round is. */
  ghost predicate Outlook(stage: Stage, path: Path, history: seq<Deed>) {
    match stage
    case Retiring(left) => Distinct(left) && Candidates(left, path, history)
    case Judged(other, left, gone) =>
      && Distinct(left) && other !in left
      && if other != path then Candidates(left, path, history)
         else if gone then history == [FoundOut] || history == [TookOut, Forgotten]
         else history == [FoundOut] || history == [TookOut, Stopped, Forgotten] || history == [TookOut, NotStopped, WentBack]
    case Stopping(other, left) =>
      && Distinct(left) && other !in left
      && if other != path then Candidates(left, path, history) else history == [Stopped, Forgotten] || history == [NotStopped, WentBack]
    case Returning(other, left) =>
      && Distinct(left) && other !in left
      && if other != path then Candidates(left, path, history) else history == [WentBack]
    case Cleaning(other, left) =>
      && Distinct(left) && other !in left
      && if other != path then Candidates(left, path, history) else history == [Forgotten]
    case _ => false
  }

  predicate Round(stage: Stage) {
    stage.Retiring? || stage.Judged? || stage.Stopping? || stage.Returning? || stage.Cleaning?
  }

  /** The generations the round has yet to ask, and the one it is at. */
  ghost predicate Orderly(stage: Stage) {
    && Round(stage) && Distinct(stage.left)
    && (!stage.Retiring? ==> stage.path !in stage.left)
  }

  ghost predicate GoesOn(s: Pool, e: Event, p: Pid, path: Path, rest: seq<Deed>)
    requires Enabled(s, e) && PidOf(e) == Some(p) && InRound(e)
  {
    var t := Step(s, e);
    var deed := DeedOf(s, e, p, path);
    && p in t.tasks && Orderly(t.tasks[p])
    && (Outlook(t.tasks[p], path, rest) ==> Outlook(s.tasks[p], path, (if deed.Some? then [deed.value] else []) + rest))
  }

  lemma AskedGoesOn(s: Pool, e: Event, p: Pid, path: Path, rest: seq<Deed>)
    requires Enabled(s, e) && PidOf(e) == Some(p) && e.CandidateAsked? && Orderly(s.tasks[p])
    ensures GoesOn(s, e, p, path, rest)
  {
    var left := s.tasks[p].left;
    assert path in left <==> path == left[0] || path in left[1..];
  }

  lemma TakenGoesOn(s: Pool, e: Event, p: Pid, path: Path, rest: seq<Deed>)
    requires Enabled(s, e) && PidOf(e) == Some(p) && e.TakenOut? && Orderly(s.tasks[p])
    ensures GoesOn(s, e, p, path, rest)
  {
    hide Without, WithoutOwner, Distinct;
  }

  lemma SentGoesOn(s: Pool, e: Event, p: Pid, path: Path, rest: seq<Deed>)
    requires Enabled(s, e) && PidOf(e) == Some(p) && e.ShutdownSent? && Orderly(s.tasks[p])
    ensures GoesOn(s, e, p, path, rest)
  {
    hide Without, WithoutOwner, Distinct;
  }

  lemma BackGoesOn(s: Pool, e: Event, p: Pid, path: Path, rest: seq<Deed>)
    requires Enabled(s, e) && PidOf(e) == Some(p) && e.PutBackIn? && Orderly(s.tasks[p])
    ensures GoesOn(s, e, p, path, rest)
  {
    hide Without, WithoutOwner, Distinct;
  }

  lemma CleanedGoesOn(s: Pool, e: Event, p: Pid, path: Path, rest: seq<Deed>)
    requires Enabled(s, e) && PidOf(e) == Some(p) && e.Cleaned? && Orderly(s.tasks[p])
    ensures GoesOn(s, e, p, path, rest)
  {
    hide Without, WithoutOwner, Distinct;
  }

  lemma OwnStep(s: Pool, e: Event, p: Pid, path: Path, rest: seq<Deed>)
    requires Enabled(s, e) && PidOf(e) == Some(p) && InRound(e) && Orderly(s.tasks[p])
    ensures GoesOn(s, e, p, path, rest)
  {
    hide Enabled, GoesOn, Orderly;
    match e
    case CandidateAsked(_, _, _) => AskedGoesOn(s, e, p, path, rest);
    case TakenOut(_) => TakenGoesOn(s, e, p, path, rest);
    case ShutdownSent(_, _, _) => SentGoesOn(s, e, p, path, rest);
    case PutBackIn(_) => BackGoesOn(s, e, p, path, rest);
    case Cleaned(_) => CleanedGoesOn(s, e, p, path, rest);
  }

  lemma {:induction false} RoundFrom(s: Pool, events: seq<Event>, t: Pool, p: Pid, path: Path)
    requires Runs(s, events, t) && OneRound(events, p)
    requires p in s.tasks && Orderly(s.tasks[p])
    requires p in t.tasks && t.tasks[p] == Retiring([])
    ensures Outlook(s.tasks[p], path, History(s, events, p, path))
    decreases |events|
  {
    hide Step, Enabled, Orderly, InRound, DeedOf;
    if events == [] {
      assert Distinct([]);
    } else {
      var e := events[0];
      assert forall i | 0 <= i < |events[1..]| :: events[1..][i] == events[i + 1];
      if PidOf(e) == Some(p) {
        OwnStep(s, e, p, path, History(Step(s, e), events[1..], p, path));
      } else {
        OthersLeave(s, e, p);
        NotOwn(s, e, p, path);
      }
      RoundFrom(Step(s, e), events[1..], t, p, path);
    }
  }

  lemma NotOwn(s: Pool, e: Event, p: Pid, path: Path)
    requires Enabled(s, e) && PidOf(e) != Some(p)
    ensures DeedOf(s, e, p, path) == None
  {
  }

  lemma RoundStarts(s: Pool, p: Pid)
    requires Inv(s) && Enabled(s, Surveyed(p))
    ensures p in Step(s, Surveyed(p)).tasks && Step(s, Surveyed(p)).tasks[p] == Retiring(s.draining) && Distinct(s.draining)
  {
  }

  /** A round asks each generation that drains when it starts once, and no other. One that answers with
      a terminal, or does not answer while its socket is there, stays. One that answers with none is
      taken out, unless another call did so, and is asked to stop: it is forgotten if it acknowledges,
      and goes back if not. One that does not answer and whose socket is gone is taken out and forgotten
      without being asked to stop. */
  lemma {:induction false} RoundOf(s: Pool, p: Pid, events: seq<Event>, t: Pool, path: Path)
    requires Reachable(s) && Enabled(s, Surveyed(p))
    requires Runs(Step(s, Surveyed(p)), events, t) && OneRound(events, p)
    requires p in t.tasks && t.tasks[p] == Retiring([])
    ensures var history := History(Step(s, Surveyed(p)), events, p, path);
            if path !in s.draining then history == []
            else
              || history == [AnsweredBusy] || history == [Silent]
              || history == [AnsweredEmpty, FoundOut]
              || history == [AnsweredEmpty, TookOut, Stopped, Forgotten]
              || history == [AnsweredEmpty, TookOut, NotStopped, WentBack]
              || history == [SilentAndGone, FoundOut]
              || history == [SilentAndGone, TookOut, Forgotten]
  {
    hide Inv, Reachable, Runs, Step, Enabled, OneRound, History;
    ReachableHolds(s);
    RoundStarts(s, p);
    RoundFrom(Step(s, Surveyed(p)), events, t, p, path);
  }

  /** A shutdown is sent in the round if and only if the generation answered while it held no terminal
      and still drained when the round took it out. */
  lemma {:induction false} ShutdownExactly(s: Pool, p: Pid, events: seq<Event>, t: Pool, path: Path)
    requires Reachable(s) && Enabled(s, Surveyed(p))
    requires Runs(Step(s, Surveyed(p)), events, t) && OneRound(events, p)
    requires p in t.tasks && t.tasks[p] == Retiring([])
    ensures var history := History(Step(s, Surveyed(p)), events, p, path);
            && (Stopped in history || NotStopped in history <==> AnsweredEmpty in history && TookOut in history)
            && (Forgotten in history <==> Stopped in history || (SilentAndGone in history && TookOut in history))
            && (TookOut in history ==> AnsweredEmpty in history || SilentAndGone in history)
            && (WentBack in history <==> NotStopped in history)
  {
    hide Reachable, Runs, Step, Enabled, OneRound, History;
    RoundOf(s, p, events, t, path);
  }

  /** What each deed does to the tables. */
  lemma DeedDoes(s: Pool, e: Event, p: Pid, path: Path)
    requires Inv(s) && Enabled(s, e) && DeedOf(s, e, p, path).Some?
    ensures var t := Step(s, e);
            match DeedOf(s, e, p, path).value
            case TookOut =>
              && path in s.draining && path !in t.draining && |t.draining| == |s.draining| - 1
              && (forall q | q in s.draining && q != path :: q in t.draining)
              && t == s.(tasks := t.tasks, draining := t.draining)
            case Stopped =>
              && t.shutdowns == s.shutdowns + [Shutdown(path, {}, true)] && path !in t.held && path in t.stopped
              && t == s.(tasks := t.tasks, shutdowns := t.shutdowns, held := s.held - {path}, stopped := s.stopped + {path})
            case NotStopped =>
              && t.shutdowns == s.shutdowns + [Shutdown(path, {}, false)]
              && t == s.(tasks := t.tasks, shutdowns := t.shutdowns, held := t.held)
              && (t.held == s.held || t.held == s.held - {path})
            case WentBack => t == s.(tasks := t.tasks, draining := s.draining + [path])
            case Forgotten =>
              && t == s.(tasks := t.tasks, owners := t.owners)
              && (forall id :: id in t.owners <==> id in s.owners && s.owners[id] != path)
              && (forall id | id in t.owners :: t.owners[id] == s.owners[id])
            case _ => t == s.(tasks := t.tasks)
  {
    hide Holds, Locks, Logs, Without;
    TaskFacts(s, p);
    WithoutIs(s.draining, path);
    if e.TakenOut? {
      WithoutLess(s.draining, path);
    }
  }

  lemma WithoutLess(paths: seq<Path>, path: Path)
    ensures path in paths ==> |Without(paths, path)| == |paths| - 1
  {
  }

  // ---- an empty broker is retired -----------------------------------------------------------------------

  function Retirement(p: Pid): seq<Event> {
    [Woken(p), Surveyed(p), CandidateAsked(p, true, false), TakenOut(p), ShutdownSent(p, true, true), Cleaned(p), Finished(p)]
  }

  /** The generation `path`, which was the only one to drain, has acknowledged. */
  function Without1(s: Pool, path: Path): Pool {
    s.(draining := [], held := s.held - {path}, stopped := s.stopped + {path}, shutdowns := s.shutdowns + [Shutdown(path, {}, true)])
  }

  lemma FindsEmpty(s: Pool, p: Pid, path: Path)
    requires p !in s.tasks && s.draining == [path]
    ensures var s1 := Go(s, p, Surveying);
            && Enabled(s, Woken(p)) && Step(s, Woken(p)) == s1
            && Enabled(s1, Surveyed(p)) && Step(s1, Surveyed(p)) == Go(s, p, Retiring([path]))
  {
  }

  lemma GetsJudged(s: Pool, p: Pid, path: Path)
    requires s.draining == [path] && path in s.held && s.held[path] == {}
    ensures var s2, s3 := Go(s, p, Retiring([path])), Go(s, p, Judged(path, [], false));
            && Enabled(s2, CandidateAsked(p, true, false)) && Step(s2, CandidateAsked(p, true, false)) == s3
            && Enabled(s3, TakenOut(p)) && Step(s3, TakenOut(p)) == Go(s.(draining := []), p, Stopping(path, []))
  {
    assert Without([path], path) == [];
  }

  lemma GetsStopped(s: Pool, p: Pid, path: Path)
    requires path in s.held && s.held[path] == {}
    ensures var s4 := Go(s.(draining := []), p, Stopping(path, []));
            && Enabled(s4, ShutdownSent(p, true, true))
            && Step(s4, ShutdownSent(p, true, true)) == Go(Without1(s, path), p, Cleaning(path, []))
  {
  }

  lemma GetsForgotten(s: Pool, p: Pid, path: Path)
    requires s.lock != Some(p) && p !in s.tasks
    ensures var cleaned := s.(owners := WithoutOwner(s.owners, path));
            var s5, s6 := Go(s, p, Cleaning(path, [])), Go(cleaned, p, Retiring([]));
            && Enabled(s5, Cleaned(p)) && Step(s5, Cleaned(p)) == s6
            && Enabled(s6, Finished(p)) && Step(s6, Finished(p)) == cleaned
  {
    assert s.tasks[p := Retiring([])] - {p} == s.tasks;
  }

  /** Whatever else is in flight: a round can retire a draining broker that runs and holds nothing. */
  lemma {:induction false} EmptyBrokerRetires(s: Pool, p: Pid, path: Path)
    requires Reachable(s) && p !in s.tasks && s.draining == [path] && path in s.held && s.held[path] == {}
    ensures var t := s.(draining := [], held := s.held - {path}, stopped := s.stopped + {path},
                        shutdowns := s.shutdowns + [Shutdown(path, {}, true)], owners := WithoutOwner(s.owners, path));
            Runs(s, Retirement(p), t) && Reachable(t)
  {
    hide Inv, WithoutOwner, Reachable, Enabled, Step, Runs, Go, Retirement;
    ReachableHolds(s);
    Unlocked(s, p);
    var after := Without1(s, path);
    var cleaned := after.(owners := WithoutOwner(after.owners, path));
    FindsEmpty(s, p, path);
    GetsJudged(s, p, path);
    GetsStopped(s, p, path);
    GetsForgotten(after, p, path);
    RetirementRuns(s, Go(s, p, Surveying), Go(s, p, Retiring([path])), Go(s, p, Judged(path, [], false)),
                   Go(s.(draining := []), p, Stopping(path, [])), Go(after, p, Cleaning(path, [])),
                   Go(cleaned, p, Retiring([])), cleaned, p);
    LaterReachable(s, Retirement(p), cleaned);
  }

  lemma {:induction false} LaterReachable(s: Pool, events: seq<Event>, t: Pool)
    requires Reachable(s) && Runs(s, events, t)
    ensures Reachable(t)
    decreases |events|
  {
    hide Step, Enabled, Reachable;
    if events != [] {
      Onwards(s, events[0], Step(s, events[0]));
      LaterReachable(Step(s, events[0]), events[1..], t);
    }
  }

  lemma Unlocked(s: Pool, p: Pid)
    requires Inv(s) && p !in s.tasks
    ensures s.lock != Some(p)
  {
  }

  lemma Onwards(s: Pool, e: Event, t: Pool)
    requires Reachable(s) && Enabled(s, e) && Step(s, e) == t
    ensures Reachable(t)
  {
    hide Step, Enabled, Reachable;
    Extend(s, e, t);
  }

  lemma {:induction false} RetirementRuns(s0: Pool, s1: Pool, s2: Pool, s3: Pool, s4: Pool, s5: Pool, s6: Pool, s7: Pool, p: Pid)
    requires Enabled(s0, Woken(p)) && Step(s0, Woken(p)) == s1
    requires Enabled(s1, Surveyed(p)) && Step(s1, Surveyed(p)) == s2
    requires Enabled(s2, CandidateAsked(p, true, false)) && Step(s2, CandidateAsked(p, true, false)) == s3
    requires Enabled(s3, TakenOut(p)) && Step(s3, TakenOut(p)) == s4
    requires Enabled(s4, ShutdownSent(p, true, true)) && Step(s4, ShutdownSent(p, true, true)) == s5
    requires Enabled(s5, Cleaned(p)) && Step(s5, Cleaned(p)) == s6
    requires Enabled(s6, Finished(p)) && Step(s6, Finished(p)) == s7
    ensures Runs(s0, Retirement(p), s7)
  {
    hide Step, Enabled;
    var all := Retirement(p);
    assert Runs(s7, all[7..], s7);
    assert Runs(s6, all[6..], s7) by { assert all[6..][1..] == all[7..]; }
    assert Runs(s5, all[5..], s7) by { assert all[5..][1..] == all[6..]; }
    assert Runs(s4, all[4..], s7) by { assert all[4..][1..] == all[5..]; }
    assert Runs(s3, all[3..], s7) by { assert all[3..][1..] == all[4..]; }
    assert Runs(s2, all[2..], s7) by { assert all[2..][1..] == all[3..]; }
    assert Runs(s1, all[1..], s7) by { assert all[1..][1..] == all[2..]; }
  }

  /** Broker 1 is current, broker 2 drains and holds nothing: broker 2 acknowledges a shutdown. */
  lemma AcknowledgedShutdown() returns (t: Pool)
    ensures Reachable(t) && t.draining == [] && t.tasks == map[] && t.shutdowns == [Shutdown(2, {}, true)] && 2 !in t.held
  {
    hide Step, Enabled, Reachable, WithoutOwner;
    var s := Pool(1, [2], map[], None, map[], map[1 := {}, 2 := {}], map[], {}, [], [], []);
    StartsReachable(s);
    EmptyBrokerRetires(s, 0, 2);
    t := s.(draining := [], held := s.held - {2}, stopped := {2}, shutdowns := [Shutdown(2, {}, true)],
            owners := WithoutOwner(s.owners, 2));
    assert s.stopped + {2} == {2} && s.shutdowns + [Shutdown(2, {}, true)] == [Shutdown(2, {}, true)];
  }

  lemma StartsReachable(s: Pool)
    requires Initial(s)
    ensures Reachable(s)
  {
    hide Step, Enabled, Initial;
    assert Runs(s, [], s);
  }
}
