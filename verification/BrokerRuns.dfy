/** What holds of the broker pool after every interleaving of its calls. */
module BrokerRuns {
  import opened Wrappers
  import opened BrokerModel
  import opened BrokerInvariant

  lemma StepKeeps(s: Pool, e: Event)
    requires Inv(s) && Enabled(s, e)
    ensures Inv(Step(s, e))
  {
    hide Inv, Distinct, Empty;
    match e
    case Called(p, call) => BeginKeeps(s, p, call);
    case Woken(p) => WokenKeeps(s, p);
    case Acquired(p) => AcquiredKeeps(s, p);
    case Snapshotted(p) => SnapshotKeeps(s, p);
    case Asked(p, answered) => AskKeeps(s, p, answered);
    case Replaced(p, refused) => ReplaceKeeps(s, p, refused);
    case Looked(p) => LookKeeps(s, p);
    case Made(p, made, answered) => MakeKeeps(s, p, made, answered);
    case Recorded(p) => RecordKeeps(s, p);
    case Sent(p, answered, removed) => ForwardKeeps(s, p, answered, removed);
    case Forgot(p) => ForgetKeeps(s, p);
    case Surveyed(p) => SurveyKeeps(s, p);
    case CandidateAsked(p, answered, gone) => CandidateKeeps(s, p, answered, gone);
    case TakenOut(p) => TakeOutKeeps(s, p);
    case ShutdownSent(p, stops, acknowledged) => ShutdownKeeps(s, p, stops, acknowledged);
    case PutBackIn(p) => PutBackKeeps(s, p);
    case Cleaned(p) => CleanKeeps(s, p);
    case Finished(p) => EndKeeps(s, p);
    case Abandoned(p) => EndKeeps(s, p);
    case Crashed(path) => CrashKeeps(s, path);
    case Vanished(path, id) => VanishKeeps(s, path, id);
  }

  lemma WokenKeeps(s: Pool, p: Pid)
    requires Inv(s) && p !in s.tasks
    ensures Inv(Go(s, p, Surveying))
  {
    GoKeeps(s, p, Surveying);
  }

  lemma AcquiredKeeps(s: Pool, p: Pid)
    requires Inv(s) && Enabled(s, Acquired(p))
    ensures Inv(Step(s, Acquired(p)))
  {
    TaskFacts(s, p);
    AcquireKeeps(s, p);
  }

  lemma SurveyKeeps(s: Pool, p: Pid)
    requires Inv(s) && Enabled(s, Surveyed(p))
    ensures Inv(Step(s, Surveyed(p)))
  {
    TaskFacts(s, p);
    GoKeeps(s, p, Retiring(s.draining));
  }

  lemma CrashKeeps(s: Pool, path: Path)
    requires Inv(s) && path in s.held
    ensures Inv(s.(held := s.held - {path}))
  {
    TerminalsChanged(s, s.(held := s.held - {path}));
  }

  lemma VanishKeeps(s: Pool, path: Path, id: Id)
    requires Inv(s) && path in s.held
    ensures Inv(s.(held := s.held[path := s.held[path] - {id}]))
  {
    TerminalsChanged(s, s.(held := s.held[path := s.held[path] - {id}]));
  }

  lemma InitialHolds(s: Pool)
    requires Initial(s)
    ensures Inv(s)
  {
  }

  lemma {:induction false} RunKeeps(s: Pool, events: seq<Event>, t: Pool)
    requires Inv(s) && Runs(s, events, t)
    ensures Inv(t)
    decreases |events|
  {
    hide Inv, Enabled, Step;
    if events != [] {
      StepKeeps(s, events[0]);
      RunKeeps(Step(s, events[0]), events[1..], t);
    }
  }

  lemma ReachableHolds(t: Pool)
    requires Reachable(t)
    ensures Inv(t)
  {
    hide Inv, Runs, Initial;
    var s, events :| Initial(s) && Runs(s, events, t);
    InitialHolds(s);
    RunKeeps(s, events, t);
  }

  // ---- main results --------------------------------------------------------------------

  /** A draining broker is asked to shut down only while it holds no terminal, exited ones
      included, and the current one is never asked. */
  lemma OnlyEmptyBrokersAreStopped(t: Pool)
    requires Reachable(t)
    ensures forall i | 0 <= i < |t.shutdowns| :: t.shutdowns[i].terminals == {} && t.shutdowns[i].path != t.current
  {
    ReachableHolds(t);
  }

  /** A broker that acknowledged a shutdown does not run, is not among those a listing starts
      from, is taken out by no call, and is never asked to shut down again. */
  lemma StoppedForGood(t: Pool, i: nat)
    requires Reachable(t) && i < |t.shutdowns| && t.shutdowns[i].acknowledged
    ensures var path := t.shutdowns[i].path;
            && path !in t.held && path !in [t.current] + t.draining
            && (forall p | p in t.tasks && Holding(t.tasks[p]) :: t.tasks[p].path != path)
            && (forall j | i < j < |t.shutdowns| :: t.shutdowns[j].path != path)
  {
    ReachableHolds(t);
  }

  /** The draining list names each generation once, never the current one, and never one
      that some call has taken out to stop; no two calls have taken out the same. */
  lemma GenerationsAreDistinct(t: Pool)
    requires Reachable(t)
    ensures t.current !in t.draining && Distinct(t.draining)
    ensures forall p | p in t.tasks && Holding(t.tasks[p]) :: t.tasks[p].path !in t.draining
    ensures forall p, q | p in t.tasks && q in t.tasks && p != q && Holding(t.tasks[p]) && Holding(t.tasks[q]) ::
              t.tasks[p].path != t.tasks[q].path
  {
    ReachableHolds(t);
  }

  /** The call that takes an event's step, if it is a call's. */
  function PidOf(e: Event): Option<Pid> {
    match e
    case Crashed(_) => None
    case Vanished(_, _) => None
    case _ => Some(e.p)
  }

  /** Only `p` may have moved, or returned. */
  ghost predicate OnlyMoves(s: Pool, t: Pool, p: Pid) {
    forall q | q != p :: (q in t.tasks <==> q in s.tasks) && (q in s.tasks ==> t.tasks[q] == s.tasks[q])
  }

  predicate Retires(e: Event) {
    e.Surveyed? || e.CandidateAsked? || e.TakenOut? || e.ShutdownSent? || e.PutBackIn? || e.Cleaned?
  }

  lemma RetirementMoves(s: Pool, e: Event)
    requires Enabled(s, e) && Retires(e)
    ensures OnlyMoves(s, Step(s, e), e.p) && e.p in Step(s, e).tasks
  {
    hide Without, WithoutOwner;
  }

  predicate Lists(e: Event) {
    e.Called? || e.Acquired? || e.Snapshotted? || e.Asked? || e.Replaced? || e.Looked?
  }

  lemma ListingMoves(s: Pool, e: Event)
    requires Enabled(s, e) && Lists(e)
    ensures OnlyMoves(s, Step(s, e), e.p)
  {
    hide OwnedBy, TakeOut, SendShutdown, AskCandidate, PutBack, Clean, Enabled;
  }

  lemma CallMoves(s: Pool, e: Event)
    requires Enabled(s, e) && PidOf(e).Some? && !Retires(e) && !Lists(e)
    ensures OnlyMoves(s, Step(s, e), PidOf(e).value)
  {
    hide OwnedBy, TakeOut, SendShutdown, AskCandidate, PutBack, Clean, Enabled;
  }

  lemma BrokersMove(s: Pool, e: Event)
    requires Enabled(s, e) && PidOf(e) == None
    ensures Step(s, e).tasks == s.tasks
  {
  }

  lemma OthersLeave(s: Pool, e: Event, p: Pid)
    requires Enabled(s, e) && PidOf(e) != Some(p)
    ensures p in Step(s, e).tasks <==> p in s.tasks
    ensures p in s.tasks ==> Step(s, e).tasks[p] == s.tasks[p]
  {
    hide Step, Enabled;
    if PidOf(e) == None {
      BrokersMove(s, e);
    } else if Retires(e) {
      RetirementMoves(s, e);
    } else if Lists(e) {
      ListingMoves(s, e);
    } else {
      CallMoves(s, e);
    }
  }

  ghost predicate ByOthers(events: seq<Event>, p: Pid) {
    forall i | 0 <= i < |events| :: PidOf(events[i]) != Some(p)
  }

  lemma {:induction false} WaitsThrough(s: Pool, events: seq<Event>, t: Pool, p: Pid)
    requires Runs(s, events, t) && ByOthers(events, p) && p in s.tasks
    ensures p in t.tasks && t.tasks[p] == s.tasks[p]
    decreases |events|
  {
    hide Step, Enabled, PidOf;
    if events != [] {
      OthersLeave(s, events[0], p);
      assert forall i | 0 <= i < |events[1..]| :: events[1..][i] == events[i + 1];
      WaitsThrough(Step(s, events[0]), events[1..], t, p);
    }
  }

  /** A generation whose shutdown was not acknowledged goes back, whatever the other calls and
      the brokers do in between: until then nobody lists it or takes it out, and then it is
      listed once. */
  lemma {:induction false} FailedShutdownReturns(s: Pool, p: Pid, stops: bool, events: seq<Event>, t: Pool)
    requires Reachable(s) && Enabled(s, ShutdownSent(p, stops, false))
    requires Runs(Step(s, ShutdownSent(p, stops, false)), events, t) && ByOthers(events, p)
    ensures var path := s.tasks[p].path;
            && path !in [t.current] + t.draining
            && (forall q | q in t.tasks && q != p && Holding(t.tasks[q]) :: t.tasks[q].path != path)
            && Enabled(t, PutBackIn(p)) && Step(t, PutBackIn(p)).draining == t.draining + [path]
  {
    hide Inv, Runs, Reachable;
    ReachableHolds(s);
    var sent := Step(s, ShutdownSent(p, stops, false));
    StepKeeps(s, ShutdownSent(p, stops, false));
    RunKeeps(sent, events, t);
    WaitsThrough(sent, events, t, p);
    ReturningIsOut(t, p);
  }

  lemma ReturningIsOut(t: Pool, p: Pid)
    requires Inv(t) && p in t.tasks && t.tasks[p].Returning?
    ensures t.tasks[p].path !in [t.current] + t.draining
    ensures forall q | q in t.tasks && q != p && Holding(t.tasks[q]) :: t.tasks[q].path != t.tasks[p].path
  {
    TaskFacts(t, p);
  }

  /** Every entry maps a terminal to the broker that created it, and no operation was ever
      sent to another. */
  lemma OwnersAreCreators(t: Pool)
    requires Reachable(t)
    ensures Truthful(t.owners, t.creator)
    ensures forall i | 0 <= i < |t.forwarded| ::
              t.forwarded[i].id in t.creator && t.creator[t.forwarded[i].id] == t.forwarded[i].path
  {
    ReachableHolds(t);
  }

  /** A broker that runs and holds a terminal is among the generations that a listing asks. */
  lemma NoTerminalIsOrphaned(t: Pool, path: Path, id: Id)
    requires Reachable(t) && path in t.held && id in t.held[path]
    ensures path in [t.current] + t.draining
    ensures forall other | other in t.held && id in t.held[other] :: other == path
  {
    ReachableHolds(t);
    forall other | other in t.held && id in t.held[other] ensures other == path {
      assert t.creator[id] == other && t.creator[id] == path;
    }
  }

  /** At most one call is between taking the lock and returning. */
  lemma OneCreatorAtATime(t: Pool, p: Pid, q: Pid)
    requires Reachable(t) && p in t.tasks && q in t.tasks && Locked(t.tasks[p]) && Locked(t.tasks[q])
    ensures p == q && t.lock == Some(p)
  {
    ReachableHolds(t);
    assert t.lock == Some(p);
  }
}
