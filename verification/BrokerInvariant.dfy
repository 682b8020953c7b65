/** What every interleaving of calls on the broker pool keeps. */
module BrokerInvariant {
  import opened Wrappers
  import opened BrokerModel

  // ---- the invariant ---------------------------------------------------------------

  ghost predicate Distinct(paths: seq<Path>) {
    forall i, j | 0 <= i < j < |paths| :: paths[i] != paths[j]
  }

  /** Every entry maps a terminal to the broker that created it. */
  ghost predicate Truthful(owners: map<Id, Path>, creator: map<Id, Path>) {
    forall id | id in owners :: id in creator && creator[id] == owners[id]
  }

  ghost predicate Empty(s: Pool, path: Path) {
    path in s.held ==> s.held[path] == {}
  }

  ghost predicate Tables(s: Pool) {
    && s.current !in s.draining && Distinct(s.draining)
    && Truthful(s.owners, s.creator)
    && (forall path, id | path in s.held && id in s.held[path] :: id in s.creator && s.creator[id] == path)
    && (forall path | path in s.held :: path == s.current || path in s.draining || s.held[path] == {})
    && (forall path | path in s.stopped :: path !in s.draining && path != s.current && path !in s.held)
  }

  /** What a call in flight knows, whatever the others do. */
  ghost predicate Knows(s: Pool, stage: Stage) {
    match stage
    case Waiting(call) => Locking(call)
    case Starting(call, again) => again ==> About(call)
    case Listing(call, again, _, found) => (again ==> About(call)) && Truthful(found, s.creator)
    case Looking(call, _) => About(call)
    case Recording(id) => id in s.creator && s.creator[id] == s.current
    case Forwarding(call, path) => About(call) && call.id in s.creator && s.creator[call.id] == path
    case Retiring(left) => s.current !in left
    case Judged(path, left, gone) => s.current !in left && path != s.current && Empty(s, path) && (gone ==> path !in s.held)
    case Stopping(path, left) => s.current !in left && path != s.current && Empty(s, path)
    case Returning(path, left) => s.current !in left && path != s.current && Empty(s, path)
    case Cleaning(_, left) => s.current !in left
    case _ => true
  }

  ghost predicate Tasks(s: Pool) {
    forall p | p in s.tasks :: Knows(s, s.tasks[p])
  }

  predicate Holding(stage: Stage) {
    stage.Stopping? || stage.Returning?
  }

  /** A generation taken out to be stopped is in one call's hands only. */
  ghost predicate Holds(s: Pool) {
    && (forall p | p in s.tasks && Holding(s.tasks[p]) :: s.tasks[p].path !in s.draining && s.tasks[p].path !in s.stopped)
    && (forall p, q | p in s.tasks && q in s.tasks && p != q && Holding(s.tasks[p]) && Holding(s.tasks[q]) ::
          s.tasks[p].path != s.tasks[q].path)
  }

  predicate Locked(stage: Stage) {
    match stage
    case Starting(call, _) => Locking(call)
    case Listing(call, _, _, _) => Locking(call)
    case Looking(call, _) => Locking(call)
    case Creating => true
    case Recording(_) => true
    case Forwarding(call, _) => Locking(call)
    case _ => false
  }

  ghost predicate Locks(s: Pool) {
    && (forall p | p in s.tasks :: Locked(s.tasks[p]) <==> s.lock == Some(p))
    && (s.lock.Some? ==> s.lock.value in s.tasks)
  }

  ghost predicate Logs(s: Pool) {
    && (forall i | 0 <= i < |s.shutdowns| ::
          && s.shutdowns[i].terminals == {} && s.shutdowns[i].path != s.current
          && (s.shutdowns[i].acknowledged ==> s.shutdowns[i].path in s.stopped))
    && (forall i, j | 0 <= i < j < |s.shutdowns| && s.shutdowns[i].acknowledged :: s.shutdowns[i].path != s.shutdowns[j].path)
    && (forall i | 0 <= i < |s.forwarded| ::
          s.forwarded[i].id in s.creator && s.creator[s.forwarded[i].id] == s.forwarded[i].path)
  }

  ghost predicate Inv(s: Pool) {
    Tables(s) && Tasks(s) && Holds(s) && Locks(s) && Logs(s)
  }

  // ---- steps that only move one call -------------------------------------------------

  /** Terminals are only added to the current broker, and their creators never change. */
  ghost predicate Grows(s: Pool, t: Pool) {
    && t.current == s.current
    && (forall id | id in s.creator :: id in t.creator && t.creator[id] == s.creator[id])
    && (forall path | path in t.held && path != s.current :: path in s.held && t.held[path] <= s.held[path])
  }

  ghost predicate OthersAsBefore(s: Pool, t: Pool, p: Pid) {
    forall q | q in t.tasks && q != p :: q in s.tasks && t.tasks[q] == s.tasks[q]
  }

  lemma TasksKept(s: Pool, t: Pool, p: Pid)
    requires Tasks(s) && Grows(s, t) && OthersAsBefore(s, t, p)
    requires p in t.tasks ==> Knows(t, t.tasks[p])
    ensures Tasks(t)
  {
    forall q | q in t.tasks ensures Knows(t, t.tasks[q]) {
      if q != p {
        KnowsKept(s, t, s.tasks[q]);
      }
    }
  }

  lemma KnowsKept(s: Pool, t: Pool, stage: Stage)
    requires Knows(s, stage) && Grows(s, t)
    ensures Knows(t, stage)
  {
  }

  /** The lock follows the one call that moves. */
  lemma LocksKept(s: Pool, t: Pool, p: Pid)
    requires Locks(s) && OthersAsBefore(s, t, p)
    requires forall q | q in s.tasks && q != p :: q in t.tasks
    requires p in t.tasks ==> (Locked(t.tasks[p]) <==> t.lock == Some(p))
    requires p !in t.tasks ==> t.lock != Some(p)
    requires t.lock == s.lock || (t.lock == Some(p) && s.lock == None) || (s.lock == Some(p) && t.lock == None)
    ensures Locks(t)
  {
  }

  lemma EndKeeps(s: Pool, p: Pid)
    requires Inv(s) && p in s.tasks
    ensures Inv(End(s, p))
  {
    var t := End(s, p);
    hide Knows, Truthful, Empty, Distinct;
    TasksKept(s, t, p);
    LocksKept(s, t, p);
  }

  /** A call moves on to a stage that holds no generation, and the lock stays where it is. */
  lemma GoKeeps(s: Pool, p: Pid, stage: Stage)
    requires Inv(s) && Knows(s, stage) && !Holding(stage)
    requires Locked(stage) <==> s.lock == Some(p)
    ensures Inv(Go(s, p, stage))
  {
    var t := Go(s, p, stage);
    hide Knows, Truthful, Empty, Distinct;
    assert Knows(t, stage) by {
      KnowsKept(s, t, stage);
    }
    TasksKept(s, t, p);
    LocksKept(s, t, p);
  }

  lemma TaskFacts(s: Pool, p: Pid)
    requires Inv(s) && p in s.tasks
    ensures Knows(s, s.tasks[p]) && (Locked(s.tasks[p]) <==> s.lock == Some(p))
  {
  }

  lemma BeginKeeps(s: Pool, p: Pid, call: Call)
    requires Inv(s) && p !in s.tasks
    ensures Inv(Begin(s, p, call))
  {
    GoKeeps(s, p, Begin(s, p, call).tasks[p]);
  }

  lemma AcquireKeeps(s: Pool, p: Pid)
    requires Inv(s) && Enabled(s, Acquired(p)) && Locking(s.tasks[p].call)
    ensures Inv(Acquire(s, p, s.tasks[p].call))
  {
    var t := Acquire(s, p, s.tasks[p].call);
    hide Distinct, Empty;
    TasksKept(s, t, p);
    LocksKept(s, t, p);
  }

  // ---- listing and owners -------------------------------------------------------------

  lemma SnapshotKeeps(s: Pool, p: Pid)
    requires Inv(s) && Enabled(s, Snapshotted(p))
    ensures Inv(Step(s, Snapshotted(p)))
  {
    GoKeeps(s, p, Listing(s.tasks[p].call, s.tasks[p].again, [s.current] + s.draining, map[]));
  }

  lemma AskKeeps(s: Pool, p: Pid, answered: bool)
    requires Inv(s) && Enabled(s, Asked(p, answered))
    ensures Inv(Step(s, Asked(p, answered)))
  {
    var stage := s.tasks[p];
    var path := stage.todo[0];
    if answered {
      GoKeeps(s, p, stage.(todo := stage.todo[1..], found := stage.found + OwnedBy(path, s.held[path])));
    } else if path == s.current {
      EndKeeps(s, p);
    } else {
      GoKeeps(s, p, stage.(todo := stage.todo[1..]));
    }
  }

  /** Owners may be replaced by anything that is true. */
  lemma OwnersReplaced(s: Pool, owners: map<Id, Path>)
    requires Inv(s) && Truthful(owners, s.creator)
    ensures Inv(s.(owners := owners))
  {
    hide Distinct;
    var t := s.(owners := owners);
    forall p | p in t.tasks ensures Knows(t, t.tasks[p]) {
      KnowsKept(s, t, s.tasks[p]);
    }
  }

  lemma ReplaceKeeps(s: Pool, p: Pid, refused: bool)
    requires Inv(s) && Enabled(s, Replaced(p, refused))
    ensures Inv(Step(s, Replaced(p, refused)))
  {
    var stage := s.tasks[p];
    var listed := s.(owners := stage.found);
    assert Knows(s, stage);
    OwnersReplaced(s, stage.found);
    if stage.call.List? || (!stage.again && refused) {
      EndKeeps(listed, p);
    } else if stage.again {
      GoKeeps(listed, p, Looking(stage.call, true));
    } else if stage.call.Create? {
      GoKeeps(listed, p, Creating);
    } else {
      GoKeeps(listed, p, Looking(stage.call, false));
    }
  }

  lemma LookKeeps(s: Pool, p: Pid)
    requires Inv(s) && Enabled(s, Looked(p))
    ensures Inv(Step(s, Looked(p)))
  {
    var call := s.tasks[p].call;
    assert Knows(s, s.tasks[p]);
    if call.id in s.owners {
      GoKeeps(s, p, Forwarding(call, s.owners[call.id]));
    } else if !s.tasks[p].again {
      GoKeeps(s, p, Starting(call, true));
    } else {
      EndKeeps(s, p);
      assert End(s.(missed := s.missed + [call.id]), p) == End(s, p).(missed := s.missed + [call.id]);
      MissedIsFree(End(s, p), s.missed + [call.id]);
    }
  }

  lemma MissedIsFree(s: Pool, missed: seq<Id>)
    requires Inv(s)
    ensures Inv(s.(missed := missed))
  {
    hide Distinct, Truthful;
    var t := s.(missed := missed);
    forall p | p in t.tasks ensures Knows(t, t.tasks[p]) {
      KnowsKept(s, t, s.tasks[p]);
    }
  }

  // ---- terminals ------------------------------------------------------------------------

  lemma MakeKeeps(s: Pool, p: Pid, made: Option<Id>, answered: bool)
    requires Inv(s) && Enabled(s, Made(p, made, answered))
    ensures Inv(Step(s, Made(p, made, answered)))
  {
    if made.None? {
      EndKeeps(s, p);
    } else {
      var t := s.(held := s.held[s.current := s.held[s.current] + {made.value}],
                  creator := s.creator[made.value := s.current]);
      TerminalsChanged(s, t);
      if answered {
        GoKeeps(t, p, Recording(made.value));
      } else {
        EndKeeps(t, p);
      }
    }
  }

  /** Terminals come and go; nothing else changes. */
  lemma TerminalsChanged(s: Pool, t: Pool)
    requires Inv(s) && Grows(s, t)
    requires t == s.(held := t.held, creator := t.creator)
    requires forall path, id | path in t.held && id in t.held[path] :: id in t.creator && t.creator[id] == path
    ensures Inv(t)
  {
    hide Distinct;
    forall p | p in t.tasks ensures Knows(t, t.tasks[p]) {
      KnowsKept(s, t, s.tasks[p]);
    }
    forall path | path in t.held ensures path == t.current || path in t.draining || t.held[path] == {} {
      if path != t.current && path !in t.draining {
        assert path in s.held && s.held[path] == {};
      }
    }
  }

  lemma RecordKeeps(s: Pool, p: Pid)
    requires Inv(s) && Enabled(s, Recorded(p))
    ensures Inv(Step(s, Recorded(p)))
  {
    assert Knows(s, s.tasks[p]);
    OwnersReplaced(s, s.owners[s.tasks[p].created := s.current]);
    EndKeeps(s.(owners := s.owners[s.tasks[p].created := s.current]), p);
  }

  lemma ForwardKeeps(s: Pool, p: Pid, answered: bool, removed: bool)
    requires Inv(s) && Enabled(s, Sent(p, answered, removed))
    ensures Inv(Step(s, Sent(p, answered, removed)))
  {
    var call, path := s.tasks[p].call, s.tasks[p].owner;
    TaskFacts(s, p);
    var held := if removed then s.held[path := s.held[path] - {call.id}] else s.held;
    var t := s.(held := held);
    TerminalsChanged(s, t);
    ForwardedIsTrue(t, call.id, path);
    var sent := t.(forwarded := s.forwarded + [Forwarded(call.id, path)]);
    if answered && removed {
      GoKeeps(sent, p, Forgetting(call.id));
    } else {
      EndKeeps(sent, p);
    }
  }

  lemma ForwardedIsTrue(s: Pool, id: Id, path: Path)
    requires Inv(s) && id in s.creator && s.creator[id] == path
    ensures Inv(s.(forwarded := s.forwarded + [Forwarded(id, path)]))
  {
    hide Distinct, Truthful;
    var t := s.(forwarded := s.forwarded + [Forwarded(id, path)]);
    forall p | p in t.tasks ensures Knows(t, t.tasks[p]) {
      KnowsKept(s, t, s.tasks[p]);
    }
  }

  lemma ForgetKeeps(s: Pool, p: Pid)
    requires Inv(s) && Enabled(s, Forgot(p))
    ensures Inv(Step(s, Forgot(p)))
  {
    OwnersReplaced(s, s.owners - {s.tasks[p].removed});
    EndKeeps(s.(owners := s.owners - {s.tasks[p].removed}), p);
  }

  // ---- retirement -----------------------------------------------------------------------

  lemma CandidateKeeps(s: Pool, p: Pid, answered: bool, gone: bool)
    requires Inv(s) && Enabled(s, CandidateAsked(p, answered, gone))
    ensures Inv(Step(s, CandidateAsked(p, answered, gone)))
  {
    TaskFacts(s, p);
    hide Inv;
    GoKeeps(s, p, AskCandidate(s, p, s.tasks[p].left, answered, gone).tasks[p]);
  }

  function Kept(i: nat, k: nat): nat {
    if k < i then k else k + 1
  }

  lemma RemovedAt(paths: seq<Path>, i: nat, k: nat)
    requires i < |paths| && k < |paths| - 1
    ensures (paths[..i] + paths[i + 1..])[k] == paths[Kept(i, k)]
  {
  }

  /** Taking one element out leaves the others, in order. */
  lemma WithoutIs(paths: seq<Path>, path: Path)
    requires Distinct(paths)
    ensures Distinct(Without(paths, path))
    ensures forall q :: q in Without(paths, path) <==> q in paths && q != path
  {
    var i := IndexOf(paths, path);
    var others := Without(paths, path);
    if i < |paths| {
      forall k | 0 <= k < |others| ensures others[k] == paths[Kept(i, k)] {
        RemovedAt(paths, i, k);
      }
      forall q | q in paths && q != path ensures q in others {
        var k :| 0 <= k < |paths| && paths[k] == q;
        assert others[if k < i then k else k - 1] == q;
      }
    } else {
      assert paths[..i] == paths;
    }
  }

  /** Nobody holds this generation and it may be held. */
  ghost predicate Free(s: Pool, path: Path) {
    && path !in s.draining && path !in s.stopped && path != s.current
    && (forall p | p in s.tasks && Holding(s.tasks[p]) :: s.tasks[p].path != path)
  }

  /** `forget_draining` on a generation that holds no terminal: it is nobody else's. */
  lemma TakenOutIsFree(s: Pool, path: Path)
    requires Inv(s) && path in s.draining && Empty(s, path)
    ensures var t := s.(draining := Without(s.draining, path)); Inv(t) && Free(t, path)
  {
    hide Without, Truthful, Knows;
    var t := s.(draining := Without(s.draining, path));
    WithoutIs(s.draining, path);
    forall p | p in t.tasks ensures Knows(t, t.tasks[p]) {
      KnowsKept(s, t, s.tasks[p]);
    }
  }

  lemma HoldKeeps(s: Pool, p: Pid, stage: Stage)
    requires Inv(s) && Knows(s, stage) && Holding(stage) && Free(s, stage.path) && s.lock != Some(p)
    ensures Inv(Go(s, p, stage))
  {
    hide Knows, Truthful, Empty, Distinct;
    var t := Go(s, p, stage);
    KnowsKept(s, t, stage);
    TasksKept(s, t, p);
    LocksKept(s, t, p);
  }

  /** A call that lets go of a generation leaves it free. */
  lemma LetGo(s: Pool, p: Pid, stage: Stage)
    requires Inv(s) && p in s.tasks && Holding(s.tasks[p]) && Knows(s, stage) && !Holding(stage) && !Locked(stage)
    ensures Inv(Go(s, p, stage)) && Free(Go(s, p, stage), s.tasks[p].path)
  {
    assert Knows(s, s.tasks[p]);
    GoKeeps(s, p, stage);
  }

  lemma TakeOutKeeps(s: Pool, p: Pid)
    requires Inv(s) && Enabled(s, TakenOut(p))
    ensures Inv(Step(s, TakenOut(p)))
  {
    hide Inv, Without, Free;
    var stage := s.tasks[p];
    assert Knows(s, stage) && !Locked(stage) && s.lock != Some(p) by {
      TaskFacts(s, p);
    }
    if stage.path in s.draining {
      TakenOutIsFree(s, stage.path);
      var t := s.(draining := Without(s.draining, stage.path));
      if stage.gone {
        GoKeeps(t, p, Cleaning(stage.path, stage.left));
      } else {
        HoldKeeps(t, p, Stopping(stage.path, stage.left));
      }
    } else {
      GoKeeps(s, p, Retiring(stage.left));
    }
  }

  /** A shutdown is sent to a broker that holds no terminal, and an acknowledged one to a
      broker that nobody holds any more. */
  lemma ShutdownSentKeeps(s: Pool, path: Path, stops: bool, acknowledged: bool)
    requires Inv(s) && path != s.current && path !in s.stopped && Empty(s, path) && (acknowledged ==> stops && Free(s, path))
    ensures Inv(s.(shutdowns := s.shutdowns + [Shutdown(path, {}, acknowledged)],
                   held := if stops then s.held - {path} else s.held,
                   stopped := if acknowledged then s.stopped + {path} else s.stopped))
  {
    hide Distinct, Truthful, Knows, Locks;
    var t := s.(shutdowns := s.shutdowns + [Shutdown(path, {}, acknowledged)],
                held := if stops then s.held - {path} else s.held,
                stopped := if acknowledged then s.stopped + {path} else s.stopped);
    forall p | p in t.tasks ensures Knows(t, t.tasks[p]) {
      KnowsKept(s, t, s.tasks[p]);
    }
    assert Locks(t) by {
      LocksOf(s, t);
    }
    assert Tables(t) && Holds(t);
  }

  lemma LocksOf(s: Pool, t: Pool)
    requires Locks(s) && t.tasks == s.tasks && t.lock == s.lock
    ensures Locks(t)
  {
  }

  lemma ShutdownKeeps(s: Pool, p: Pid, stops: bool, acknowledged: bool)
    requires Inv(s) && Enabled(s, ShutdownSent(p, stops, acknowledged))
    ensures Inv(Step(s, ShutdownSent(p, stops, acknowledged)))
  {
    var stage := s.tasks[p];
    TaskFacts(s, p);
    assert stage.path !in s.stopped;
    hide Inv, Free;
    if acknowledged {
      LetGo(s, p, Cleaning(stage.path, stage.left));
      ShutdownSentKeeps(Go(s, p, Cleaning(stage.path, stage.left)), stage.path, stops, true);
    } else {
      ReturnKeeps(s, p);
      ShutdownSentKeeps(Go(s, p, Returning(stage.path, stage.left)), stage.path, stops, false);
    }
  }

  lemma StoppingKnows(s: Pool, stage: Stage)
    requires Knows(s, stage) && stage.Stopping?
    ensures Knows(s, Returning(stage.path, stage.left)) && Knows(s, Retiring(stage.left))
    ensures !Locked(stage) && !Locked(Retiring(stage.left))
  {
  }

  lemma ReturnKeeps(s: Pool, p: Pid)
    requires Inv(s) && p in s.tasks && s.tasks[p].Stopping?
    ensures Inv(Go(s, p, Returning(s.tasks[p].path, s.tasks[p].left)))
  {
    hide Inv, Free, Knows, Locked;
    var stage := s.tasks[p];
    TaskFacts(s, p);
    StoppingKnows(s, stage);
    LetGo(s, p, Retiring(stage.left));
    var t := Go(s, p, Retiring(stage.left));
    KnowsKept(s, t, Returning(stage.path, stage.left));
    HoldKeeps(t, p, Returning(stage.path, stage.left));
    assert t.tasks[p := Returning(stage.path, stage.left)] == s.tasks[p := Returning(stage.path, stage.left)];
  }

  /** The generation was in this call's hands only, so it comes back once. */
  lemma PutBackKeeps(s: Pool, p: Pid)
    requires Inv(s) && Enabled(s, PutBackIn(p))
    ensures Inv(Step(s, PutBackIn(p)))
  {
    hide Inv, Free;
    var stage := s.tasks[p];
    TaskFacts(s, p);
    LetGo(s, p, Retiring(stage.left));
    AddedOnce(Go(s, p, Retiring(stage.left)), stage.path);
  }

  lemma AddedOnce(s: Pool, path: Path)
    requires Inv(s) && Free(s, path)
    ensures Inv(s.(draining := s.draining + [path]))
  {
    hide Truthful, Knows, Locks;
    var t := s.(draining := s.draining + [path]);
    forall p | p in t.tasks ensures Knows(t, t.tasks[p]) {
      KnowsKept(s, t, s.tasks[p]);
    }
    assert Locks(t) by {
      LocksOf(s, t);
    }
    assert Tables(t);
  }

  lemma CleanKeeps(s: Pool, p: Pid)
    requires Inv(s) && Enabled(s, Cleaned(p))
    ensures Inv(Step(s, Cleaned(p)))
  {
    assert Knows(s, s.tasks[p]);
    OwnersReplaced(s, WithoutOwner(s.owners, s.tasks[p].path));
    GoKeeps(s.(owners := WithoutOwner(s.owners, s.tasks[p].path)), p, Retiring(s.tasks[p].left));
  }
}
