/** "Every pending request has somebody waiting for it" holds of secret requests, but a
    failed password check can put a root command back to pending after its last waiter
    left. This is the only way it comes about. */
module AccessPending {
  import opened Wrappers
  import opened AccessModel
  import opened AccessOperations
  import opened AccessChanges
  import opened AccessInvariant
  import opened AccessSteps
  import opened AccessSudo
  import opened AccessRuns

  ghost predicate AllAwaited(requests: map<Id, Request>) {
    forall k | k in requests && requests[k].state.Pending? :: requests[k].waiters > 0
  }

  /** The password check of an abandoned request failed. */
  ghost predicate ReturnsAbandoned(w: World, op: Op) {
    && op.OpAuthFailed? && op.call in w.approvers
    && w.approvers[op.call].request in w.st.requests
    && w.st.requests[w.approvers[op.call].request].waiters == 0
  }

  const Command := SudoCommand(["/usr/bin/true"], "/usr/bin/true", "/", "d", FileIdentity(1, 2), FileIdentity(1, 3), "f")

  /** A root command is asked for, its approval begins, the requester gives up, and the
      password turns out wrong. */
  lemma PendingWithoutWaiter() returns (worlds: seq<World>, ops: seq<Op>)
    ensures IsRun(worlds, ops) && !AllAwaited(worlds[|ops|].st.requests)
  {
    var request := OpRequestSudo(1, Command, "why", "agent", 10, "hash", 0, None);
    var begin := OpBeginSudo(1, 10, "hash", 20);
    var leave := OpDetach(10, 0);
    var failed := OpAuthFailed(20);
    var w1 := Asked(request);
    var w2 := Begun(w1, begin);
    var w3 := Left(w2, leave);
    var w4 := Returned(w3, failed);
    worlds, ops := [EmptyWorld, w1, w2, w3, w4], [request, begin, leave, failed];
    assert 10 in worlds[|ops|].st.requests;
    hide IsStep;
    assert forall i | 0 <= i < |ops| :: IsStep(worlds[i], ops[i], worlds[i + 1]);
  }

  lemma Returned(w: World, op: Op) returns (w': World)
    requires op == OpAuthFailed(20)
    requires w.st.requests == map[10 := Request(1, "hash", Sudo(Command), Authenticating, "why", "agent", 0, 0)]
    requires 20 in w.approvers && w.approvers[20].request == 10 && w.approvers[20].phase.CheckingPassword?
    ensures IsStep(w, op, w')
    ensures 10 in w'.st.requests && w'.st.requests[10].state.Pending? && w'.st.requests[10].waiters == 0
  {
    w' := Step(w, op);
  }

  lemma Asked(op: Op) returns (w: World)
    requires op == OpRequestSudo(1, Command, "why", "agent", 10, "hash", 0, None)
    ensures IsStep(EmptyWorld, op, w)
    ensures w.st.requests == map[10 := Request(1, "hash", Sudo(Command), Pending, "why", "agent", 0, 1)]
    ensures w.st.shares == map[] && w.live == multiset{10} && w.used == {10} && w.approvers == map[]
  {
    assert PendingOf(map[], 1) == {};
    w := Step(EmptyWorld, op);
  }

  lemma Begun(w: World, op: Op) returns (w': World)
    requires op == OpBeginSudo(1, 10, "hash", 20)
    requires w.st.requests == map[10 := Request(1, "hash", Sudo(Command), Pending, "why", "agent", 0, 1)]
    requires w.st.shares == map[] && w.live == multiset{10} && w.used == {10}
    ensures IsStep(w, op, w')
    ensures w'.st.requests == map[10 := Request(1, "hash", Sudo(Command), Authenticating, "why", "agent", 0, 1)]
    ensures w'.st.shares == map[] && w'.live == multiset{10}
    ensures 20 in w'.approvers && w'.approvers[20].request == 10 && w'.approvers[20].phase.CheckingPassword?
  {
    w' := Step(w, op);
  }

  lemma Left(w: World, op: Op) returns (w': World)
    requires op == OpDetach(10, 0)
    requires w.st.requests == map[10 := Request(1, "hash", Sudo(Command), Authenticating, "why", "agent", 0, 1)]
    requires w.st.shares == map[] && w.live == multiset{10}
    ensures IsStep(w, op, w')
    ensures w'.st.requests == map[10 := Request(1, "hash", Sudo(Command), Authenticating, "why", "agent", 0, 0)]
    ensures w'.approvers == w.approvers
  {
    w' := Step(w, op);
  }

  // ---- exactly when --------------------------------------------------------------

  /** Requests that were pending stay pending or go, those that are new are waited for,
      and none loses its last waiter while pending. */
  ghost predicate NoneAbandoned(requests: map<Id, Request>, requests': map<Id, Request>) {
    forall k | k in requests' && requests'[k].state.Pending? ::
      requests'[k].waiters > 0 || (k in requests && requests[k] == requests'[k])
  }

  lemma ChangeAbandonsNone(w: World, op: Op, c: Change)
    requires Allowed(w, op, c) && !ReturnsAbandoned(w, op)
    ensures NoneAbandoned(w.st.requests, Changed(w.st.requests, c))
  {
  }

  /** If every pending request is waited for, a step keeps that unless, and only unless, it
      returns a request to pending whose waiters have all left. */
  lemma AwaitedUnlessReturned(w: World, op: Op)
    requires Enabled(w, op) && AllAwaited(w.st.requests)
    ensures AllAwaited(Step(w, op).st.requests) <==> !ReturnsAbandoned(w, op)
  {
    hide Step, Enabled, Changed, Allowed;
    if ReturnsAbandoned(w, op) {
      ReturnFails(w, op);
    } else {
      var c := StepChanges(w, op);
      ChangeAbandonsNone(w, op, c);
    }
  }

  lemma ReturnFails(w: World, op: Op)
    requires Enabled(w, op) && ReturnsAbandoned(w, op)
    ensures !AllAwaited(Step(w, op).st.requests)
  {
    var k := w.approvers[op.call].request;
    assert Step(w, op).st.requests[k].state.Pending? && Step(w, op).st.requests[k].waiters == 0;
  }
}
