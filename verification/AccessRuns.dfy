/** Properties of whole runs of the access broker: every operation is atomic, and any
    operations of any terminals may come between the lock sections of an approval. */
module AccessRuns {
  import opened Wrappers
  import opened AccessModel
  import opened AccessOperations
  import opened AccessChanges
  import opened AccessInvariant
  import opened AccessSteps
  import opened AccessSudo

  // ---- one step ------------------------------------------------------------------

  lemma SudoStepGood(w: World, op: Op)
    requires Inv(w) && Enabled(w, op) && InvolvesSudo(op)
    ensures Good(w, Step(w, op))
  {
    hide Inv, Evolves, Good, ExpireShares, RequestSecret, RequestSudo, Reject, DetachWaiter, AddSecret, ApproveSecret, RevokeGrant,
         GenerateSecret, ExecuteSecret, ShareSecret, WaitShare, RevealShare, DismissShare, BeginSudo, AuthFailed, StartSudo,
         AnnounceSudo, SpawnSudo, SudoOutput, FinishSudo, AbortSudo, ClearTerminal, ClearInactive;
    match op
    case OpBeginSudo(terminal, request, hash, call) => BeginSudoGood(w, terminal, request, hash, call);
    case OpAuthFailed(call) => AuthFailedGood(w, call);
    case OpStart(call) => StartSudoGood(w, call);
    case OpAnnounce(call) => AnnounceSudoGood(w, call);
    case OpSpawn(call) => SpawnSudoGood(w, call);
    case OpOutput(call, data) => SudoOutputGood(w, call, data);
    case OpFinish(call, code, now) => FinishSudoGood(w, call, code, now);
    case OpAbort(call, message, now) => AbortSudoGood(w, call, message, now);
  }

  lemma ExpiringStepGood(w: World, op: Op)
    requires Inv(w) && Enabled(w, op) && Expires(op)
    ensures Good(w, Step(w, op))
  {
    hide Inv, Evolves, Good, ExpireShares, RequestSecret, RequestSudo, Reject, DetachWaiter, AddSecret, ApproveSecret, RevokeGrant,
         GenerateSecret, ExecuteSecret, ShareSecret, WaitShare, RevealShare, DismissShare, BeginSudo, AuthFailed, StartSudo,
         AnnounceSudo, SpawnSudo, SudoOutput, FinishSudo, AbortSudo, ClearTerminal, ClearInactive;
    match op
    case OpExpire(now, order) => ExpireSharesGood(w, now, order);
    case OpShare(terminal, name, agent, detail, ttl, id, now, order, victim) =>
      ShareSecretGood(w, terminal, name, agent, detail, ttl, id, now, order, victim);
    case OpWait(terminal, share, now, order) => WaitShareGood(w, terminal, share, now, order);
    case OpReveal(terminal, share, now, order) => RevealShareGood(w, terminal, share, now, order);
    case OpDismiss(terminal, share, now, order) => DismissShareGood(w, terminal, share, now, order);
  }

  lemma OtherStepGood(w: World, op: Op)
    requires Inv(w) && Enabled(w, op) && !InvolvesSudo(op) && !Expires(op)
    ensures Good(w, Step(w, op))
  {
    hide Inv, Evolves, Good, ExpireShares, RequestSecret, RequestSudo, Reject, DetachWaiter, AddSecret, ApproveSecret, RevokeGrant,
         GenerateSecret, ExecuteSecret, ShareSecret, WaitShare, RevealShare, DismissShare, BeginSudo, AuthFailed, StartSudo,
         AnnounceSudo, SpawnSudo, SudoOutput, FinishSudo, AbortSudo, ClearTerminal, ClearInactive;
    match op
    case OpRequestSecret(terminal, name, description, agent, id, hash, now) =>
      RequestSecretGood(w, terminal, name, description, agent, id, hash, now);
    case OpRequestSudo(terminal, command, description, agent, id, hash, now, pick) =>
      RequestSudoGood(w, terminal, command, description, agent, id, hash, now, pick);
    case OpReject(terminal, request, hash, comment, now) => RejectGood(w, terminal, request, hash, comment, now);
    case OpDetach(channel, now) => DetachGood(w, channel, now);
    case OpAddSecret(terminal, name, value, detail, id, now) => AddSecretGood(w, terminal, name, value, detail, id, now);
    case OpApproveSecret(terminal, request, hash, value, id, now) =>
      ApproveSecretGood(w, terminal, request, hash, value, id, now);
    case OpRevoke(terminal, grant, now, order) => RevokeGrantGood(w, terminal, grant, now, order);
    case OpGenerate(terminal, name, agent, detail, value, replace, id, now, order) =>
      GenerateSecretGood(w, terminal, name, agent, detail, value, replace, id, now, order);
    case OpExecute(terminal, name, display, id, now) => ExecuteSecretGood(w, terminal, name, display, id, now);
    case OpFinishExecution(id) => ExecutionsRemoved(w, {id});
    case OpClearTerminal(terminal) => ClearTerminalGood(w, terminal);
    case OpClearInactive(active) => ClearInactiveGood(w, active);
  }

  /** Every operation keeps the invariant and only extends the history. */
  lemma StepGood(w: World, op: Op)
    requires Inv(w) && Enabled(w, op)
    ensures Good(w, Step(w, op))
  {
    hide Inv, Enabled, Good, Step;
    if InvolvesSudo(op) {
      SudoStepGood(w, op);
    } else if Expires(op) {
      ExpiringStepGood(w, op);
    } else {
      OtherStepGood(w, op);
    }
  }

  // ---- runs ------------------------------------------------------------------------

  ghost predicate IsStep(w: World, op: Op, w': World) {
    Enabled(w, op) && w' == Step(w, op)
  }

  /** `worlds[i]` is the broker after the first `i` operations. */
  ghost predicate IsRun(worlds: seq<World>, ops: seq<Op>) {
    && |worlds| == |ops| + 1
    && worlds[0] == EmptyWorld
    && forall i | 0 <= i < |ops| :: IsStep(worlds[i], ops[i], worlds[i + 1])
  }

  lemma EmptyOk()
    ensures Inv(EmptyWorld)
  {
    forall t: Id
      ensures |GrantsOf(map[], t)| <= MAX_SECRET_GRANTS && |SecretsOf(map[], t)| <= MAX_PENDING_REQUESTS
      ensures |SharesOf(map[], t)| <= MAX_SECRET_SHARES && |OfferedOf(map[], t)| <= MAX_PENDING_SHARES
      ensures |ExecutionsOf(map[], t)| <= MAX_SECRET_EXECUTIONS
    {
      assert GrantsOf(map[], t) == {} && SecretsOf(map[], t) == {} && SharesOf(map[], t) == {};
      assert OfferedOf(map[], t) == {} && ExecutionsOf(map[], t) == {};
    }
  }

  /** The invariant holds in every reachable state. */
  lemma {:induction false} Reachable(worlds: seq<World>, ops: seq<Op>, i: nat)
    requires IsRun(worlds, ops) && i <= |ops|
    ensures Inv(worlds[i])
  {
    hide Inv, Step, Enabled;
    if i == 0 {
      EmptyOk();
    } else {
      Reachable(worlds, ops, i - 1);
      assert IsStep(worlds[i - 1], ops[i - 1], worlds[i]);
      StepGood(worlds[i - 1], ops[i - 1]);
    }
  }

  /** What one state recorded or closed, every later one keeps. */
  lemma {:induction false} LaterKeeps(worlds: seq<World>, ops: seq<Op>, i: nat, j: nat)
    requires IsRun(worlds, ops) && i <= j <= |ops|
    ensures Evolves(worlds[i], worlds[j])
    decreases j
  {
    hide Inv, Step, Enabled, Evolves;
    if i == j {
      EvolvesReflexive(worlds[i]);
    } else {
      LaterKeeps(worlds, ops, i, j - 1);
      Reachable(worlds, ops, j - 1);
      assert IsStep(worlds[j - 1], ops[j - 1], worlds[j]);
      StepGood(worlds[j - 1], ops[j - 1]);
      EvolvesTransitive(worlds[i], worlds[j - 1], worlds[j]);
    }
  }

  // ---- the tables agree ----------------------------------------------------------------

  /** In every reachable state: names are granted once per terminal; an open offer has a
      live grant of its terminal and name with its value; any other share holds no value;
      one secret request per name, none for a granted one, each still waited for; and the
      limits per terminal hold. */
  lemma TablesAgree(worlds: seq<World>, ops: seq<Op>, i: nat)
    requires IsRun(worlds, ops) && i <= |ops|
    ensures var st := worlds[i].st;
            && (forall a, b | a in st.grants && b in st.grants && st.grants[a].terminal == st.grants[b].terminal
                              && st.grants[a].name == st.grants[b].name :: a == b)
            && (forall k | k in st.shares && st.shares[k].state.Offered? ::
                  exists g | g in st.grants :: IsGrant(st.grants[g], st.shares[k].terminal, st.shares[k].name)
                                               && st.grants[g].value == st.shares[k].value)
            && (forall k | k in st.shares && !st.shares[k].state.Offered? :: st.shares[k].value == "")
            && (forall a, b | a in st.requests && b in st.requests && st.requests[a].kind.Secret?
                              && st.requests[a].kind == st.requests[b].kind
                              && st.requests[a].terminal == st.requests[b].terminal :: a == b)
            && (forall k | k in st.requests && st.requests[k].kind.Secret? ::
                  !Granted(st.grants, st.requests[k].terminal, st.requests[k].kind.name)
                  && st.requests[k].state.Pending? && st.requests[k].waiters > 0)
            && (forall t: Id :: |GrantsOf(st.grants, t)| <= 64 && |SecretsOf(st.requests, t)| <= 32)
            && (forall t: Id :: |SharesOf(st.shares, t)| <= 32 && |OfferedOf(st.shares, t)| <= 8)
            && (forall t: Id :: |ExecutionsOf(st.executions, t)| <= 8)
            && |st.activity| <= 100
  {
    Reachable(worlds, ops, i);
    var w := worlds[i];
    forall k | k in w.st.shares && w.st.shares[k].state.Offered?
      ensures exists g | g in w.st.grants :: IsGrant(w.st.grants[g], w.st.shares[k].terminal, w.st.shares[k].name)
                                             && w.st.grants[g].value == w.st.shares[k].value
    {
      assert ShareOk(w.st.grants, w.st.shares[k]);
    }
  }

  /** The count shown for a request or share is the number of live subscriptions to it,
      so dropping one never finds the count at zero. */
  lemma WaitersAreSubscriptions(worlds: seq<World>, ops: seq<Op>, i: nat, k: Id)
    requires IsRun(worlds, ops) && i <= |ops|
    ensures k in worlds[i].st.requests ==> worlds[i].st.requests[k].waiters == worlds[i].live[k]
    ensures k in worlds[i].st.shares ==> worlds[i].st.shares[k].waiters == worlds[i].live[k]
    ensures i < |ops| && ops[i].OpDetach? && ops[i].channel == k ==>
              && (k in worlds[i].st.requests ==> worlds[i].st.requests[k].waiters > 0)
              && (k in worlds[i].st.shares ==> worlds[i].st.shares[k].waiters > 0)
  {
    Reachable(worlds, ops, i);
    if i < |ops| {
      assert IsStep(worlds[i], ops[i], worlds[i + 1]);
    }
  }

  // ---- branches that are never taken ---------------------------------------------------

  /** Approving never finds the name already granted. */
  lemma ApprovalFindsNoDuplicate(worlds: seq<World>, ops: seq<Op>, i: nat, request: Id)
    requires IsRun(worlds, ops) && i <= |ops|
    requires request in worlds[i].st.requests && worlds[i].st.requests[request].kind.Secret?
    ensures !Granted(worlds[i].st.grants, worlds[i].st.requests[request].terminal, worlds[i].st.requests[request].kind.name)
  {
    Reachable(worlds, ops, i);
  }

  /** With fewer than 8 open offers, a full table always has a resolved share to forget. */
  lemma SharingFindsRoom(worlds: seq<World>, ops: seq<Op>, i: nat, now: nat, order: seq<Id>, terminal: Id)
    requires IsRun(worlds, ops) && i <= |ops|
    requires IsOrder(order, Due(worlds[i].st.shares, now))
    ensures var shares := ExpireShares(worlds[i], now, order).st.shares;
            |OfferedOf(shares, terminal)| < MAX_PENDING_SHARES && |SharesOf(shares, terminal)| >= MAX_SECRET_SHARES ==>
              NeedsVictim(shares, terminal)
  {
    Reachable(worlds, ops, i);
    ExpireSharesGood(worlds[i], now, order);
  }

  /** Replacing a granted secret always succeeds once the old one is gone. */
  lemma ReplacingSucceeds(worlds: seq<World>, ops: seq<Op>, i: nat)
    requires IsRun(worlds, ops) && i < |ops| && ops[i].OpGenerate? && ops[i].replace
    requires Granted(worlds[i].st.grants, ops[i].terminal, ops[i].name)
    ensures Enabled(worlds[i], ops[i]) && Apply(worlds[i], ops[i]).outcome == Done
  {
    hide Inv, Evolves, WithdrawShares;
    Reachable(worlds, ops, i);
    assert IsStep(worlds[i], ops[i], worlds[i + 1]);
    var w, op := worlds[i], ops[i];
    var existing := FindGrant(w.st.grants, op.terminal, op.name);
    RoomAfterReplacing(w, op.terminal, op.name, existing.value);
    WithdrawSharesGood(w, op.terminal, op.name, "replaced", op.now, op.order);
  }

  // ---- the life of a share ---------------------------------------------------------------

  /** A share that was filed and is no longer on offer. */
  ghost predicate Closed(w: World, share: Id) {
    && share in w.filed && w.filed[share].ShareFiling?
    && (share in w.st.shares ==> !w.st.shares[share].state.Offered?)
  }

  /** Closing is final: the share never comes back, in the table or in another state, and
      nothing more is sent to those who waited for it. */
  lemma ClosedForGood(worlds: seq<World>, ops: seq<Op>, i: nat, j: nat, share: Id)
    requires IsRun(worlds, ops) && i <= j <= |ops| && Closed(worlds[i], share)
    ensures Closed(worlds[j], share)
    ensures share in worlds[j].st.shares ==>
              share in worlds[i].st.shares && worlds[j].st.shares[share].state == worlds[i].st.shares[share].state
    ensures share in worlds[i].log && share in worlds[j].log && worlds[j].log[share] == worlds[i].log[share]
  {
    Reachable(worlds, ops, i);
    Reachable(worlds, ops, j);
    LaterKeeps(worlds, ops, i, j);
    assert ShareChannelOk(worlds[i].st.shares, share, worlds[i].filed[share].name, worlds[i].log[share]);
    assert ShareChannelOk(worlds[j].st.shares, share, worlds[j].filed[share].name, worlds[j].log[share]);
    assert worlds[i].log[share] <= worlds[j].log[share];
  }

  /** Those who wait for a share are told nothing while it is open and its outcome, once,
      when it closes; a share still in the table was told what became of it. */
  lemma OneOutcome(worlds: seq<World>, ops: seq<Op>, i: nat, share: Id)
    requires IsRun(worlds, ops) && i <= |ops|
    requires share in worlds[i].filed && worlds[i].filed[share].ShareFiling?
    ensures var w := worlds[i];
            && share in w.log
            && |w.log[share]| == (if Closed(w, share) then 1 else 0)
            && (Closed(w, share) ==> w.log[share][0].Terminal() && EndsShare(w.log[share][0], w.filed[share].name))
            && (Closed(w, share) && share in w.st.shares ==>
                  match w.st.shares[share].state
                  case Viewed => w.log[share][0] == ViewedEvent(w.filed[share].name)
                  case Dismissed => w.log[share][0] == DismissedEvent(w.filed[share].name)
                  case _ => w.log[share][0] == ExpiredEvent(w.filed[share].name))
  {
    Reachable(worlds, ops, i);
    var w := worlds[i];
    assert ShareChannelOk(w.st.shares, share, w.filed[share].name, w.log[share]);
  }

  ghost predicate Reveals(w: World, op: Op, share: Id) {
    op.OpReveal? && op.share == share && Enabled(w, op) && Apply(w, op).outcome.Revealed?
  }

  /** What is revealed is the value that was offered, and it leaves the share closed. */
  lemma RevealCloses(worlds: seq<World>, ops: seq<Op>, i: nat, share: Id)
    requires IsRun(worlds, ops) && i < |ops| && Reveals(worlds[i], ops[i], share)
    ensures share in worlds[i].filed && worlds[i].filed[share].ShareFiling?
    ensures Apply(worlds[i], ops[i]).outcome == Revealed(worlds[i].filed[share].name, worlds[i].filed[share].value)
    ensures !Closed(worlds[i], share)
    ensures Closed(worlds[i + 1], share)
  {
    Reachable(worlds, ops, i);
    assert IsStep(worlds[i], ops[i], worlds[i + 1]);
    RevealFacts(worlds[i], ops[i], share);
  }

  lemma RevealFacts(w: World, op: Op, share: Id)
    requires Inv(w) && Reveals(w, op, share)
    ensures share in w.filed && w.filed[share].ShareFiling?
    ensures Apply(w, op).outcome == Revealed(w.filed[share].name, w.filed[share].value)
    ensures !Closed(w, share) && Closed(Step(w, op), share)
  {
    ExpireSharesTable(w, op.now, op.order);
    StepGood(w, op);
    assert ShareFiled(w.filed, share, w.st.shares[share]);
  }

  /** A share is revealed at most once, and never after it was dismissed, expired or cleared. */
  lemma RevealedAtMostOnce(worlds: seq<World>, ops: seq<Op>, i: nat, j: nat, share: Id)
    requires IsRun(worlds, ops) && i <= j < |ops|
    requires Closed(worlds[i], share) || (i < j && Reveals(worlds[i], ops[i], share))
    ensures !Reveals(worlds[j], ops[j], share)
  {
    hide Inv, Evolves, Step, Apply, Enabled;
    if Reveals(worlds[j], ops[j], share) {
      RevealCloses(worlds, ops, j, share);
      if Closed(worlds[i], share) {
        ClosedForGood(worlds, ops, i, j, share);
      } else {
        RevealCloses(worlds, ops, i, share);
        ClosedForGood(worlds, ops, i + 1, j, share);
      }
      assert false;
    }
  }

  // ---- the life of an approval -----------------------------------------------------------

  /** In every reachable state, a request has at most one approval in flight, and at most
      one run was ever started for it: of the command that was filed under the request,
      for its terminal, under the hash that was filed with it. */
  lemma OneRunAsFiled(worlds: seq<World>, ops: seq<Op>, i: nat)
    requires IsRun(worlds, ops) && i <= |ops|
    ensures var w := worlds[i];
            && (forall c, d | c in w.approvers && d in w.approvers && w.approvers[c].request == w.approvers[d].request :: c == d)
            && (forall m, n | 0 <= m < n < |w.runs| :: w.runs[m].request != w.runs[n].request)
            && (forall m | 0 <= m < |w.runs| ::
                  && w.runs[m].request in w.filed
                  && w.filed[w.runs[m].request] == RequestFiling(w.runs[m].terminal, w.runs[m].hash, Sudo(w.runs[m].command)))
  {
    Reachable(worlds, ops, i);
    var w := worlds[i];
    forall m | 0 <= m < |w.runs|
      ensures w.runs[m].request in w.filed
      ensures w.filed[w.runs[m].request] == RequestFiling(w.runs[m].terminal, w.runs[m].hash, Sudo(w.runs[m].command))
    {
      assert RunOk(w.st.requests, w.filed, w.approvers, w.runs[m]);
    }
  }

  /** Somebody approved `request` under `hash` before operation `n`. */
  ghost predicate WasApproved(worlds: seq<World>, ops: seq<Op>, n: nat, terminal: Id, request: Id, hash: string)
    requires |worlds| == |ops| + 1
  {
    exists m | 0 <= m < n && m < |ops| :: Approves(worlds[m], ops[m], terminal, request, hash)
  }

  ghost predicate Approves(w: World, op: Op, terminal: Id, request: Id, hash: string) {
    && op.OpBeginSudo? && op.terminal == terminal && op.request == request && op.hash == hash
    && Enabled(w, op) && Apply(w, op).outcome == Done
  }

  ghost predicate AllApproved(worlds: seq<World>, ops: seq<Op>, n: nat)
    requires |worlds| == |ops| + 1 && n <= |ops|
  {
    && (forall c | c in worlds[n].approvers ::
          var a := worlds[n].approvers[c]; WasApproved(worlds, ops, n, a.terminal, a.request, a.hash))
    && (forall m | 0 <= m < |worlds[n].runs| ::
          var r := worlds[n].runs[m]; WasApproved(worlds, ops, n, r.terminal, r.request, r.hash))
  }

  predicate SameApproval(a: Approver, a': Approver) {
    a'.terminal == a.terminal && a'.request == a.request && a'.hash == a.hash
  }

  predicate RunOf(a: Approver, r: SudoRun) {
    r.terminal == a.terminal && r.request == a.request && r.hash == a.hash
  }

  /** The approvals and runs of the next state are those there were, the one this step
      begins, and the run of an approval there was. */
  ghost predicate ApprovalsFollow(w: World, op: Op, w': World) {
    && (forall c | c in w'.approvers ::
          || (c in w.approvers && SameApproval(w.approvers[c], w'.approvers[c]))
          || Approves(w, op, w'.approvers[c].terminal, w'.approvers[c].request, w'.approvers[c].hash))
    && (forall m | 0 <= m < |w'.runs| ::
          || (m < |w.runs| && w.runs[m] == w'.runs[m])
          || (exists c | c in w.approvers :: RunOf(w.approvers[c], w'.runs[m])))
  }

  lemma NewApprovals(w: World, op: Op)
    requires Enabled(w, op)
    ensures ApprovalsFollow(w, op, Step(w, op))
  {
    if !InvolvesSudo(op) {
      hide Step, Enabled;
      var c := StepChanges(w, op);
    } else if op.OpBeginSudo? {
      BeginFollows(w, op);
    } else {
      AdvanceFollows(w, op);
    }
  }

  lemma BeginFollows(w: World, op: Op)
    requires Enabled(w, op) && op.OpBeginSudo?
    ensures ApprovalsFollow(w, op, Step(w, op))
  {
    hide Enabled;
    var r := BeginSudo(w, op.terminal, op.request, op.hash, op.call);
    assert Apply(w, op) == r;
    hide Apply;
    assert r.outcome == Done ==> Approves(w, op, op.terminal, op.request, op.hash);
  }

  lemma AdvanceFollows(w: World, op: Op)
    requires Enabled(w, op) && InvolvesSudo(op) && !op.OpBeginSudo?
    ensures ApprovalsFollow(w, op, Step(w, op))
  {
    hide ExpireShares, WithdrawShares, RequestSecret, RequestSudo, Reject, DetachWaiter, AddSecret, ApproveSecret,
         RevokeGrant, GenerateSecret, ExecuteSecret, ShareSecret, WaitShare, RevealShare, DismissShare, ClearTerminal,
         ClearInactive, FindGrant, FindOffer, CanShare, FinishExecution, BeginSudo, Approves;
    var w' := Step(w, op);
    assert op.call in w.approvers;
    assert forall c | c in w'.approvers :: c in w.approvers && SameApproval(w.approvers[c], w'.approvers[c]);
    if op.OpSpawn? {
      assert RunOf(w.approvers[op.call], w'.runs[|w.runs|]);
    }
  }

  lemma {:induction false} EveryRunWasApproved(worlds: seq<World>, ops: seq<Op>, n: nat)
    requires IsRun(worlds, ops) && n <= |ops|
    ensures AllApproved(worlds, ops, n)
  {
    hide Enabled, Step, Apply;
    if n > 0 {
      EveryRunWasApproved(worlds, ops, n - 1);
      var w, op, w' := worlds[n - 1], ops[n - 1], worlds[n];
      assert IsStep(w, op, w');
      NewApprovals(w, op);
      forall c | c in w'.approvers
        ensures var a := w'.approvers[c]; WasApproved(worlds, ops, n, a.terminal, a.request, a.hash)
      {
        var a := w'.approvers[c];
        if c in w.approvers && SameApproval(w.approvers[c], a) {
          assert WasApproved(worlds, ops, n - 1, a.terminal, a.request, a.hash);
        }
      }
      forall m | 0 <= m < |w'.runs|
        ensures var r := w'.runs[m]; WasApproved(worlds, ops, n, r.terminal, r.request, r.hash)
      {
        var r := w'.runs[m];
        assert WasApproved(worlds, ops, n - 1, r.terminal, r.request, r.hash);
      }
    } else {
      assert worlds[0].approvers == map[] && worlds[0].runs == [];
    }
  }

  /** Every root command that runs is the one filed under the hash somebody approved. */
  lemma RunsAreApproved(worlds: seq<World>, ops: seq<Op>, i: nat, m: nat)
    requires IsRun(worlds, ops) && i <= |ops| && m < |worlds[i].runs|
    ensures var r := worlds[i].runs[m];
            && WasApproved(worlds, ops, i, r.terminal, r.request, r.hash)
            && r.request in worlds[i].filed
            && worlds[i].filed[r.request] == RequestFiling(r.terminal, r.hash, Sudo(r.command))
  {
    hide Enabled, Step, Apply, Inv, Evolves;
    EveryRunWasApproved(worlds, ops, i);
    OneRunAsFiled(worlds, ops, i);
  }

  /** Rejecting, and losing waiters, only ever removes requests that are pending. */
  lemma RejectSparesRunning(w: World, terminal: Id, request: Id, hash: string, comment: Option<string>, now: nat, k: Id)
    requires k in w.st.requests && !w.st.requests[k].state.Pending?
    ensures var requests' := Reject(w, terminal, request, hash, comment, now).world.st.requests;
            k in requests' && requests'[k] == w.st.requests[k]
  {
  }

  lemma DetachSparesRunning(w: World, channel: Id, now: nat, k: Id)
    requires k in w.st.requests && !w.st.requests[k].state.Pending?
    ensures var requests' := DetachWaiter(w, channel, now).world.st.requests;
            k in requests' && requests'[k].state == w.st.requests[k].state && requests'[k].kind == w.st.requests[k].kind
  {
    hide Push, Bump;
    var requests := w.st.requests;
    if channel !in w.st.shares && channel in requests && requests[channel].state.Pending? {
      CancelTables(w, channel, now, k);
    } else {
      DetachTables(w, channel, now);
    }
  }

  lemma CancelTables(w: World, channel: Id, now: nat, k: Id)
    requires channel !in w.st.shares && channel in w.st.requests && k in w.st.requests && k != channel
    ensures k in DetachWaiter(w, channel, now).world.st.requests
    ensures DetachWaiter(w, channel, now).world.st.requests[k] == w.st.requests[k]
  {
    hide Capped, Bumped;
  }

  lemma DetachTables(w: World, channel: Id, now: nat)
    requires channel in w.st.shares || channel !in w.st.requests || !w.st.requests[channel].state.Pending?
    ensures var requests' := DetachWaiter(w, channel, now).world.st.requests;
            requests' == if channel in w.st.shares || channel !in w.st.requests then w.st.requests
                         else w.st.requests[channel := w.st.requests[channel].(waiters := Less1(w.st.requests[channel].waiters))]
  {
  }
}
