/** What each operation does to the table of requests, and which of them leave the approvals in
    flight alone: one account for every result about single steps. */
module AccessChanges {
  import opened Wrappers
  import opened AccessModel
  import opened AccessOperations

  /** The sections of an approval. */
  predicate InvolvesSudo(op: Op) {
    op.OpBeginSudo? || op.OpAuthFailed? || op.OpStart? || op.OpAnnounce? || op.OpSpawn? || op.OpOutput?
    || op.OpFinish? || op.OpAbort?
  }

  /** What expires shares first. */
  predicate Expires(op: Op) {
    op.OpExpire? || op.OpShare? || op.OpWait? || op.OpReveal? || op.OpDismiss?
  }

  datatype Change =
    | Kept
    | Joined(k: Id)
    | Filed(k: Id, request: Request)
    | Left(k: Id)
    | Marked(k: Id, state: RequestState)
    | Dropped(ids: set<Id>)

  function Changed(requests: map<Id, Request>, c: Change): map<Id, Request> {
    match c
    case Kept => requests
    case Joined(k) => if k in requests then requests[k := requests[k].(waiters := requests[k].waiters + 1)] else requests
    case Filed(k, r) => requests[k := r]
    case Left(k) => if k in requests then requests[k := requests[k].(waiters := Less1(requests[k].waiters))] else requests
    case Marked(k, state) => if k in requests then requests[k := requests[k].(state := state)] else requests
    case Dropped(ids) => requests - ids
  }

  /** What a change can be: only requests file anything, and what they file is pending and has one
      waiter; nobody leaves a pending request as its last waiter; and only a failed password check
      puts a request back to pending. */
  ghost predicate Allowed(w: World, op: Op, c: Change) {
    match c
    case Kept => true
    case Joined(k) => k in w.st.requests
    case Filed(_, r) =>
      && r.state.Pending? && r.waiters == 1
      && (r.kind.Secret? || (op.OpRequestSudo? && r.kind == Sudo(op.command) && r.terminal == op.terminal))
    case Left(k) => k in w.st.requests && (w.st.requests[k].state.Pending? ==> Less1(w.st.requests[k].waiters) > 0)
    case Marked(k, state) =>
      k in w.st.requests && (state.Pending? ==> op.OpAuthFailed? && op.call in w.approvers && w.approvers[op.call].request == k)
    case Dropped(_) => true
  }

  predicate SameApprovals(w: World, w': World) {
    w'.approvers == w.approvers && w'.runs == w.runs
  }

  /** Changes the requests so, and no approval. */
  ghost predicate Does(w: World, w': World, c: Change) {
    w'.st.requests == Changed(w.st.requests, c) && SameApprovals(w, w')
  }

  lemma KeepsWorld(w: World, w': World)
    requires w'.st.requests == w.st.requests && SameApprovals(w, w')
    ensures Does(w, w', Kept)
  {
  }

  // ---- shares ----------------------------------------------------------------------------------

  lemma {:induction false} PushAllDoes(w: World, records: seq<Activity>)
    ensures Does(w, PushAll(w, records), Kept)
    decreases |records|
  {
    hide Capped, Bumped;
    if records != [] {
      PushAllDoes(w, records[..|records| - 1]);
    }
  }

  lemma ExpireDoes(w: World, now: nat, order: seq<Id>)
    requires IsOrder(order, Due(w.st.shares, now))
    ensures Does(w, ExpireShares(w, now, order), Kept)
  {
    hide PushAll, Send, Bumped, Resolved;
    PushAllDoes(ResolveShares(w, Due(w.st.shares, now), ShareState.Expired, now), ExpiryRecords(w.st.shares, order, now));
  }

  lemma WithdrawDoes(w: World, terminal: Id, name: string, reason: string, now: nat, order: seq<Id>)
    requires IsOrder(order, OffersNamed(w.st.shares, terminal, name))
    ensures Does(w, WithdrawShares(w, terminal, name, reason, now, order), Kept)
  {
    hide PushAll, Send, Bumped, Resolved;
    PushAllDoes(ResolveShares(w, OffersNamed(w.st.shares, terminal, name), ShareState.Expired, now),
                WithdrawalRecords(w.st.shares, order, reason, now));
  }

  lemma OfferAnewDoes(w: World, terminal: Id, name: string, agent: string, description: Option<string>, ttl: nat, id: Id, now: nat,
                      g: Id, victim: Id)
    requires g in w.st.grants
    ensures Does(w, OfferAnew(w, terminal, name, agent, description, ttl, id, now, g, victim).world, Kept)
  {
    hide OfferedOf, SharesOf, NeedsVictim, Capped, Bumped;
  }

  lemma OfferDoes(w: World, terminal: Id, name: string, agent: string, description: Option<string>, ttl: nat, id: Id, now: nat,
                  victim: Id)
    ensures Does(w, OfferShare(w, terminal, name, agent, description, ttl, id, now, victim).world, Kept)
  {
    hide FindGrant, FindOffer, OfferAnew, Bumped;
    var g := FindGrant(w.st.grants, terminal, name);
    if g.Some? {
      OfferAnewDoes(w, terminal, name, agent, description, ttl, id, now, g.value, victim);
    }
  }

  lemma WaitDoes(w: World, terminal: Id, share: Id, now: nat, order: seq<Id>)
    requires IsOrder(order, Due(w.st.shares, now))
    ensures Does(w, WaitShare(w, terminal, share, now, order).world, Kept)
  {
    hide ExpireShares, IsOrder, Bumped;
    ExpireDoes(w, now, order);
  }

  lemma RevealDoes(w: World, terminal: Id, share: Id, now: nat, order: seq<Id>)
    requires IsOrder(order, Due(w.st.shares, now))
    ensures Does(w, RevealShare(w, terminal, share, now, order).world, Kept)
  {
    hide ExpireShares, IsOrder, Resolved, Send, Capped, Bumped;
    ExpireDoes(w, now, order);
  }

  lemma DismissDoes(w: World, terminal: Id, share: Id, now: nat, order: seq<Id>)
    requires IsOrder(order, Due(w.st.shares, now))
    ensures Does(w, DismissShare(w, terminal, share, now, order).world, Kept)
  {
    hide ExpireShares, IsOrder, Resolved, Send, Capped, Bumped;
    ExpireDoes(w, now, order);
  }

  // ---- requests and grants -----------------------------------------------------------------------

  lemma JoinDoes(w: World)
    ensures forall k | k in w.st.requests :: Does(w, JoinRequest(w, k), Joined(k))
  {
  }

  lemma FileDoes(w: World, id: Id, r: Request)
    ensures Does(w, Bump(AddRequest(w, id, r)), Filed(id, r))
  {
    hide Bumped;
  }

  lemma AskSecretDoes(w: World, terminal: Id, name: string, description: string, agent: string, id: Id, hash: string, now: nat)
    returns (c: Change)
    ensures Does(w, RequestSecret(w, terminal, name, description, agent, id, hash, now).world, c)
    ensures c == Kept || (c.Joined? && c.k in w.st.requests)
            || (c.Filed? && c.request.state.Pending? && c.request.waiters == 1 && c.request.kind.Secret?)
  {
    hide Granted, FindRequest, PendingOf, AsksFor, Bumped, Changed;
    JoinDoes(w);
    FileDoes(w, id, Request(terminal, hash, Secret(name), Pending, description, agent, now, 1));
    KeepsWorld(w, w);
    var r := RequestSecret(w, terminal, name, description, agent, id, hash, now);
    var found := FindRequest(w.st.requests, terminal, name);
    c := if !r.outcome.Attached? then Kept
         else if found.Some? then Joined(found.value)
         else Filed(id, Request(terminal, hash, Secret(name), Pending, description, agent, now, 1));
  }

  lemma AskSudoDoes(w: World, terminal: Id, command: SudoCommand, description: string, agent: string, id: Id, hash: string,
                    now: nat, pick: Option<Id>) returns (c: Change)
    requires PicksCommand(w, terminal, command.fingerprint, pick)
    ensures Does(w, RequestSudo(w, terminal, command, description, agent, id, hash, now, pick).world, c)
    ensures c == Kept || (c.Joined? && c.k in w.st.requests)
            || (c.Filed? && c.request.state.Pending? && c.request.waiters == 1 && c.request.kind == Sudo(command)
                && c.request.terminal == terminal)
  {
    hide PendingOf, Bumped;
    var r := RequestSudo(w, terminal, command, description, agent, id, hash, now, pick);
    c := if !r.outcome.Attached? then Kept
         else if pick.Some? then Joined(pick.value)
         else Filed(id, Request(terminal, hash, Sudo(command), Pending, description, agent, now, 1));
  }

  lemma RejectDoes(w: World, terminal: Id, request: Id, hash: string, comment: Option<string>, now: nat) returns (c: Change)
    ensures Does(w, Reject(w, terminal, request, hash, comment, now).world, c) && (c == Kept || c.Dropped?)
  {
    hide Send, Capped, Bumped, RequestKind.Summary, KindOf;
    c := if Reject(w, terminal, request, hash, comment, now).outcome == Done then Dropped({request}) else Kept;
  }

  lemma DetachDoes(w: World, channel: Id, now: nat) returns (c: Change)
    ensures Does(w, DetachWaiter(w, channel, now).world, c)
    ensures c == Kept || c.Dropped?
            || (c.Left? && c.k in w.st.requests
                && (w.st.requests[c.k].state.Pending? ==> Less1(w.st.requests[c.k].waiters) > 0))
  {
    hide Capped, Bumped, RequestKind.Summary, KindOf;
    if channel in w.st.shares || channel !in w.st.requests {
      c := Kept;
    } else if Less1(w.st.requests[channel].waiters) == 0 && w.st.requests[channel].state.Pending? {
      c := Dropped({channel});
    } else {
      c := Left(channel);
    }
  }

  lemma GrantsDoes(w: World, terminal: Id, name: string, id: Id, g: Grant)
    ensures Does(w, Grants(w, terminal, name, id, g), Dropped(RequestsNamed(w.st.requests, terminal, name)))
  {
    hide Send, RequestsNamed;
  }

  lemma AddDoes(w: World, terminal: Id, name: string, value: string, description: Option<string>, id: Id, now: nat) returns (c: Change)
    ensures Does(w, AddSecret(w, terminal, name, value, description, id, now).world, c) && (c == Kept || c.Dropped?)
  {
    hide Granted, GrantsOf, Grants, Capped, Bumped, RequestsNamed;
    GrantsDoes(w, terminal, name, id, NewGrant(terminal, name, "Added by you", value, now));
    c := if AddSecret(w, terminal, name, value, description, id, now).outcome == Done
         then Dropped(RequestsNamed(w.st.requests, terminal, name)) else Kept;
  }

  lemma ApproveDoes(w: World, terminal: Id, request: Id, hash: string, value: string, id: Id, now: nat) returns (c: Change)
    ensures Does(w, ApproveSecret(w, terminal, request, hash, value, id, now).world, c) && (c == Kept || c.Dropped?)
  {
    hide Granted, GrantsOf, Send, Capped, Bumped;
    c := if ApproveSecret(w, terminal, request, hash, value, id, now).outcome == Done then Dropped({request}) else Kept;
  }

  lemma RevokeDoes(w: World, terminal: Id, grant: Id, now: nat, order: seq<Id>)
    requires CanRevoke(w, terminal, grant, order)
    ensures Does(w, RevokeGrant(w, terminal, grant, now, order).world, Kept)
  {
    hide WithdrawShares, IsOrder, Capped, Bumped;
    if grant in w.st.grants && w.st.grants[grant].terminal == terminal {
      WithdrawDoes(w, terminal, w.st.grants[grant].name, "revoked", now, order);
    }
  }

  lemma GenerateDoes(w: World, terminal: Id, name: string, agent: string, description: Option<string>, value: string,
                     replace: bool, id: Id, now: nat, order: seq<Id>) returns (c: Change)
    requires CanGenerate(w, terminal, name, replace, order)
    ensures Does(w, GenerateSecret(w, terminal, name, agent, description, value, replace, id, now, order).world, c)
    ensures c == Kept || c.Dropped?
  {
    hide FindGrant, WithdrawShares, IsOrder, GrantsOf, Grants, Capped, Bumped, RequestsNamed;
    var existing := FindGrant(w.st.grants, terminal, name);
    var w1 := w;
    if existing.Some? && replace {
      WithdrawDoes(w, terminal, name, "replaced", now, order);
      w1 := Push(DropGrants(WithdrawShares(w, terminal, name, "replaced", now, order), {existing.value}),
                 Activity(terminal, SecretKind, RevokedStatus, "Secret grant replaced", name, now));
    }
    GrantsDoes(w1, terminal, name, id, NewGrant(terminal, name, "Generated for " + agent, value, now));
    c := if GenerateSecret(w, terminal, name, agent, description, value, replace, id, now, order).outcome == Done
         then Dropped(RequestsNamed(w.st.requests, terminal, name)) else Kept;
  }

  lemma ExecuteDoes(w: World, terminal: Id, name: string, display: string, id: Id, now: nat)
    ensures Does(w, ExecuteSecret(w, terminal, name, display, id, now).world, Kept)
  {
    hide FindGrant, ExecutionsOf, Bumped;
  }

  lemma ClearDoes(w: World, scope: Scope, message: string)
    ensures Does(w, Clear(w, scope, message), Dropped(RequestsIn(w.st.requests, scope)))
  {
    hide Send, RequestsIn;
  }

  lemma ClearsDo(w: World, terminal: Id, active: set<Id>)
    ensures Does(w, ClearTerminal(w, terminal).world, Dropped(RequestsIn(w.st.requests, Only(terminal))))
    ensures Does(w, ClearInactive(w, active).world, Dropped(RequestsIn(w.st.requests, Except(active))))
  {
    hide Clear, RequestsIn, OwnsNothing, WithoutTerminal, Bumped;
    ClearDoes(w, Only(terminal), "terminal closed");
    ClearDoes(w, Except(active), "terminal exited");
  }

  // ---- the sections of an approval -------------------------------------------------------------------

  lemma BeginDoes(w: World, terminal: Id, request: Id, hash: string, call: Id) returns (c: Change)
    ensures BeginSudo(w, terminal, request, hash, call).world.st.requests == Changed(w.st.requests, c)
    ensures c == Kept || (c == Marked(request, Authenticating) && request in w.st.requests)
  {
    hide Bumped;
    c := if BeginSudo(w, terminal, request, hash, call).outcome == Done then Marked(request, Authenticating) else Kept;
  }

  lemma FailedDoes(w: World, call: Id) returns (c: Change)
    requires call in w.approvers
    ensures AuthFailed(w, call).world.st.requests == Changed(w.st.requests, c)
    ensures c == Kept || (c == Marked(w.approvers[call].request, Pending) && w.approvers[call].request in w.st.requests)
  {
    hide Bumped;
    var k := w.approvers[call].request;
    c := if k in w.st.requests then Marked(k, Pending) else Kept;
  }

  lemma StartDoes(w: World, call: Id) returns (c: Change)
    requires call in w.approvers
    ensures StartSudo(w, call).world.st.requests == Changed(w.st.requests, c)
    ensures c == Kept || (c == Marked(w.approvers[call].request, Running) && w.approvers[call].request in w.st.requests)
  {
    hide Bumped;
    var k := w.approvers[call].request;
    c := if k in w.st.requests then Marked(k, Running) else Kept;
  }

  lemma EndingDoes(w: World, call: Id, code: int, message: string, now: nat)
    requires call in w.approvers
    ensures FinishSudo(w, call, code, now).world.st.requests == Changed(w.st.requests, Dropped({w.approvers[call].request}))
    ensures AbortSudo(w, call, message, now).world.st.requests == Changed(w.st.requests, Dropped({w.approvers[call].request}))
  {
    hide Send, Capped, Bumped, RequestKind.Summary, KindOf;
  }

  lemma PassingKeeps(w: World, op: Op)
    requires Enabled(w, op) && (op.OpAnnounce? || op.OpSpawn? || op.OpOutput?)
    ensures Step(w, op).st.requests == Changed(w.st.requests, Kept)
  {
    hide Send;
  }

  lemma SudoChanges(w: World, op: Op) returns (c: Change)
    requires Enabled(w, op) && InvolvesSudo(op)
    ensures Step(w, op).st.requests == Changed(w.st.requests, c) && Allowed(w, op, c)
  {
    hide RequestSecret, RequestSudo, Reject, DetachWaiter, AddSecret, ApproveSecret, RevokeGrant, GenerateSecret,
         ExecuteSecret, ShareSecret, WaitShare, RevealShare, DismissShare, BeginSudo, AuthFailed, StartSudo, FinishSudo,
         AnnounceSudo, SpawnSudo, SudoOutput, AbortSudo, ClearTerminal, ClearInactive, ExpireShares, CanShare, CanRevoke,
         CanGenerate, Changed, Send;
    match op
    case OpBeginSudo(terminal, request, hash, call) => c := BeginDoes(w, terminal, request, hash, call);
    case OpAuthFailed(call) => c := FailedDoes(w, call);
    case OpStart(call) => c := StartDoes(w, call);
    case OpFinish(call, code, now) =>
      EndingDoes(w, call, code, "", now);
      c := Dropped({w.approvers[call].request});
    case OpAbort(call, message, now) =>
      EndingDoes(w, call, 0, message, now);
      c := Dropped({w.approvers[call].request});
    case _ =>
      c := Kept;
      PassingKeeps(w, op);
  }

  // ---- every operation ---------------------------------------------------------------------------------

  lemma ExpiringChanges(w: World, op: Op)
    requires Enabled(w, op) && Expires(op)
    ensures Does(w, Step(w, op), Kept)
  {
    hide RequestSecret, RequestSudo, Reject, DetachWaiter, AddSecret, ApproveSecret, RevokeGrant, GenerateSecret,
         ExecuteSecret, OfferShare, WaitShare, RevealShare, DismissShare, BeginSudo, AuthFailed, StartSudo, FinishSudo,
         AbortSudo, ClearTerminal, ClearInactive, ExpireShares, CanRevoke, CanGenerate, IsOrder, IsOldestResolved, NeedsVictim;
    match op
    case OpExpire(now, order) => ExpireDoes(w, now, order);
    case OpShare(terminal, name, agent, detail, ttl, id, now, order, victim) =>
      ExpireDoes(w, now, order);
      OfferDoes(ExpireShares(w, now, order), terminal, name, agent, detail, ttl, id, now, victim);
    case OpWait(terminal, share, now, order) => WaitDoes(w, terminal, share, now, order);
    case OpReveal(terminal, share, now, order) => RevealDoes(w, terminal, share, now, order);
    case OpDismiss(terminal, share, now, order) => DismissDoes(w, terminal, share, now, order);
  }

  lemma OtherChanges(w: World, op: Op) returns (c: Change)
    requires Enabled(w, op) && !InvolvesSudo(op) && !Expires(op)
    ensures Does(w, Step(w, op), c) && Allowed(w, op, c)
  {
    hide RequestSecret, RequestSudo, Reject, DetachWaiter, AddSecret, ApproveSecret, RevokeGrant, GenerateSecret,
         ExecuteSecret, ShareSecret, WaitShare, RevealShare, DismissShare, BeginSudo, AuthFailed, StartSudo, FinishSudo,
         AbortSudo, ClearTerminal, ClearInactive, ExpireShares, CanShare, CanRevoke, CanGenerate, Does, Send;
    match op
    case OpRequestSecret(terminal, name, description, agent, id, hash, now) =>
      c := AskSecretDoes(w, terminal, name, description, agent, id, hash, now);
    case OpRequestSudo(terminal, command, description, agent, id, hash, now, pick) =>
      c := AskSudoDoes(w, terminal, command, description, agent, id, hash, now, pick);
    case OpReject(terminal, request, hash, comment, now) => c := RejectDoes(w, terminal, request, hash, comment, now);
    case OpDetach(channel, now) => c := DetachDoes(w, channel, now);
    case OpAddSecret(terminal, name, value, detail, id, now) => c := AddDoes(w, terminal, name, value, detail, id, now);
    case OpApproveSecret(terminal, request, hash, value, id, now) =>
      c := ApproveDoes(w, terminal, request, hash, value, id, now);
    case OpRevoke(terminal, grant, now, order) =>
      RevokeDoes(w, terminal, grant, now, order);
      c := Kept;
    case OpGenerate(terminal, name, agent, detail, value, replace, id, now, order) =>
      c := GenerateDoes(w, terminal, name, agent, detail, value, replace, id, now, order);
    case OpExecute(terminal, name, display, id, now) =>
      ExecuteDoes(w, terminal, name, display, id, now);
      c := Kept;
    case OpFinishExecution(id) =>
      KeepsWorld(w, Step(w, op));
      c := Kept;
    case OpClearTerminal(terminal) =>
      ClearsDo(w, terminal, {});
      c := Dropped(RequestsIn(w.st.requests, Only(terminal)));
    case OpClearInactive(active) =>
      ClearsDo(w, 0, active);
      c := Dropped(RequestsIn(w.st.requests, Except(active)));
  }

  /** What a step does to the requests, and that only the sections of an approval touch approvals. */
  lemma StepChanges(w: World, op: Op) returns (c: Change)
    requires Enabled(w, op)
    ensures Step(w, op).st.requests == Changed(w.st.requests, c) && Allowed(w, op, c)
    ensures !InvolvesSudo(op) ==> SameApprovals(w, Step(w, op))
  {
    hide Enabled, Step, Changed;
    if InvolvesSudo(op) {
      c := SudoChanges(w, op);
    } else if Expires(op) {
      ExpiringChanges(w, op);
      c := Kept;
    } else {
      c := OtherChanges(w, op);
    }
  }
}
