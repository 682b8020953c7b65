/** When each operation answers what, and what it does to the activity list, the revision, the
    subscriptions and the runs. */
module AccessAnswers {
  import opened Wrappers
  import opened AccessModel
  import opened AccessOperations
  import opened AccessInvariant
  import opened AccessSteps
  import opened AccessChanges
  import opened AccessAccounts

  // ---- answers -----------------------------------------------------------------------------------

  predicate IsGranted(w: World, terminal: Id, name: string) {
    exists k | k in w.st.grants :: w.st.grants[k].terminal == terminal && w.st.grants[k].name == name
  }

  /** What is wrong with a review of this request under this hash, in the order it is checked. */
  function ReviewError(w: World, terminal: Id, request: Id, hash: string): Option<AccessError> {
    if request !in w.st.requests || w.st.requests[request].terminal != terminal then Some(NotFound)
    else if w.st.requests[request].hash != hash then Some(AccessError.Stale)
    else if !w.st.requests[request].state.Pending? then Some(Conflict)
    else None
  }

  predicate IsSecret(w: World, request: Id) {
    request in w.st.requests && w.st.requests[request].kind.Secret?
  }

  function PendingCount(w: World, terminal: Id): nat {
    |set k | k in w.st.requests && w.st.requests[k].terminal == terminal && w.st.requests[k].state.Pending?|
  }

  function GrantCount(w: World, terminal: Id): nat {
    |set k | k in w.st.grants && w.st.grants[k].terminal == terminal|
  }

  function ExecutionCount(w: World, terminal: Id): nat {
    |set k | k in w.st.executions && w.st.executions[k].terminal == terminal|
  }

  /** The offers that are not due. */
  function OpenCount(w: World, terminal: Id, now: nat): nat {
    |set k | k in w.st.shares && w.st.shares[k].terminal == terminal && w.st.shares[k].state.Offered? && w.st.shares[k].expiresAt > now|
  }

  /** An offer of the name that is not due. */
  predicate Offers(w: World, k: Id, terminal: Id, name: string, now: nat) {
    k in w.st.shares && Names(At(w.st.shares, k), terminal, name) && w.st.shares[k].expiresAt > now
  }

  predicate SameAsk(w: World, k: Id, description: string, agent: string) {
    k in w.st.requests && w.st.requests[k].description == description && w.st.requests[k].agent == agent
  }

  predicate AsksCommand(w: World, k: Id, terminal: Id, fingerprint: string) {
    && k in w.st.requests && w.st.requests[k].terminal == terminal && w.st.requests[k].state.Pending?
    && w.st.requests[k].kind.Sudo? && w.st.requests[k].kind.command.fingerprint == fingerprint
  }

  predicate SameOffer(w: World, k: Id, detail: Option<string>, agent: string) {
    k in w.st.shares && w.st.shares[k].description == detail && w.st.shares[k].agent == agent
  }

  function OutcomeOf(s: Share): Event {
    match s.state
    case Viewed => ViewedEvent(s.name)
    case Dismissed => DismissedEvent(s.name)
    case _ => ExpiredEvent(s.name)
  }

  /** What a share of this terminal is to a caller at this time. */
  function Seen(w: World, terminal: Id, share: Id, now: nat): Option<Share> {
    var s := Aged(At(w.st.shares, share), now);
    if s.Some? && s.value.terminal == terminal then s else None
  }

  function DoneUnless(error: Option<AccessError>): Outcome {
    if error.Some? then Refused(error.value) else Done
  }

  ghost predicate Answers(w: World, op: Op, outcome: Outcome) {
    match op
    case OpRequestSecret(terminal, name, description, agent, id, _, _) =>
      if IsGranted(w, terminal, name) then outcome == Immediate(GrantedEvent(name))
      else
        && (forall k: Id | AsksIn(w, k, terminal, name) ::
              outcome == if SameAsk(w, k, description, agent) then Attached(k) else Refused(Conflict))
        && ((forall k: Id :: !AsksIn(w, k, terminal, name)) ==>
              outcome == if PendingCount(w, terminal) >= 32 then Refused(Conflict) else Attached(id))
    case OpRequestSudo(terminal, command, description, agent, id, _, _, pick) =>
      (match pick
       case Some(k) =>
         && AsksCommand(w, k, terminal, command.fingerprint)
         && outcome == if SameAsk(w, k, description, agent) then Attached(k) else Refused(Conflict)
       case None =>
         && (forall k: Id :: !AsksCommand(w, k, terminal, command.fingerprint))
         && outcome == if PendingCount(w, terminal) >= 32 then Refused(Conflict) else Attached(id))
    case OpReject(terminal, request, hash, _, _) => outcome == DoneUnless(ReviewError(w, terminal, request, hash))
    case OpAddSecret(terminal, name, _, _, _, _) =>
      outcome == if IsGranted(w, terminal, name) || GrantCount(w, terminal) >= 64 then Refused(Conflict) else Done
    case OpApproveSecret(terminal, request, hash, _, _, _) =>
      outcome ==
      (if ReviewError(w, terminal, request, hash).Some? then Refused(ReviewError(w, terminal, request, hash).value)
       else if !IsSecret(w, request) then Refused(Invalid)
       else if GrantCount(w, terminal) >= 64 then Refused(Conflict) else Done)
    case OpRevoke(terminal, grant, _, _) =>
      outcome == if grant in w.st.grants && w.st.grants[grant].terminal == terminal then Done else Refused(NotFound)
    case OpGenerate(terminal, name, _, _, _, replace, _, _, _) =>
      outcome == (if IsGranted(w, terminal, name) then (if replace then Done else Refused(Conflict))
                  else if GrantCount(w, terminal) >= 64 then Refused(Conflict) else Done)
    case OpExecute(terminal, name, _, _, _) =>
      outcome == (if ExecutionCount(w, terminal) >= 8 then Refused(Conflict)
                  else if IsGranted(w, terminal, name) then Done else Refused(NotFound))
    case OpShare(terminal, name, agent, detail, _, id, now, _, _) =>
      if !IsGranted(w, terminal, name) then outcome == Refused(Conflict)
      else
        && (forall k: Id | Offers(w, k, terminal, name, now) ::
              outcome == if SameOffer(w, k, detail, agent) then Attached(k) else Refused(Conflict))
        && ((forall k: Id :: !Offers(w, k, terminal, name, now)) ==>
              outcome == if OpenCount(w, terminal, now) >= 8 then Refused(Conflict) else Attached(id))
    case OpWait(terminal, share, now, _) =>
      var s := Seen(w, terminal, share, now);
      outcome == if s.None? then Refused(NotFound) else if s.value.state.Offered? then Attached(share) else Immediate(OutcomeOf(s.value))
    case OpReveal(terminal, share, now, _) =>
      var s := Seen(w, terminal, share, now);
      outcome == if s.None? then Refused(NotFound) else if s.value.state.Offered? then Revealed(s.value.name, s.value.value) else Refused(Gone)
    case OpDismiss(terminal, share, now, _) =>
      var s := Seen(w, terminal, share, now);
      outcome == if s.None? then Refused(NotFound) else if s.value.state.Offered? then Done else Refused(Conflict)
    case OpBeginSudo(terminal, request, hash, _) =>
      outcome ==
      (if ReviewError(w, terminal, request, hash).Some? then Refused(ReviewError(w, terminal, request, hash).value)
       else if IsSecret(w, request) then Refused(Invalid) else Done)
    case OpAuthFailed(_) => outcome == Refused(Invalid)
    case OpStart(call) =>
      outcome == if call in w.approvers && w.approvers[call].request in w.st.requests then Done else Refused(NotFound)
    case OpAbort(_, _, _) => outcome == Refused(AccessError.Stale)
    case _ => outcome == Done
  }

  lemma Counts(w: World, terminal: Id, name: string)
    ensures PendingCount(w, terminal) == |PendingOf(w.st.requests, terminal)|
    ensures GrantCount(w, terminal) == |GrantsOf(w.st.grants, terminal)|
    ensures ExecutionCount(w, terminal) == |ExecutionsOf(w.st.executions, terminal)|
    ensures IsGranted(w, terminal, name) == Granted(w.st.grants, terminal, name)
  {
    assert PendingOf(w.st.requests, terminal) ==
           set k | k in w.st.requests && w.st.requests[k].terminal == terminal && w.st.requests[k].state.Pending?;
    assert GrantsOf(w.st.grants, terminal) == set k | k in w.st.grants && w.st.grants[k].terminal == terminal;
    assert ExecutionsOf(w.st.executions, terminal) == set k | k in w.st.executions && w.st.executions[k].terminal == terminal;
    assert Granted(w.st.grants, terminal, name) ==> IsGranted(w, terminal, name) by {
      if Granted(w.st.grants, terminal, name) {
        var k :| k in w.st.grants && IsGrant(w.st.grants[k], terminal, name);
      }
    }
    if IsGranted(w, terminal, name) {
      var k :| k in w.st.grants && w.st.grants[k].terminal == terminal && w.st.grants[k].name == name;
      assert IsGrant(w.st.grants[k], terminal, name);
    }
  }

  lemma OneAsks(w: World, terminal: Id, name: string)
    requires SecretNamesUnique(w.st.requests)
    ensures var r := FindRequest(w.st.requests, terminal, name);
            forall k: Id :: AsksIn(w, k, terminal, name) <==> r == Some(k)
  {
    var r := FindRequest(w.st.requests, terminal, name);
    forall k: Id ensures AsksIn(w, k, terminal, name) <==> r == Some(k) {
      if AsksIn(w, k, terminal, name) {
        assert AsksFor(w.st.requests[k], terminal, name);
      }
    }
  }

  lemma AskSecretAnswers(w: World, op: Op)
    requires SecretNamesUnique(w.st.requests) && Enabled(w, op) && op.OpRequestSecret?
    ensures Answers(w, op, Apply(w, op).outcome)
  {
    hide JoinRequest, AddRequest, Bump, SecretNamesUnique, AsksIn, PendingOf, PendingCount, Granted, IsGranted, FindRequest;
    Counts(w, op.terminal, op.name);
    OneAsks(w, op.terminal, op.name);
  }

  lemma AskSudoAnswers(w: World, op: Op)
    requires Enabled(w, op) && op.OpRequestSudo?
    ensures Answers(w, op, Apply(w, op).outcome)
  {
    hide JoinRequest, AddRequest, Bump, PendingOf, PendingCount;
    Counts(w, op.terminal, "");
    forall k: Id ensures AsksCommand(w, k, op.terminal, op.command.fingerprint) <==>
                         k in w.st.requests && AsksToRun(w.st.requests[k], op.terminal, op.command.fingerprint) {
    }
  }

  lemma RejectAnswers(w: World, op: Op)
    requires Enabled(w, op) && op.OpReject?
    ensures Answers(w, op, Apply(w, op).outcome)
  {
    hide Push, CloseRequests;
  }

  lemma AddAnswers(w: World, op: Op)
    requires Enabled(w, op) && (op.OpAddSecret? || op.OpRevoke? || op.OpExecute?)
    ensures Answers(w, op, Apply(w, op).outcome)
  {
    hide Push, Bump, AccessOperations.Grants, WithdrawShares, DropGrants, GrantsOf, GrantCount, ExecutionsOf, ExecutionCount, Granted, IsGranted;
    if !op.OpRevoke? {
      Counts(w, op.terminal, op.name);
    }
  }

  lemma ApproveAnswers(w: World, op: Op)
    requires NoneGranted(w.st.requests, w.st.grants) && Enabled(w, op) && op.OpApproveSecret?
    ensures Answers(w, op, Apply(w, op).outcome)
  {
    hide Push, AddGrant, CloseRequests, GrantsOf, GrantCount, Granted;
    Counts(w, op.terminal, "");
  }

  lemma BeginAnswers(w: World, op: Op)
    requires Enabled(w, op) && (op.OpBeginSudo? || op.OpAuthFailed? || op.OpStart? || op.OpAbort?)
    ensures Answers(w, op, Apply(w, op).outcome)
  {
    hide Push, Bump, SetApprover, SetRequestState, EndApprover, CloseRequests;
  }

  lemma PlainAnswers(w: World, op: Op)
    requires Enabled(w, op) && (op.OpExpire? || op.OpDetach? || op.OpFinishExecution? || op.OpAnnounce? || op.OpSpawn? || op.OpOutput?
                                || op.OpFinish? || op.OpClearTerminal? || op.OpClearInactive?)
    ensures Answers(w, op, Apply(w, op).outcome)
  {
    hide Push, Bump, ExpireShares, LeaveShare, LeaveRequest, Unsubscribe, DropRequests, Announce, SetApprover, EndApprover, Clear;
  }

  lemma GenerateAnswers(w: World, op: Op)
    requires GrantsBounded(w.st.grants) && Enabled(w, op) && op.OpGenerate?
    ensures Answers(w, op, Apply(w, op).outcome)
  {
    hide GrantsBounded, Push, WithdrawShares, DropGrants, AccessOperations.Grants, GrantsOf, GrantCount, FindGrant, IsOrder, OffersNamed;
    Counts(w, op.terminal, op.name);
    var existing := FindGrant(w.st.grants, op.terminal, op.name);
    if existing.Some? && op.replace {
      WithdrawEntry(w, op.terminal, op.name, "replaced", op.now, op.order, 0);
      RoomLeft(w, op.terminal, existing.value);
      PushedGrants(WithdrawShares(w, op.terminal, op.name, "replaced", op.now, op.order), existing.value,
                   Activity(op.terminal, SecretKind, RevokedStatus, "Secret grant replaced", op.name, op.now));
    }
  }

  lemma PushedGrants(w: World, g: Id, a: Activity)
    ensures Push(DropGrants(w, {g}), a).st.grants == w.st.grants - {g}
  {
  }

  /** Where one grant goes there is room for another. */
  lemma RoomLeft(w: World, terminal: Id, g: Id)
    requires GrantsBounded(w.st.grants) && g in w.st.grants && w.st.grants[g].terminal == terminal
    ensures |GrantsOf(w.st.grants - {g}, terminal)| < 64
  {
    assert GrantsOf(w.st.grants - {g}, terminal) == GrantsOf(w.st.grants, terminal) - {g};
  }

  // ---- shares -----------------------------------------------------------------------------------------

  /** A share after the clock has passed over the table. */
  lemma AgedThere(w: World, now: nat, order: seq<Id>, k: Id)
    requires IsOrder(order, Due(w.st.shares, now))
    ensures At(ExpireShares(w, now, order).st.shares, k) == Aged(At(w.st.shares, k), now)
  {
    hide ExpireShares, IsOrder, Due, Aged, EntryAfter;
    ExpireEntry(w, now, order, k);
    AgedShare(w, now, order, k);
    EntryUpdates(ExpireShares(w, now, order), k);
  }

  /** What is open after the clock has passed was open and is not due. */
  lemma StillOpen(s: Option<Share>, now: nat)
    ensures Open(Aged(s, now)) <==> Open(s) && s.value.expiresAt > now
    ensures Open(Aged(s, now)) ==> Aged(s, now) == s
  {
  }

  lemma OpenAfter(w: World, now: nat, order: seq<Id>, terminal: Id)
    requires IsOrder(order, Due(w.st.shares, now))
    ensures |OfferedOf(ExpireShares(w, now, order).st.shares, terminal)| == OpenCount(w, terminal, now)
  {
    hide ExpireShares, IsOrder, Due, Aged;
    var shares := ExpireShares(w, now, order).st.shares;
    forall k: Id ensures k in OfferedOf(shares, terminal) <==>
                         k in w.st.shares && w.st.shares[k].terminal == terminal && w.st.shares[k].state.Offered? && w.st.shares[k].expiresAt > now
    {
      AgedThere(w, now, order, k);
      StillOpen(At(w.st.shares, k), now);
    }
    assert OfferedOf(shares, terminal) ==
           set k | k in w.st.shares && w.st.shares[k].terminal == terminal && w.st.shares[k].state.Offered? && w.st.shares[k].expiresAt > now;
  }

  lemma OffersAfter(w: World, now: nat, order: seq<Id>, terminal: Id, name: string, k: Id)
    requires IsOrder(order, Due(w.st.shares, now))
    ensures var shares := ExpireShares(w, now, order).st.shares;
            && (Offers(w, k, terminal, name, now) <==> k in shares && IsOffer(shares[k], terminal, name))
            && (Offers(w, k, terminal, name, now) ==> shares[k] == w.st.shares[k])
  {
    hide ExpireShares, IsOrder, Due, Aged;
    AgedThere(w, now, order, k);
    StillOpen(At(w.st.shares, k), now);
  }

  lemma OneOffers(w: World, now: nat, order: seq<Id>, terminal: Id, name: string)
    requires IsOrder(order, Due(w.st.shares, now)) && OffersUnique(ExpireShares(w, now, order).st.shares)
    ensures var shares := ExpireShares(w, now, order).st.shares;
            var offer := FindOffer(shares, terminal, name);
            && (forall k: Id :: Offers(w, k, terminal, name, now) <==> offer == Some(k))
            && (forall k: Id | Offers(w, k, terminal, name, now) :: k in shares && k in w.st.shares && shares[k] == w.st.shares[k])
  {
    hide ExpireShares, IsOrder, Due, Offers;
    forall k: Id
      ensures var shares := ExpireShares(w, now, order).st.shares;
              && (Offers(w, k, terminal, name, now) <==> FindOffer(shares, terminal, name) == Some(k))
              && (Offers(w, k, terminal, name, now) ==> k in shares && k in w.st.shares && shares[k] == w.st.shares[k])
    {
      OffersAfter(w, now, order, terminal, name, k);
      OffersThere(w, k, terminal, name, now);
    }
  }

  lemma OffersThere(w: World, k: Id, terminal: Id, name: string, now: nat)
    ensures Offers(w, k, terminal, name, now) ==> k in w.st.shares
  {
  }

  lemma ShareAnswers(w: World, op: Op)
    requires Enabled(w, op) && op.OpShare? && OffersUnique(ExpireShares(w, op.now, op.order).st.shares)
    ensures Answers(w, op, Apply(w, op).outcome)
  {
    hide ExpireShares, IsOrder, Due, Bump, Push, JoinShare, AddShare, ForgetShares, FindOffer, FindGrant, Offers, OfferedOf, SharesOf,
         OpenCount, NeedsVictim, IsOldestResolved, IsGranted, OffersUnique;
    var w1 := ExpireShares(w, op.now, op.order);
    OneOffers(w, op.now, op.order, op.terminal, op.name);
    OpenAfter(w, op.now, op.order, op.terminal);
    ExpireEntry(w, op.now, op.order, 0);
    Counts(w, op.terminal, op.name);
  }

  lemma ActAnswers(w: World, op: Op)
    requires Enabled(w, op) && (op.OpWait? || op.OpReveal? || op.OpDismiss?)
    ensures Answers(w, op, Apply(w, op).outcome)
  {
    hide ExpireShares, IsOrder, Due, Bump, Push, JoinShare, ResolveShares, Aged;
    AgedThere(w, op.now, op.order, op.share);
  }

  // ---- every operation ------------------------------------------------------------------------------------

  lemma InvFacts(w: World)
    requires Inv(w)
    ensures SecretNamesUnique(w.st.requests) && NoneGranted(w.st.requests, w.st.grants) && GrantsBounded(w.st.grants)
    ensures OffersUnique(w.st.shares)
  {
    hide ExecutionsOk, HistoryOk, IdsOk, FiledOk, WaitersOk, ChannelsOk, SudoOk, SecretNamesUnique, NoneGranted, GrantsBounded, OffersUnique;
  }

  /** Every operation answers exactly what this says. */
  lemma StepAnswers(w: World, op: Op)
    requires Inv(w) && Enabled(w, op)
    ensures Answers(w, op, Apply(w, op).outcome)
  {
    hide Inv, Enabled, Apply, Answers, SecretNamesUnique, NoneGranted, GrantsBounded, OffersUnique, ExpireShares, IsOrder, Due;
    InvFacts(w);
    if op.OpRequestSecret? {
      AskSecretAnswers(w, op);
    } else if op.OpRequestSudo? {
      AskSudoAnswers(w, op);
    } else if op.OpReject? {
      RejectAnswers(w, op);
    } else if op.OpAddSecret? || op.OpRevoke? || op.OpExecute? {
      AddAnswers(w, op);
    } else if op.OpApproveSecret? {
      ApproveAnswers(w, op);
    } else if op.OpGenerate? {
      GenerateAnswers(w, op);
    } else if op.OpShare? {
      OffersStayUnique(w, op);
      ShareAnswers(w, op);
    } else if op.OpWait? || op.OpReveal? || op.OpDismiss? {
      ActAnswers(w, op);
    } else if op.OpBeginSudo? || op.OpAuthFailed? || op.OpStart? || op.OpAbort? {
      BeginAnswers(w, op);
    } else {
      PlainAnswers(w, op);
    }
  }

  lemma OffersStayUnique(w: World, op: Op)
    requires Inv(w) && Enabled(w, op) && op.OpShare?
    ensures IsOrder(op.order, Due(w.st.shares, op.now)) && OffersUnique(ExpireShares(w, op.now, op.order).st.shares)
  {
    hide Inv, OffersUnique, ExpireShares, IsOrder, Due, Evolves;
    ExpireSharesGood(w, op.now, op.order);
    InvFacts(ExpireShares(w, op.now, op.order));
  }
}
