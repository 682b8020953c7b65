/** Every operation of the access broker keeps the invariant and the past. */
module AccessSteps {
  import opened Wrappers
  import opened AccessModel
  import opened AccessOperations
  import opened AccessInvariant

  ghost predicate Good(w: World, w': World) {
    Inv(w') && Evolves(w, w')
  }

  lemma Chain(w: World, w': World, w'': World)
    requires Good(w, w') && Good(w', w'')
    ensures Good(w, w'')
  {
    hide Inv;
    EvolvesTransitive(w, w', w'');
  }

  lemma PushGood(w: World, w': World, a: Activity)
    requires Good(w, w')
    ensures Good(w, Push(w', a)) && SameButHistory(w', Push(w', a))
  {
    hide Inv, Evolves, Push;
    PushOk(w', a);
    Chain(w, w', Push(w', a));
  }

  lemma BumpGood(w: World, w': World)
    requires Good(w, w')
    ensures Good(w, Bump(w')) && SameButHistory(w', Bump(w'))
  {
    hide Inv, Evolves, Bump;
    BumpOk(w');
    Chain(w, w', Bump(w'));
  }

  // ---- expiry ------------------------------------------------------------------

  /** After expiry no offer is past its deadline; the grants and requests are untouched. */
  lemma ExpireSharesGood(w: World, now: nat, order: seq<Id>)
    requires Inv(w) && IsOrder(order, Due(w.st.shares, now))
    ensures Good(w, ExpireShares(w, now, order))
    ensures ExpireShares(w, now, order).st.grants == w.st.grants
    ensures ExpireShares(w, now, order).st.requests == w.st.requests
    ensures ExpireShares(w, now, order).used == w.used
  {
    hide Inv, Evolves, PushAll;
    var w1 := ResolveShares(w, Due(w.st.shares, now), ShareState.Expired, now);
    ResolveSharesOk(w, Due(w.st.shares, now), ShareState.Expired, now);
    PushAllOk(w1, ExpiryRecords(w.st.shares, order, now));
    var w2 := PushAll(w1, ExpiryRecords(w.st.shares, order, now));
    Chain(w, w1, w2);
    var stale := Outdated(w2.st.shares, now);
    ForgetSharesOk(w2, stale);
    Chain(w, w2, ForgetShares(w2, stale));
    BumpGood(w, ForgetShares(w2, stale));
  }

  lemma ExpireSharesTable(w: World, now: nat, order: seq<Id>)
    requires IsOrder(order, Due(w.st.shares, now)) && Inv(w)
    ensures ExpireShares(w, now, order).st.shares ==
            var shares := Resolved(w.st.shares, Due(w.st.shares, now), ShareState.Expired, now);
            shares - Outdated(shares, now)
  {
    hide Inv, Evolves;
    ResolveSharesOk(w, Due(w.st.shares, now), ShareState.Expired, now);
    PushAllOk(ResolveShares(w, Due(w.st.shares, now), ShareState.Expired, now), ExpiryRecords(w.st.shares, order, now));
    var shares := Resolved(w.st.shares, Due(w.st.shares, now), ShareState.Expired, now);
    assert Outdated(shares, now) == {} ==> shares - Outdated(shares, now) == shares;
  }

  lemma WithdrawSharesGood(w: World, terminal: Id, name: string, reason: string, now: nat, order: seq<Id>)
    requires Inv(w) && IsOrder(order, OffersNamed(w.st.shares, terminal, name))
    ensures Good(w, WithdrawShares(w, terminal, name, reason, now, order))
    ensures var w' := WithdrawShares(w, terminal, name, reason, now, order);
            && w'.st.grants == w.st.grants && w'.st.requests == w.st.requests && w'.used == w.used
            && w'.st.shares == Resolved(w.st.shares, OffersNamed(w.st.shares, terminal, name), ShareState.Expired, now)
            && OffersNamed(w'.st.shares, terminal, name) == {}
  {
    hide Inv, Evolves, PushAll;
    var ids := OffersNamed(w.st.shares, terminal, name);
    var w1 := ResolveShares(w, ids, ShareState.Expired, now);
    ResolveSharesOk(w, ids, ShareState.Expired, now);
    PushAllOk(w1, WithdrawalRecords(w.st.shares, order, reason, now));
    Chain(w, w1, WithdrawShares(w, terminal, name, reason, now, order));
    assert OffersNamed(w1.st.shares, terminal, name) == {};
  }

  // ---- requests ----------------------------------------------------------------

  lemma SecretsArePending(w: World, terminal: Id)
    requires Inv(w)
    ensures |SecretsOf(w.st.requests, terminal)| <= |PendingOf(w.st.requests, terminal)|
  {
    TableFacts(w);
    SubsetSize(SecretsOf(w.st.requests, terminal), PendingOf(w.st.requests, terminal));
  }

  lemma RequestSecretGood(w: World, terminal: Id, name: string, description: string, agent: string, id: Id, hash: string, now: nat)
    requires Inv(w) && id !in w.used
    ensures Good(w, RequestSecret(w, terminal, name, description, agent, id, hash, now).world)
  {
    hide Inv, Evolves;
    EvolvesReflexive(w);
    var found := FindRequest(w.st.requests, terminal, name);
    if !Granted(w.st.grants, terminal, name) {
      if found.Some? {
        JoinRequestOk(w, found.value);
      } else if |PendingOf(w.st.requests, terminal)| < MAX_PENDING_REQUESTS {
        SecretsArePending(w, terminal);
        assert RequestsNamed(w.st.requests, terminal, name) == {};
        var r := Request(terminal, hash, Secret(name), Pending, description, agent, now, 1);
        AddRequestOk(w, id, r);
        BumpGood(w, AddRequest(w, id, r));
      }
    }
  }

  lemma RequestSudoGood(w: World, terminal: Id, command: SudoCommand, description: string, agent: string, id: Id,
                        hash: string, now: nat, pick: Option<Id>)
    requires Inv(w) && id !in w.used && PicksCommand(w, terminal, command.fingerprint, pick)
    ensures Good(w, RequestSudo(w, terminal, command, description, agent, id, hash, now, pick).world)
  {
    hide Inv, Evolves;
    EvolvesReflexive(w);
    if pick.Some? {
      JoinRequestOk(w, pick.value);
    } else {
      var r := Request(terminal, hash, Sudo(command), Pending, description, agent, now, 1);
      AddRequestOk(w, id, r);
      BumpGood(w, AddRequest(w, id, r));
    }
  }

  lemma RejectGood(w: World, terminal: Id, request: Id, hash: string, comment: Option<string>, now: nat)
    requires Inv(w)
    ensures Good(w, Reject(w, terminal, request, hash, comment, now).world)
  {
    hide Inv, Evolves, Push;
    EvolvesReflexive(w);
    var r := Reject(w, terminal, request, hash, comment, now);
    if r.outcome == Done {
      CloseRequestsOk(w, {request}, RejectedEvent(comment));
      var a := Activity(terminal, KindOf(w.st.requests[request].kind), RejectedStatus,
                        if w.st.requests[request].kind.Secret? then "Secret request rejected" else "Root command rejected",
                        Or(comment, w.st.requests[request].kind.Summary()), now);
      PushGood(w, CloseRequests(w, {request}, RejectedEvent(comment)), a);
    }
  }

  /** One subscription fewer on `id`, and one waiter fewer counted there. */
  lemma WaiterDropped(requests: map<Id, Request>, shares: map<Id, Share>, live: multiset<Id>, id: Id,
                      requests': map<Id, Request>, shares': map<Id, Share>)
    requires WaitersOk(requests, shares, live) && id in live
    requires forall k | k in requests' :: k in requests && requests'[k].kind == requests[k].kind
                                          && (k != id ==> requests'[k].waiters == requests[k].waiters)
    requires forall k | k in shares' :: k in shares && (k != id ==> shares'[k].waiters == shares[k].waiters)
    requires id in requests' ==> requests'[id].waiters == live[id] - 1 && (requests'[id].kind.Secret? ==> live[id] > 1)
    requires id in shares' ==> shares'[id].waiters == live[id] - 1
    ensures WaitersOk(requests', shares', live - multiset{id})
  {
  }

  lemma UnsubscribeGood(w: World, channel: Id)
    requires Inv(w) && channel in w.live && channel !in w.st.requests && channel !in w.st.shares
    ensures Good(w, Unsubscribe(w, channel))
  {
    hide GrantsOk, RequestsOk, SharesOk, FiledOk, WaitersOk, ChannelsOk, SudoOk;
    WaiterDropped(w.st.requests, w.st.shares, w.live, channel, w.st.requests, w.st.shares);
  }

  lemma LeaveShareKeeps(w: World, k: Id)
    requires k in w.st.shares
    ensures Evolves(w, LeaveShare(w, k))
  {
  }

  lemma LeaveShareGood(w: World, k: Id)
    requires Inv(w) && k in w.live && k in w.st.shares
    ensures Good(w, LeaveShare(w, k))
  {
    hide GrantsOk, RequestsOk, SharesOk, FiledOk, WaitersOk, ChannelsOk, SudoOk, Evolves;
    LeaveShareKeeps(w, k);
    TableFacts(w);
    var shares' := LeaveShare(w, k).st.shares;
    SharesRestated(w.st.shares, w.st.grants, shares');
    FiledRestated(w.st.requests, w.st.shares, w.filed, w.st.requests, shares');
    WaiterDropped(w.st.requests, w.st.shares, w.live, k, w.st.requests, shares');
    ChannelsRestated(w.st.requests, w.st.shares, w.filed, w.log, w.st.requests, shares');
  }

  lemma LeaveRequestKeeps(w: World, k: Id)
    requires k in w.st.requests
    ensures Evolves(w, LeaveRequest(w, k))
  {
  }

  lemma LeaveRequestGood(w: World, k: Id)
    requires Inv(w) && k in w.live && k in w.st.requests
    requires w.st.requests[k].kind.Secret? ==> w.st.requests[k].waiters > 1
    ensures Good(w, LeaveRequest(w, k))
  {
    hide GrantsOk, RequestsOk, SharesOk, FiledOk, WaitersOk, ChannelsOk, SudoOk, Evolves;
    LeaveRequestKeeps(w, k);
    TableFacts(w);
    var requests' := LeaveRequest(w, k).st.requests;
    RequestsRestated(w.st.requests, w.st.grants, requests');
    FiledRestated(w.st.requests, w.st.shares, w.filed, requests', w.st.shares);
    WaiterDropped(w.st.requests, w.st.shares, w.live, k, requests', w.st.shares);
    ChannelsRestated(w.st.requests, w.st.shares, w.filed, w.log, requests', w.st.shares);
    SudoKept(w.st.requests, w.filed, w.approvers, w.runs, requests', w.filed);
  }

  /** The last waiter of a pending request leaves, and the request with it. */
  lemma CancelGood(w: World, k: Id)
    requires Inv(w) && k in w.live && k in w.st.requests
    ensures Good(w, DropRequests(Unsubscribe(w, k), {k}))
  {
    hide GrantsOk, RequestsOk, SharesOk, FiledOk, WaitersOk, ChannelsOk, SudoOk, Evolves;
    CancelKeeps(w, k);
    TableFacts(w);
    var requests' := w.st.requests - {k};
    RequestsRemoved(w.st.requests, w.st.grants, {k});
    FiledRestated(w.st.requests, w.st.shares, w.filed, requests', w.st.shares);
    WaiterDropped(w.st.requests, w.st.shares, w.live, k, requests', w.st.shares);
    ChannelsAfterRemoval(w.st.requests, w.st.shares, w.filed, w.log, {k}, w.log);
    SudoKept(w.st.requests, w.filed, w.approvers, w.runs, requests', w.filed);
  }

  lemma CancelKeeps(w: World, k: Id)
    ensures Evolves(w, DropRequests(Unsubscribe(w, k), {k}))
  {
  }

  lemma DetachGood(w: World, channel: Id, now: nat)
    requires Inv(w) && channel in w.live
    ensures Good(w, DetachWaiter(w, channel, now).world)
  {
    hide Inv, Evolves, Bump, Push, LeaveShare, LeaveRequest, DropRequests, Unsubscribe;
    TableFacts(w);
    if channel in w.st.shares {
      LeaveShareGood(w, channel);
      BumpGood(w, LeaveShare(w, channel));
    } else if channel in w.st.requests {
      var r := w.st.requests[channel];
      if Less1(r.waiters) == 0 && r.state.Pending? {
        CancelGood(w, channel);
        PushGood(w, DropRequests(Unsubscribe(w, channel), {channel}),
                 Activity(r.terminal, KindOf(r.kind), CanceledStatus,
                          if r.kind.Secret? then "Secret request canceled" else "Root command canceled",
                          r.kind.Summary(), now));
      } else {
        LeaveRequestGood(w, channel);
        BumpGood(w, LeaveRequest(w, channel));
      }
    } else {
      UnsubscribeGood(w, channel);
      BumpGood(w, Unsubscribe(w, channel));
    }
  }

  // ---- grants ------------------------------------------------------------------

  lemma GrantsGood(w: World, terminal: Id, name: string, id: Id, g: Grant)
    requires Inv(w) && id !in w.used && g.terminal == terminal && g.name == name
    requires !Granted(w.st.grants, terminal, name) && |GrantsOf(w.st.grants, terminal)| < MAX_SECRET_GRANTS
    ensures Good(w, Grants(w, terminal, name, id, g))
  {
    hide Inv, Evolves;
    var ids := RequestsNamed(w.st.requests, terminal, name);
    var w1 := CloseRequests(w, ids, GrantedEvent(name));
    CloseRequestsOk(w, ids, GrantedEvent(name));
    assert RequestsNamed(w1.st.requests, terminal, name) == {};
    AddGrantOk(w1, id, g);
    Chain(w, w1, AddGrant(w1, id, g));
  }

  lemma AddSecretGood(w: World, terminal: Id, name: string, value: string, description: Option<string>, id: Id, now: nat)
    requires Inv(w) && id !in w.used
    ensures Good(w, AddSecret(w, terminal, name, value, description, id, now).world)
  {
    hide Inv, Evolves, Grants, Push;
    EvolvesReflexive(w);
    var g := NewGrant(terminal, name, "Added by you", value, now);
    if !Granted(w.st.grants, terminal, name) && |GrantsOf(w.st.grants, terminal)| < MAX_SECRET_GRANTS {
      GrantsGood(w, terminal, name, id, g);
      PushGood(w, Grants(w, terminal, name, id, g),
               Activity(terminal, SecretKind, ApprovedStatus, "Secret added and granted", Or(description, name), now));
    }
  }

  lemma ApproveSecretGood(w: World, terminal: Id, request: Id, hash: string, value: string, id: Id, now: nat)
    requires Inv(w) && id !in w.used
    ensures Good(w, ApproveSecret(w, terminal, request, hash, value, id, now).world)
  {
    hide Inv, Evolves, Push;
    EvolvesReflexive(w);
    if ApproveSecret(w, terminal, request, hash, value, id, now).outcome == Done {
      var name := w.st.requests[request].kind.name;
      var g := NewGrant(terminal, name, "Approved request", value, now);
      AloneInAsking(w, request);
      GrantsGood(w, terminal, name, id, g);
      PushGood(w, Grants(w, terminal, name, id, g),
               Activity(terminal, SecretKind, ApprovedStatus, "Secret request approved", name, now));
    }
  }

  lemma AloneInAsking(w: World, request: Id)
    requires Inv(w) && request in w.st.requests && w.st.requests[request].kind.Secret?
    ensures RequestsNamed(w.st.requests, w.st.requests[request].terminal, w.st.requests[request].kind.name) == {request}
  {
    var r := w.st.requests[request];
    forall k | k in RequestsNamed(w.st.requests, r.terminal, r.kind.name) ensures k == request {
      assert w.st.requests[k].kind == r.kind;
    }
  }

  /** A grant goes together with the offers that mirror it. */
  lemma WithdrawGood(w: World, grant: Id, reason: string, now: nat, order: seq<Id>)
    requires Inv(w) && grant in w.st.grants
    requires IsOrder(order, OffersNamed(w.st.shares, w.st.grants[grant].terminal, w.st.grants[grant].name))
    ensures var g := w.st.grants[grant];
            Good(w, DropGrants(WithdrawShares(w, g.terminal, g.name, reason, now, order), {grant}))
  {
    hide Inv, Evolves, WithdrawShares;
    var g := w.st.grants[grant];
    var w1 := WithdrawShares(w, g.terminal, g.name, reason, now, order);
    WithdrawSharesGood(w, g.terminal, g.name, reason, now, order);
    DropGrantsOk(w1, {grant});
    Chain(w, w1, DropGrants(w1, {grant}));
  }

  lemma RevokeGrantGood(w: World, terminal: Id, grant: Id, now: nat, order: seq<Id>)
    requires Inv(w) && CanRevoke(w, terminal, grant, order)
    ensures Good(w, RevokeGrant(w, terminal, grant, now, order).world)
  {
    hide Inv, Evolves, WithdrawShares, Push;
    EvolvesReflexive(w);
    if grant in w.st.grants && w.st.grants[grant].terminal == terminal {
      var name := w.st.grants[grant].name;
      WithdrawGood(w, grant, "revoked", now, order);
      PushGood(w, DropGrants(WithdrawShares(w, terminal, name, "revoked", now, order), {grant}),
               Activity(terminal, SecretKind, RevokedStatus, "Secret grant revoked", name, now));
    }
  }

  /** Removing the grant that is being replaced makes room for the new one. */
  lemma RoomAfterReplacing(w: World, terminal: Id, name: string, grant: Id)
    requires Inv(w) && grant in w.st.grants && IsGrant(w.st.grants[grant], terminal, name)
    ensures !Granted(w.st.grants - {grant}, terminal, name)
    ensures |GrantsOf(w.st.grants - {grant}, terminal)| < MAX_SECRET_GRANTS
  {
    var grants := w.st.grants;
    assert GrantsOf(grants, terminal) == GrantsOf(grants - {grant}, terminal) + {grant};
    assert |GrantsOf(grants, terminal)| <= MAX_SECRET_GRANTS;
    forall k | k in grants - {grant} ensures !IsGrant((grants - {grant})[k], terminal, name) {
      assert grants[k].terminal == terminal && grants[k].name == name ==> k == grant;
    }
  }

  lemma GenerateSecretGood(w: World, terminal: Id, name: string, agent: string, description: Option<string>, value: string,
                           replace: bool, id: Id, now: nat, order: seq<Id>)
    requires Inv(w) && id !in w.used && CanGenerate(w, terminal, name, replace, order)
    ensures Good(w, GenerateSecret(w, terminal, name, agent, description, value, replace, id, now, order).world)
  {
    hide Inv, Evolves, WithdrawShares, Grants;
    EvolvesReflexive(w);
    var existing := FindGrant(w.st.grants, terminal, name);
    var g := NewGrant(terminal, name, "Generated for " + agent, value, now);
    var a := Activity(terminal, SecretKind, ApprovedStatus, "Secret generated and granted", Or(description, name), now);
    if existing.None? {
      if |GrantsOf(w.st.grants, terminal)| < MAX_SECRET_GRANTS {
        GrantsGood(w, terminal, name, id, g);
        PushGood(w, Grants(w, terminal, name, id, g), a);
      }
    } else if replace {
      WithdrawSharesGood(w, terminal, name, "replaced", now, order);
      WithdrawGood(w, existing.value, "replaced", now, order);
      var w1 := DropGrants(WithdrawShares(w, terminal, name, "replaced", now, order), {existing.value});
      var b := Activity(terminal, SecretKind, RevokedStatus, "Secret grant replaced", name, now);
      PushGood(w, w1, b);
      RoomAfterReplacing(w, terminal, name, existing.value);
      var w2 := Push(w1, b);
      GrantsGood(w2, terminal, name, id, g);
      Chain(w, w2, Grants(w2, terminal, name, id, g));
      PushGood(w, Grants(w2, terminal, name, id, g), a);
    }
  }

  lemma ExecuteSecretKeeps(w: World, terminal: Id, name: string, display: string, id: Id, now: nat)
    requires id !in w.used
    ensures Evolves(w, ExecuteSecret(w, terminal, name, display, id, now).world)
  {
  }

  lemma GrantUsed(w: World, k: Id, g: Grant)
    requires Inv(w) && k in w.st.grants && GrantKept(w.st.grants[k], g)
    ensures GrantsOk(w.st.grants[k := g]) && RequestsOk(w.st.requests, w.st.grants[k := g])
    ensures SharesOk(w.st.shares, w.st.grants[k := g])
  {
    var grants, grants' := w.st.grants, w.st.grants[k := g];
    assert forall j | j in grants :: grants'[j].terminal == grants[j].terminal && grants'[j].name == grants[j].name
                                     && grants'[j].value == grants[j].value;
    SameNames(w.st.requests, w.st.shares, grants, grants');
  }

  lemma SameNames(requests: map<Id, Request>, shares: map<Id, Share>, grants: map<Id, Grant>, grants': map<Id, Grant>)
    requires GrantsOk(grants) && RequestsOk(requests, grants) && SharesOk(shares, grants)
    requires grants'.Keys == grants.Keys
    requires forall k | k in grants :: grants'[k].terminal == grants[k].terminal && grants'[k].name == grants[k].name
                                       && grants'[k].value == grants[k].value
    ensures GrantsOk(grants') && RequestsOk(requests, grants') && SharesOk(shares, grants')
  {
    forall t: Id ensures |GrantsOf(grants', t)| <= MAX_SECRET_GRANTS {
      assert GrantsOf(grants', t) == GrantsOf(grants, t);
    }
    forall k | k in requests && requests[k].kind.Secret?
      ensures !Granted(grants', requests[k].terminal, requests[k].kind.name)
    {
      assert forall j | j in grants :: !IsGrant(grants[j], requests[k].terminal, requests[k].kind.name);
    }
    forall k | k in shares ensures ShareOk(grants', shares[k]) {
      assert ShareOk(grants, shares[k]);
      if shares[k].state.Offered? {
        var j :| j in grants && IsGrant(grants[j], shares[k].terminal, shares[k].name) && grants[j].value == shares[k].value;
        assert j in grants' && IsGrant(grants'[j], shares[k].terminal, shares[k].name) && grants'[j].value == shares[k].value;
      }
    }
  }

  lemma ExecutionCounted(executions: map<Id, Execution>, id: Id, terminal: Id)
    requires ExecutionsOk(executions) && id !in executions
    requires |ExecutionsOf(executions, terminal)| < MAX_SECRET_EXECUTIONS
    ensures ExecutionsOk(executions[id := Execution(terminal)])
  {
    var executions' := executions[id := Execution(terminal)];
    forall t: Id ensures |ExecutionsOf(executions', t)| <= MAX_SECRET_EXECUTIONS {
      assert ExecutionsOf(executions', t) ==
        if t == terminal then ExecutionsOf(executions, t) + {id} else ExecutionsOf(executions, t);
    }
  }

  lemma ExecuteSecretGood(w: World, terminal: Id, name: string, display: string, id: Id, now: nat)
    requires Inv(w) && id !in w.used
    ensures Good(w, ExecuteSecret(w, terminal, name, display, id, now).world)
  {
    hide GrantsOk, RequestsOk, SharesOk, FiledOk, WaitersOk, ChannelsOk, SudoOk, ExecutionsOk, Evolves;
    ExecuteSecretKeeps(w, terminal, name, display, id, now);
    if ExecuteSecret(w, terminal, name, display, id, now).outcome == Done {
      var k := FindGrant(w.st.grants, terminal, name).value;
      var w' := ExecuteSecret(w, terminal, name, display, id, now).world;
      GrantUsed(w, k, w'.st.grants[k]);
      ExecutionCounted(w.st.executions, id, terminal);
    }
  }

  lemma ExecutionsRemoved(w: World, ids: set<Id>)
    requires Inv(w)
    ensures Good(w, SetExecutions(w, w.st.executions - ids))
  {
    hide GrantsOk, RequestsOk, SharesOk, FiledOk, WaitersOk, ChannelsOk, SudoOk;
    forall t: Id ensures |ExecutionsOf(w.st.executions - ids, t)| <= MAX_SECRET_EXECUTIONS {
      SubsetSize(ExecutionsOf(w.st.executions - ids, t), ExecutionsOf(w.st.executions, t));
    }
  }

  // ---- shares ------------------------------------------------------------------

  lemma ShareSecretGood(w: World, terminal: Id, name: string, agent: string, description: Option<string>, ttl: nat,
                        id: Id, now: nat, order: seq<Id>, victim: Id)
    requires Inv(w) && id !in w.used && CanShare(w, terminal, now, order, victim)
    ensures Good(w, ShareSecret(w, terminal, name, agent, description, ttl, id, now, order, victim).world)
  {
    hide Inv, Evolves, ExpireShares, OfferShare;
    var w1 := ExpireShares(w, now, order);
    ExpireSharesGood(w, now, order);
    OfferShareGood(w1, terminal, name, agent, description, ttl, id, now, victim);
    Chain(w, w1, OfferShare(w1, terminal, name, agent, description, ttl, id, now, victim).world);
  }

  lemma OfferShareGood(w: World, terminal: Id, name: string, agent: string, description: Option<string>, ttl: nat,
                       id: Id, now: nat, victim: Id)
    requires Inv(w) && id !in w.used
    requires NeedsVictim(w.st.shares, terminal) ==> IsOldestResolved(w.st.shares, terminal, victim)
    ensures Good(w, OfferShare(w, terminal, name, agent, description, ttl, id, now, victim).world)
  {
    hide Inv, Evolves;
    EvolvesReflexive(w);
    var grant := FindGrant(w.st.grants, terminal, name);
    var offer := FindOffer(w.st.shares, terminal, name);
    if grant.Some? {
      if offer.Some? {
        JoinShareOk(w, offer.value);
        BumpGood(w, JoinShare(w, offer.value));
      } else if OfferShare(w, terminal, name, agent, description, ttl, id, now, victim).outcome.Attached? {
        var w1 := if NeedsVictim(w.st.shares, terminal) then ForgetShares(w, {victim}) else w;
        MakeRoomGood(w, terminal, victim);
        var s := Share(terminal, name, description, agent, Offered, now, SaturatingAdd(now, ttl), None, None, 1,
                       w.st.grants[grant.value].value);
        assert Backed(w1.st.grants, s);
        assert OffersNamed(w1.st.shares, s.terminal, s.name) == {};
        AddShareOk(w1, id, s);
        Chain(w, w1, AddShare(w1, id, s));
        PushGood(w, AddShare(w1, id, s),
                 Activity(terminal, SecretKind, SharedStatus, "Secret shared with you", Or(description, name), now));
      }
    }
  }

  lemma MakeRoomGood(w: World, terminal: Id, victim: Id)
    requires Inv(w)
    requires NeedsVictim(w.st.shares, terminal) ==> IsOldestResolved(w.st.shares, terminal, victim)
    requires |SharesOf(w.st.shares, terminal)| < MAX_SECRET_SHARES || NeedsVictim(w.st.shares, terminal)
    ensures var w' := if NeedsVictim(w.st.shares, terminal) then ForgetShares(w, {victim}) else w;
            && Good(w, w')
            && |SharesOf(w'.st.shares, terminal)| < MAX_SECRET_SHARES
            && OfferedOf(w'.st.shares, terminal) == OfferedOf(w.st.shares, terminal)
  {
    hide Inv, Evolves;
    EvolvesReflexive(w);
    if NeedsVictim(w.st.shares, terminal) {
      ForgetSharesOk(w, {victim});
      VictimForgotten(w.st.shares, terminal, victim);
      ShareLimit(w, terminal);
    }
  }

  lemma VictimForgotten(shares: map<Id, Share>, terminal: Id, victim: Id)
    requires victim in SharesOf(shares, terminal) - OfferedOf(shares, terminal)
    ensures |SharesOf(shares - {victim}, terminal)| == |SharesOf(shares, terminal)| - 1
    ensures OfferedOf(shares - {victim}, terminal) == OfferedOf(shares, terminal)
  {
    assert SharesOf(shares, terminal) == SharesOf(shares - {victim}, terminal) + {victim};
  }

  lemma ShareLimit(w: World, terminal: Id)
    requires Inv(w)
    ensures |SharesOf(w.st.shares, terminal)| <= MAX_SECRET_SHARES
    ensures |OfferedOf(w.st.shares, terminal)| <= MAX_PENDING_SHARES
  {
  }

  lemma WaitShareGood(w: World, terminal: Id, share: Id, now: nat, order: seq<Id>)
    requires Inv(w) && IsOrder(order, Due(w.st.shares, now))
    ensures Good(w, WaitShare(w, terminal, share, now, order).world)
  {
    hide Inv, Evolves, ExpireShares;
    var w1 := ExpireShares(w, now, order);
    ExpireSharesGood(w, now, order);
    if share in w1.st.shares && w1.st.shares[share].terminal == terminal {
      if w1.st.shares[share].state.Offered? {
        JoinShareOk(w1, share);
        Chain(w, w1, JoinShare(w1, share));
        BumpGood(w, JoinShare(w1, share));
      } else {
        BumpGood(w, w1);
      }
    }
  }

  /** The user acts on an open offer. */
  lemma ActGood(w: World, w1: World, share: Id, state: ShareState, now: nat, a: Activity)
    requires Good(w, w1) && share in w1.st.shares && w1.st.shares[share].state.Offered? && !state.Offered?
    ensures Good(w, Push(ResolveShares(w1, {share}, state, now), a))
  {
    hide Inv, Evolves, Push;
    ResolveSharesOk(w1, {share}, state, now);
    Chain(w, w1, ResolveShares(w1, {share}, state, now));
    PushGood(w, ResolveShares(w1, {share}, state, now), a);
  }

  lemma RevealShareGood(w: World, terminal: Id, share: Id, now: nat, order: seq<Id>)
    requires Inv(w) && IsOrder(order, Due(w.st.shares, now))
    ensures Good(w, RevealShare(w, terminal, share, now, order).world)
  {
    hide Inv, Evolves, ExpireShares, Push;
    var w1 := ExpireShares(w, now, order);
    ExpireSharesGood(w, now, order);
    if share in w1.st.shares && w1.st.shares[share].terminal == terminal && w1.st.shares[share].state.Offered? {
      ActGood(w, w1, share, Viewed, now,
              Activity(terminal, SecretKind, ViewedStatus, "Shared secret revealed", w1.st.shares[share].name, now));
    }
  }

  lemma DismissShareGood(w: World, terminal: Id, share: Id, now: nat, order: seq<Id>)
    requires Inv(w) && IsOrder(order, Due(w.st.shares, now))
    ensures Good(w, DismissShare(w, terminal, share, now, order).world)
  {
    hide Inv, Evolves, ExpireShares, Push;
    var w1 := ExpireShares(w, now, order);
    ExpireSharesGood(w, now, order);
    if share in w1.st.shares && w1.st.shares[share].terminal == terminal && w1.st.shares[share].state.Offered? {
      ActGood(w, w1, share, Dismissed, now,
              Activity(terminal, SecretKind, DismissedStatus, "Shared secret dismissed", w1.st.shares[share].name, now));
    }
  }

  // ---- clearing ----------------------------------------------------------------

  lemma ClearGood(w: World, scope: Scope, message: string)
    requires Inv(w)
    ensures Good(w, Clear(w, scope, message))
    ensures Clear(w, scope, message).st.activity == w.st.activity
  {
    hide Inv, Evolves;
    var w1 := CloseRequests(w, RequestsIn(w.st.requests, scope), FailedEvent(message));
    CloseRequestsOk(w, RequestsIn(w.st.requests, scope), FailedEvent(message));
    var w2 := ClearShares(w1, SharesIn(w.st.shares, scope), message);
    ClearSharesOk(w1, SharesIn(w.st.shares, scope), message);
    Chain(w, w1, w2);
    var w3 := DropGrants(w2, GrantsIn(w.st.grants, scope));
    forall k | k in GrantsIn(w.st.grants, scope) && k in w2.st.grants
      ensures OffersNamed(w2.st.shares, w2.st.grants[k].terminal, w2.st.grants[k].name) == {}
    {
    }
    DropGrantsOk(w2, GrantsIn(w.st.grants, scope));
    Chain(w, w2, w3);
    ExecutionsRemoved(w3, ExecutionsIn(w.st.executions, scope));
    Chain(w, w3, Clear(w, scope, message));
  }

  lemma {:induction false} FewerRecords(activity: seq<Activity>, terminal: Id)
    ensures |WithoutTerminal(activity, terminal)| <= |activity|
  {
    if activity != [] {
      FewerRecords(activity[1..], terminal);
    }
  }

  lemma ActivityReplaced(w: World, w': World, activity: seq<Activity>)
    requires Good(w, w') && |activity| <= ACTIVITY_LIMIT
    ensures Good(w, w'.(st := w'.st.(activity := activity)))
  {
    hide GrantsOk, RequestsOk, SharesOk, FiledOk, WaitersOk, ChannelsOk, SudoOk, ExecutionsOk, IdsOk;
  }

  lemma ClearTerminalGood(w: World, terminal: Id)
    requires Inv(w)
    ensures Good(w, ClearTerminal(w, terminal).world)
  {
    hide Inv, Evolves, Clear;
    var w1 := Clear(w, Only(terminal), "terminal closed");
    ClearGood(w, Only(terminal), "terminal closed");
    FewerRecords(w.st.activity, terminal);
    ActivityBounded(w);
    ActivityReplaced(w, w1, WithoutTerminal(w.st.activity, terminal));
    BumpGood(w, w1.(st := w1.st.(activity := WithoutTerminal(w.st.activity, terminal))));
  }

  lemma ActivityBounded(w: World)
    requires Inv(w)
    ensures |w.st.activity| <= ACTIVITY_LIMIT
  {
  }

  lemma ClearInactiveGood(w: World, active: set<Id>)
    requires Inv(w)
    ensures Good(w, ClearInactive(w, active).world)
  {
    hide Inv, Evolves, Clear;
    ClearGood(w, Except(active), "terminal exited");
    BumpGood(w, Clear(w, Except(active), "terminal exited"));
  }
}
