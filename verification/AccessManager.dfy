/** The access broker itself: the locked tables, changed in place by one method for each
    lock section. Each method is proved to take the step its operation specifies, and so
    to keep the invariant. A clock reading is a parameter, and so is each id drawn. */
module AccessManagers {
  import opened Wrappers
  import opened AccessModel
  import opened AccessOperations
  import opened AccessInvariant
  import opened AccessSteps
  import opened AccessSudo

  class AccessManager {
    var revision: nat
    var requests: map<Id, Request>
    var grants: map<Id, Grant>
    var shares: map<Id, Share>
    var executions: map<Id, Execution>
    var activity: seq<Activity>

    ghost var used: set<Id>
    ghost var filed: map<Id, Filing>
    ghost var log: map<Id, seq<Event>>
    ghost var live: multiset<Id>
    ghost var approvers: map<Id, Approver>
    ghost var runs: seq<SudoRun>

    ghost function W(): World
      reads this
    {
      World(State(revision, requests, grants, shares, executions, activity), used, filed, log, live, approvers, runs)
    }

    ghost predicate Valid()
      reads this
    {
      Inv(W())
    }

    constructor ()
      ensures W() == EmptyWorld
    {
      revision, requests, grants, shares, executions, activity := 0, map[], map[], map[], map[], [];
      used, filed, log, live, approvers, runs := {}, map[], map[], multiset{}, map[], [];
    }

    // ---- shared pieces -----------------------------------------------------------

    method Bump()
      modifies this`revision
      ensures W() == AccessModel.Bump(old(W()))
    {
      revision := (revision + 1) % (U64_MAX + 1);
    }

    method PushActivity(a: Activity)
      modifies this`revision, this`activity
      ensures W() == Push(old(W()), a)
    {
      activity := [a] + activity;
      ghost var all := activity;
      while |activity| > ACTIVITY_LIMIT
        invariant revision == old(revision)
        invariant |activity| <= |all| && activity == all[..|activity|]
        invariant |all| <= ACTIVITY_LIMIT ==> activity == all
        invariant |all| > ACTIVITY_LIMIT ==> |activity| >= ACTIVITY_LIMIT
      {
        activity := activity[..|activity| - 1];
      }
      assert activity == Capped([a] + old(activity));
      Bump();
    }

    method PushAllActivity(records: seq<Activity>)
      modifies this`revision, this`activity
      ensures W() == PushAll(old(W()), records)
    {
      for i := 0 to |records|
        invariant W() == PushAll(old(W()), records[..i])
      {
        PushActivity(records[i]);
        assert records[..i + 1][..i] == records[..i];
      }
      assert records[..|records|] == records;
    }

    /** Moves the open shares among `ids` to `state` one by one, telling their waiters, and
        reports the order in which it met them. */
    method ResolveEach(ids: set<Id>, state: ShareState, now: nat) returns (order: seq<Id>)
      requires ids <= shares.Keys && !state.Offered?
      requires log.Keys >= shares.Keys
      modifies this`shares, this`log
      ensures IsOrder(order, ids)
      ensures W() == ResolveShares(old(W()), ids, state, now)
    {
      hide Resolved, Send, IsOrder;
      order := [];
      var todo := ids;
      assert ids - todo == {};
      NoneResolved(shares, log, state, now);
      while todo != {}
        invariant todo <= ids
        invariant IsOrder(order, ids - todo)
        invariant shares == Resolved(old(shares), ids - todo, state, now)
        invariant log == Send(old(log), ids - todo, Outcomes(old(shares), ids - todo, state))
      {
        var k :| k in todo;
        ghost var done := ids - todo;
        OneMoreResolved(old(shares), old(log), done, k, state, now);
        OneMoreMet(order, done, k);
        log := log[k := log[k] + [OutcomeEvent(state, shares[k].name)]];
        shares := shares[k := ResolvedShare(shares[k], state, now)];
        order := order + [k];
        todo := todo - {k};
        assert ids - todo == done + {k};
      }
      assert ids - todo == ids;
    }

    /** Forgets the shares that were resolved long enough ago. */
    method ForgetOutdated(now: nat)
      modifies this`shares, this`revision
      ensures var stale := Outdated(old(shares), now);
              W() == if stale == {} then old(W()) else AccessModel.Bump(ForgetShares(old(W()), stale))
    {
      ghost var stale := Outdated(shares, now);
      var before := shares;
      shares := map k | k in shares && IsKept(shares[k], now) :: shares[k];
      assert shares == before - stale;
      assert before.Keys == shares.Keys + stale;
      if |shares| != |before| {
        Bump();
      } else {
        assert |shares.Keys| == |before.Keys|;
      }
    }

    /** src/access.rs `expire_shares_locked`. */
    method ExpireSharesLocked(now: nat) returns (ghost order: seq<Id>)
      requires Valid()
      modifies this
      ensures Valid()
      ensures IsOrder(order, Due(old(shares), now))
      ensures W() == ExpireShares(old(W()), now, order)
    {
      hide Inv, Evolves, PushAll, Outdated;
      ghost var w := W();
      KeysOf(w);
      var before := shares;
      var met := ResolveEach(Due(shares, now), ShareState.Expired, now);
      order := met;
      PushAllActivity(ExpiryRecords(before, met, now));
      ForgetOutdated(now);
      ExpireSharesGood(w, now, order);
    }

    /** src/access.rs `expire_shares_for_grant`. */
    method WithdrawSharesLocked(terminal: Id, name: string, reason: string, now: nat) returns (ghost order: seq<Id>)
      requires Valid()
      modifies this
      ensures IsOrder(order, OffersNamed(old(shares), terminal, name))
      ensures W() == WithdrawShares(old(W()), terminal, name, reason, now, order)
    {
      hide Inv, Evolves;
      KeysOf(W());
      var before := shares;
      var met := ResolveEach(OffersNamed(shares, terminal, name), ShareState.Expired, now);
      order := met;
      PushAllActivity(WithdrawalRecords(before, met, reason, now));
    }

    /** A request leaves with an answer for its waiters. */
    method Close(ids: set<Id>, event: Event)
      modifies this`requests, this`log
      ensures W() == CloseRequests(old(W()), ids, event)
    {
      requests := requests - ids;
      log := Send(log, ids, Same(ids, event));
    }

    // ---- requests ----------------------------------------------------------------

    method RequestSecret(terminal: Id, name: string, description: string, agent: string, id: Id, hash: string, now: nat)
      returns (r: Outcome)
      requires Valid() && id !in used
      modifies this
      ensures Valid()
      ensures Result(W(), r) ==
              AccessOperations.RequestSecret(old(W()), terminal, name, description, agent, id, hash, now)
    {
      hide Inv, Evolves;
      RequestSecretGood(W(), terminal, name, description, agent, id, hash, now);
      if Granted(grants, terminal, name) {
        return Immediate(GrantedEvent(name));
      }
      if exists k :: k in requests && AsksFor(requests[k], terminal, name) {
        var k :| k in requests && AsksFor(requests[k], terminal, name);
        SameRequest(W(), k, terminal, name);
        if requests[k].description != description || requests[k].agent != agent {
          return Refused(Conflict);
        }
        requests := requests[k := requests[k].(waiters := requests[k].waiters + 1)];
        live := live + multiset{k};
        return Attached(k);
      }
      if |PendingOf(requests, terminal)| >= MAX_PENDING_REQUESTS {
        return Refused(Conflict);
      }
      Insert(id, Request(terminal, hash, Secret(name), Pending, description, agent, now, 1));
      r := Attached(id);
    }

    method Insert(id: Id, request: Request)
      modifies this
      ensures W() == AccessModel.Bump(AddRequest(old(W()), id, request))
    {
      ghost var w := W();
      requests := requests[id := request];
      used, filed := used + {id}, filed[id := RequestFiling(request.terminal, request.hash, request.kind)];
      log, live := log[id := []], live + multiset{id};
      assert W() == AddRequest(w, id, request);
      Bump();
    }

    method RequestSudo(terminal: Id, command: SudoCommand, description: string, agent: string, id: Id, hash: string, now: nat)
      returns (r: Outcome, ghost pick: Option<Id>)
      requires Valid() && id !in used
      modifies this
      ensures Valid()
      ensures PicksCommand(old(W()), terminal, command.fingerprint, pick)
      ensures Result(W(), r) ==
              AccessOperations.RequestSudo(old(W()), terminal, command, description, agent, id, hash, now, pick)
    {
      hide Inv, Evolves;
      ghost var w := W();
      if exists k :: k in requests && AsksToRun(requests[k], terminal, command.fingerprint) {
        var k :| k in requests && AsksToRun(requests[k], terminal, command.fingerprint);
        pick := Some(k);
        if requests[k].description != description || requests[k].agent != agent {
          return Refused(Conflict), pick;
        }
        requests := requests[k := requests[k].(waiters := requests[k].waiters + 1)];
        live := live + multiset{k};
        r := Attached(k);
      } else {
        pick := None;
        if |PendingOf(requests, terminal)| >= MAX_PENDING_REQUESTS {
          return Refused(Conflict), pick;
        }
        Insert(id, Request(terminal, hash, Sudo(command), Pending, description, agent, now, 1));
        r := Attached(id);
      }
      RequestSudoGood(w, terminal, command, description, agent, id, hash, now, pick);
    }

    method Reject(terminal: Id, request: Id, hash: string, comment: Option<string>, now: nat) returns (r: Outcome)
      requires Valid()
      modifies this
      ensures Valid()
      ensures Result(W(), r) == AccessOperations.Reject(old(W()), terminal, request, hash, comment, now)
    {
      hide Inv, Evolves;
      RejectGood(W(), terminal, request, hash, comment, now);
      if request !in requests || requests[request].terminal != terminal {
        return Refused(NotFound);
      }
      var q := requests[request];
      if q.hash != hash {
        return Refused(AccessError.Stale);
      }
      if !q.state.Pending? {
        return Refused(Conflict);
      }
      Close({request}, RejectedEvent(comment));
      PushActivity(Activity(terminal, KindOf(q.kind), RejectedStatus,
                            if q.kind.Secret? then "Secret request rejected" else "Root command rejected",
                            Or(comment, q.kind.Summary()), now));
      r := Done;
    }

    /** src/access.rs `detach_waiter`, when a subscription is dropped. */
    method DetachWaiter(channel: Id, now: nat)
      requires Valid() && channel in live
      modifies this
      ensures Valid()
      ensures Result(W(), Done) == AccessOperations.DetachWaiter(old(W()), channel, now)
    {
      hide Inv, Evolves;
      DetachGood(W(), channel, now);
      live := live - multiset{channel};
      if channel in shares {
        shares := shares[channel := shares[channel].(waiters := Less1(shares[channel].waiters))];
        Bump();
        return;
      }
      var remove := false;
      if channel in requests {
        var q := requests[channel].(waiters := Less1(requests[channel].waiters));
        requests := requests[channel := q];
        remove := q.waiters == 0 && q.state.Pending?;
      }
      if remove {
        var q := requests[channel];
        requests := requests - {channel};
        assert requests == old(requests) - {channel};
        assert W() == DropRequests(Unsubscribe(old(W()), channel), {channel});
        PushActivity(Activity(q.terminal, KindOf(q.kind), CanceledStatus,
                              if q.kind.Secret? then "Secret request canceled" else "Root command canceled",
                              q.kind.Summary(), now));
      } else {
        Bump();
      }
    }

    // ---- grants ------------------------------------------------------------------

    /** A grant enters the table and answers the pending requests for its name. */
    method GrantName(terminal: Id, name: string, id: Id, g: Grant)
      modifies this
      ensures W() == Grants(old(W()), terminal, name, id, g)
    {
      grants, used := grants[id := g], used + {id};
      Close(RequestsNamed(requests, terminal, name), GrantedEvent(name));
    }

    method AddSecret(terminal: Id, name: string, value: string, description: Option<string>, id: Id, now: nat)
      returns (r: Outcome)
      requires Valid() && id !in used
      modifies this
      ensures Valid()
      ensures Result(W(), r) == AccessOperations.AddSecret(old(W()), terminal, name, value, description, id, now)
    {
      hide Inv, Evolves;
      AddSecretGood(W(), terminal, name, value, description, id, now);
      if Granted(grants, terminal, name) {
        return Refused(Conflict);
      }
      if |GrantsOf(grants, terminal)| >= MAX_SECRET_GRANTS {
        return Refused(Conflict);
      }
      GrantName(terminal, name, id, NewGrant(terminal, name, "Added by you", value, now));
      PushActivity(Activity(terminal, SecretKind, ApprovedStatus, "Secret added and granted", Or(description, name), now));
      r := Done;
    }

    method ApproveSecret(terminal: Id, request: Id, hash: string, value: string, id: Id, now: nat) returns (r: Outcome)
      requires Valid() && id !in used
      modifies this
      ensures Valid()
      ensures Result(W(), r) == AccessOperations.ApproveSecret(old(W()), terminal, request, hash, value, id, now)
    {
      hide Inv, Evolves;
      ApproveSecretGood(W(), terminal, request, hash, value, id, now);
      if request !in requests || requests[request].terminal != terminal {
        return Refused(NotFound);
      }
      var q := requests[request];
      if q.hash != hash {
        return Refused(AccessError.Stale);
      }
      if !q.state.Pending? {
        return Refused(Conflict);
      }
      if !q.kind.Secret? {
        return Refused(Invalid);
      }
      var name := q.kind.name;
      if Granted(grants, terminal, name) {
        return Refused(Conflict);
      }
      if |GrantsOf(grants, terminal)| >= MAX_SECRET_GRANTS {
        return Refused(Conflict);
      }
      Close({request}, GrantedEvent(name));
      grants, used := grants[id := NewGrant(terminal, name, "Approved request", value, now)], used + {id};
      PushActivity(Activity(terminal, SecretKind, ApprovedStatus, "Secret request approved", name, now));
      r := Done;
    }

    method RevokeGrant(terminal: Id, grant: Id, now: nat) returns (r: Outcome, ghost order: seq<Id>)
      requires Valid()
      modifies this
      ensures Valid()
      ensures CanRevoke(old(W()), terminal, grant, order)
      ensures Result(W(), r) == AccessOperations.RevokeGrant(old(W()), terminal, grant, now, order)
    {
      hide Inv, Evolves;
      ghost var w := W();
      order := [];
      if grant !in grants || grants[grant].terminal != terminal {
        return Refused(NotFound), order;
      }
      var name := grants[grant].name;
      order := WithdrawSharesLocked(terminal, name, "revoked", now);
      assert W().st.grants == w.st.grants by {
        WithdrawSharesGood(w, terminal, name, "revoked", now, order);
      }
      grants := grants - {grant};
      PushActivity(Activity(terminal, SecretKind, RevokedStatus, "Secret grant revoked", name, now));
      r := Done;
      RevokeGrantGood(w, terminal, grant, now, order);
    }

    method GenerateSecret(terminal: Id, name: string, agent: string, description: Option<string>, value: string,
                          replace: bool, id: Id, now: nat)
      returns (r: Outcome, ghost order: seq<Id>)
      requires Valid() && id !in used
      modifies this
      ensures Valid()
      ensures CanGenerate(old(W()), terminal, name, replace, order)
      ensures Result(W(), r) ==
              AccessOperations.GenerateSecret(old(W()), terminal, name, agent, description, value, replace, id, now, order)
    {
      hide Inv, Evolves;
      ghost var w := W();
      order := [];
      if Granted(grants, terminal, name) {
        if !replace {
          return Refused(Conflict), order;
        }
        var k :| k in grants && IsGrant(grants[k], terminal, name);
        SameGrant(w, k, terminal, name);
        order := WithdrawSharesLocked(terminal, name, "replaced", now);
        grants := grants - {k};
        PushActivity(Activity(terminal, SecretKind, RevokedStatus, "Secret grant replaced", name, now));
      }
      GenerateSecretGood(w, terminal, name, agent, description, value, replace, id, now, order);
      if |GrantsOf(grants, terminal)| >= MAX_SECRET_GRANTS {
        return Refused(Conflict), order;
      }
      GrantName(terminal, name, id, NewGrant(terminal, name, "Generated for " + agent, value, now));
      PushActivity(Activity(terminal, SecretKind, ApprovedStatus, "Secret generated and granted", Or(description, name), now));
      r := Done;
    }

    method ExecuteSecret(terminal: Id, name: string, display: string, id: Id, now: nat) returns (r: Outcome)
      requires Valid() && id !in used
      modifies this
      ensures Valid()
      ensures Result(W(), r) == AccessOperations.ExecuteSecret(old(W()), terminal, name, display, id, now)
    {
      hide Inv, Evolves;
      ExecuteSecretGood(W(), terminal, name, display, id, now);
      if |ExecutionsOf(executions, terminal)| >= MAX_SECRET_EXECUTIONS {
        return Refused(Conflict);
      }
      if !Granted(grants, terminal, name) {
        return Refused(NotFound);
      }
      var k :| k in grants && IsGrant(grants[k], terminal, name);
      SameGrant(W(), k, terminal, name);
      grants := grants[k := grants[k].(uses := SaturatingAdd(grants[k].uses, 1), lastUsedAt := Some(now),
                                       lastCommand := Some(display))];
      executions, used := executions[id := Execution(terminal)], used + {id};
      Bump();
      r := Done;
    }

    method FinishExecution(id: Id)
      requires Valid()
      modifies this`executions
      ensures Valid()
      ensures W() == AccessOperations.FinishExecution(old(W()), id).world
    {
      hide Inv, Evolves;
      ExecutionsRemoved(W(), {id});
      executions := executions - {id};
    }

    // ---- shares ------------------------------------------------------------------

    /** A share that was resolved longest ago. */
    method OldestResolved(resolved: set<Id>) returns (victim: Id)
      requires resolved != {} && resolved <= shares.Keys
      ensures victim in resolved
      ensures forall k | k in resolved :: ResolutionTime(shares[victim]) <= ResolutionTime(shares[k])
    {
      victim :| victim in resolved;
      var todo := resolved - {victim};
      while todo != {}
        invariant todo <= resolved && victim in resolved
        invariant forall k | k in resolved - todo :: ResolutionTime(shares[victim]) <= ResolutionTime(shares[k])
      {
        var k :| k in todo;
        if ResolutionTime(shares[k]) < ResolutionTime(shares[victim]) {
          victim := k;
        }
        todo := todo - {k};
      }
    }

    method ShareSecret(terminal: Id, name: string, agent: string, description: Option<string>, ttl: nat, id: Id, now: nat)
      returns (r: Outcome, ghost order: seq<Id>, ghost victim: Id)
      requires Valid() && id !in used
      modifies this
      ensures Valid()
      ensures CanShare(old(W()), terminal, now, order, victim)
      ensures Result(W(), r) ==
              AccessOperations.ShareSecret(old(W()), terminal, name, agent, description, ttl, id, now, order, victim)
    {
      hide Inv, Evolves, OfferShare, ExpireShares;
      ghost var w := W();
      order := ExpireSharesLocked(now);
      assert W().used == w.used by { ExpireSharesGood(w, now, order); }
      r, victim := Offer(terminal, name, agent, description, ttl, id, now);
    }

    /** The rest of sharing, once shares past their deadline are gone. */
    method Offer(terminal: Id, name: string, agent: string, description: Option<string>, ttl: nat, id: Id, now: nat)
      returns (r: Outcome, ghost victim: Id)
      requires Valid() && id !in used
      modifies this
      ensures Valid()
      ensures NeedsVictim(old(shares), terminal) ==> IsOldestResolved(old(shares), terminal, victim)
      ensures Result(W(), r) == OfferShare(old(W()), terminal, name, agent, description, ttl, id, now, victim)
    {
      hide Inv, Evolves, OfferAnew, NeedsVictim, IsOldestResolved;
      ghost var w := W();
      victim := SomeOldest(shares, terminal);
      OfferShareGood(w, terminal, name, agent, description, ttl, id, now, victim);
      if !Granted(grants, terminal, name) {
        return Refused(Conflict), victim;
      }
      var g :| g in grants && IsGrant(grants[g], terminal, name);
      SameGrant(w, g, terminal, name);
      if exists k :: k in shares && IsOffer(shares[k], terminal, name) {
        var k :| k in shares && IsOffer(shares[k], terminal, name);
        SameOffer(w, k, terminal, name);
        if shares[k].agent != agent || shares[k].description != description {
          return Refused(Conflict), victim;
        }
        Join(k);
        Bump();
        return Attached(k), victim;
      }
      r, victim := OfferNew(terminal, name, agent, description, ttl, id, now, g);
      OfferShareGood(w, terminal, name, agent, description, ttl, id, now, victim);
    }

    method OfferNew(terminal: Id, name: string, agent: string, description: Option<string>, ttl: nat, id: Id, now: nat, g: Id)
      returns (r: Outcome, ghost victim: Id)
      requires g in grants
      modifies this
      ensures NeedsVictim(old(shares), terminal) ==> IsOldestResolved(old(shares), terminal, victim)
      ensures Result(W(), r) == OfferAnew(old(W()), terminal, name, agent, description, ttl, id, now, g, victim)
    {
      victim := SomeOldest(shares, terminal);
      if |OfferedOf(shares, terminal)| >= MAX_PENDING_SHARES {
        return Refused(Conflict), victim;
      }
      var value := grants[g].value;
      if |SharesOf(shares, terminal)| >= MAX_SECRET_SHARES {
        var resolved := SharesOf(shares, terminal) - OfferedOf(shares, terminal);
        assert SharesOf(shares, terminal) == resolved + OfferedOf(shares, terminal);
        if resolved == {} {
          return Refused(Conflict), victim;
        }
        var oldest := OldestResolved(resolved);
        victim := oldest;
        shares := shares - {oldest};
      }
      InsertShare(id, Share(terminal, name, description, agent, Offered, now, SaturatingAdd(now, ttl), None, None, 1, value));
      PushActivity(Activity(terminal, SecretKind, SharedStatus, "Secret shared with you", Or(description, name), now));
      r := Attached(id);
    }

    method Join(k: Id)
      requires k in shares
      modifies this`shares, this`live
      ensures W() == JoinShare(old(W()), k)
    {
      shares := shares[k := shares[k].(waiters := shares[k].waiters + 1)];
      live := live + multiset{k};
    }

    method InsertShare(id: Id, s: Share)
      modifies this
      ensures W() == AddShare(old(W()), id, s)
    {
      shares := shares[id := s];
      used, filed := used + {id}, filed[id := ShareFiling(s.terminal, s.name, s.value)];
      log, live := log[id := []], live + multiset{id};
    }

    method WaitShare(terminal: Id, share: Id, now: nat) returns (r: Outcome, ghost order: seq<Id>)
      requires Valid()
      modifies this
      ensures Valid()
      ensures IsOrder(order, Due(old(shares), now))
      ensures Result(W(), r) == AccessOperations.WaitShare(old(W()), terminal, share, now, order)
    {
      hide Inv, Evolves, ExpireShares;
      ghost var w := W();
      order := ExpireSharesLocked(now);
      WaitShareGood(w, terminal, share, now, order);
      if share !in shares || shares[share].terminal != terminal {
        return Refused(NotFound), order;
      }
      if shares[share].state.Offered? {
        Join(share);
        r := Attached(share);
      } else {
        r := Immediate(OutcomeEvent(shares[share].state, shares[share].name));
      }
      Bump();
    }

    /** The user acts on an open offer: its value is wiped and its waiters are told. */
    method Act(share: Id, state: ShareState, now: nat)
      requires share in shares && share in log && !state.Offered?
      modifies this`shares, this`log
      ensures W() == ResolveShares(old(W()), {share}, state, now)
    {
      log := log[share := log[share] + [OutcomeEvent(state, shares[share].name)]];
      shares := shares[share := ResolvedShare(shares[share], state, now)];
    }

    method RevealShare(terminal: Id, share: Id, now: nat) returns (r: Outcome, ghost order: seq<Id>)
      requires Valid()
      modifies this
      ensures Valid()
      ensures IsOrder(order, Due(old(shares), now))
      ensures Result(W(), r) == AccessOperations.RevealShare(old(W()), terminal, share, now, order)
    {
      hide Inv, Evolves, ExpireShares;
      ghost var w := W();
      order := ExpireSharesLocked(now);
      RevealShareGood(w, terminal, share, now, order);
      if share !in shares || shares[share].terminal != terminal {
        return Refused(NotFound), order;
      }
      if !shares[share].state.Offered? {
        return Refused(Gone), order;
      }
      var name, value := shares[share].name, shares[share].value;
      KeysOf(W());
      Act(share, Viewed, now);
      PushActivity(Activity(terminal, SecretKind, ViewedStatus, "Shared secret revealed", name, now));
      r := Revealed(name, value);
    }

    method DismissShare(terminal: Id, share: Id, now: nat) returns (r: Outcome, ghost order: seq<Id>)
      requires Valid()
      modifies this
      ensures Valid()
      ensures IsOrder(order, Due(old(shares), now))
      ensures Result(W(), r) == AccessOperations.DismissShare(old(W()), terminal, share, now, order)
    {
      hide Inv, Evolves, ExpireShares;
      ghost var w := W();
      order := ExpireSharesLocked(now);
      DismissShareGood(w, terminal, share, now, order);
      if share !in shares || shares[share].terminal != terminal {
        return Refused(NotFound), order;
      }
      if !shares[share].state.Offered? {
        return Refused(Conflict), order;
      }
      var name := shares[share].name;
      KeysOf(W());
      Act(share, Dismissed, now);
      PushActivity(Activity(terminal, SecretKind, DismissedStatus, "Shared secret dismissed", name, now));
      r := Done;
    }

    // ---- sudo: approve_sudo releases the lock between these ------------------------

    method BeginSudo(terminal: Id, request: Id, hash: string, call: Id) returns (r: Outcome)
      requires Valid() && call !in used
      modifies this
      ensures Valid()
      ensures Result(W(), r) == AccessOperations.BeginSudo(old(W()), terminal, request, hash, call)
    {
      hide Inv, Evolves;
      BeginSudoGood(W(), terminal, request, hash, call);
      if request !in requests || requests[request].terminal != terminal {
        return Refused(NotFound);
      }
      var q := requests[request];
      if q.hash != hash {
        return Refused(AccessError.Stale);
      }
      if !q.state.Pending? {
        return Refused(Conflict);
      }
      if !q.kind.Sudo? {
        return Refused(Invalid);
      }
      requests := requests[request := q.(state := Authenticating)];
      approvers := approvers[call := Approver(request, terminal, hash, q.kind.command, CheckingPassword)];
      used := used + {call};
      Bump();
      r := Done;
    }

    method AuthFailed(ghost call: Id, request: Id) returns (r: Outcome)
      requires Valid() && InPhase(W(), call, {CheckingPassword}) && approvers[call].request == request
      modifies this
      ensures Valid()
      ensures Result(W(), r) == AccessOperations.AuthFailed(old(W()), call)
    {
      hide Inv, Evolves;
      AuthFailedGood(W(), call);
      approvers := approvers - {call};
      if request in requests {
        requests := requests[request := requests[request].(state := Pending)];
        Bump();
      }
      r := Refused(Invalid);
    }

    method StartSudo(ghost call: Id, request: Id) returns (r: Outcome)
      requires Valid() && InPhase(W(), call, {CheckingPassword}) && approvers[call].request == request
      modifies this
      ensures Valid()
      ensures Result(W(), r) == AccessOperations.StartSudo(old(W()), call)
    {
      hide Inv, Evolves;
      StartSudoGood(W(), call);
      if request !in requests {
        approvers := approvers - {call};
        return Refused(NotFound);
      }
      requests := requests[request := requests[request].(state := Running)];
      approvers := approvers[call := approvers[call].(phase := Approved)];
      Bump();
      r := Done;
    }

    method FinishSudo(ghost call: Id, request: Id, terminal: Id, display: string, code: int, now: nat)
      requires Valid() && InPhase(W(), call, {Executing})
      requires approvers[call].request == request && approvers[call].terminal == terminal
      requires approvers[call].command.display == display
      modifies this
      ensures Valid()
      ensures Result(W(), Done) == AccessOperations.FinishSudo(old(W()), call, code, now)
    {
      hide Inv, Evolves;
      FinishSudoGood(W(), call, code, now);
      approvers := approvers - {call};
      requests := requests - {request};
      PushActivity(Activity(terminal, SudoKind, if code == 0 then ApprovedStatus else FailedStatus,
                            if code == 0 then "Root command completed" else "Root command failed", display, now));
      log := Send(log, {request}, map[request := CompletedEvent(code)]);
    }

    /** src/access.rs `fail_request`. */
    method FailRequest(ghost call: Id, request: Id, message: string, now: nat)
      requires Valid() && InPhase(W(), call, {CheckingPassword, Announced, Executing}) && approvers[call].request == request
      modifies this
      ensures Valid()
      ensures W() == AbortSudo(old(W()), call, message, now).world
    {
      hide Inv, Evolves;
      AbortSudoGood(W(), call, message, now);
      approvers := approvers - {call};
      if request !in requests {
        return;
      }
      var q := requests[request];
      Close({request}, FailedEvent(message));
      PushActivity(Activity(q.terminal, KindOf(q.kind), FailedStatus,
                            if q.kind.Secret? then "Secret request failed" else "Root command failed", message, now));
    }

    // ---- clearing ----------------------------------------------------------------

    method ClearTables(scope: Scope, message: string)
      modifies this
      ensures W() == Clear(old(W()), scope, message)
    {
      Close(RequestsIn(requests, scope), FailedEvent(message));
      executions := executions - ExecutionsIn(executions, scope);
      var cleared := SharesIn(shares, scope);
      log := Send(log, StillOffered(shares, cleared), Same(StillOffered(shares, cleared), FailedEvent(message)));
      shares := shares - cleared;
      grants := grants - GrantsIn(grants, scope);
    }

    method ClearTerminal(terminal: Id)
      requires Valid()
      modifies this
      ensures Valid()
      ensures W() == AccessOperations.ClearTerminal(old(W()), terminal).world
    {
      hide Inv, Evolves;
      ClearTerminalGood(W(), terminal);
      ClearTables(Only(terminal), "terminal closed");
      activity := RetainOthers(activity, terminal);
      Bump();
    }

    static method RetainOthers(records: seq<Activity>, terminal: Id) returns (kept: seq<Activity>)
      ensures kept == WithoutTerminal(records, terminal)
    {
      kept := [];
      for i := |records| downto 0
        invariant kept == WithoutTerminal(records[i..], terminal)
      {
        if records[i].terminal != terminal {
          kept := [records[i]] + kept;
        }
      }
    }

    method ClearInactiveTerminals(active: set<Id>)
      requires Valid()
      modifies this
      ensures Valid()
      ensures W() == AccessOperations.ClearInactive(old(W()), active).world
    {
      hide Inv, Evolves;
      ClearInactiveGood(W(), active);
      var scope := Except(active);
      var changed := RequestsIn(requests, scope) != {} || ExecutionsIn(executions, scope) != {}
                     || SharesIn(shares, scope) != {} || GrantsIn(grants, scope) != {};
      ClearTables(scope, "terminal exited");
      if changed {
        Bump();
      }
    }
  }

  // ---- what a lookup finds is the only thing it could find -------------------------

  lemma KeysOf(w: World)
    requires Inv(w)
    ensures w.st.shares.Keys <= w.log.Keys
  {
    TableFacts(w);
  }

  lemma NoneResolved(shares: map<Id, Share>, log: map<Id, seq<Event>>, state: ShareState, now: nat)
    requires !state.Offered?
    ensures Resolved(shares, {}, state, now) == shares
    ensures Outcomes(shares, {}, state).Keys == {} && Send(log, {}, Outcomes(shares, {}, state)) == log
    ensures IsOrder([], {})
  {
  }

  lemma OneMoreMet(order: seq<Id>, done: set<Id>, k: Id)
    requires IsOrder(order, done) && k !in done
    ensures IsOrder(order + [k], done + {k})
  {
    assert forall i | 0 <= i < |order| :: order[i] in done;
  }

  lemma OneMoreResolved(shares: map<Id, Share>, log: map<Id, seq<Event>>, done: set<Id>, k: Id, state: ShareState, now: nat)
    requires done <= shares.Keys <= log.Keys && k in shares && k !in done && !state.Offered?
    ensures var some := Resolved(shares, done, state, now);
            && k in some && some[k] == shares[k]
            && Resolved(shares, done + {k}, state, now) == some[k := ResolvedShare(shares[k], state, now)]
    ensures Outcomes(shares, done, state).Keys == done && Outcomes(shares, done + {k}, state).Keys == done + {k}
    ensures var sent := Send(log, done, Outcomes(shares, done, state));
            && k in sent && sent[k] == log[k]
            && Send(log, done + {k}, Outcomes(shares, done + {k}, state)) ==
               sent[k := log[k] + [OutcomeEvent(state, shares[k].name)]]
  {
  }

  lemma SameGrant(w: World, k: Id, terminal: Id, name: string)
    requires Inv(w) && k in w.st.grants && IsGrant(w.st.grants[k], terminal, name)
    ensures FindGrant(w.st.grants, terminal, name) == Some(k)
  {
    var j := FindGrant(w.st.grants, terminal, name);
    assert j.Some?;
    assert w.st.grants[j.value].terminal == terminal && w.st.grants[j.value].name == name;
  }

  lemma SameOffer(w: World, k: Id, terminal: Id, name: string)
    requires Inv(w) && k in w.st.shares && IsOffer(w.st.shares[k], terminal, name)
    ensures FindOffer(w.st.shares, terminal, name) == Some(k)
  {
    var j := FindOffer(w.st.shares, terminal, name);
    assert j.Some?;
    assert w.st.shares[j.value].terminal == terminal && w.st.shares[j.value].name == name;
  }

  lemma SameRequest(w: World, k: Id, terminal: Id, name: string)
    requires Inv(w) && k in w.st.requests && AsksFor(w.st.requests[k], terminal, name)
    ensures FindRequest(w.st.requests, terminal, name) == Some(k)
  {
    var j := FindRequest(w.st.requests, terminal, name);
    assert j.Some?;
    assert w.st.requests[j.value].terminal == terminal && w.st.requests[j.value].kind == Secret(name);
  }

  /** When a victim is needed there is one. */
  lemma SomeOldest(shares: map<Id, Share>, terminal: Id) returns (victim: Id)
    ensures NeedsVictim(shares, terminal) ==> IsOldestResolved(shares, terminal, victim)
  {
    victim := 0;
    var resolved := SharesOf(shares, terminal) - OfferedOf(shares, terminal);
    if NeedsVictim(shares, terminal) {
      assert SharesOf(shares, terminal) == resolved + OfferedOf(shares, terminal);
      victim := Least(shares, resolved);
    }
  }

  lemma Least(shares: map<Id, Share>, ids: set<Id>) returns (victim: Id)
    requires ids != {} && ids <= shares.Keys
    ensures victim in ids && forall k | k in ids :: ResolutionTime(shares[victim]) <= ResolutionTime(shares[k])
  {
    victim :| victim in ids;
    if ids != {victim} {
      var other := Least(shares, ids - {victim});
      if ResolutionTime(shares[other]) < ResolutionTime(shares[victim]) {
        victim := other;
      }
    }
  }
}
