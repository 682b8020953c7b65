/** What every reachable state of the access broker satisfies, what every step
    keeps of the past, and that each primitive change respects both. */
module AccessInvariant {
  import opened Wrappers
  import opened AccessModel

  // ---- the invariant -----------------------------------------------------------

  ghost predicate GrantsOk(grants: map<Id, Grant>) {
    GrantNamesUnique(grants) && GrantsBounded(grants)
  }

  ghost predicate GrantNamesUnique(grants: map<Id, Grant>) {
    forall a, b | a in grants && b in grants && grants[a].terminal == grants[b].terminal
                  && grants[a].name == grants[b].name :: a == b
  }

  ghost predicate GrantsBounded(grants: map<Id, Grant>) {
    forall t: Id :: |GrantsOf(grants, t)| <= MAX_SECRET_GRANTS
  }

  /** Secret requests are pending, alone in asking for their name, and ask for
      something their terminal was not granted. */
  ghost predicate RequestsOk(requests: map<Id, Request>, grants: map<Id, Grant>) {
    && (forall k | k in requests && requests[k].kind.Secret? :: requests[k].state.Pending?)
    && NoneGranted(requests, grants)
    && SecretNamesUnique(requests)
    && SecretsBounded(requests)
  }

  ghost predicate NoneGranted(requests: map<Id, Request>, grants: map<Id, Grant>) {
    forall k | k in requests && requests[k].kind.Secret? ::
      !Granted(grants, requests[k].terminal, requests[k].kind.name)
  }

  ghost predicate SecretNamesUnique(requests: map<Id, Request>) {
    forall a, b | a in requests && b in requests && requests[a].kind.Secret? && requests[b].kind.Secret?
                  && requests[a].terminal == requests[b].terminal && requests[a].kind == requests[b].kind :: a == b
  }

  ghost predicate SecretsBounded(requests: map<Id, Request>) {
    forall t: Id :: |SecretsOf(requests, t)| <= MAX_PENDING_REQUESTS
  }

  ghost predicate Backed(grants: map<Id, Grant>, s: Share) {
    exists k | k in grants :: IsGrant(grants[k], s.terminal, s.name) && grants[k].value == s.value
  }

  /** A share on offer mirrors a live grant; a resolved one holds no value. */
  ghost predicate ShareOk(grants: map<Id, Grant>, s: Share) {
    && (s.state.Offered? ==> s.resolvedAt.None? && s.viewedAt.None? && Backed(grants, s))
    && (!s.state.Offered? ==> s.resolvedAt.Some? && s.value == "")
    && (s.state.Viewed? <==> s.viewedAt.Some?)
  }

  ghost predicate SharesOk(shares: map<Id, Share>, grants: map<Id, Grant>) {
    && (forall k | k in shares :: ShareOk(grants, shares[k]))
    && OffersUnique(shares)
    && SharesBounded(shares)
    && OffersBounded(shares)
  }

  ghost predicate OffersUnique(shares: map<Id, Share>) {
    forall a, b | a in shares && b in shares && shares[a].state.Offered? && shares[b].state.Offered?
                  && shares[a].terminal == shares[b].terminal && shares[a].name == shares[b].name :: a == b
  }

  ghost predicate SharesBounded(shares: map<Id, Share>) {
    forall t: Id :: |SharesOf(shares, t)| <= MAX_SECRET_SHARES
  }

  ghost predicate OffersBounded(shares: map<Id, Share>) {
    forall t: Id :: |OfferedOf(shares, t)| <= MAX_PENDING_SHARES
  }

  ghost predicate ExecutionsOk(executions: map<Id, Execution>) {
    forall t: Id :: |ExecutionsOf(executions, t)| <= MAX_SECRET_EXECUTIONS
  }

  ghost predicate HistoryOk(revision: nat, activity: seq<Activity>) {
    revision <= U64_MAX && |activity| <= ACTIVITY_LIMIT
  }

  ghost predicate RequestFiled(filed: map<Id, Filing>, k: Id, r: Request) {
    k in filed && filed[k] == RequestFiling(r.terminal, r.hash, r.kind)
  }

  ghost predicate ShareFiled(filed: map<Id, Filing>, k: Id, s: Share) {
    && k in filed
    && filed[k].ShareFiling?
    && filed[k].terminal == s.terminal
    && filed[k].name == s.name
    && (s.state.Offered? ==> filed[k].value == s.value)
  }

  ghost predicate IdsOk(used: set<Id>, filed: map<Id, Filing>, log: map<Id, seq<Event>>, live: multiset<Id>,
                        grants: map<Id, Grant>, executions: map<Id, Execution>, approvers: map<Id, Approver>)
  {
    && filed.Keys <= used
    && log.Keys == filed.Keys
    && grants.Keys <= used
    && executions.Keys <= used
    && approvers.Keys <= used
    && (forall k | k in live :: k in filed)
  }

  ghost predicate FiledOk(requests: map<Id, Request>, shares: map<Id, Share>, filed: map<Id, Filing>) {
    && (forall k | k in requests :: RequestFiled(filed, k, requests[k]))
    && (forall k | k in shares :: ShareFiled(filed, k, shares[k]))
  }

  /** The counts shown to the user are the live subscriptions, and a secret request
      nobody waits for is gone. */
  ghost predicate WaitersOk(requests: map<Id, Request>, shares: map<Id, Share>, live: multiset<Id>) {
    && (forall k | k in requests :: requests[k].waiters == live[k])
    && (forall k | k in requests && requests[k].kind.Secret? :: requests[k].waiters > 0)
    && (forall k | k in shares :: shares[k].waiters == live[k])
  }

  /** The event that ended a share that has left the table. */
  predicate EndsShare(e: Event, name: string) {
    e == ViewedEvent(name) || e == DismissedEvent(name) || e == ExpiredEvent(name) || e.FailedEvent?
  }

  ghost predicate Quiet(events: seq<Event>) {
    forall i | 0 <= i < |events| :: !events[i].Terminal()
  }

  ghost predicate ShareChannelOk(shares: map<Id, Share>, k: Id, name: string, events: seq<Event>) {
    if k in shares && shares[k].state.Offered? then events == []
    else
      && |events| == 1
      && EndsShare(events[0], name)
      && (k in shares ==> events[0] == OutcomeEvent(shares[k].state, name))
  }

  ghost predicate RequestChannelOk(requests: map<Id, Request>, k: Id, kind: RequestKind, events: seq<Event>) {
    && (k in requests ==> Quiet(events))
    && (k in requests && !requests[k].state.Running? ==> events == [])
    && (k !in requests && kind.Secret? ==> events == [] || (|events| == 1 && events[0].Terminal()))
  }

  ghost predicate ChannelsOk(requests: map<Id, Request>, shares: map<Id, Share>, filed: map<Id, Filing>,
                             log: map<Id, seq<Event>>)
  {
    && log.Keys == filed.Keys
    && (forall k | k in filed && filed[k].ShareFiling? :: ShareChannelOk(shares, k, filed[k].name, log[k]))
    && (forall k | k in filed && filed[k].RequestFiling? :: RequestChannelOk(requests, k, filed[k].kind, log[k]))
  }

  ghost predicate ApproverOk(requests: map<Id, Request>, filed: map<Id, Filing>, a: Approver) {
    && a.request in filed
    && filed[a.request] == RequestFiling(a.terminal, a.hash, Sudo(a.command))
    && (a.request in requests ==>
          requests[a.request].state == if a.phase.CheckingPassword? then Authenticating else Running)
  }

  ghost predicate HasApprover(approvers: map<Id, Approver>, k: Id) {
    exists c | c in approvers :: approvers[c].request == k
  }

  ghost predicate RunOk(requests: map<Id, Request>, filed: map<Id, Filing>, approvers: map<Id, Approver>, r: SudoRun) {
    && r.request in filed
    && filed[r.request] == RequestFiling(r.terminal, r.hash, Sudo(r.command))
    && (r.request in requests ==> requests[r.request].state.Running?)
    && (forall c | c in approvers && approvers[c].request == r.request :: approvers[c].phase.Executing?)
  }

  /** One approver in flight for each request, and one run at most. */
  ghost predicate SudoOk(requests: map<Id, Request>, filed: map<Id, Filing>, approvers: map<Id, Approver>,
                         runs: seq<SudoRun>)
  {
    && (forall c | c in approvers :: ApproverOk(requests, filed, approvers[c]))
    && (forall c, d | c in approvers && d in approvers && approvers[c].request == approvers[d].request :: c == d)
    && (forall k | k in requests && !requests[k].state.Pending? :: HasApprover(approvers, k))
    && (forall i | 0 <= i < |runs| :: RunOk(requests, filed, approvers, runs[i]))
    && (forall i, j | 0 <= i < j < |runs| :: runs[i].request != runs[j].request)
  }

  ghost predicate Inv(w: World) {
    && GrantsOk(w.st.grants)
    && RequestsOk(w.st.requests, w.st.grants)
    && SharesOk(w.st.shares, w.st.grants)
    && ExecutionsOk(w.st.executions)
    && HistoryOk(w.st.revision, w.st.activity)
    && IdsOk(w.used, w.filed, w.log, w.live, w.st.grants, w.st.executions, w.approvers)
    && FiledOk(w.st.requests, w.st.shares, w.filed)
    && WaitersOk(w.st.requests, w.st.shares, w.live)
    && ChannelsOk(w.st.requests, w.st.shares, w.filed, w.log)
    && SudoOk(w.st.requests, w.filed, w.approvers, w.runs)
  }

  // ---- what a step keeps of the past -------------------------------------------

  ghost predicate FiledKept(filed: map<Id, Filing>, filed': map<Id, Filing>) {
    forall k | k in filed :: k in filed' && filed'[k] == filed[k]
  }

  ghost predicate LogKept(log: map<Id, seq<Event>>, log': map<Id, seq<Event>>) {
    forall k | k in log :: k in log' && log[k] <= log'[k]
  }

  ghost predicate RequestKept(r: Request, r': Request) {
    r' == r.(state := r'.state, waiters := r'.waiters)
  }

  /** Requests in the table were there before, with the same content, or are new. */
  ghost predicate RequestsKept(requests: map<Id, Request>, used: set<Id>, requests': map<Id, Request>) {
    forall k | k in requests' && k in used :: k in requests && RequestKept(requests[k], requests'[k])
  }

  /** A resolved share only changes its count of waiters. */
  ghost predicate ShareKept(s: Share, s': Share) {
    if s.state.Offered? && !s'.state.Offered? then
      && s' == s.(state := s'.state, waiters := s'.waiters, value := "", resolvedAt := s'.resolvedAt, viewedAt := s'.viewedAt)
    else
      s' == s.(waiters := s'.waiters)
  }

  ghost predicate SharesKept(shares: map<Id, Share>, used: set<Id>, shares': map<Id, Share>) {
    forall k | k in shares' && k in used :: k in shares && ShareKept(shares[k], shares'[k])
  }

  ghost predicate GrantKept(g: Grant, g': Grant) {
    g' == g.(uses := g'.uses, lastUsedAt := g'.lastUsedAt, lastCommand := g'.lastCommand)
  }

  ghost predicate GrantsKept(grants: map<Id, Grant>, used: set<Id>, grants': map<Id, Grant>) {
    forall k | k in grants' && k in used :: k in grants && GrantKept(grants[k], grants'[k])
  }

  ghost predicate Evolves(w: World, w': World) {
    && w.used <= w'.used
    && FiledKept(w.filed, w'.filed)
    && LogKept(w.log, w'.log)
    && RequestsKept(w.st.requests, w.used, w'.st.requests)
    && SharesKept(w.st.shares, w.used, w'.st.shares)
    && GrantsKept(w.st.grants, w.used, w'.st.grants)
    && w.runs <= w'.runs
  }

  lemma EvolvesReflexive(w: World)
    ensures Evolves(w, w)
  {
  }

  lemma EvolvesTransitive(w: World, w': World, w'': World)
    requires Evolves(w, w') && Evolves(w', w'')
    ensures Evolves(w, w'')
  {
    assert LogKept(w.log, w''.log) by {
      forall k | k in w.log ensures k in w''.log && w.log[k] <= w''.log[k] {
        assert w.log[k] <= w'.log[k] <= w''.log[k];
      }
    }
    assert SharesKept(w.st.shares, w.used, w''.st.shares);
    assert RequestsKept(w.st.requests, w.used, w''.st.requests);
    assert GrantsKept(w.st.grants, w.used, w''.st.grants);
  }

  // ---- counting ------------------------------------------------------------------

  lemma SubsetSize<T>(a: set<T>, b: set<T>)
    requires a <= b
    ensures |a| <= |b|
  {
    assert b == a + (b - a);
  }

  // ---- primitive changes -----------------------------------------------------------

  ghost predicate SameButHistory(w: World, w': World) {
    w' == w.(st := w.st.(revision := w'.st.revision, activity := w'.st.activity))
  }

  lemma BumpOk(w: World)
    requires Inv(w)
    ensures Inv(Bump(w)) && Evolves(w, Bump(w)) && SameButHistory(w, Bump(w))
  {
  }

  lemma PushOk(w: World, a: Activity)
    requires Inv(w)
    ensures Inv(Push(w, a)) && Evolves(w, Push(w, a)) && SameButHistory(w, Push(w, a))
  {
  }

  lemma {:induction false} PushAllOk(w: World, records: seq<Activity>)
    requires Inv(w)
    ensures Inv(PushAll(w, records)) && Evolves(w, PushAll(w, records)) && SameButHistory(w, PushAll(w, records))
    decreases |records|
  {
    if records != [] {
      PushAllOk(w, records[..|records| - 1]);
      PushOk(PushAll(w, records[..|records| - 1]), records[|records| - 1]);
      EvolvesTransitive(w, PushAll(w, records[..|records| - 1]), PushAll(w, records));
    }
  }

  // One lemma for each part of the invariant that a change touches; the parts it
  // does not touch read nothing that changed.

  lemma GrantAdded(grants: map<Id, Grant>, id: Id, g: Grant)
    requires GrantsOk(grants) && id !in grants
    requires !Granted(grants, g.terminal, g.name)
    requires |GrantsOf(grants, g.terminal)| < MAX_SECRET_GRANTS
    ensures GrantsOk(grants[id := g])
  {
    assert GrantNamesUnique(grants[id := g]) by {
      assert forall k | k in grants :: !IsGrant(grants[k], g.terminal, g.name);
    }
    GrantCounted(grants, id, g);
  }

  lemma GrantsOfAdded(grants: map<Id, Grant>, id: Id, g: Grant, t: Id)
    requires id !in grants
    ensures GrantsOf(grants[id := g], t) == GrantsOf(grants, t) + if t == g.terminal then {id} else {}
  {
  }

  lemma GrantCounted(grants: map<Id, Grant>, id: Id, g: Grant)
    requires GrantsBounded(grants) && id !in grants && |GrantsOf(grants, g.terminal)| < MAX_SECRET_GRANTS
    ensures GrantsBounded(grants[id := g])
  {
    var grants' := grants[id := g];
    forall t: Id ensures |GrantsOf(grants', t)| <= MAX_SECRET_GRANTS {
      GrantsOfAdded(grants, id, g, t);
    }
  }

  lemma GrantsDropped(grants: map<Id, Grant>, ids: set<Id>)
    requires GrantsOk(grants)
    ensures GrantsOk(grants - ids)
  {
    forall t: Id ensures |GrantsOf(grants - ids, t)| <= MAX_SECRET_GRANTS {
      SubsetSize(GrantsOf(grants - ids, t), GrantsOf(grants, t));
    }
  }

  lemma RequestsAfterGrant(requests: map<Id, Request>, grants: map<Id, Grant>, id: Id, g: Grant)
    requires RequestsOk(requests, grants) && id !in grants
    requires RequestsNamed(requests, g.terminal, g.name) == {}
    ensures RequestsOk(requests, grants[id := g])
  {
    forall k | k in requests && requests[k].kind.Secret?
      ensures !Granted(grants[id := g], requests[k].terminal, requests[k].kind.name)
    {
      assert k !in RequestsNamed(requests, g.terminal, g.name);
      assert forall j | j in grants :: !IsGrant(grants[j], requests[k].terminal, requests[k].kind.name);
    }
  }

  lemma RequestsAfterDrop(requests: map<Id, Request>, grants: map<Id, Grant>, ids: set<Id>)
    requires RequestsOk(requests, grants)
    ensures RequestsOk(requests, grants - ids)
  {
    forall k | k in requests && requests[k].kind.Secret?
      ensures !Granted(grants - ids, requests[k].terminal, requests[k].kind.name)
    {
      assert forall j | j in grants :: !IsGrant(grants[j], requests[k].terminal, requests[k].kind.name);
    }
  }

  lemma SharesAfterGrant(shares: map<Id, Share>, grants: map<Id, Grant>, id: Id, g: Grant)
    requires SharesOk(shares, grants) && id !in grants
    ensures SharesOk(shares, grants[id := g])
  {
    forall k | k in shares ensures ShareOk(grants[id := g], shares[k]) {
      assert ShareOk(grants, shares[k]);
      if shares[k].state.Offered? {
        var j :| j in grants && IsGrant(grants[j], shares[k].terminal, shares[k].name) && grants[j].value == shares[k].value;
        assert j in grants[id := g];
      }
    }
  }

  lemma SharesAfterDrop(shares: map<Id, Share>, grants: map<Id, Grant>, ids: set<Id>)
    requires SharesOk(shares, grants)
    requires forall k | k in ids && k in grants :: OffersNamed(shares, grants[k].terminal, grants[k].name) == {}
    ensures SharesOk(shares, grants - ids)
  {
    forall k | k in shares ensures ShareOk(grants - ids, shares[k]) {
      assert ShareOk(grants, shares[k]);
      if shares[k].state.Offered? {
        var j :| j in grants && IsGrant(grants[j], shares[k].terminal, shares[k].name) && grants[j].value == shares[k].value;
        assert j !in ids by {
          assert k in OffersNamed(shares, grants[j].terminal, grants[j].name);
        }
        assert j in grants - ids;
      }
    }
  }

  lemma AddGrantOk(w: World, id: Id, g: Grant)
    requires Inv(w) && id !in w.used
    requires !Granted(w.st.grants, g.terminal, g.name)
    requires RequestsNamed(w.st.requests, g.terminal, g.name) == {}
    requires |GrantsOf(w.st.grants, g.terminal)| < MAX_SECRET_GRANTS
    ensures Inv(AddGrant(w, id, g)) && Evolves(w, AddGrant(w, id, g))
  {
    GrantAdded(w.st.grants, id, g);
    RequestsAfterGrant(w.st.requests, w.st.grants, id, g);
    SharesAfterGrant(w.st.shares, w.st.grants, id, g);
  }

  lemma DropGrantsOk(w: World, ids: set<Id>)
    requires Inv(w)
    requires forall k | k in ids && k in w.st.grants ::
               OffersNamed(w.st.shares, w.st.grants[k].terminal, w.st.grants[k].name) == {}
    ensures Inv(DropGrants(w, ids)) && Evolves(w, DropGrants(w, ids))
  {
    GrantsDropped(w.st.grants, ids);
    RequestsAfterDrop(w.st.requests, w.st.grants, ids);
    SharesAfterDrop(w.st.shares, w.st.grants, ids);
  }

  lemma RequestAdded(requests: map<Id, Request>, grants: map<Id, Grant>, id: Id, r: Request)
    requires RequestsOk(requests, grants) && id !in requests && r.state.Pending?
    requires r.kind.Secret? ==>
               && !Granted(grants, r.terminal, r.kind.name)
               && RequestsNamed(requests, r.terminal, r.kind.name) == {}
               && |SecretsOf(requests, r.terminal)| < MAX_PENDING_REQUESTS
    ensures RequestsOk(requests[id := r], grants)
  {
    SecretCounted(requests, id, r);
    var requests' := requests[id := r];
    assert SecretNamesUnique(requests') by {
      forall k | k in requests && requests[k].kind.Secret? && r.kind.Secret? && requests[k].terminal == r.terminal
        ensures requests[k].kind != r.kind
      {
        assert k !in RequestsNamed(requests, r.terminal, r.kind.name);
      }
    }
    assert NoneGranted(requests', grants);
  }

  lemma SecretsOfAdded(requests: map<Id, Request>, id: Id, r: Request, t: Id)
    requires id !in requests
    ensures SecretsOf(requests[id := r], t) == SecretsOf(requests, t) + if r.kind.Secret? && t == r.terminal then {id} else {}
  {
  }

  lemma SecretCounted(requests: map<Id, Request>, id: Id, r: Request)
    requires SecretsBounded(requests) && id !in requests
    requires r.kind.Secret? ==> |SecretsOf(requests, r.terminal)| < MAX_PENDING_REQUESTS
    ensures SecretsBounded(requests[id := r])
  {
    var requests' := requests[id := r];
    forall t: Id ensures |SecretsOf(requests', t)| <= MAX_PENDING_REQUESTS {
      SecretsOfAdded(requests, id, r, t);
    }
  }

  lemma RequestsRemoved(requests: map<Id, Request>, grants: map<Id, Grant>, ids: set<Id>)
    requires RequestsOk(requests, grants)
    ensures RequestsOk(requests - ids, grants)
  {
    forall t: Id ensures |SecretsOf(requests - ids, t)| <= MAX_PENDING_REQUESTS {
      SubsetSize(SecretsOf(requests - ids, t), SecretsOf(requests, t));
    }
  }

  /** A new id, whatever is filed under it, opens an empty channel. */
  lemma ChannelOpened(requests: map<Id, Request>, shares: map<Id, Share>, filed: map<Id, Filing>,
                      log: map<Id, seq<Event>>, id: Id, filing: Filing,
                      requests': map<Id, Request>, shares': map<Id, Share>)
    requires ChannelsOk(requests, shares, filed, log) && id !in filed
    requires forall k | k != id :: k in requests <==> k in requests'
    requires forall k | k != id && k in requests :: requests'[k] == requests[k]
    requires forall k | k != id :: k in shares <==> k in shares'
    requires forall k | k != id && k in shares :: shares'[k] == shares[k]
    requires filing.RequestFiling? ==> id in requests' && requests'[id].state.Pending?
    requires filing.ShareFiling? ==> id in shares' && shares'[id].state.Offered?
    ensures ChannelsOk(requests', shares', filed[id := filing], log[id := []])
  {
    var filed', log' := filed[id := filing], log[id := []];
    forall k | k in filed' && filed'[k].ShareFiling?
      ensures ShareChannelOk(shares', k, filed'[k].name, log'[k])
    {
      assert k != id ==> ShareChannelOk(shares, k, filed[k].name, log[k]);
    }
    forall k | k in filed' && filed'[k].RequestFiling?
      ensures RequestChannelOk(requests', k, filed'[k].kind, log'[k])
    {
      assert k != id ==> RequestChannelOk(requests, k, filed[k].kind, log[k]);
    }
  }

  /** Filing something new, or closing requests, leaves every approval as it was. */
  lemma SudoKept(requests: map<Id, Request>, filed: map<Id, Filing>, approvers: map<Id, Approver>, runs: seq<SudoRun>,
                 requests': map<Id, Request>, filed': map<Id, Filing>)
    requires SudoOk(requests, filed, approvers, runs) && FiledKept(filed, filed')
    requires forall k | k in requests' && k in filed :: k in requests && requests'[k].state == requests[k].state
    requires forall k | k in requests' && k !in filed :: requests'[k].state.Pending?
    ensures SudoOk(requests', filed', approvers, runs)
  {
    forall c | c in approvers ensures ApproverOk(requests', filed', approvers[c]) {
      assert ApproverOk(requests, filed, approvers[c]);
    }
    forall i | 0 <= i < |runs| ensures RunOk(requests', filed', approvers, runs[i]) {
      assert RunOk(requests, filed, approvers, runs[i]);
    }
  }

  lemma FiledRestated(requests: map<Id, Request>, shares: map<Id, Share>, filed: map<Id, Filing>,
                      requests': map<Id, Request>, shares': map<Id, Share>)
    requires FiledOk(requests, shares, filed)
    requires forall k | k in requests' :: k in requests && RequestKept(requests[k], requests'[k])
    requires forall k | k in shares' :: k in shares && ShareKept(shares[k], shares'[k])
    ensures FiledOk(requests', shares', filed)
  {
    forall k | k in requests' ensures RequestFiled(filed, k, requests'[k]) {
      assert RequestFiled(filed, k, requests[k]);
    }
    forall k | k in shares' ensures ShareFiled(filed, k, shares'[k]) {
      assert ShareFiled(filed, k, shares[k]);
    }
  }

  lemma FiledAdded(requests: map<Id, Request>, shares: map<Id, Share>, filed: map<Id, Filing>, id: Id, filing: Filing,
                   requests': map<Id, Request>, shares': map<Id, Share>)
    requires FiledOk(requests, shares, filed) && id !in filed
    requires forall k | k in requests' && k != id :: k in requests && requests'[k] == requests[k]
    requires forall k | k in shares' && k != id :: k in shares && shares'[k] == shares[k]
    requires id in requests' ==> filing == RequestFiling(requests'[id].terminal, requests'[id].hash, requests'[id].kind)
    requires id in shares' ==> filing == ShareFiling(shares'[id].terminal, shares'[id].name, shares'[id].value)
    ensures FiledOk(requests', shares', filed[id := filing]) && FiledKept(filed, filed[id := filing])
  {
    forall k | k in requests' ensures RequestFiled(filed[id := filing], k, requests'[k]) {
      assert k != id ==> RequestFiled(filed, k, requests[k]);
    }
    forall k | k in shares' ensures ShareFiled(filed[id := filing], k, shares'[k]) {
      assert k != id ==> ShareFiled(filed, k, shares[k]);
    }
  }

  /** One more subscription on `id`, and one more waiter counted there. */
  lemma WaiterCounted(requests: map<Id, Request>, shares: map<Id, Share>, live: multiset<Id>, id: Id,
                      requests': map<Id, Request>, shares': map<Id, Share>)
    requires WaitersOk(requests, shares, live)
    requires forall k | k in requests' && k != id ::
               k in requests && requests'[k].waiters == requests[k].waiters && requests'[k].kind == requests[k].kind
    requires forall k | k in shares' && k != id :: k in shares && shares'[k].waiters == shares[k].waiters
    requires id in requests' ==> requests'[id].waiters == live[id] + 1
    requires id in shares' ==> shares'[id].waiters == live[id] + 1
    ensures WaitersOk(requests', shares', live + multiset{id})
  {
  }

  /** The facts about single table entries that the changes below need. */
  lemma TableFacts(w: World)
    requires Inv(w)
    ensures w.st.requests.Keys <= w.filed.Keys && w.st.shares.Keys <= w.filed.Keys
    ensures w.st.requests.Keys !! w.st.shares.Keys
    ensures w.filed.Keys <= w.used && w.log.Keys == w.filed.Keys
    ensures forall k | k !in w.filed :: w.live[k] == 0
    ensures forall k | k in w.st.requests && w.st.requests[k].kind.Secret? :: w.st.requests[k].state.Pending?
    ensures forall k | k in w.st.requests :: w.st.requests[k].waiters == w.live[k]
    ensures forall k | k in w.st.shares :: w.st.shares[k].waiters == w.live[k]
  {
    forall k | k in w.st.requests ensures k in w.filed && w.filed[k].RequestFiling? {
      assert RequestFiled(w.filed, k, w.st.requests[k]);
    }
    forall k | k in w.st.shares ensures k in w.filed && w.filed[k].ShareFiling? {
      assert ShareFiled(w.filed, k, w.st.shares[k]);
    }
  }

  lemma FewerEntries(requests: map<Id, Request>, shares: map<Id, Share>, filed: map<Id, Filing>, live: multiset<Id>,
                     requests': map<Id, Request>, shares': map<Id, Share>)
    requires FiledOk(requests, shares, filed) && WaitersOk(requests, shares, live)
    requires forall k | k in requests' :: k in requests && requests'[k] == requests[k]
    requires forall k | k in shares' :: k in shares && shares'[k].waiters == shares[k].waiters && ShareKept(shares[k], shares'[k])
    ensures FiledOk(requests', shares', filed) && WaitersOk(requests', shares', live)
  {
    FiledRestated(requests, shares, filed, requests', shares');
  }

  lemma IdAdded(used: set<Id>, filed: map<Id, Filing>, log: map<Id, seq<Event>>, live: multiset<Id>,
                grants: map<Id, Grant>, executions: map<Id, Execution>, approvers: map<Id, Approver>, id: Id, filing: Filing)
    requires IdsOk(used, filed, log, live, grants, executions, approvers)
    ensures IdsOk(used + {id}, filed[id := filing], log[id := []], live + multiset{id}, grants, executions, approvers)
  {
  }

  lemma AddRequestKeeps(w: World, id: Id, r: Request)
    requires w.log.Keys == w.filed.Keys
    requires id !in w.used && w.filed.Keys <= w.used
    ensures Evolves(w, AddRequest(w, id, r))
  {
  }

  lemma AddRequestOk(w: World, id: Id, r: Request)
    requires Inv(w) && id !in w.used
    requires r.state.Pending? && r.waiters == 1
    requires r.kind.Secret? ==>
               && !Granted(w.st.grants, r.terminal, r.kind.name)
               && RequestsNamed(w.st.requests, r.terminal, r.kind.name) == {}
               && |SecretsOf(w.st.requests, r.terminal)| < MAX_PENDING_REQUESTS
    ensures Inv(AddRequest(w, id, r)) && Evolves(w, AddRequest(w, id, r))
  {
    hide GrantsOk, RequestsOk, SharesOk, FiledOk, WaitersOk, ChannelsOk, SudoOk, IdsOk, Evolves;
    TableFacts(w);
    IdAdded(w.used, w.filed, w.log, w.live, w.st.grants, w.st.executions, w.approvers, id, AddRequest(w, id, r).filed[id]);
    AddRequestKeeps(w, id, r);
    var w' := AddRequest(w, id, r);
    RequestAdded(w.st.requests, w.st.grants, id, r);
    FiledAdded(w.st.requests, w.st.shares, w.filed, id, w'.filed[id], w'.st.requests, w.st.shares);
    WaiterCounted(w.st.requests, w.st.shares, w.live, id, w'.st.requests, w.st.shares);
    ChannelOpened(w.st.requests, w.st.shares, w.filed, w.log, id, w'.filed[id], w'.st.requests, w.st.shares);
    SudoKept(w.st.requests, w.filed, w.approvers, w.runs, w'.st.requests, w'.filed);
  }

  /** Requests leave the table; a secret one with at most one terminal event sent. */
  lemma ChannelsAfterRemoval(requests: map<Id, Request>, shares: map<Id, Share>, filed: map<Id, Filing>,
                             log: map<Id, seq<Event>>, ids: set<Id>, log': map<Id, seq<Event>>)
    requires ChannelsOk(requests, shares, filed, log) && FiledOk(requests, shares, filed)
    requires forall k | k in requests && requests[k].kind.Secret? :: requests[k].state.Pending?
    requires ids <= requests.Keys && log'.Keys == log.Keys
    requires forall k | k in log && k !in ids :: log'[k] == log[k]
    requires forall k | k in ids && k in log :: log'[k] == log[k] || exists e: Event :: e.Terminal() && log'[k] == log[k] + [e]
    ensures ChannelsOk(requests - ids, shares, filed, log')
  {
    forall k | k in filed && filed[k].ShareFiling? ensures ShareChannelOk(shares, k, filed[k].name, log'[k]) {
      assert ShareChannelOk(shares, k, filed[k].name, log[k]);
      assert k in requests ==> RequestFiled(filed, k, requests[k]);
    }
    forall k | k in filed && filed[k].RequestFiling?
      ensures RequestChannelOk(requests - ids, k, filed[k].kind, log'[k])
    {
      assert RequestChannelOk(requests, k, filed[k].kind, log[k]);
      if k in ids {
        assert RequestFiled(filed, k, requests[k]);
        assert filed[k].kind.Secret? ==> log[k] == [];
      }
    }
  }

  lemma CloseRequestsKeeps(w: World, ids: set<Id>, event: Event)
    ensures Evolves(w, CloseRequests(w, ids, event))
  {
  }

  lemma CloseRequestsOk(w: World, ids: set<Id>, event: Event)
    requires Inv(w) && ids <= w.st.requests.Keys && event.Terminal()
    ensures Inv(CloseRequests(w, ids, event)) && Evolves(w, CloseRequests(w, ids, event))
  {
    hide GrantsOk, RequestsOk, SharesOk, FiledOk, WaitersOk, ChannelsOk, SudoOk, Evolves;
    TableFacts(w);
    FewerEntries(w.st.requests, w.st.shares, w.filed, w.live, w.st.requests - ids, w.st.shares);
    CloseRequestsKeeps(w, ids, event);
    var w' := CloseRequests(w, ids, event);
    RequestsRemoved(w.st.requests, w.st.grants, ids);
    ChannelsAfterRemoval(w.st.requests, w.st.shares, w.filed, w.log, ids, w'.log);
    SudoKept(w.st.requests, w.filed, w.approvers, w.runs, w'.st.requests, w.filed);
  }

  lemma DropRequestsKeeps(w: World, ids: set<Id>)
    ensures Evolves(w, DropRequests(w, ids))
  {
  }

  lemma DropRequestsOk(w: World, ids: set<Id>)
    requires Inv(w) && ids <= w.st.requests.Keys
    ensures Inv(DropRequests(w, ids)) && Evolves(w, DropRequests(w, ids))
  {
    hide GrantsOk, RequestsOk, SharesOk, FiledOk, WaitersOk, ChannelsOk, SudoOk, Evolves;
    DropRequestsKeeps(w, ids);
    TableFacts(w);
    FewerEntries(w.st.requests, w.st.shares, w.filed, w.live, w.st.requests - ids, w.st.shares);
    RequestsRemoved(w.st.requests, w.st.grants, ids);
    ChannelsAfterRemoval(w.st.requests, w.st.shares, w.filed, w.log, ids, w.log);
    SudoKept(w.st.requests, w.filed, w.approvers, w.runs, w.st.requests - ids, w.filed);
  }

  lemma ShareAdded(shares: map<Id, Share>, grants: map<Id, Grant>, id: Id, s: Share)
    requires SharesOk(shares, grants) && id !in shares
    requires s.state.Offered? && ShareOk(grants, s)
    requires OffersNamed(shares, s.terminal, s.name) == {}
    requires |SharesOf(shares, s.terminal)| < MAX_SECRET_SHARES
    requires |OfferedOf(shares, s.terminal)| < MAX_PENDING_SHARES
    ensures SharesOk(shares[id := s], grants)
  {
    ShareCounted(shares, id, s);
    OfferCounted(shares, id, s);
    assert OffersUnique(shares[id := s]) by {
      forall k | k in shares && shares[k].state.Offered? && shares[k].terminal == s.terminal
        ensures shares[k].name != s.name
      {
        assert k !in OffersNamed(shares, s.terminal, s.name);
      }
    }
  }

  lemma SharesOfAdded(shares: map<Id, Share>, id: Id, s: Share, t: Id)
    requires id !in shares
    ensures SharesOf(shares[id := s], t) == SharesOf(shares, t) + if t == s.terminal then {id} else {}
  {
  }

  lemma ShareCounted(shares: map<Id, Share>, id: Id, s: Share)
    requires SharesBounded(shares) && id !in shares && |SharesOf(shares, s.terminal)| < MAX_SECRET_SHARES
    ensures SharesBounded(shares[id := s])
  {
    var shares' := shares[id := s];
    forall t: Id ensures |SharesOf(shares', t)| <= MAX_SECRET_SHARES {
      SharesOfAdded(shares, id, s, t);
    }
  }

  lemma OfferedOfAdded(shares: map<Id, Share>, id: Id, s: Share, t: Id)
    requires id !in shares
    ensures OfferedOf(shares[id := s], t) == OfferedOf(shares, t) + if s.state.Offered? && t == s.terminal then {id} else {}
  {
  }

  lemma OfferCounted(shares: map<Id, Share>, id: Id, s: Share)
    requires OffersBounded(shares) && id !in shares && s.state.Offered? && |OfferedOf(shares, s.terminal)| < MAX_PENDING_SHARES
    ensures OffersBounded(shares[id := s])
  {
    var shares' := shares[id := s];
    forall t: Id ensures |OfferedOf(shares', t)| <= MAX_PENDING_SHARES {
      OfferedOfAdded(shares, id, s, t);
    }
  }

  lemma AddShareKeeps(w: World, id: Id, s: Share)
    requires w.log.Keys == w.filed.Keys
    requires id !in w.used && w.filed.Keys <= w.used
    ensures Evolves(w, AddShare(w, id, s))
  {
  }

  lemma AddShareOk(w: World, id: Id, s: Share)
    requires Inv(w) && id !in w.used
    requires s.state.Offered? && s.waiters == 1 && ShareOk(w.st.grants, s)
    requires OffersNamed(w.st.shares, s.terminal, s.name) == {}
    requires |SharesOf(w.st.shares, s.terminal)| < MAX_SECRET_SHARES
    requires |OfferedOf(w.st.shares, s.terminal)| < MAX_PENDING_SHARES
    ensures Inv(AddShare(w, id, s)) && Evolves(w, AddShare(w, id, s))
  {
    hide GrantsOk, RequestsOk, SharesOk, FiledOk, WaitersOk, ChannelsOk, SudoOk, IdsOk, Evolves;
    TableFacts(w);
    IdAdded(w.used, w.filed, w.log, w.live, w.st.grants, w.st.executions, w.approvers, id, AddShare(w, id, s).filed[id]);
    AddShareKeeps(w, id, s);
    var w' := AddShare(w, id, s);
    ShareAdded(w.st.shares, w.st.grants, id, s);
    FiledAdded(w.st.requests, w.st.shares, w.filed, id, w'.filed[id], w.st.requests, w'.st.shares);
    WaiterCounted(w.st.requests, w.st.shares, w.live, id, w.st.requests, w'.st.shares);
    ChannelOpened(w.st.requests, w.st.shares, w.filed, w.log, id, w'.filed[id], w.st.requests, w'.st.shares);
    SudoKept(w.st.requests, w.filed, w.approvers, w.runs, w.st.requests, w'.filed);
  }

  lemma SharesResolved(shares: map<Id, Share>, grants: map<Id, Grant>, ids: set<Id>, state: ShareState, now: nat)
    requires SharesOk(shares, grants) && ids <= shares.Keys && !state.Offered?
    requires forall k | k in ids :: shares[k].state.Offered?
    ensures SharesOk(Resolved(shares, ids, state, now), grants)
  {
    var shares' := Resolved(shares, ids, state, now);
    forall t: Id
      ensures |SharesOf(shares', t)| <= MAX_SECRET_SHARES && |OfferedOf(shares', t)| <= MAX_PENDING_SHARES
    {
      assert SharesOf(shares', t) == SharesOf(shares, t);
      SubsetSize(OfferedOf(shares', t), OfferedOf(shares, t));
    }
    forall k | k in shares' ensures ShareOk(grants, shares'[k]) {
      assert ShareOk(grants, shares[k]);
    }
  }

  /** Shares are resolved or cleared, each open one with the event that ends it. */
  lemma ChannelsAfterEnd(requests: map<Id, Request>, shares: map<Id, Share>, filed: map<Id, Filing>,
                         log: map<Id, seq<Event>>, shares': map<Id, Share>, ids: set<Id>, events: map<Id, Event>)
    requires ChannelsOk(requests, shares, filed, log) && FiledOk(requests, shares, filed)
    requires ids <= shares.Keys && ids <= events.Keys
    requires forall k | k in ids ::
               && shares[k].state.Offered?
               && EndsShare(events[k], shares[k].name)
               && (k in shares' ==> !shares'[k].state.Offered? && events[k] == OutcomeEvent(shares'[k].state, shares[k].name))
    requires shares'.Keys <= shares.Keys
    requires forall k | k in shares' && k !in ids :: shares'[k] == shares[k]
    requires forall k | k in shares && k !in shares' :: k in ids || !shares[k].state.Offered?
    ensures ChannelsOk(requests, shares', filed, Send(log, ids, events))
  {
    var log' := Send(log, ids, events);
    forall k | k in filed && filed[k].ShareFiling? ensures ShareChannelOk(shares', k, filed[k].name, log'[k]) {
      assert ShareChannelOk(shares, k, filed[k].name, log[k]);
      if k in ids {
        assert ShareFiled(filed, k, shares[k]);
      }
    }
    forall k | k in filed && filed[k].RequestFiling?
      ensures RequestChannelOk(requests, k, filed[k].kind, log'[k])
    {
      assert RequestChannelOk(requests, k, filed[k].kind, log[k]);
      assert k in shares ==> ShareFiled(filed, k, shares[k]);
    }
  }

  lemma ResolveSharesKeeps(w: World, ids: set<Id>, state: ShareState, now: nat)
    requires ids <= w.st.shares.Keys && !state.Offered?
    requires forall k | k in ids :: w.st.shares[k].state.Offered?
    ensures Evolves(w, ResolveShares(w, ids, state, now))
  {
  }

  lemma ResolveSharesOk(w: World, ids: set<Id>, state: ShareState, now: nat)
    requires Inv(w) && ids <= w.st.shares.Keys && !state.Offered?
    requires forall k | k in ids :: w.st.shares[k].state.Offered?
    ensures Inv(ResolveShares(w, ids, state, now)) && Evolves(w, ResolveShares(w, ids, state, now))
  {
    hide GrantsOk, RequestsOk, SharesOk, FiledOk, WaitersOk, ChannelsOk, SudoOk, Evolves;
    ResolveSharesKeeps(w, ids, state, now);
    var w' := ResolveShares(w, ids, state, now);
    SharesResolved(w.st.shares, w.st.grants, ids, state, now);
    ChannelsAfterEnd(w.st.requests, w.st.shares, w.filed, w.log, w'.st.shares, ids,
                     Outcomes(w.st.shares, ids, state));
    FewerEntries(w.st.requests, w.st.shares, w.filed, w.live, w.st.requests, w'.st.shares);
  }

  lemma SharesRemoved(shares: map<Id, Share>, grants: map<Id, Grant>, ids: set<Id>)
    requires SharesOk(shares, grants)
    ensures SharesOk(shares - ids, grants)
  {
    forall t: Id
      ensures |SharesOf(shares - ids, t)| <= MAX_SECRET_SHARES
      ensures |OfferedOf(shares - ids, t)| <= MAX_PENDING_SHARES
    {
      SubsetSize(SharesOf(shares - ids, t), SharesOf(shares, t));
      SubsetSize(OfferedOf(shares - ids, t), OfferedOf(shares, t));
    }
  }

  lemma ClearSharesKeeps(w: World, ids: set<Id>, message: string)
    ensures Evolves(w, ClearShares(w, ids, message))
  {
  }

  lemma ClearSharesOk(w: World, ids: set<Id>, message: string)
    requires Inv(w)
    ensures Inv(ClearShares(w, ids, message)) && Evolves(w, ClearShares(w, ids, message))
  {
    hide GrantsOk, RequestsOk, SharesOk, FiledOk, WaitersOk, ChannelsOk, SudoOk, Evolves;
    ClearSharesKeeps(w, ids, message);
    FewerEntries(w.st.requests, w.st.shares, w.filed, w.live, w.st.requests, w.st.shares - ids);
    var offered := StillOffered(w.st.shares, ids);
    SharesRemoved(w.st.shares, w.st.grants, ids);
    ChannelsAfterEnd(w.st.requests, w.st.shares, w.filed, w.log, w.st.shares - ids, offered,
                     Same(offered, FailedEvent(message)));
  }

  lemma ForgetSharesKeeps(w: World, ids: set<Id>)
    ensures Evolves(w, ForgetShares(w, ids))
  {
  }

  lemma ForgetSharesOk(w: World, ids: set<Id>)
    requires Inv(w)
    requires forall k | k in ids && k in w.st.shares :: !w.st.shares[k].state.Offered?
    ensures Inv(ForgetShares(w, ids)) && Evolves(w, ForgetShares(w, ids))
  {
    hide GrantsOk, RequestsOk, SharesOk, FiledOk, WaitersOk, ChannelsOk, SudoOk, Evolves;
    ForgetSharesKeeps(w, ids);
    FewerEntries(w.st.requests, w.st.shares, w.filed, w.live, w.st.requests, w.st.shares - ids);
    SharesRemoved(w.st.shares, w.st.grants, ids);
    ChannelsAfterEnd(w.st.requests, w.st.shares, w.filed, w.log, w.st.shares - ids, {}, map[]);
    assert Send(w.log, {}, map[]) == w.log;
  }

  /** Changing only the state and waiters of requests, without a terminal event. */
  lemma RequestsRestated(requests: map<Id, Request>, grants: map<Id, Grant>, requests': map<Id, Request>)
    requires RequestsOk(requests, grants) && requests'.Keys == requests.Keys
    requires forall k | k in requests :: RequestKept(requests[k], requests'[k])
    requires forall k | k in requests && requests[k].kind.Secret? :: requests'[k].state == requests[k].state
    ensures RequestsOk(requests', grants)
  {
    assert forall t: Id :: SecretsOf(requests', t) == SecretsOf(requests, t);
  }

  lemma ChannelsRestated(requests: map<Id, Request>, shares: map<Id, Share>, filed: map<Id, Filing>,
                         log: map<Id, seq<Event>>, requests': map<Id, Request>, shares': map<Id, Share>)
    requires ChannelsOk(requests, shares, filed, log)
    requires requests'.Keys == requests.Keys && shares'.Keys == shares.Keys
    requires forall k | k in requests :: requests'[k].state != requests[k].state && k in log ==>
               requests'[k].state.Running? || log[k] == []
    requires forall k | k in shares :: shares'[k].state == shares[k].state
    ensures ChannelsOk(requests', shares', filed, log)
  {
    forall k | k in filed && filed[k].ShareFiling? ensures ShareChannelOk(shares', k, filed[k].name, log[k]) {
      assert ShareChannelOk(shares, k, filed[k].name, log[k]);
    }
    forall k | k in filed && filed[k].RequestFiling? ensures RequestChannelOk(requests', k, filed[k].kind, log[k]) {
      assert RequestChannelOk(requests, k, filed[k].kind, log[k]);
    }
  }

  lemma SharesRestated(shares: map<Id, Share>, grants: map<Id, Grant>, shares': map<Id, Share>)
    requires SharesOk(shares, grants) && shares'.Keys == shares.Keys
    requires forall k | k in shares :: shares'[k] == shares[k].(waiters := shares'[k].waiters)
    ensures SharesOk(shares', grants)
  {
    assert forall t: Id :: SharesOf(shares', t) == SharesOf(shares, t);
    assert forall t: Id :: OfferedOf(shares', t) == OfferedOf(shares, t);
    forall k | k in shares ensures ShareOk(grants, shares'[k]) {
      assert ShareOk(grants, shares[k]);
      assert shares'[k].state.Offered? ==> Backed(grants, shares'[k]) by {
        if shares[k].state.Offered? {
          var j :| j in grants && IsGrant(grants[j], shares[k].terminal, shares[k].name) && grants[j].value == shares[k].value;
          assert IsGrant(grants[j], shares'[k].terminal, shares'[k].name) && grants[j].value == shares'[k].value;
        }
      }
    }
  }

  lemma JoinRequestKeeps(w: World, id: Id)
    requires id in w.st.requests
    ensures Evolves(w, JoinRequest(w, id))
  {
  }

  lemma JoinRequestOk(w: World, id: Id)
    requires Inv(w) && id in w.st.requests
    ensures Inv(JoinRequest(w, id)) && Evolves(w, JoinRequest(w, id))
  {
    hide GrantsOk, RequestsOk, SharesOk, FiledOk, WaitersOk, ChannelsOk, SudoOk, Evolves;
    TableFacts(w);
    JoinRequestKeeps(w, id);
    var w' := JoinRequest(w, id);
    RequestsRestated(w.st.requests, w.st.grants, w'.st.requests);
    FiledRestated(w.st.requests, w.st.shares, w.filed, w'.st.requests, w.st.shares);
    WaiterCounted(w.st.requests, w.st.shares, w.live, id, w'.st.requests, w.st.shares);
    ChannelsRestated(w.st.requests, w.st.shares, w.filed, w.log, w'.st.requests, w.st.shares);
    SudoKept(w.st.requests, w.filed, w.approvers, w.runs, w'.st.requests, w.filed);
  }

  lemma JoinShareKeeps(w: World, id: Id)
    requires id in w.st.shares
    ensures Evolves(w, JoinShare(w, id))
  {
  }

  lemma JoinShareOk(w: World, id: Id)
    requires Inv(w) && id in w.st.shares
    ensures Inv(JoinShare(w, id)) && Evolves(w, JoinShare(w, id))
  {
    hide GrantsOk, RequestsOk, SharesOk, FiledOk, WaitersOk, ChannelsOk, SudoOk, Evolves;
    TableFacts(w);
    JoinShareKeeps(w, id);
    var w' := JoinShare(w, id);
    SharesRestated(w.st.shares, w.st.grants, w'.st.shares);
    FiledRestated(w.st.requests, w.st.shares, w.filed, w.st.requests, w'.st.shares);
    WaiterCounted(w.st.requests, w.st.shares, w.live, id, w.st.requests, w'.st.shares);
    ChannelsRestated(w.st.requests, w.st.shares, w.filed, w.log, w.st.requests, w'.st.shares);
  }
}
