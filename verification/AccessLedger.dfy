/** What each operation records in the activity list, how far it moves the revision, and what it
    makes of subscriptions, filings and runs. */
module AccessLedger {
  import opened Wrappers
  import opened AccessModel
  import opened AccessOperations
  import opened AccessInvariant
  import opened AccessSteps
  import opened AccessChanges
  import opened AccessAccounts
  import opened AccessAnswers

  // ---- the activity list ---------------------------------------------------------------------------

  function Newest(activity: seq<Activity>): seq<Activity> {
    if |activity| > 100 then activity[..100] else activity
  }

  function LapseNote(w: World, k: Id, now: nat): Activity {
    Activity(if k in w.st.shares then w.st.shares[k].terminal else 0, SecretKind, ExpiredStatus, "Shared secret expired unviewed",
             ShareName(w, k), now)
  }

  function WithdrawalNote(w: World, k: Id, reason: string, now: nat): Activity {
    Activity(if k in w.st.shares then w.st.shares[k].terminal else 0, SecretKind, ExpiredStatus, "Shared secret withdrawn",
             ShareName(w, k) + " was " + reason + " before it was viewed", now)
  }

  /** One note for each share, the last first. */
  function Lapses(w: World, order: seq<Id>, now: nat): (notes: seq<Activity>)
    ensures |notes| == |order|
  {
    seq(|order|, i requires 0 <= i < |order| => LapseNote(w, order[|order| - 1 - i], now))
  }

  function Withdrawals(w: World, order: seq<Id>, reason: string, now: nat): (notes: seq<Activity>)
    ensures |notes| == |order|
  {
    seq(|order|, i requires 0 <= i < |order| => WithdrawalNote(w, order[|order| - 1 - i], reason, now))
  }

  function Subject(w: World, k: Id): string {
    if k !in w.st.requests then ""
    else match w.st.requests[k].kind
      case Secret(name) => name
      case Sudo(command) => command.display
  }

  function Titled(w: World, k: Id, secret: string, command: string): string {
    if IsSecret(w, k) then secret else command
  }

  function KindAt(w: World, k: Id): Kind {
    if IsSecret(w, k) then SecretKind else SudoKind
  }

  function GrantName(w: World, k: Id): string {
    if k in w.st.grants then w.st.grants[k].name else ""
  }

  /** The last waiter of a pending request leaves. */
  predicate Cancels(w: World, channel: Id) {
    channel !in w.st.shares && channel in w.st.requests && w.st.requests[channel].state.Pending? && w.st.requests[channel].waiters <= 1
  }

  function When(condition: bool, a: Activity): seq<Activity> {
    if condition then [a] else []
  }

  /** The records of an operation, the newest first. */
  function Records(w: World, op: Op, outcome: Outcome): seq<Activity> {
    match op
    case OpExpire(now, order) => Lapses(w, order, now)
    case OpReject(terminal, request, _, comment, now) =>
      When(outcome == Done,
           Activity(terminal, KindAt(w, request), RejectedStatus, Titled(w, request, "Secret request rejected", "Root command rejected"),
                    if comment.Some? then comment.value else Subject(w, request), now))
    case OpDetach(channel, now) =>
      When(Cancels(w, channel),
           Activity(if channel in w.st.requests then w.st.requests[channel].terminal else 0, KindAt(w, channel), CanceledStatus,
                    Titled(w, channel, "Secret request canceled", "Root command canceled"), Subject(w, channel), now))
    case OpAddSecret(terminal, name, _, detail, _, now) =>
      When(outcome == Done, Activity(terminal, SecretKind, ApprovedStatus, "Secret added and granted",
                                     if detail.Some? then detail.value else name, now))
    case OpApproveSecret(terminal, request, _, _, _, now) =>
      When(outcome == Done, Activity(terminal, SecretKind, ApprovedStatus, "Secret request approved", NameAsked(w, request), now))
    case OpRevoke(terminal, grant, now, order) =>
      if outcome == Done then
        [Activity(terminal, SecretKind, RevokedStatus, "Secret grant revoked", GrantName(w, grant), now)]
        + Withdrawals(w, order, "revoked", now)
      else []
    case OpGenerate(terminal, name, _, detail, _, replace, _, now, order) =>
      When(outcome == Done, Activity(terminal, SecretKind, ApprovedStatus, "Secret generated and granted",
                                     if detail.Some? then detail.value else name, now))
      + if replace && IsGranted(w, terminal, name) then
          [Activity(terminal, SecretKind, RevokedStatus, "Secret grant replaced", name, now)] + Withdrawals(w, order, "replaced", now)
        else []
    case OpShare(terminal, name, _, detail, _, id, now, order, _) =>
      When(outcome == Attached(id), Activity(terminal, SecretKind, SharedStatus, "Secret shared with you",
                                             if detail.Some? then detail.value else name, now))
      + Lapses(w, order, now)
    case OpWait(_, _, now, order) => Lapses(w, order, now)
    case OpReveal(terminal, share, now, order) =>
      When(outcome.Revealed?, Activity(terminal, SecretKind, ViewedStatus, "Shared secret revealed", ShareName(w, share), now))
      + Lapses(w, order, now)
    case OpDismiss(terminal, share, now, order) =>
      When(outcome == Done, Activity(terminal, SecretKind, DismissedStatus, "Shared secret dismissed", ShareName(w, share), now))
      + Lapses(w, order, now)
    case OpFinish(call, code, now) =>
      if call in w.approvers then
        [Activity(w.approvers[call].terminal, SudoKind, if code == 0 then ApprovedStatus else FailedStatus,
                  if code == 0 then "Root command completed" else "Root command failed", w.approvers[call].command.display, now)]
      else []
    case OpAbort(call, message, now) =>
      if call in w.approvers && w.approvers[call].request in w.st.requests then
        var k := w.approvers[call].request;
        [Activity(w.st.requests[k].terminal, KindAt(w, k), FailedStatus, Titled(w, k, "Secret request failed", "Root command failed"), message, now)]
      else []
    case _ => []
  }

  // ---- the revision ----------------------------------------------------------------------------------

  ghost function Forgotten(w: World, now: nat): set<Id> {
    set k | k in w.st.shares && Aged(At(w.st.shares, k), now).None?
  }

  function If(condition: bool): nat {
    if condition then 1 else 0
  }

  predicate OwnsAny(w: World, active: set<Id>) {
    || (exists k | k in w.st.requests :: w.st.requests[k].terminal !in active)
    || (exists k | k in w.st.grants :: w.st.grants[k].terminal !in active)
    || (exists k | k in w.st.shares :: w.st.shares[k].terminal !in active)
    || (exists k | k in w.st.executions :: w.st.executions[k].terminal !in active)
  }

  /** How many steps the revision moves: one for every record, and one for what has none. */
  ghost function Moves(w: World, op: Op, outcome: Outcome): nat {
    |Records(w, op, outcome)|
    + match op
      case OpExpire(now, _) => If(Forgotten(w, now) != {})
      case OpRequestSecret(_, _, _, _, id, _, _) => If(outcome == Attached(id))
      case OpRequestSudo(_, _, _, _, id, _, _, _) => If(outcome == Attached(id))
      case OpDetach(channel, _) => If(!Cancels(w, channel))
      case OpExecute(_, _, _, _, _) => If(outcome == Done)
      case OpShare(_, _, _, _, _, id, now, _, _) => If(Forgotten(w, now) != {}) + If(outcome.Attached? && outcome != Attached(id))
      case OpWait(_, _, now, _) => If(Forgotten(w, now) != {}) + If(!outcome.Refused?)
      case OpReveal(_, _, now, _) => If(Forgotten(w, now) != {})
      case OpDismiss(_, _, now, _) => If(Forgotten(w, now) != {})
      case OpBeginSudo(_, _, _, _) => If(outcome == Done)
      case OpAuthFailed(call) => If(call in w.approvers && w.approvers[call].request in w.st.requests)
      case OpStart(_) => If(outcome == Done)
      case OpClearTerminal(_) => 1
      case OpClearInactive(active) => If(OwnsAny(w, active))
      case _ => 0
  }

  /** Records put first, the list cut at a hundred, and the revision moved. */
  ghost predicate Noted(w: World, w': World, records: seq<Activity>, moves: nat) {
    && w'.st.activity == Newest(records + w.st.activity)
    && w'.st.revision == (w.st.revision + moves) % 0x1_0000_0000_0000_0000
  }

  ghost predicate Tidy(w: World) {
    |w.st.activity| <= 100 && w.st.revision <= 0xFFFF_FFFF_FFFF_FFFF
  }

  lemma PushNotes(w: World, a: Activity)
    requires Tidy(w)
    ensures Noted(w, Push(w, a), [a], 1) && Tidy(Push(w, a))
  {
  }

  lemma BumpNotes(w: World)
    requires Tidy(w)
    ensures Noted(w, Bump(w), [], 1) && Tidy(Bump(w))
  {
    assert [] + w.st.activity == w.st.activity;
  }

  lemma NothingNoted(w: World, w': World)
    requires Tidy(w) && w'.st.activity == w.st.activity && w'.st.revision == w.st.revision
    ensures Noted(w, w', [], 0) && Tidy(w')
  {
    assert [] + w.st.activity == w.st.activity;
  }

  lemma NewestAgain(a: seq<Activity>, b: seq<Activity>)
    ensures Newest(a + Newest(b)) == Newest(a + b)
  {
    if |b| > 100 {
      assert (a + b[..100])[..100] == (a + b)[..100];
    }
  }

  lemma MovedAgain(r: nat, a: nat, b: nat)
    ensures ((r + a) % 0x1_0000_0000_0000_0000 + b) % 0x1_0000_0000_0000_0000 == (r + a + b) % 0x1_0000_0000_0000_0000
  {
  }

  lemma NotedThen(w: World, w1: World, w2: World, a: seq<Activity>, m: nat, b: seq<Activity>, n: nat)
    requires Noted(w, w1, a, m) && Noted(w1, w2, b, n)
    ensures Noted(w, w2, b + a, m + n) && Tidy(w2)
  {
    NewestAgain(b, a + w.st.activity);
    assert b + (a + w.st.activity) == b + a + w.st.activity;
    MovedAgain(w.st.revision, m, n);
  }

  /** The same records the other way round. */
  function Reversed(records: seq<Activity>): (r: seq<Activity>)
    ensures |r| == |records| && forall i | 0 <= i < |records| :: r[i] == records[|records| - 1 - i]
  {
    seq(|records|, i requires 0 <= i < |records| => records[|records| - 1 - i])
  }

  lemma {:induction false} PushAllNotes(w: World, records: seq<Activity>)
    requires Tidy(w)
    ensures Noted(w, PushAll(w, records), Reversed(records), |records|) && Tidy(PushAll(w, records))
    decreases |records|
  {
    hide Noted, Tidy, Push;
    if records == [] {
      assert Reversed(records) == [];
      NothingNoted(w, w);
    } else {
      var n := |records| - 1;
      PushAllNotes(w, records[..n]);
      PushNotes(PushAll(w, records[..n]), records[n]);
      NotedThen(w, PushAll(w, records[..n]), PushAll(w, records), Reversed(records[..n]), n, [records[n]], 1);
      assert [records[n]] + Reversed(records[..n]) == Reversed(records);
    }
  }

  lemma LapsesReversed(w: World, order: seq<Id>, now: nat)
    requires forall k | k in order :: k in w.st.shares
    ensures Reversed(ExpiryRecords(w.st.shares, order, now)) == Lapses(w, order, now)
  {
    var records := ExpiryRecords(w.st.shares, order, now);
    forall i | 0 <= i < |order| ensures Reversed(records)[i] == Lapses(w, order, now)[i] {
      var j := |order| - 1 - i;
      assert order[j] in order;
      assert Reversed(records)[i] == records[j] == ExpiryRecord(w.st.shares[order[j]], now);
    }
  }

  lemma WithdrawalsReversed(w: World, order: seq<Id>, reason: string, now: nat)
    requires forall k | k in order :: k in w.st.shares
    ensures Reversed(WithdrawalRecords(w.st.shares, order, reason, now)) == Withdrawals(w, order, reason, now)
  {
    var records := WithdrawalRecords(w.st.shares, order, reason, now);
    forall i | 0 <= i < |order| ensures Reversed(records)[i] == Withdrawals(w, order, reason, now)[i] {
      var j := |order| - 1 - i;
      assert order[j] in order;
      assert Reversed(records)[i] == records[j] == WithdrawalRecord(w.st.shares[order[j]], reason, now);
    }
  }

  lemma InOrder(order: seq<Id>, ids: set<Id>)
    requires IsOrder(order, ids)
    ensures forall k | k in order :: k in ids
  {
  }

  lemma ForgottenAre(w: World, now: nat, order: seq<Id>)
    requires IsOrder(order, Due(w.st.shares, now))
    ensures var w1 := PushAll(ResolveShares(w, Due(w.st.shares, now), ShareState.Expired, now), ExpiryRecords(w.st.shares, order, now));
            Outdated(w1.st.shares, now) == Forgotten(w, now)
  {
    hide Aged, IsOrder, PushAll, Forgettable, Send;
    InOrder(order, Due(w.st.shares, now));
    var w0 := ResolveShares(w, Due(w.st.shares, now), ShareState.Expired, now);
    PushAllEntry(w0, ExpiryRecords(w.st.shares, order, now), 0);
    forall k: Id ensures k in Outdated(w0.st.shares, now) <==> k in Forgotten(w, now) {
      DueEntry(w, now, k);
      EntryUpdates(w0, k);
      StaleEntry(w0.st.shares, now, k);
      AgedIs(w, now, k);
    }
  }

  lemma AgedIs(w: World, now: nat, k: Id)
    ensures var s := At(w.st.shares, k);
            Aged(s, now).None? <==>
            s.None? || Forgettable(if Overdue(s, now) then Over(s, ShareState.Expired, now) else s, now)
  {
    hide Forgettable;
  }

  lemma ExpireNotes(w: World, now: nat, order: seq<Id>)
    requires Tidy(w) && IsOrder(order, Due(w.st.shares, now))
    ensures var w1 := ExpireShares(w, now, order);
            Noted(w, w1, Lapses(w, order, now), |order| + If(Forgotten(w, now) != {})) && Tidy(w1)
  {
    hide IsOrder, PushAll, Noted, Tidy, Outdated, Forgotten, Bumped, Send, Resolved, Lapses;
    var w0 := ResolveShares(w, Due(w.st.shares, now), ShareState.Expired, now);
    InOrder(order, Due(w.st.shares, now));
    var records := ExpiryRecords(w.st.shares, order, now);
    var w1 := PushAll(w0, records);
    NothingNoted(w, w0);
    PushAllNotes(w0, records);
    NotedThen(w, w0, w1, [], 0, Reversed(records), |records|);
    assert Reversed(records) + [] == Reversed(records);
    LapsesReversed(w, order, now);
    ForgottenAre(w, now, order);
    var stale := Outdated(w1.st.shares, now);
    if stale != {} {
      var w2 := ForgetShares(w1, stale);
      NothingNoted(w1, w2);
      BumpNotes(w2);
      NotedThen(w1, w2, Bump(w2), [], 0, [], 1);
      NotedThen(w, w1, Bump(w2), Lapses(w, order, now), |order|, [] + [], 1);
      assert [] + [] + Lapses(w, order, now) == Lapses(w, order, now);
    }
  }

  lemma WithdrawNotes(w: World, terminal: Id, name: string, reason: string, now: nat, order: seq<Id>)
    requires Tidy(w) && IsOrder(order, OffersNamed(w.st.shares, terminal, name))
    ensures var w1 := WithdrawShares(w, terminal, name, reason, now, order);
            Noted(w, w1, Withdrawals(w, order, reason, now), |order|) && Tidy(w1)
  {
    hide IsOrder, PushAll, Noted, Tidy, Send, Resolved, Withdrawals;
    var w0 := ResolveShares(w, OffersNamed(w.st.shares, terminal, name), ShareState.Expired, now);
    InOrder(order, OffersNamed(w.st.shares, terminal, name));
    var records := WithdrawalRecords(w.st.shares, order, reason, now);
    NothingNoted(w, w0);
    PushAllNotes(w0, records);
    NotedThen(w, w0, PushAll(w0, records), [], 0, Reversed(records), |records|);
    assert Reversed(records) + [] == Reversed(records);
    WithdrawalsReversed(w, order, reason, now);
  }

  // ---- one operation after the other ---------------------------------------------------------------------

  /** The records of other terminals. */
  function OfOthers(activity: seq<Activity>, terminal: Id): seq<Activity> {
    if activity == [] then []
    else
      var n := |activity| - 1;
      OfOthers(activity[..n], terminal) + When(activity[n].terminal != terminal, activity[n])
  }

  /** Its records and its step of the revision; a terminal that is cleared loses its records. */
  ghost predicate Notes(w: World, op: Op, r: Result) {
    if op.OpClearTerminal? then
      && r.world.st.activity == OfOthers(w.st.activity, op.terminal)
      && r.world.st.revision == (w.st.revision + 1) % 0x1_0000_0000_0000_0000
    else Noted(w, r.world, Records(w, op, r.outcome), Moves(w, op, r.outcome))
  }

  /** Its effect on subscriptions, runs and filings. */
  ghost predicate Traces(w: World, op: Op, r: Result) {
    && (forall k: Id :: r.world.live[k] == Subscribed(w, op, r.outcome, k))
    && r.world.runs == w.runs + Started(w, op)
    && (forall k: Id :: At(r.world.filed, k) == FilingAfter(w, op, r.outcome, k))
  }

  /** A caller that is attached has a subscription more, one that leaves a subscription less. */
  function Subscribed(w: World, op: Op, outcome: Outcome, k: Id): nat {
    if outcome == Attached(k) then w.live[k] + 1
    else if op.OpDetach? && op.channel == k && w.live[k] > 0 then w.live[k] - 1
    else w.live[k]
  }

  function Started(w: World, op: Op): seq<SudoRun> {
    if op.OpSpawn? && op.call in w.approvers then
      var a := w.approvers[op.call]; [SudoRun(a.request, a.terminal, a.hash, a.command)]
    else []
  }

  ghost function FilingAfter(w: World, op: Op, outcome: Outcome, k: Id): Option<Filing> {
    match op
    case OpRequestSecret(terminal, name, _, _, id, hash, _) =>
      if outcome == Attached(id) && k == id then Some(RequestFiling(terminal, hash, Secret(name))) else At(w.filed, k)
    case OpRequestSudo(terminal, command, _, _, id, hash, _, _) =>
      if outcome == Attached(id) && k == id then Some(RequestFiling(terminal, hash, Sudo(command))) else At(w.filed, k)
    case OpShare(terminal, name, _, _, _, id, _, _, _) =>
      if outcome == Attached(id) && k == id then
        var g := FindGrant(w.st.grants, terminal, name);
        if g.Some? then Some(ShareFiling(terminal, name, w.st.grants[g.value].value)) else None
      else At(w.filed, k)
    case _ => At(w.filed, k)
  }

  lemma RejectNotes(w: World, terminal: Id, request: Id, hash: string, comment: Option<string>, now: nat)
    requires Tidy(w)
    ensures Notes(w, OpReject(terminal, request, hash, comment, now), Reject(w, terminal, request, hash, comment, now))
  {
    hide Send;
    assert [] + w.st.activity == w.st.activity;
  }

  lemma RejectTraces(w: World, terminal: Id, request: Id, hash: string, comment: Option<string>, now: nat)
    ensures Traces(w, OpReject(terminal, request, hash, comment, now), Reject(w, terminal, request, hash, comment, now))
  {
    hide Capped, Bumped, Send;
    assert w.runs + [] == w.runs;
  }

  lemma FiledNotes(w: World, id: Id, r: Request)
    requires Tidy(w)
    ensures Noted(w, Bump(AddRequest(w, id, r)), [], 1)
  {
    assert [] + w.st.activity == w.st.activity;
  }

  lemma JoinedNotes(w: World, id: Id)
    requires Tidy(w) && id in w.st.requests
    ensures Noted(w, JoinRequest(w, id), [], 0)
  {
    NothingNoted(w, JoinRequest(w, id));
  }

  lemma AskSecretNotes(w: World, terminal: Id, name: string, description: string, agent: string, id: Id, hash: string, now: nat)
    requires Tidy(w) && id !in w.st.requests
    ensures Notes(w, OpRequestSecret(terminal, name, description, agent, id, hash, now), RequestSecret(w, terminal, name, description, agent, id, hash, now))
  {
    hide PendingOf, Granted, AsksFor, FindRequest, Noted, Tidy, JoinRequest, AddRequest, Bump;
    var r := RequestSecret(w, terminal, name, description, agent, id, hash, now);
    if r.outcome == Attached(id) {
      FiledNotes(w, id, Request(terminal, hash, Secret(name), Pending, description, agent, now, 1));
    } else if r.outcome.Attached? {
      JoinedNotes(w, r.outcome.channel);
    } else {
      NothingNoted(w, w);
    }
  }

  lemma FiledTraces(w: World, op: Op, r: Request)
    requires op.OpRequestSecret? && r.terminal == op.terminal && r.hash == op.hash && r.kind == Secret(op.name)
    ensures Traces(w, op, Result(Bump(AddRequest(w, op.id, r)), Attached(op.id)))
  {
    hide Bumped;
    assert w.runs + [] == w.runs;
  }

  lemma JoinedTraces(w: World, op: Op, k: Id)
    requires op.OpRequestSecret? && k in w.st.requests && k != op.id
    ensures Traces(w, op, Result(JoinRequest(w, k), Attached(k)))
  {
    assert w.runs + [] == w.runs;
  }

  lemma UnattachedTraces(w: World, op: Op, outcome: Outcome)
    requires op.OpRequestSecret? && !outcome.Attached?
    ensures Traces(w, op, Result(w, outcome))
  {
    assert w.runs + [] == w.runs;
  }

  lemma AskSecretTraces(w: World, terminal: Id, name: string, description: string, agent: string, id: Id, hash: string, now: nat)
    requires id !in w.st.requests
    ensures Traces(w, OpRequestSecret(terminal, name, description, agent, id, hash, now), RequestSecret(w, terminal, name, description, agent, id, hash, now))
  {
    hide PendingOf, Granted, AsksFor, FindRequest, Traces, JoinRequest, AddRequest, Bump;
    var op := OpRequestSecret(terminal, name, description, agent, id, hash, now);
    var r := RequestSecret(w, terminal, name, description, agent, id, hash, now);
    if r.outcome == Attached(id) {
      FiledTraces(w, op, Request(terminal, hash, Secret(name), Pending, description, agent, now, 1));
    } else if r.outcome.Attached? {
      JoinedTraces(w, op, r.outcome.channel);
    } else {
      UnattachedTraces(w, op, r.outcome);
    }
  }

  lemma AskSudoNotes(w: World, terminal: Id, command: SudoCommand, description: string, agent: string, id: Id, hash: string, now: nat, pick: Option<Id>)
    requires Tidy(w) && id !in w.st.requests && PicksCommand(w, terminal, command.fingerprint, pick)
    ensures Notes(w, OpRequestSudo(terminal, command, description, agent, id, hash, now, pick), RequestSudo(w, terminal, command, description, agent, id, hash, now, pick))
  {
    hide PendingOf, AsksToRun;
    assert [] + w.st.activity == w.st.activity;
  }

  lemma AskSudoTraces(w: World, terminal: Id, command: SudoCommand, description: string, agent: string, id: Id, hash: string, now: nat, pick: Option<Id>)
    requires id !in w.st.requests && PicksCommand(w, terminal, command.fingerprint, pick)
    ensures Traces(w, OpRequestSudo(terminal, command, description, agent, id, hash, now, pick), RequestSudo(w, terminal, command, description, agent, id, hash, now, pick))
  {
    hide Capped, Bumped, PendingOf, AsksToRun;
    assert w.runs + [] == w.runs;
  }

  lemma LeavingNotes(w: World, k: Id)
    ensures Unsubscribe(w, k).st == w.st
    ensures k in w.st.shares ==> LeaveShare(w, k).st.(shares := map[]) == w.st.(shares := map[])
    ensures k in w.st.requests ==> LeaveRequest(w, k).st.(requests := map[]) == w.st.(requests := map[])
  {
  }

  lemma LeftNotes(w: World, channel: Id, now: nat)
    requires Tidy(w) && !Cancels(w, channel)
    ensures Notes(w, OpDetach(channel, now), DetachWaiter(w, channel, now))
  {
    hide LeaveShare, LeaveRequest, Unsubscribe, Push;
    assert [] + w.st.activity == w.st.activity;
    LeavingNotes(w, channel);
  }

  lemma CanceledNotes(w: World, channel: Id, now: nat)
    requires Tidy(w) && Cancels(w, channel)
    ensures Notes(w, OpDetach(channel, now), DetachWaiter(w, channel, now))
  {
  }

  lemma DetachNotes(w: World, channel: Id, now: nat)
    requires Tidy(w)
    ensures Notes(w, OpDetach(channel, now), DetachWaiter(w, channel, now))
  {
    hide Notes, DetachWaiter, Cancels;
    if Cancels(w, channel) {
      CanceledNotes(w, channel, now);
    } else {
      LeftNotes(w, channel, now);
    }
  }

  lemma DetachTraces(w: World, channel: Id, now: nat)
    requires channel in w.live
    ensures Traces(w, OpDetach(channel, now), DetachWaiter(w, channel, now))
  {
    hide Capped, Bumped;
    assert w.runs + [] == w.runs;
  }

  lemma AddNotes(w: World, terminal: Id, name: string, value: string, detail: Option<string>, id: Id, now: nat)
    requires Tidy(w)
    ensures Notes(w, OpAddSecret(terminal, name, value, detail, id, now), AddSecret(w, terminal, name, value, detail, id, now))
  {
    hide Granted, GrantsOf, Send, RequestsNamed;
    assert [] + w.st.activity == w.st.activity;
  }

  lemma AddTraces(w: World, terminal: Id, name: string, value: string, detail: Option<string>, id: Id, now: nat)
    ensures Traces(w, OpAddSecret(terminal, name, value, detail, id, now), AddSecret(w, terminal, name, value, detail, id, now))
  {
    hide Capped, Bumped, Granted, GrantsOf, Send, RequestsNamed;
    assert w.runs + [] == w.runs;
  }

  lemma ApproveNotes(w: World, terminal: Id, request: Id, hash: string, value: string, id: Id, now: nat)
    requires Tidy(w)
    ensures Notes(w, OpApproveSecret(terminal, request, hash, value, id, now), ApproveSecret(w, terminal, request, hash, value, id, now))
  {
    hide Granted, GrantsOf, Send;
    assert [] + w.st.activity == w.st.activity;
  }

  lemma ApproveTraces(w: World, terminal: Id, request: Id, hash: string, value: string, id: Id, now: nat)
    ensures Traces(w, OpApproveSecret(terminal, request, hash, value, id, now), ApproveSecret(w, terminal, request, hash, value, id, now))
  {
    hide Capped, Bumped, Granted, GrantsOf, Send;
    assert w.runs + [] == w.runs;
  }

  lemma ExecuteNotes(w: World, terminal: Id, name: string, display: string, id: Id, now: nat)
    requires Tidy(w)
    ensures Notes(w, OpExecute(terminal, name, display, id, now), ExecuteSecret(w, terminal, name, display, id, now))
  {
    hide FindGrant, ExecutionsOf;
    assert [] + w.st.activity == w.st.activity;
  }

  lemma ExecuteTraces(w: World, terminal: Id, name: string, display: string, id: Id, now: nat)
    ensures Traces(w, OpExecute(terminal, name, display, id, now), ExecuteSecret(w, terminal, name, display, id, now))
  {
    hide Capped, Bumped, FindGrant, ExecutionsOf;
    assert w.runs + [] == w.runs;
  }

  lemma EndedNotes(w: World, id: Id)
    requires Tidy(w)
    ensures Notes(w, OpFinishExecution(id), FinishExecution(w, id))
  {
    assert [] + w.st.activity == w.st.activity;
  }

  lemma EndedTraces(w: World, id: Id)
    ensures Traces(w, OpFinishExecution(id), FinishExecution(w, id))
  {
    hide Capped, Bumped;
    assert w.runs + [] == w.runs;
  }

  lemma BeginNotes(w: World, terminal: Id, request: Id, hash: string, call: Id)
    requires Tidy(w)
    ensures Notes(w, OpBeginSudo(terminal, request, hash, call), BeginSudo(w, terminal, request, hash, call))
  {
    hide SetRequestState;
    assert [] + w.st.activity == w.st.activity;
    MarkedNotes(w, request);
  }

  lemma MarkedNotes(w: World, k: Id)
    ensures var w1 := SetRequestState(w, k, Authenticating);
            w1.st.activity == w.st.activity && w1.st.revision == w.st.revision
  {
  }

  lemma BeginTraces(w: World, terminal: Id, request: Id, hash: string, call: Id)
    ensures Traces(w, OpBeginSudo(terminal, request, hash, call), BeginSudo(w, terminal, request, hash, call))
  {
    hide Capped, Bumped;
    assert w.runs + [] == w.runs;
  }

  lemma FailedNotes(w: World, call: Id)
    requires Tidy(w) && call in w.approvers
    ensures Notes(w, OpAuthFailed(call), AuthFailed(w, call))
  {
    assert [] + w.st.activity == w.st.activity;
  }

  lemma FailedTraces(w: World, call: Id)
    requires call in w.approvers
    ensures Traces(w, OpAuthFailed(call), AuthFailed(w, call))
  {
    hide Capped, Bumped;
    assert w.runs + [] == w.runs;
  }

  lemma StartNotes(w: World, call: Id)
    requires Tidy(w) && call in w.approvers
    ensures Notes(w, OpStart(call), StartSudo(w, call))
  {
    assert [] + w.st.activity == w.st.activity;
  }

  lemma StartTraces(w: World, call: Id)
    requires call in w.approvers
    ensures Traces(w, OpStart(call), StartSudo(w, call))
  {
    hide Capped, Bumped;
    assert w.runs + [] == w.runs;
  }

  lemma AnnounceNotes(w: World, call: Id)
    requires Tidy(w) && call in w.approvers
    ensures Notes(w, OpAnnounce(call), AnnounceSudo(w, call))
  {
    hide Send;
    assert [] + w.st.activity == w.st.activity;
  }

  lemma AnnounceTraces(w: World, call: Id)
    requires call in w.approvers
    ensures Traces(w, OpAnnounce(call), AnnounceSudo(w, call))
  {
    hide Capped, Bumped, Send;
    assert w.runs + [] == w.runs;
  }

  lemma SpawnNotes(w: World, call: Id)
    requires Tidy(w) && call in w.approvers
    ensures Notes(w, OpSpawn(call), SpawnSudo(w, call))
  {
    assert [] + w.st.activity == w.st.activity;
  }

  lemma SpawnTraces(w: World, call: Id)
    requires call in w.approvers
    ensures Traces(w, OpSpawn(call), SpawnSudo(w, call))
  {
    hide Capped, Bumped;
    assert w.runs + [] == w.runs;
  }

  lemma OutputNotes(w: World, call: Id, data: seq<nat>)
    requires Tidy(w) && call in w.approvers
    ensures Notes(w, OpOutput(call, data), SudoOutput(w, call, data))
  {
    hide Send;
    assert [] + w.st.activity == w.st.activity;
  }

  lemma OutputTraces(w: World, call: Id, data: seq<nat>)
    requires call in w.approvers
    ensures Traces(w, OpOutput(call, data), SudoOutput(w, call, data))
  {
    hide Capped, Bumped, Send;
    assert w.runs + [] == w.runs;
  }

  lemma FinishNotes(w: World, call: Id, code: int, now: nat)
    requires Tidy(w) && call in w.approvers
    ensures Notes(w, OpFinish(call, code, now), FinishSudo(w, call, code, now))
  {
    hide Send;
    assert [] + w.st.activity == w.st.activity;
  }

  lemma FinishTraces(w: World, call: Id, code: int, now: nat)
    requires call in w.approvers
    ensures Traces(w, OpFinish(call, code, now), FinishSudo(w, call, code, now))
  {
    hide Capped, Bumped, Send;
    assert w.runs + [] == w.runs;
  }

  lemma AbortNotes(w: World, call: Id, message: string, now: nat)
    requires Tidy(w) && call in w.approvers
    ensures Notes(w, OpAbort(call, message, now), AbortSudo(w, call, message, now))
  {
    hide Send;
    assert [] + w.st.activity == w.st.activity;
  }

  lemma AbortTraces(w: World, call: Id, message: string, now: nat)
    requires call in w.approvers
    ensures Traces(w, OpAbort(call, message, now), AbortSudo(w, call, message, now))
  {
    hide Capped, Bumped, Send;
    assert w.runs + [] == w.runs;
  }

  lemma ClearNotes(w: World, terminal: Id, active: set<Id>)
    requires Tidy(w)
    ensures Notes(w, OpClearTerminal(terminal), ClearTerminal(w, terminal))
    ensures Notes(w, OpClearInactive(active), ClearInactive(w, active))
  {
    hide Clear, WithoutTerminal, OwnsNothing, OwnsAny, OfOthers;
    assert [] + w.st.activity == w.st.activity;
    FilteredAlike(w.st.activity, terminal);
    ClearedNotes(w, Except(active), "terminal exited");
    ClearedNotes(w, Only(terminal), "terminal closed");
    OwnsAnything(w, active);
  }

  lemma ClearedNotes(w: World, scope: Scope, message: string)
    ensures var w1 := Clear(w, scope, message);
            w1.st.activity == w.st.activity && w1.st.revision == w.st.revision && w1.live == w.live && w1.runs == w.runs && w1.filed == w.filed
  {
    hide Send;
  }

  lemma OwnsAnything(w: World, active: set<Id>)
    ensures OwnsNothing(w.st, Except(active)) <==> !OwnsAny(w, active)
  {
    var scope := Except(active);
    if OwnsNothing(w.st, scope) {
      forall k | k in w.st.requests ensures w.st.requests[k].terminal in active { assert k !in RequestsIn(w.st.requests, scope); }
      forall k | k in w.st.grants ensures w.st.grants[k].terminal in active { assert k !in GrantsIn(w.st.grants, scope); }
      forall k | k in w.st.shares ensures w.st.shares[k].terminal in active { assert k !in SharesIn(w.st.shares, scope); }
      forall k | k in w.st.executions ensures w.st.executions[k].terminal in active { assert k !in ExecutionsIn(w.st.executions, scope); }
    }
  }

  lemma {:induction false} OthersFrom(first: Activity, rest: seq<Activity>, terminal: Id)
    ensures OfOthers([first] + rest, terminal) == When(first.terminal != terminal, first) + OfOthers(rest, terminal)
    decreases |rest|
  {
    var all := [first] + rest;
    if rest == [] {
      assert all[..0] == [];
    } else {
      var n := |rest| - 1;
      assert all[..n + 1] == [first] + rest[..n];
      OthersFrom(first, rest[..n], terminal);
    }
  }

  lemma {:induction false} FilteredAlike(activity: seq<Activity>, terminal: Id)
    ensures WithoutTerminal(activity, terminal) == OfOthers(activity, terminal)
    decreases |activity|
  {
    if activity != [] {
      FilteredAlike(activity[1..], terminal);
      OthersFrom(activity[0], activity[1..], terminal);
      assert activity == [activity[0]] + activity[1..];
    }
  }

  lemma ClearTraces(w: World, terminal: Id, active: set<Id>)
    ensures Traces(w, OpClearTerminal(terminal), ClearTerminal(w, terminal))
    ensures Traces(w, OpClearInactive(active), ClearInactive(w, active))
  {
    hide Clear, WithoutTerminal, OwnsNothing, Bumped;
    assert w.runs + [] == w.runs;
    ClearedNotes(w, Except(active), "terminal exited");
    ClearedNotes(w, Only(terminal), "terminal closed");
  }

  // ---- shares, and grants that take shares along ---------------------------------------------------------

  lemma {:induction false} PushAllTraces(w: World, records: seq<Activity>)
    ensures var w1 := PushAll(w, records); w1.live == w.live && w1.runs == w.runs && w1.filed == w.filed
    decreases |records|
  {
    hide Capped, Bumped;
    if records != [] {
      PushAllTraces(w, records[..|records| - 1]);
    }
  }

  lemma ExpireTraces(w: World, now: nat, order: seq<Id>)
    requires IsOrder(order, Due(w.st.shares, now))
    ensures var w1 := ExpireShares(w, now, order); w1.live == w.live && w1.runs == w.runs && w1.filed == w.filed
    ensures ExpireShares(w, now, order).st.grants == w.st.grants
  {
    hide PushAll, Bumped, Resolved, Send;
    var w0 := ResolveShares(w, Due(w.st.shares, now), ShareState.Expired, now);
    PushAllTraces(w0, ExpiryRecords(w.st.shares, order, now));
    ExpireTables(w, now, order);
  }

  lemma WithdrawTraces(w: World, terminal: Id, name: string, reason: string, now: nat, order: seq<Id>)
    requires IsOrder(order, OffersNamed(w.st.shares, terminal, name))
    ensures var w1 := WithdrawShares(w, terminal, name, reason, now, order);
            w1.live == w.live && w1.runs == w.runs && w1.filed == w.filed
  {
    hide PushAll, Resolved, Send;
    PushAllTraces(ResolveShares(w, OffersNamed(w.st.shares, terminal, name), ShareState.Expired, now),
                  WithdrawalRecords(w.st.shares, order, reason, now));
  }

  /** After the clock has passed, one thing more. */
  lemma ExpiredThen(w: World, now: nat, order: seq<Id>, w2: World, records: seq<Activity>, moves: nat)
    requires Tidy(w) && IsOrder(order, Due(w.st.shares, now))
    requires Tidy(ExpireShares(w, now, order)) ==> Noted(ExpireShares(w, now, order), w2, records, moves)
    ensures Noted(w, w2, records + Lapses(w, order, now), |order| + If(Forgotten(w, now) != {}) + moves)
  {
    hide ExpireShares, IsOrder, Due, Noted, Tidy, Lapses, Forgotten;
    ExpireNotes(w, now, order);
    NotedThen(w, ExpireShares(w, now, order), w2, Lapses(w, order, now), |order| + If(Forgotten(w, now) != {}), records, moves);
  }

  lemma ExpiringNotes(w: World, now: nat, order: seq<Id>)
    requires Tidy(w) && IsOrder(order, Due(w.st.shares, now))
    ensures Notes(w, OpExpire(now, order), Result(ExpireShares(w, now, order), Done))
  {
    hide ExpireShares, IsOrder, Due, Noted, Tidy, Lapses, Forgotten;
    ExpireNotes(w, now, order);
  }

  lemma ExpiringTraces(w: World, now: nat, order: seq<Id>)
    requires IsOrder(order, Due(w.st.shares, now))
    ensures Traces(w, OpExpire(now, order), Result(ExpireShares(w, now, order), Done))
  {
    hide ExpireShares, IsOrder, Due;
    ExpireTraces(w, now, order);
    assert w.runs + [] == w.runs;
  }

  lemma JoinNotes(w: World, id: Id)
    requires Tidy(w) && id in w.st.shares
    ensures Noted(w, Bump(JoinShare(w, id)), [], 1)
  {
    assert [] + w.st.activity == w.st.activity;
  }

  lemma WaitNotes(w: World, terminal: Id, share: Id, now: nat, order: seq<Id>)
    requires Tidy(w) && IsOrder(order, Due(w.st.shares, now))
    ensures Notes(w, OpWait(terminal, share, now, order), WaitShare(w, terminal, share, now, order))
  {
    hide ExpireShares, IsOrder, Due, Noted, Tidy, Lapses, Forgotten, Bump, JoinShare;
    var w1 := ExpireShares(w, now, order);
    var r := WaitShare(w, terminal, share, now, order);
    ExpireNotes(w, now, order);
    NothingNoted(w1, w1);
    BumpNotes(w1);
    if share in w1.st.shares {
      JoinNotes(w1, share);
    }
    ExpiredThen(w, now, order, r.world, [], if r.outcome.Refused? then 0 else 1);
    assert [] + Lapses(w, order, now) == Lapses(w, order, now);
  }

  lemma WaitTraces(w: World, terminal: Id, share: Id, now: nat, order: seq<Id>)
    requires IsOrder(order, Due(w.st.shares, now))
    ensures Traces(w, OpWait(terminal, share, now, order), WaitShare(w, terminal, share, now, order))
  {
    hide ExpireShares, IsOrder, Due, Bumped;
    ExpireTraces(w, now, order);
    assert w.runs + [] == w.runs;
  }

  lemma ActNotes(w: World, id: Id, state: ShareState, now: nat, a: Activity)
    requires Tidy(w) && id in w.st.shares && !state.Offered?
    ensures Noted(w, Push(ResolveShares(w, {id}, state, now), a), [a], 1)
  {
    hide Resolved, Send, Outcomes;
  }

  /** The name of a share that is still there. */
  lemma SameName(w: World, now: nat, order: seq<Id>, share: Id)
    requires IsOrder(order, Due(w.st.shares, now)) && share in ExpireShares(w, now, order).st.shares
    ensures ExpireShares(w, now, order).st.shares[share].name == ShareName(w, share)
  {
    hide ExpireShares, IsOrder, Due, Forgettable;
    AgedThere(w, now, order, share);
  }

  lemma RevealNotes(w: World, terminal: Id, share: Id, now: nat, order: seq<Id>)
    requires Tidy(w) && IsOrder(order, Due(w.st.shares, now))
    ensures Notes(w, OpReveal(terminal, share, now, order), RevealShare(w, terminal, share, now, order))
  {
    hide ExpireShares, IsOrder, Due, Noted, Tidy, Lapses, Forgotten, Push, ResolveShares, ShareName;
    var w1 := ExpireShares(w, now, order);
    var r := RevealShare(w, terminal, share, now, order);
    ExpireNotes(w, now, order);
    NothingNoted(w1, w1);
    var a := Activity(terminal, SecretKind, ViewedStatus, "Shared secret revealed", ShareName(w, share), now);
    if share in w1.st.shares {
      SameName(w, now, order, share);
      ActNotes(w1, share, Viewed, now, a);
    }
    ExpiredThen(w, now, order, r.world, When(r.outcome.Revealed?, a), if r.outcome.Revealed? then 1 else 0);
    assert [] + Lapses(w, order, now) == Lapses(w, order, now);
  }

  lemma DismissNotes(w: World, terminal: Id, share: Id, now: nat, order: seq<Id>)
    requires Tidy(w) && IsOrder(order, Due(w.st.shares, now))
    ensures Notes(w, OpDismiss(terminal, share, now, order), DismissShare(w, terminal, share, now, order))
  {
    hide ExpireShares, IsOrder, Due, Noted, Tidy, Lapses, Forgotten, Push, ResolveShares, ShareName;
    var w1 := ExpireShares(w, now, order);
    var r := DismissShare(w, terminal, share, now, order);
    ExpireNotes(w, now, order);
    NothingNoted(w1, w1);
    var a := Activity(terminal, SecretKind, DismissedStatus, "Shared secret dismissed", ShareName(w, share), now);
    if share in w1.st.shares {
      SameName(w, now, order, share);
      ActNotes(w1, share, Dismissed, now, a);
    }
    ExpiredThen(w, now, order, r.world, When(r.outcome == Done, a), if r.outcome == Done then 1 else 0);
    assert [] + Lapses(w, order, now) == Lapses(w, order, now);
  }

  lemma ActTraces(w: World, terminal: Id, share: Id, now: nat, order: seq<Id>)
    requires IsOrder(order, Due(w.st.shares, now))
    ensures Traces(w, OpReveal(terminal, share, now, order), RevealShare(w, terminal, share, now, order))
    ensures Traces(w, OpDismiss(terminal, share, now, order), DismissShare(w, terminal, share, now, order))
  {
    hide ExpireShares, IsOrder, Due, Bumped, Capped, Resolved, Send, Outcomes;
    ExpireTraces(w, now, order);
    assert w.runs + [] == w.runs;
  }

  lemma AnewNotes(w: World, terminal: Id, name: string, agent: string, detail: Option<string>, ttl: nat, id: Id, now: nat, g: Id,
                  victim: Id)
    requires Tidy(w) && g in w.st.grants
    ensures var r := OfferAnew(w, terminal, name, agent, detail, ttl, id, now, g, victim);
            && (r.outcome.Refused? ==> r.world == w)
            && (r.outcome == Attached(id) || r.outcome.Refused?)
            && (r.outcome == Attached(id) ==>
                  Noted(w, r.world, [Activity(terminal, SecretKind, SharedStatus, "Secret shared with you",
                                              if detail.Some? then detail.value else name, now)], 1))
  {
    hide NeedsVictim, OfferedOf, SharesOf;
  }

  lemma ShareNotes(w: World, terminal: Id, name: string, agent: string, detail: Option<string>, ttl: nat, id: Id, now: nat,
                   order: seq<Id>, victim: Id)
    requires Tidy(w) && CanShare(w, terminal, now, order, victim) && id !in ExpireShares(w, now, order).st.shares
    ensures Notes(w, OpShare(terminal, name, agent, detail, ttl, id, now, order, victim),
                  ShareSecret(w, terminal, name, agent, detail, ttl, id, now, order, victim))
  {
    hide ExpireShares, IsOrder, Due, Noted, Tidy, Lapses, Forgotten, Bump, JoinShare, OfferAnew, FindGrant, FindOffer, NeedsVictim,
         IsOldestResolved;
    var w1 := ExpireShares(w, now, order);
    var r := ShareSecret(w, terminal, name, agent, detail, ttl, id, now, order, victim);
    ExpireNotes(w, now, order);
    NothingNoted(w1, w1);
    var g, offer := FindGrant(w1.st.grants, terminal, name), FindOffer(w1.st.shares, terminal, name);
    if g.Some? {
      if offer.Some? {
        JoinNotes(w1, offer.value);
      } else {
        AnewNotes(w1, terminal, name, agent, detail, ttl, id, now, g.value, victim);
      }
    }
    var a := Activity(terminal, SecretKind, SharedStatus, "Secret shared with you", if detail.Some? then detail.value else name, now);
    ExpiredThen(w, now, order, r.world, When(r.outcome == Attached(id), a), if r.outcome.Attached? then 1 else 0);
    assert [] + Lapses(w, order, now) == Lapses(w, order, now);
  }

  lemma AnewTraces(w: World, terminal: Id, name: string, agent: string, detail: Option<string>, ttl: nat, id: Id, now: nat, g: Id,
                   victim: Id)
    requires g in w.st.grants
    ensures var r := OfferAnew(w, terminal, name, agent, detail, ttl, id, now, g, victim);
            && r.world.runs == w.runs && (r.outcome == Attached(id) || r.outcome.Refused?)
            && (r.outcome.Refused? ==> r.world == w)
            && (r.outcome == Attached(id) ==>
                  r.world.live == w.live + multiset{id} && r.world.filed == w.filed[id := ShareFiling(terminal, name, w.st.grants[g].value)])
  {
    hide NeedsVictim, OfferedOf, SharesOf, Capped, Bumped;
  }

  lemma JoinTraces(w: World, id: Id)
    requires id in w.st.shares
    ensures var w1 := Bump(JoinShare(w, id)); w1.runs == w.runs && w1.filed == w.filed && w1.live == w.live + multiset{id}
  {
  }

  lemma OfferTraces(w: World, terminal: Id, name: string, agent: string, detail: Option<string>, ttl: nat, id: Id, now: nat, victim: Id)
    ensures var r := OfferShare(w, terminal, name, agent, detail, ttl, id, now, victim);
            var g := FindGrant(w.st.grants, terminal, name);
            && r.world.runs == w.runs && (r.outcome.Refused? || r.outcome.Attached?)
            && r.world.live == (if r.outcome.Attached? then w.live + multiset{r.outcome.channel} else w.live)
            && (r.outcome == Attached(id) && id !in w.st.shares ==>
                  g.Some? && r.world.filed == w.filed[id := ShareFiling(terminal, name, w.st.grants[g.value].value)])
            && (r.outcome != Attached(id) ==> r.world.filed == w.filed)
  {
    hide Bump, JoinShare, OfferAnew, FindGrant, FindOffer;
    var g, offer := FindGrant(w.st.grants, terminal, name), FindOffer(w.st.shares, terminal, name);
    if g.Some? {
      if offer.Some? {
        JoinTraces(w, offer.value);
      } else {
        AnewTraces(w, terminal, name, agent, detail, ttl, id, now, g.value, victim);
      }
    }
  }

  lemma ShareTraces(w: World, terminal: Id, name: string, agent: string, detail: Option<string>, ttl: nat, id: Id, now: nat,
                    order: seq<Id>, victim: Id)
    requires CanShare(w, terminal, now, order, victim) && id !in ExpireShares(w, now, order).st.shares
    ensures Traces(w, OpShare(terminal, name, agent, detail, ttl, id, now, order, victim),
                   ShareSecret(w, terminal, name, agent, detail, ttl, id, now, order, victim))
  {
    hide ExpireShares, IsOrder, Due, OfferShare, FindGrant, NeedsVictim, IsOldestResolved;
    ExpireTraces(w, now, order);
    OfferTraces(ExpireShares(w, now, order), terminal, name, agent, detail, ttl, id, now, victim);
    assert w.runs + [] == w.runs;
  }

  lemma DropNotes(w: World, g: Id, a: Activity)
    requires Tidy(w)
    ensures Noted(w, Push(DropGrants(w, {g}), a), [a], 1) && Tidy(Push(DropGrants(w, {g}), a))
  {
  }

  lemma RevokeNotes(w: World, terminal: Id, grant: Id, now: nat, order: seq<Id>)
    requires Tidy(w) && CanRevoke(w, terminal, grant, order)
    ensures Notes(w, OpRevoke(terminal, grant, now, order), RevokeGrant(w, terminal, grant, now, order))
  {
    hide WithdrawShares, IsOrder, OffersNamed, Noted, Tidy, Withdrawals, Push, DropGrants;
    if grant in w.st.grants && w.st.grants[grant].terminal == terminal {
      var name := w.st.grants[grant].name;
      var w1 := WithdrawShares(w, terminal, name, "revoked", now, order);
      var a := Activity(terminal, SecretKind, RevokedStatus, "Secret grant revoked", name, now);
      WithdrawNotes(w, terminal, name, "revoked", now, order);
      DropNotes(w1, grant, a);
      NotedThen(w, w1, Push(DropGrants(w1, {grant}), a), Withdrawals(w, order, "revoked", now), |order|, [a], 1);
    } else {
      NothingNoted(w, w);
    }
  }

  lemma RevokeTraces(w: World, terminal: Id, grant: Id, now: nat, order: seq<Id>)
    requires CanRevoke(w, terminal, grant, order)
    ensures Traces(w, OpRevoke(terminal, grant, now, order), RevokeGrant(w, terminal, grant, now, order))
  {
    hide WithdrawShares, IsOrder, OffersNamed, Capped, Bumped;
    if grant in w.st.grants && w.st.grants[grant].terminal == terminal {
      WithdrawTraces(w, terminal, w.st.grants[grant].name, "revoked", now, order);
    }
    assert w.runs + [] == w.runs;
  }

  lemma GrantedNotes(w: World, terminal: Id, name: string, id: Id, g: Grant, a: Activity)
    requires Tidy(w)
    ensures Noted(w, Push(AccessOperations.Grants(w, terminal, name, id, g), a), [a], 1)
  {
    hide Send, RequestsNamed;
  }

  lemma GenerateNotes(w: World, terminal: Id, name: string, agent: string, detail: Option<string>, value: string, replace: bool,
                      id: Id, now: nat, order: seq<Id>)
    requires Tidy(w) && CanGenerate(w, terminal, name, replace, order)
    ensures Notes(w, OpGenerate(terminal, name, agent, detail, value, replace, id, now, order),
                  GenerateSecret(w, terminal, name, agent, detail, value, replace, id, now, order))
  {
    hide WithdrawShares, IsOrder, OffersNamed, Noted, Tidy, Withdrawals, Push, DropGrants, FindGrant, GrantsOf, AccessOperations.Grants;
    var r := GenerateSecret(w, terminal, name, agent, detail, value, replace, id, now, order);
    var existing := FindGrant(w.st.grants, terminal, name);
    Counts(w, terminal, name);
    var done := Activity(terminal, SecretKind, ApprovedStatus, "Secret generated and granted",
                         if detail.Some? then detail.value else name, now);
    var g := NewGrant(terminal, name, "Generated for " + agent, value, now);
    if existing.Some? && replace {
      var w0 := WithdrawShares(w, terminal, name, "replaced", now, order);
      var a := Activity(terminal, SecretKind, RevokedStatus, "Secret grant replaced", name, now);
      var w1 := Push(DropGrants(w0, {existing.value}), a);
      var before := Withdrawals(w, order, "replaced", now);
      WithdrawNotes(w, terminal, name, "replaced", now, order);
      DropNotes(w0, existing.value, a);
      NotedThen(w, w0, w1, before, |order|, [a], 1);
      GrantedNotes(w1, terminal, name, id, g, done);
      NotedThen(w, w1, Push(AccessOperations.Grants(w1, terminal, name, id, g), done), [a] + before, |order| + 1, [done], 1);
      assert [] + ([a] + before) == [a] + before;
    } else {
      NothingNoted(w, w);
      GrantedNotes(w, terminal, name, id, g, done);
      assert [done] + [] == [done];
    }
  }

  lemma GenerateTraces(w: World, terminal: Id, name: string, agent: string, detail: Option<string>, value: string, replace: bool,
                       id: Id, now: nat, order: seq<Id>)
    requires CanGenerate(w, terminal, name, replace, order)
    ensures Traces(w, OpGenerate(terminal, name, agent, detail, value, replace, id, now, order),
                   GenerateSecret(w, terminal, name, agent, detail, value, replace, id, now, order))
  {
    hide WithdrawShares, IsOrder, OffersNamed, Capped, Bumped, FindGrant, GrantsOf, Send, RequestsNamed;
    if FindGrant(w.st.grants, terminal, name).Some? && replace {
      WithdrawTraces(w, terminal, name, "replaced", now, order);
    }
    assert w.runs + [] == w.runs;
  }

  // ---- every operation ------------------------------------------------------------------------------------

  ghost predicate Books(w: World, op: Op, r: Result) {
    Notes(w, op, r) && Traces(w, op, r)
  }

  lemma SudoBooks(w: World, op: Op)
    requires Tidy(w) && Enabled(w, op) && InvolvesSudo(op)
    ensures Books(w, op, Apply(w, op))
  {
    hide RequestSecret, RequestSudo, Reject, DetachWaiter, AddSecret, ApproveSecret, RevokeGrant, GenerateSecret,
         ExecuteSecret, ShareSecret, WaitShare, RevealShare, DismissShare, BeginSudo, AuthFailed, StartSudo, FinishSudo,
         AnnounceSudo, SpawnSudo, SudoOutput, AbortSudo, ClearTerminal, ClearInactive, ExpireShares, CanShare, CanRevoke,
         CanGenerate, Notes, Traces, Tidy;
    match op
    case OpBeginSudo(terminal, request, hash, call) =>
      BeginNotes(w, terminal, request, hash, call);
      BeginTraces(w, terminal, request, hash, call);
    case OpAuthFailed(call) =>
      FailedNotes(w, call);
      FailedTraces(w, call);
    case OpStart(call) =>
      StartNotes(w, call);
      StartTraces(w, call);
    case OpAnnounce(call) =>
      AnnounceNotes(w, call);
      AnnounceTraces(w, call);
    case OpSpawn(call) =>
      SpawnNotes(w, call);
      SpawnTraces(w, call);
    case OpOutput(call, data) =>
      OutputNotes(w, call, data);
      OutputTraces(w, call, data);
    case OpFinish(call, code, now) =>
      FinishNotes(w, call, code, now);
      FinishTraces(w, call, code, now);
    case OpAbort(call, message, now) =>
      AbortNotes(w, call, message, now);
      AbortTraces(w, call, message, now);
  }

  lemma ExpiringBooks(w: World, op: Op)
    requires Tidy(w) && Enabled(w, op) && Expires(op) && (op.OpShare? ==> op.id !in ExpireShares(w, op.now, op.order).st.shares)
    ensures Books(w, op, Apply(w, op))
  {
    hide RequestSecret, RequestSudo, Reject, DetachWaiter, AddSecret, ApproveSecret, RevokeGrant, GenerateSecret,
         ExecuteSecret, ShareSecret, WaitShare, RevealShare, DismissShare, BeginSudo, AuthFailed, StartSudo, FinishSudo,
         AnnounceSudo, SpawnSudo, SudoOutput, AbortSudo, ClearTerminal, ClearInactive, ExpireShares, CanRevoke,
         CanGenerate, Notes, Traces, Tidy, IsOrder, Due, NeedsVictim, IsOldestResolved;
    match op
    case OpExpire(now, order) =>
      ExpiringNotes(w, now, order);
      ExpiringTraces(w, now, order);
    case OpShare(terminal, name, agent, detail, ttl, id, now, order, victim) =>
      ShareNotes(w, terminal, name, agent, detail, ttl, id, now, order, victim);
      ShareTraces(w, terminal, name, agent, detail, ttl, id, now, order, victim);
    case OpWait(terminal, share, now, order) =>
      WaitNotes(w, terminal, share, now, order);
      WaitTraces(w, terminal, share, now, order);
    case OpReveal(terminal, share, now, order) =>
      RevealNotes(w, terminal, share, now, order);
      ActTraces(w, terminal, share, now, order);
    case OpDismiss(terminal, share, now, order) =>
      DismissNotes(w, terminal, share, now, order);
      ActTraces(w, terminal, share, now, order);
  }

  lemma OtherBooks(w: World, op: Op)
    requires Tidy(w) && Enabled(w, op) && !InvolvesSudo(op) && !Expires(op) && w.st.requests.Keys <= w.used
    ensures Books(w, op, Apply(w, op))
  {
    hide RequestSecret, RequestSudo, Reject, DetachWaiter, AddSecret, ApproveSecret, RevokeGrant, GenerateSecret,
         ExecuteSecret, ShareSecret, WaitShare, RevealShare, DismissShare, BeginSudo, AuthFailed, StartSudo, FinishSudo,
         AnnounceSudo, SpawnSudo, SudoOutput, AbortSudo, ClearTerminal, ClearInactive, ExpireShares, CanShare, CanRevoke,
         CanGenerate, Notes, Traces, Tidy;
    match op
    case OpRequestSecret(terminal, name, description, agent, id, hash, now) =>
      AskSecretNotes(w, terminal, name, description, agent, id, hash, now);
      AskSecretTraces(w, terminal, name, description, agent, id, hash, now);
    case OpRequestSudo(terminal, command, description, agent, id, hash, now, pick) =>
      AskSudoNotes(w, terminal, command, description, agent, id, hash, now, pick);
      AskSudoTraces(w, terminal, command, description, agent, id, hash, now, pick);
    case OpReject(terminal, request, hash, comment, now) =>
      RejectNotes(w, terminal, request, hash, comment, now);
      RejectTraces(w, terminal, request, hash, comment, now);
    case OpDetach(channel, now) =>
      DetachNotes(w, channel, now);
      DetachTraces(w, channel, now);
    case OpAddSecret(terminal, name, value, detail, id, now) =>
      AddNotes(w, terminal, name, value, detail, id, now);
      AddTraces(w, terminal, name, value, detail, id, now);
    case OpApproveSecret(terminal, request, hash, value, id, now) =>
      ApproveNotes(w, terminal, request, hash, value, id, now);
      ApproveTraces(w, terminal, request, hash, value, id, now);
    case OpRevoke(terminal, grant, now, order) =>
      RevokeNotes(w, terminal, grant, now, order);
      RevokeTraces(w, terminal, grant, now, order);
    case OpGenerate(terminal, name, agent, detail, value, replace, id, now, order) =>
      GenerateNotes(w, terminal, name, agent, detail, value, replace, id, now, order);
      GenerateTraces(w, terminal, name, agent, detail, value, replace, id, now, order);
    case OpExecute(terminal, name, display, id, now) =>
      ExecuteNotes(w, terminal, name, display, id, now);
      ExecuteTraces(w, terminal, name, display, id, now);
    case OpFinishExecution(id) =>
      EndedNotes(w, id);
      EndedTraces(w, id);
    case OpClearTerminal(terminal) =>
      ClearNotes(w, terminal, {});
      ClearTraces(w, terminal, {});
    case OpClearInactive(active) =>
      ClearNotes(w, 0, active);
      ClearTraces(w, 0, active);
  }

  lemma TidyIs(w: World)
    requires Inv(w)
    ensures Tidy(w)
  {
    hide GrantsOk, RequestsOk, SharesOk, ExecutionsOk, IdsOk, FiledOk, WaitersOk, ChannelsOk, SudoOk;
  }

  lemma NewShareId(w: World, op: Op)
    requires Inv(w) && Enabled(w, op) && op.OpShare?
    ensures IsOrder(op.order, Due(w.st.shares, op.now)) && op.id !in ExpireShares(w, op.now, op.order).st.shares
  {
    hide Inv, ExpireShares, IsOrder, Due, Aged, NeedsVictim, IsOldestResolved;
    KeysApart(w, 0);
    AgedThere(w, op.now, op.order, op.id);
    AgedTerminals(w.st.shares, op.now);
  }

  /** Every operation records, moves the revision, and counts subscriptions, runs and filings exactly
      as its ledger says. */
  lemma StepBooks(w: World, op: Op)
    requires Inv(w) && Enabled(w, op)
    ensures Books(w, op, Apply(w, op))
  {
    hide Inv, Enabled, Apply, Books, Tidy, ExpireShares, IsOrder, Due;
    TidyIs(w);
    KeysApart(w, 0);
    if InvolvesSudo(op) {
      SudoBooks(w, op);
    } else if Expires(op) {
      if op.OpShare? {
        NewShareId(w, op);
      }
      ExpiringBooks(w, op);
    } else {
      OtherBooks(w, op);
    }
  }
}
