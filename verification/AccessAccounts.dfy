/** What every operation does to every entry of every table, and what is sent on every channel,
    given what it answers. Each table has its own account, in the terms of a caller. */
module AccessAccounts {
  import opened Wrappers
  import opened AccessModel
  import opened AccessOperations
  import opened AccessInvariant
  import opened AccessChanges

  function At<V>(m: map<Id, V>, k: Id): Option<V> {
    if k in m then Some(m[k]) else None
  }

  // ---- requests ---------------------------------------------------------------------------------

  /** A pending request for this secret. */
  predicate WaitsFor(r: Request, terminal: Id, name: string) {
    r.terminal == terminal && r.state.Pending? && r.kind == Secret(name)
  }

  /** An id that was drawn holds the new request; another that was given to the caller one waiter more. */
  function AskedFor(r: Option<Request>, outcome: Outcome, k: Id, id: Id, filed: Request): Option<Request> {
    if outcome != Attached(k) then r
    else if k == id then Some(filed)
    else if r.Some? then Some(r.value.(waiters := r.value.waiters + 1))
    else r
  }

  function InState(r: Option<Request>, state: RequestState): Option<Request> {
    if r.Some? then Some(r.value.(state := state)) else None
  }

  function LeftBy(r: Option<Request>): Option<Request> {
    if r.None? || (r.value.state.Pending? && r.value.waiters <= 1) then None
    else Some(r.value.(waiters := if r.value.waiters == 0 then 0 else r.value.waiters - 1))
  }

  /** The request an approval is about. */
  predicate Concerns(w: World, call: Id, k: Id) {
    call in w.approvers && w.approvers[call].request == k
  }

  function RequestAfter(w: World, op: Op, outcome: Outcome, k: Id): Option<Request> {
    var r := At(w.st.requests, k);
    match op
    case OpRequestSecret(terminal, name, description, agent, id, hash, now) =>
      AskedFor(r, outcome, k, id, Request(terminal, hash, Secret(name), Pending, description, agent, now, 1))
    case OpRequestSudo(terminal, command, description, agent, id, hash, now, _) =>
      AskedFor(r, outcome, k, id, Request(terminal, hash, Sudo(command), Pending, description, agent, now, 1))
    case OpReject(_, request, _, _, _) => if outcome == Done && k == request then None else r
    case OpDetach(channel, _) => if k == channel && k !in w.st.shares then LeftBy(r) else r
    case OpAddSecret(terminal, name, _, _, _, _) =>
      if outcome == Done && r.Some? && WaitsFor(r.value, terminal, name) then None else r
    case OpApproveSecret(_, request, _, _, _, _) => if outcome == Done && k == request then None else r
    case OpGenerate(terminal, name, _, _, _, _, _, _, _) =>
      if outcome == Done && r.Some? && WaitsFor(r.value, terminal, name) then None else r
    case OpBeginSudo(_, request, _, _) => if outcome == Done && k == request then InState(r, Authenticating) else r
    case OpAuthFailed(call) => if Concerns(w, call, k) then InState(r, Pending) else r
    case OpStart(call) => if Concerns(w, call, k) then InState(r, Running) else r
    case OpFinish(call, _, _) => if Concerns(w, call, k) then None else r
    case OpAbort(call, _, _) => if Concerns(w, call, k) then None else r
    case OpClearTerminal(terminal) => if r.Some? && r.value.terminal == terminal then None else r
    case OpClearInactive(active) => if r.Some? && r.value.terminal !in active then None else r
    case _ => r
  }

  // ---- grants -------------------------------------------------------------------------------------

  predicate Grants(g: Option<Grant>, terminal: Id, name: string) {
    g.Some? && g.value.terminal == terminal && g.value.name == name
  }

  function Fresh(terminal: Id, name: string, source: string, value: string, now: nat): Option<Grant> {
    Some(Grant(terminal, name, source, now, 0, None, None, value))
  }

  /** What a request asks to be told. */
  function NameAsked(w: World, request: Id): string {
    if request in w.st.requests && w.st.requests[request].kind.Secret? then w.st.requests[request].kind.name else ""
  }

  function UsedBy(g: Option<Grant>, display: string, now: nat): Option<Grant> {
    if g.None? then None
    else
      var uses := if g.value.uses < 0xFFFF_FFFF_FFFF_FFFF then g.value.uses + 1 else 0xFFFF_FFFF_FFFF_FFFF;
      Some(g.value.(uses := uses, lastUsedAt := Some(now), lastCommand := Some(display)))
  }

  function GrantAfter(w: World, op: Op, outcome: Outcome, k: Id): Option<Grant> {
    var g := At(w.st.grants, k);
    match op
    case OpAddSecret(terminal, name, value, _, id, now) =>
      if outcome == Done && k == id then Fresh(terminal, name, "Added by you", value, now) else g
    case OpApproveSecret(terminal, request, _, value, id, now) =>
      if outcome == Done && k == id then Fresh(terminal, NameAsked(w, request), "Approved request", value, now) else g
    case OpRevoke(_, grant, _, _) => if outcome == Done && k == grant then None else g
    case OpGenerate(terminal, name, agent, _, value, replace, id, now, _) =>
      if outcome == Done && k == id then Fresh(terminal, name, "Generated for " + agent, value, now)
      else if replace && Grants(g, terminal, name) then None else g
    case OpExecute(terminal, name, display, _, now) =>
      if outcome == Done && Grants(g, terminal, name) then UsedBy(g, display, now) else g
    case OpClearTerminal(terminal) => if g.Some? && g.value.terminal == terminal then None else g
    case OpClearInactive(active) => if g.Some? && g.value.terminal !in active then None else g
    case _ => g
  }

  // ---- shares ---------------------------------------------------------------------------------------

  predicate Open(s: Option<Share>) {
    s.Some? && s.value.state.Offered?
  }

  predicate Overdue(s: Option<Share>, now: nat) {
    Open(s) && s.value.expiresAt <= now
  }

  function Over(s: Option<Share>, state: ShareState, now: nat): Option<Share> {
    if s.None? then None else Some(s.value.(state := state, resolvedAt := Some(now), value := ""))
  }

  /** Six hours after a share was resolved it is forgotten. */
  predicate Forgettable(s: Option<Share>, now: nat) {
    && s.Some? && !s.value.state.Offered? && s.value.resolvedAt.Some?
    && var until := s.value.resolvedAt.value + 21_600_000;
       (if until > 0xFFFF_FFFF_FFFF_FFFF then 0xFFFF_FFFF_FFFF_FFFF else until) <= now
  }

  /** What the clock makes of a share. */
  function Aged(s: Option<Share>, now: nat): Option<Share> {
    var over := if Overdue(s, now) then Over(s, ShareState.Expired, now) else s;
    if Forgettable(over, now) then None else over
  }

  function WaitedFor(s: Option<Share>): Option<Share> {
    if s.None? then None else Some(s.value.(waiters := s.value.waiters + 1))
  }

  predicate Names(s: Option<Share>, terminal: Id, name: string) {
    Open(s) && s.value.terminal == terminal && s.value.name == name
  }

  /** The share is withdrawn with the grant it was made from. */
  predicate Withdrawn(w: World, op: Op, outcome: Outcome, s: Option<Share>) {
    match op
    case OpRevoke(terminal, grant, _, _) => outcome == Done && grant in w.st.grants && Names(s, terminal, w.st.grants[grant].name)
    case OpGenerate(terminal, name, _, _, _, replace, _, _, _) =>
      replace && Names(s, terminal, name) && exists g | g in w.st.grants :: Grants(At(w.st.grants, g), terminal, name)
    case _ => false
  }

  /** After what is due has expired the terminal still has 32 shares. */
  ghost predicate NoRoom(w: World, terminal: Id, now: nat) {
    |set k | k in w.st.shares && w.st.shares[k].terminal == terminal && Aged(At(w.st.shares, k), now).Some?| >= 32
  }

  ghost function Offer(w: World, terminal: Id, name: string, detail: Option<string>, agent: string, ttl: nat, now: nat): Option<Share> {
    var g := FindGrant(w.st.grants, terminal, name);
    if g.None? then None
    else
      var end := now + ttl;
      Some(Share(terminal, name, detail, agent, Offered, now,
                 if end > 0xFFFF_FFFF_FFFF_FFFF then 0xFFFF_FFFF_FFFF_FFFF else end, None, None, 1, w.st.grants[g.value].value))
  }

  ghost function ShareAfter(w: World, op: Op, outcome: Outcome, k: Id): Option<Share> {
    var s := At(w.st.shares, k);
    match op
    case OpExpire(now, _) => Aged(s, now)
    case OpShare(terminal, name, agent, detail, ttl, id, now, _, victim) =>
      if outcome == Attached(id) && k == id then Offer(w, terminal, name, detail, agent, ttl, now)
      else if outcome == Attached(k) then WaitedFor(Aged(s, now))
      else if outcome == Attached(id) && k == victim && NoRoom(w, terminal, now) then None
      else Aged(s, now)
    case OpWait(_, share, now, _) => if outcome == Attached(k) then WaitedFor(Aged(s, now)) else Aged(s, now)
    case OpReveal(_, share, now, _) =>
      if outcome.Revealed? && k == share && s.Some? then Over(Some(s.value.(viewedAt := Some(now))), Viewed, now) else Aged(s, now)
    case OpDismiss(_, share, now, _) => if outcome == Done && k == share then Over(s, Dismissed, now) else Aged(s, now)
    case OpRevoke(_, _, now, _) => if Withdrawn(w, op, outcome, s) then Over(s, ShareState.Expired, now) else s
    case OpGenerate(_, _, _, _, _, _, _, now, _) => if Withdrawn(w, op, outcome, s) then Over(s, ShareState.Expired, now) else s
    case OpDetach(channel, _) =>
      if k == channel && s.Some? then Some(s.value.(waiters := if s.value.waiters == 0 then 0 else s.value.waiters - 1)) else s
    case OpClearTerminal(terminal) => if s.Some? && s.value.terminal == terminal then None else s
    case OpClearInactive(active) => if s.Some? && s.value.terminal !in active then None else s
    case _ => s
  }

  // ---- executions and approvals -----------------------------------------------------------------------

  function ExecutionAfter(w: World, op: Op, outcome: Outcome, k: Id): Option<Execution> {
    var e := At(w.st.executions, k);
    match op
    case OpExecute(terminal, _, _, id, _) => if outcome == Done && k == id then Some(Execution(terminal)) else e
    case OpFinishExecution(id) => if k == id then None else e
    case OpClearTerminal(terminal) => if e.Some? && e.value.terminal == terminal then None else e
    case OpClearInactive(active) => if e.Some? && e.value.terminal !in active then None else e
    case _ => e
  }

  function ApproverAfter(w: World, op: Op, outcome: Outcome, k: Id): Option<Approver> {
    var a := At(w.approvers, k);
    match op
    case OpBeginSudo(terminal, request, hash, call) =>
      if outcome == Done && k == call && request in w.st.requests && w.st.requests[request].kind.Sudo? then
        Some(Approver(request, terminal, hash, w.st.requests[request].kind.command, CheckingPassword))
      else a
    case OpAuthFailed(call) => if k == call then None else a
    case OpStart(call) => if k != call || a.None? then a else if outcome == Done then Some(a.value.(phase := Approved)) else None
    case OpAnnounce(call) => if k == call && a.Some? then Some(a.value.(phase := Announced)) else a
    case OpSpawn(call) => if k == call && a.Some? then Some(a.value.(phase := Executing)) else a
    case OpFinish(call, _, _) => if k == call then None else a
    case OpAbort(call, _, _) => if k == call then None else a
    case _ => a
  }

  // ---- channels ------------------------------------------------------------------------------------------

  function Told(told: bool, event: Event): seq<Event> {
    if told then [event] else []
  }

  predicate AsksIn(w: World, k: Id, terminal: Id, name: string) {
    k in w.st.requests && WaitsFor(w.st.requests[k], terminal, name)
  }

  function ShareName(w: World, k: Id): string {
    if k in w.st.shares then w.st.shares[k].name else ""
  }

  /** What one operation sends on the channel `k`. */
  function Sent(w: World, op: Op, outcome: Outcome, k: Id): seq<Event> {
    var s := At(w.st.shares, k);
    match op
    case OpExpire(now, _) => Told(Overdue(s, now), ExpiredEvent(ShareName(w, k)))
    case OpShare(_, _, _, _, _, _, now, _, _) => Told(Overdue(s, now), ExpiredEvent(ShareName(w, k)))
    case OpWait(_, _, now, _) => Told(Overdue(s, now), ExpiredEvent(ShareName(w, k)))
    case OpReveal(_, share, now, _) =>
      if outcome.Revealed? && k == share then [ViewedEvent(ShareName(w, k))] else Told(Overdue(s, now), ExpiredEvent(ShareName(w, k)))
    case OpDismiss(_, share, now, _) =>
      if outcome == Done && k == share then [DismissedEvent(ShareName(w, k))] else Told(Overdue(s, now), ExpiredEvent(ShareName(w, k)))
    case OpRevoke(_, _, _, _) => Told(Withdrawn(w, op, outcome, s), ExpiredEvent(ShareName(w, k)))
    case OpGenerate(terminal, name, _, _, _, _, _, _, _) =>
      if Withdrawn(w, op, outcome, s) then [ExpiredEvent(ShareName(w, k))]
      else Told(outcome == Done && AsksIn(w, k, terminal, name), GrantedEvent(name))
    case OpReject(_, request, _, comment, _) => Told(outcome == Done && k == request, RejectedEvent(comment))
    case OpAddSecret(terminal, name, _, _, _, _) => Told(outcome == Done && AsksIn(w, k, terminal, name), GrantedEvent(name))
    case OpApproveSecret(_, request, _, _, _, _) => Told(outcome == Done && k == request, GrantedEvent(NameAsked(w, k)))
    case OpAnnounce(call) => Told(Concerns(w, call, k), RunningEvent(Some(k)))
    case OpOutput(call, data) => Told(Concerns(w, call, k), OutputEvent(data))
    case OpFinish(call, code, _) => Told(Concerns(w, call, k), CompletedEvent(code))
    case OpAbort(call, message, _) => Told(Concerns(w, call, k) && k in w.st.requests, FailedEvent(message))
    case OpClearTerminal(terminal) =>
      Told((k in w.st.requests && w.st.requests[k].terminal == terminal) || (Open(s) && s.value.terminal == terminal),
           FailedEvent("terminal closed"))
    case OpClearInactive(active) =>
      Told((k in w.st.requests && w.st.requests[k].terminal !in active) || (Open(s) && s.value.terminal !in active),
           FailedEvent("terminal exited"))
    case _ => []
  }

  function Grown(events: seq<Event>, sent: seq<Event>): (grown: seq<Event>)
    ensures grown == events + sent
  {
    if sent == [] then events else events + sent
  }

  /** A channel opens empty with the entry that was filed. */
  function ChannelAfter(w: World, op: Op, outcome: Outcome, k: Id): Option<seq<Event>> {
    if (op.OpRequestSecret? || op.OpRequestSudo? || op.OpShare?) && outcome == Attached(k) && k == op.id then Some([])
    else if k in w.log then Some(Grown(w.log[k], Sent(w, op, outcome, k)))
    else None
  }

  // ---- all of it ---------------------------------------------------------------------------------------

  datatype Entry = Entry(
    request: Option<Request>, grant: Option<Grant>, share: Option<Share>, execution: Option<Execution>,
    approver: Option<Approver>, events: Option<seq<Event>>)

  function EntryAt(w: World, k: Id): Entry {
    Entry(At(w.st.requests, k), At(w.st.grants, k), At(w.st.shares, k), At(w.st.executions, k), At(w.approvers, k), At(w.log, k))
  }

  ghost function EntryAfter(w: World, op: Op, outcome: Outcome, k: Id): Entry {
    Entry(RequestAfter(w, op, outcome, k), GrantAfter(w, op, outcome, k), ShareAfter(w, op, outcome, k),
          ExecutionAfter(w, op, outcome, k), ApproverAfter(w, op, outcome, k), ChannelAfter(w, op, outcome, k))
  }

  /** The account of one operation. */
  ghost predicate Accounts(w: World, op: Op, r: Result, k: Id) {
    EntryAt(r.world, k) == EntryAfter(w, op, r.outcome, k)
  }

  lemma RejectEntry(w: World, terminal: Id, request: Id, hash: string, comment: Option<string>, now: nat, k: Id)
    ensures Accounts(w, OpReject(terminal, request, hash, comment, now), Reject(w, terminal, request, hash, comment, now), k)
  {
    hide RequestKind.Summary, KindOf, EntryAt, EntryAfter, Push, CloseRequests;
    var op, r := OpReject(terminal, request, hash, comment, now), Reject(w, terminal, request, hash, comment, now);
    if r.outcome.Refused? {
      RefusedEntry(w, op, r.outcome.error, k);
    } else {
      var kind := w.st.requests[request].kind;
      BumpEntry(CloseRequests(w, {request}, RejectedEvent(comment)),
                Activity(terminal, KindOf(kind), RejectedStatus,
                         if kind.Secret? then "Secret request rejected" else "Root command rejected", Or(comment, kind.Summary()), now), k);
      RejectedEntry(w, op, k);
    }
  }

  /** What is refused leaves every entry as it is. */
  lemma RefusedEntry(w: World, op: Op, error: AccessError, k: Id)
    requires op.OpReject? || op.OpApproveSecret? || op.OpBeginSudo? || op.OpExecute?
    ensures EntryAfter(w, op, Refused(error), k) == EntryAt(w, k)
  {
  }

  lemma RejectedEntry(w: World, op: Op, k: Id)
    requires op.OpReject? && op.request in w.st.requests
    ensures EntryAt(CloseRequests(w, {op.request}, RejectedEvent(op.comment)), k) == EntryAfter(w, op, Done, k)
  {
  }

  lemma SameEntry(w: World, w': World, k: Id)
    requires w'.st.(revision := 0, activity := []) == w.st.(revision := 0, activity := [])
    requires w'.approvers == w.approvers && w'.log == w.log
    ensures EntryAt(w', k) == EntryAt(w, k)
  {
  }

  lemma JoinEntry(w: World, id: Id, k: Id)
    requires id in w.st.requests
    ensures EntryAt(JoinRequest(w, id), k) ==
            if k != id then EntryAt(w, k)
            else EntryAt(w, k).(request := Some(w.st.requests[k].(waiters := w.st.requests[k].waiters + 1)))
  {
  }

  lemma FileEntry(w: World, id: Id, r: Request, k: Id)
    ensures EntryAt(Bump(AddRequest(w, id, r)), k) ==
            if k != id then EntryAt(w, k) else EntryAt(w, k).(request := Some(r), events := Some([]))
  {
    hide Bumped;
  }

  lemma AskedRest(w: World, outcome: Outcome, k: Id, op: Op)
    requires op.OpRequestSecret? || op.OpRequestSudo?
    ensures EntryAfter(w, op, outcome, k) ==
            EntryAt(w, k).(request := RequestAfter(w, op, outcome, k),
                           events := if outcome == Attached(k) && k == op.id then Some([]) else At(w.log, k))
  {
    hide RequestAfter;
  }

  /** What asking does to an entry: nothing, one waiter more, or a new request. */
  lemma AskedEntry(w: World, w': World, outcome: Outcome, id: Id, r: Request, k: Id, op: Op)
    requires op.OpRequestSecret? || op.OpRequestSudo?
    requires op.id == id && id !in w.st.requests
    requires RequestAfter(w, op, outcome, k) == AskedFor(At(w.st.requests, k), outcome, k, id, r)
    requires if !outcome.Attached? then w' == w
             else if outcome.channel == id then w' == Bump(AddRequest(w, id, r))
             else outcome.channel in w.st.requests && w' == JoinRequest(w, outcome.channel)
    ensures EntryAt(w', k) == EntryAfter(w, op, outcome, k)
  {
    hide Bump, AddRequest, JoinRequest, RequestAfter, EntryAfter;
    AskedRest(w, outcome, k, op);
    if outcome.Attached? {
      if outcome.channel == id {
        FileEntry(w, id, r, k);
      } else {
        JoinEntry(w, outcome.channel, k);
      }
    }
  }

  lemma AskSecretEntry(w: World, terminal: Id, name: string, description: string, agent: string, id: Id, hash: string, now: nat, k: Id)
    requires id !in w.used && w.st.requests.Keys <= w.used
    ensures Accounts(w, OpRequestSecret(terminal, name, description, agent, id, hash, now),
                     RequestSecret(w, terminal, name, description, agent, id, hash, now), k)
  {
    hide Granted, FindRequest, PendingOf, AsksFor, Bump, AddRequest, JoinRequest, EntryAt, EntryAfter, AskedFor;
    var r := RequestSecret(w, terminal, name, description, agent, id, hash, now);
    AskedEntry(w, r.world, r.outcome, id, Request(terminal, hash, Secret(name), Pending, description, agent, now, 1), k,
               OpRequestSecret(terminal, name, description, agent, id, hash, now));
  }

  lemma AskSudoEntry(w: World, terminal: Id, command: SudoCommand, description: string, agent: string, id: Id, hash: string,
                     now: nat, pick: Option<Id>, k: Id)
    requires id !in w.used && w.st.requests.Keys <= w.used
    requires PicksCommand(w, terminal, command.fingerprint, pick)
    ensures Accounts(w, OpRequestSudo(terminal, command, description, agent, id, hash, now, pick),
                     RequestSudo(w, terminal, command, description, agent, id, hash, now, pick), k)
  {
    hide PendingOf, AsksToRun, Bump, AddRequest, JoinRequest, EntryAt, EntryAfter, AskedFor;
    var r := RequestSudo(w, terminal, command, description, agent, id, hash, now, pick);
    AskedEntry(w, r.world, r.outcome, id, Request(terminal, hash, Sudo(command), Pending, description, agent, now, 1), k,
               OpRequestSudo(terminal, command, description, agent, id, hash, now, pick));
  }

  lemma LeaveShareEntry(w: World, channel: Id, now: nat, k: Id)
    requires channel in w.st.shares
    ensures EntryAt(LeaveShare(w, channel), k) == EntryAfter(w, OpDetach(channel, now), Done, k)
  {
  }

  lemma LeaveRequestEntry(w: World, channel: Id, now: nat, k: Id)
    requires channel !in w.st.shares && channel in w.st.requests
    requires !(Less1(w.st.requests[channel].waiters) == 0 && w.st.requests[channel].state.Pending?)
    ensures EntryAt(LeaveRequest(w, channel), k) == EntryAfter(w, OpDetach(channel, now), Done, k)
  {
  }

  lemma CancelEntry(w: World, channel: Id, now: nat, k: Id)
    requires channel !in w.st.shares && channel in w.st.requests
    requires Less1(w.st.requests[channel].waiters) == 0 && w.st.requests[channel].state.Pending?
    ensures EntryAt(DropRequests(Unsubscribe(w, channel), {channel}), k) == EntryAfter(w, OpDetach(channel, now), Done, k)
  {
  }

  lemma BumpEntry(w: World, a: Activity, k: Id)
    ensures EntryAt(Bump(w), k) == EntryAt(w, k) && EntryAt(Push(w, a), k) == EntryAt(w, k)
  {
    hide Bumped, Capped;
  }

  lemma DetachEntry(w: World, channel: Id, now: nat, k: Id)
    ensures Accounts(w, OpDetach(channel, now), DetachWaiter(w, channel, now), k)
  {
    hide RequestKind.Summary, KindOf, Bump, Push, LeaveShare, LeaveRequest, DropRequests, EntryAt, EntryAfter;
    if channel in w.st.shares {
      LeaveShareEntry(w, channel, now, k);
      BumpEntry(LeaveShare(w, channel), AnyRecord, k);
    } else if channel !in w.st.requests {
      NobodyEntry(w, channel, now, k);
      BumpEntry(Unsubscribe(w, channel), AnyRecord, k);
    } else {
      var r := w.st.requests[channel];
      if Less1(r.waiters) == 0 && r.state.Pending? {
        CancelEntry(w, channel, now, k);
        BumpEntry(DropRequests(Unsubscribe(w, channel), {channel}),
                  Activity(r.terminal, KindOf(r.kind), CanceledStatus,
                           if r.kind.Secret? then "Secret request canceled" else "Root command canceled",
                           r.kind.Summary(), now), k);
      } else {
        LeaveRequestEntry(w, channel, now, k);
        BumpEntry(LeaveRequest(w, channel), AnyRecord, k);
      }
    }
  }

  const AnyRecord := Activity(0, SecretKind, FailedStatus, "", "", 0)

  lemma NobodyEntry(w: World, channel: Id, now: nat, k: Id)
    requires channel !in w.st.shares && channel !in w.st.requests
    ensures EntryAt(Unsubscribe(w, channel), k) == EntryAfter(w, OpDetach(channel, now), Done, k)
  {
  }

  lemma AddEntry(w: World, terminal: Id, name: string, value: string, description: Option<string>, id: Id, now: nat, k: Id)
    ensures Accounts(w, OpAddSecret(terminal, name, value, description, id, now),
                     AddSecret(w, terminal, name, value, description, id, now), k)
  {
    hide Granted, GrantsOf, Capped, Bumped;
  }

  lemma ApprovedEntry(w: World, op: Op, g: Grant, k: Id)
    requires op.OpApproveSecret? && op.request in w.st.requests && w.st.requests[op.request].kind.Secret?
    requires Fresh(op.terminal, NameAsked(w, op.request), "Approved request", op.value, op.now) == Some(g)
    ensures EntryAt(AddGrant(CloseRequests(w, {op.request}, GrantedEvent(NameAsked(w, op.request))), op.id, g), k) == EntryAfter(w, op, Done, k)
  {
  }

  lemma ApproveEntry(w: World, terminal: Id, request: Id, hash: string, value: string, id: Id, now: nat, k: Id)
    ensures Accounts(w, OpApproveSecret(terminal, request, hash, value, id, now),
                     ApproveSecret(w, terminal, request, hash, value, id, now), k)
  {
    hide Granted, GrantsOf, EntryAt, EntryAfter, Push, AddGrant, CloseRequests;
    var op, r := OpApproveSecret(terminal, request, hash, value, id, now), ApproveSecret(w, terminal, request, hash, value, id, now);
    if r.outcome.Refused? {
      RefusedEntry(w, op, r.outcome.error, k);
    } else {
      var name := w.st.requests[request].kind.name;
      var g := NewGrant(terminal, name, "Approved request", value, now);
      BumpEntry(AddGrant(CloseRequests(w, {request}, GrantedEvent(name)), id, g),
                Activity(terminal, SecretKind, ApprovedStatus, "Secret request approved", name, now), k);
      ApprovedEntry(w, op, g, k);
    }
  }

  lemma BegunEntry(w: World, op: Op, a: Approver, k: Id)
    requires op.OpBeginSudo? && op.request in w.st.requests && w.st.requests[op.request].kind.Sudo?
    requires a == Approver(op.request, op.terminal, op.hash, w.st.requests[op.request].kind.command, CheckingPassword)
    ensures EntryAt(SetApprover(SetRequestState(w, op.request, Authenticating), op.call, a), k) == EntryAfter(w, op, Done, k)
  {
  }

  lemma UsedEntry(w: World, used: set<Id>, k: Id)
    ensures EntryAt(Bump(w).(used := used), k) == EntryAt(w, k)
  {
    hide Bumped;
  }

  lemma BeginEntry(w: World, terminal: Id, request: Id, hash: string, call: Id, k: Id)
    ensures Accounts(w, OpBeginSudo(terminal, request, hash, call), BeginSudo(w, terminal, request, hash, call), k)
  {
    hide EntryAt, EntryAfter, Bump, SetApprover, SetRequestState;
    var op, r := OpBeginSudo(terminal, request, hash, call), BeginSudo(w, terminal, request, hash, call);
    if r.outcome.Refused? {
      RefusedEntry(w, op, r.outcome.error, k);
    } else {
      var a := Approver(request, terminal, hash, w.st.requests[request].kind.command, CheckingPassword);
      BegunEntry(w, op, a, k);
      UsedEntry(SetApprover(SetRequestState(w, request, Authenticating), call, a), w.used + {call}, k);
    }
  }

  lemma FailedEntry(w: World, call: Id, k: Id)
    requires call in w.approvers
    ensures Accounts(w, OpAuthFailed(call), AuthFailed(w, call), k)
  {
    hide Bumped;
  }

  lemma StartEntry(w: World, call: Id, k: Id)
    requires call in w.approvers
    ensures Accounts(w, OpStart(call), StartSudo(w, call), k)
  {
    hide Bumped;
  }

  lemma AnnounceEntry(w: World, call: Id, k: Id)
    requires call in w.approvers
    ensures Accounts(w, OpAnnounce(call), AnnounceSudo(w, call), k)
  {
  }

  lemma SpawnEntry(w: World, call: Id, k: Id)
    requires call in w.approvers
    ensures Accounts(w, OpSpawn(call), SpawnSudo(w, call), k)
  {
  }

  lemma OutputEntry(w: World, call: Id, data: seq<nat>, k: Id)
    requires call in w.approvers
    ensures Accounts(w, OpOutput(call, data), SudoOutput(w, call, data), k)
  {
  }

  lemma FinishEntry(w: World, call: Id, code: int, now: nat, k: Id)
    requires call in w.approvers
    ensures Accounts(w, OpFinish(call, code, now), FinishSudo(w, call, code, now), k)
  {
    hide Capped, Bumped;
  }

  lemma AbortEntry(w: World, call: Id, message: string, now: nat, k: Id)
    requires call in w.approvers
    ensures Accounts(w, OpAbort(call, message, now), AbortSudo(w, call, message, now), k)
  {
    hide Capped, Bumped, RequestKind.Summary, KindOf;
  }

  lemma ExecutedEntry(w: World, op: Op, g: Id, used: Grant, w': World, k: Id)
    requires GrantNamesUnique(w.st.grants) && op.OpExecute?
    requires g in w.st.grants && IsGrant(w.st.grants[g], op.terminal, op.name)
    requires UsedBy(Some(w.st.grants[g]), op.display, op.now) == Some(used)
    requires w' == w.(st := w.st.(grants := w.st.grants[g := used], executions := w.st.executions[op.id := Execution(op.terminal)]))
    ensures EntryAt(w', k) == EntryAfter(w, op, Done, k)
  {
    hide UsedBy;
  }

  lemma ExecuteEntry(w: World, terminal: Id, name: string, display: string, id: Id, now: nat, k: Id)
    requires GrantNamesUnique(w.st.grants)
    ensures Accounts(w, OpExecute(terminal, name, display, id, now), ExecuteSecret(w, terminal, name, display, id, now), k)
  {
    hide ExecutionsOf, FindGrant, EntryAt, EntryAfter, Bump, GrantNamesUnique;
    var op, r := OpExecute(terminal, name, display, id, now), ExecuteSecret(w, terminal, name, display, id, now);
    if r.outcome.Refused? {
      RefusedEntry(w, op, r.outcome.error, k);
    } else {
      var g := FindGrant(w.st.grants, terminal, name).value;
      var used := w.st.grants[g].(uses := SaturatingAdd(w.st.grants[g].uses, 1), lastUsedAt := Some(now), lastCommand := Some(display));
      var w' := w.(st := w.st.(grants := w.st.grants[g := used], executions := w.st.executions[id := Execution(terminal)]));
      ExecutedEntry(w, op, g, used, w', k);
      StampedEntry(w', w.used + {id}, k);
    }
  }

  lemma StampedEntry(w: World, used: set<Id>, k: Id)
    ensures EntryAt(Bump(w.(used := used)), k) == EntryAt(w, k)
  {
    hide Bumped;
  }

  lemma FinishExecutionEntry(w: World, id: Id, k: Id)
    ensures Accounts(w, OpFinishExecution(id), FinishExecution(w, id), k)
  {
  }

  lemma ClearOnlyEntry(w: World, terminal: Id, k: Id)
    requires k in w.st.requests ==> k !in w.st.shares
    ensures EntryAt(Clear(w, Only(terminal), "terminal closed"), k) == EntryAfter(w, OpClearTerminal(terminal), Done, k)
  {
  }

  lemma ClearExceptEntry(w: World, active: set<Id>, k: Id)
    requires k in w.st.requests ==> k !in w.st.shares
    ensures EntryAt(Clear(w, Except(active), "terminal exited"), k) == EntryAfter(w, OpClearInactive(active), Done, k)
  {
  }

  lemma ClearTerminalEntry(w: World, terminal: Id, k: Id)
    requires k in w.st.requests ==> k !in w.st.shares
    ensures Accounts(w, OpClearTerminal(terminal), ClearTerminal(w, terminal), k)
  {
    hide WithoutTerminal, Bumped, Clear, EntryAfter;
    ClearOnlyEntry(w, terminal, k);
    SameEntry(Clear(w, Only(terminal), "terminal closed"), ClearTerminal(w, terminal).world, k);
  }

  lemma ClearInactiveEntry(w: World, active: set<Id>, k: Id)
    requires k in w.st.requests ==> k !in w.st.shares
    ensures Accounts(w, OpClearInactive(active), ClearInactive(w, active), k)
  {
    hide Bumped, OwnsNothing, Clear, EntryAfter;
    ClearExceptEntry(w, active, k);
    SameEntry(Clear(w, Except(active), "terminal exited"), ClearInactive(w, active).world, k);
  }

  // ---- shares -----------------------------------------------------------------------------------------

  /** What deals in shares leaves the other tables alone. */
  lemma OthersQuiet(w: World, op: Op, outcome: Outcome, k: Id)
    requires Expires(op)
    ensures RequestAfter(w, op, outcome, k) == At(w.st.requests, k) && GrantAfter(w, op, outcome, k) == At(w.st.grants, k)
    ensures ExecutionAfter(w, op, outcome, k) == At(w.st.executions, k) && ApproverAfter(w, op, outcome, k) == At(w.approvers, k)
  {
  }

  lemma GrantingQuiet(w: World, op: Op, outcome: Outcome, k: Id)
    requires op.OpGenerate? || op.OpRevoke?
    ensures ExecutionAfter(w, op, outcome, k) == At(w.st.executions, k) && ApproverAfter(w, op, outcome, k) == At(w.approvers, k)
  {
  }

  lemma {:induction false} PushAllEntry(w: World, records: seq<Activity>, k: Id)
    ensures EntryAt(PushAll(w, records), k) == EntryAt(w, k)
    ensures PushAll(w, records).st.(revision := 0, activity := []) == w.st.(revision := 0, activity := [])
    decreases |records|
  {
    hide EntryAt, Capped, Bumped;
    if records != [] {
      var fewer := records[..|records| - 1];
      PushAllEntry(w, fewer, k);
      BumpEntry(PushAll(w, fewer), records[|records| - 1], k);
    }
  }

  lemma ForgottenEntry(w: World, ids: set<Id>, k: Id)
    ensures EntryAt(ForgetShares(w, ids), k) == if k in ids then EntryAt(w, k).(share := None) else EntryAt(w, k)
  {
  }

  lemma DueEntry(w: World, now: nat, k: Id)
    ensures var w1 := ResolveShares(w, Due(w.st.shares, now), ShareState.Expired, now);
            EntryAt(w1, k) ==
            EntryAt(w, k).(share := if Overdue(At(w.st.shares, k), now) then Over(At(w.st.shares, k), ShareState.Expired, now) else At(w.st.shares, k),
                           events := if k in w.log then Some(Grown(w.log[k], Told(Overdue(At(w.st.shares, k), now), ExpiredEvent(ShareName(w, k)))))
                                     else None)
  {
  }

  lemma StaleEntry(shares: map<Id, Share>, now: nat, k: Id)
    ensures k in Outdated(shares, now) <==> Forgettable(At(shares, k), now)
  {
  }

  lemma ExpireEntry(w: World, now: nat, order: seq<Id>, k: Id)
    requires IsOrder(order, Due(w.st.shares, now))
    ensures EntryAt(ExpireShares(w, now, order), k) == EntryAfter(w, OpExpire(now, order), Done, k)
    ensures var w1 := ExpireShares(w, now, order);
            w1.st.grants == w.st.grants && w1.st.requests == w.st.requests && w1.st.executions == w.st.executions
  {
    hide EntryAt, PushAll, ResolveShares, Outdated, ForgetShares, Bumped, Forgettable, Overdue, Over, Told, ShareName;
    var w0 := ResolveShares(w, Due(w.st.shares, now), ShareState.Expired, now);
    var records := ExpiryRecords(w.st.shares, order, now);
    var w1 := PushAll(w0, records);
    DueEntry(w, now, k);
    PushAllEntry(w0, records, k);
    var stale := Outdated(w1.st.shares, now);
    StaleEntry(w1.st.shares, now, k);
    ForgottenEntry(w1, stale, k);
    BumpEntry(ForgetShares(w1, stale), AnyRecord, k);
    ExpireTables(w, now, order);
    EntryUpdates(w, k);
    EntryUpdates(w1, k);
  }

  lemma ExpireTables(w: World, now: nat, order: seq<Id>)
    requires IsOrder(order, Due(w.st.shares, now))
    ensures var w1 := ExpireShares(w, now, order);
            w1.st.grants == w.st.grants && w1.st.requests == w.st.requests && w1.st.executions == w.st.executions
  {
    hide PushAll, Bumped, Resolved, Send;
    PushAllEntry(ResolveShares(w, Due(w.st.shares, now), ShareState.Expired, now), ExpiryRecords(w.st.shares, order, now), 0);
  }

  lemma NamedEntry(w: World, terminal: Id, name: string, now: nat, k: Id)
    ensures var w1 := ResolveShares(w, OffersNamed(w.st.shares, terminal, name), ShareState.Expired, now);
            var s := At(w.st.shares, k);
            EntryAt(w1, k) ==
            EntryAt(w, k).(share := if Names(s, terminal, name) then Over(s, ShareState.Expired, now) else s,
                           events := if k in w.log then Some(Grown(w.log[k], Told(Names(s, terminal, name), ExpiredEvent(ShareName(w, k)))))
                                     else None)
  {
  }

  /** What a withdrawal does to an entry. */
  lemma WithdrawEntry(w: World, terminal: Id, name: string, reason: string, now: nat, order: seq<Id>, k: Id)
    requires IsOrder(order, OffersNamed(w.st.shares, terminal, name))
    ensures var w1 := WithdrawShares(w, terminal, name, reason, now, order);
            var s := At(w.st.shares, k);
            && EntryAt(w1, k) ==
               EntryAt(w, k).(share := if Names(s, terminal, name) then Over(s, ShareState.Expired, now) else s,
                              events := if k in w.log then Some(Grown(w.log[k], Told(Names(s, terminal, name), ExpiredEvent(ShareName(w, k)))))
                                        else None)
            && w1.st.grants == w.st.grants && w1.st.requests == w.st.requests
  {
    hide EntryAt, PushAll, Names, Over, Told, ShareName, Grown, Resolved, Send;
    NamedEntry(w, terminal, name, now, k);
    PushAllEntry(ResolveShares(w, OffersNamed(w.st.shares, terminal, name), ShareState.Expired, now),
                 WithdrawalRecords(w.st.shares, order, reason, now), k);
  }

  lemma DroppedEntry(w: World, ids: set<Id>, k: Id)
    ensures EntryAt(DropGrants(w, ids), k) == if k in ids then EntryAt(w, k).(grant := None) else EntryAt(w, k)
  {
  }

  lemma RevokeEntry(w: World, terminal: Id, grant: Id, now: nat, order: seq<Id>, k: Id)
    requires CanRevoke(w, terminal, grant, order)
    ensures Accounts(w, OpRevoke(terminal, grant, now, order), RevokeGrant(w, terminal, grant, now, order), k)
  {
    hide WithdrawShares, IsOrder, Push, Names, Over, ShareName, OffersNamed, DropGrants;
    if grant in w.st.grants && w.st.grants[grant].terminal == terminal {
      var name := w.st.grants[grant].name;
      var w1 := WithdrawShares(w, terminal, name, "revoked", now, order);
      WithdrawEntry(w, terminal, name, "revoked", now, order, k);
      DroppedEntry(w1, {grant}, k);
      BumpEntry(DropGrants(w1, {grant}), Activity(terminal, SecretKind, RevokedStatus, "Secret grant revoked", name, now), k);
    }
  }

  lemma GrantedEntry(w: World, terminal: Id, name: string, id: Id, g: Grant, k: Id)
    ensures var w1 := AccessOperations.Grants(w, terminal, name, id, g);
            EntryAt(w1, k) ==
            EntryAt(w, k).(grant := if k == id then Some(g) else At(w.st.grants, k),
                           request := if AsksIn(w, k, terminal, name) then None else At(w.st.requests, k),
                           events := if k in w.log then Some(Grown(w.log[k], Told(AsksIn(w, k, terminal, name), GrantedEvent(name)))) else None)
  {
  }

  /** The entry once the old grant and its shares are gone, if they have to go. */
  lemma ReplacedEntry(w: World, terminal: Id, name: string, g: Id, now: nat, order: seq<Id>, k: Id)
    requires IsOrder(order, OffersNamed(w.st.shares, terminal, name))
    ensures var w1 := Push(DropGrants(WithdrawShares(w, terminal, name, "replaced", now, order), {g}),
                           Activity(terminal, SecretKind, RevokedStatus, "Secret grant replaced", name, now));
            var s := At(w.st.shares, k);
            && EntryAt(w1, k) ==
               EntryAt(w, k).(grant := if k == g then None else At(w.st.grants, k),
                              share := if Names(s, terminal, name) then Over(s, ShareState.Expired, now) else s,
                              events := if k in w.log then Some(Grown(w.log[k], Told(Names(s, terminal, name), ExpiredEvent(ShareName(w, k)))))
                                        else None)
            && w1.st.requests == w.st.requests && (k in w1.log <==> k in w.log)
  {
    hide WithdrawShares, IsOrder, Push, Names, Over, ShareName, OffersNamed, DropGrants, Told, Grown;
    var w0 := WithdrawShares(w, terminal, name, "replaced", now, order);
    WithdrawEntry(w, terminal, name, "replaced", now, order, k);
    DroppedEntry(w0, {g}, k);
    BumpEntry(DropGrants(w0, {g}), Activity(terminal, SecretKind, RevokedStatus, "Secret grant replaced", name, now), k);
    ReplacedRequests(w, terminal, name, g, now, order);
  }

  lemma ReplacedRequests(w: World, terminal: Id, name: string, g: Id, now: nat, order: seq<Id>)
    requires IsOrder(order, OffersNamed(w.st.shares, terminal, name))
    ensures var w1 := Push(DropGrants(WithdrawShares(w, terminal, name, "replaced", now, order), {g}),
                           Activity(terminal, SecretKind, RevokedStatus, "Secret grant replaced", name, now));
            w1.st.requests == w.st.requests
  {
    hide WithdrawShares, IsOrder, OffersNamed, Bumped, Capped;
    WithdrawEntry(w, terminal, name, "replaced", now, order, 0);
  }

  /** The new grant, on top of what is left. */
  lemma NewGrantEntry(w1: World, terminal: Id, name: string, agent: string, description: Option<string>, value: string, id: Id,
                      now: nat, k: Id)
    ensures var g := NewGrant(terminal, name, "Generated for " + agent, value, now);
            var w2 := Push(AccessOperations.Grants(w1, terminal, name, id, g),
                           Activity(terminal, SecretKind, ApprovedStatus, "Secret generated and granted", Or(description, name), now));
            EntryAt(w2, k) ==
            EntryAt(w1, k).(grant := if k == id then Fresh(terminal, name, "Generated for " + agent, value, now) else At(w1.st.grants, k),
                            request := if AsksIn(w1, k, terminal, name) then None else At(w1.st.requests, k),
                            events := if k in w1.log then Some(Grown(w1.log[k], Told(AsksIn(w1, k, terminal, name), GrantedEvent(name)))) else None)
  {
    hide Push, AsksIn, Grown, Told, AccessOperations.Grants, EntryAt;
    var g := NewGrant(terminal, name, "Generated for " + agent, value, now);
    GrantedEntry(w1, terminal, name, id, g, k);
    BumpEntry(AccessOperations.Grants(w1, terminal, name, id, g),
              Activity(terminal, SecretKind, ApprovedStatus, "Secret generated and granted", Or(description, name), now), k);
  }

  lemma GenerateNew(w: World, terminal: Id, name: string, agent: string, description: Option<string>, value: string,
                    replace: bool, id: Id, now: nat, order: seq<Id>, k: Id)
    requires CanGenerate(w, terminal, name, replace, order) && GrantNamesUnique(w.st.grants)
    requires FindGrant(w.st.grants, terminal, name).None? || !replace
    ensures Accounts(w, OpGenerate(terminal, name, agent, description, value, replace, id, now, order),
                     GenerateSecret(w, terminal, name, agent, description, value, replace, id, now, order), k)
  {
    hide WithdrawShares, IsOrder, Push, Over, ShareName, DropGrants, FindGrant, GrantsOf, AccessOperations.Grants,
         ExecutionAfter, ApproverAfter, GrantNamesUnique, WaitsFor, Fresh, Names, EntryAt;
    var op := OpGenerate(terminal, name, agent, description, value, replace, id, now, order);
    GrantingQuiet(w, op, GenerateSecret(w, terminal, name, agent, description, value, replace, id, now, order).outcome, k);
    OnlyGrant(w.st.grants, terminal, name);
    NewGrantEntry(w, terminal, name, agent, description, value, id, now, k);
    EntryUpdates(w, k);
  }

  lemma WithdrawnMeans(w: World, op: Op, outcome: Outcome, k: Id)
    requires op.OpGenerate? && op.replace && FindGrant(w.st.grants, op.terminal, op.name).Some? && GrantNamesUnique(w.st.grants)
    ensures Withdrawn(w, op, outcome, At(w.st.shares, k)) <==> Names(At(w.st.shares, k), op.terminal, op.name)
    ensures Names(At(w.st.shares, k), op.terminal, op.name) ==> k in w.st.shares
  {
    hide FindGrant, GrantNamesUnique;
    OnlyGrant(w.st.grants, op.terminal, op.name);
  }

  lemma SameAsking(w: World, w1: World, k: Id, terminal: Id, name: string)
    requires w1.st.requests == w.st.requests
    ensures AsksIn(w1, k, terminal, name) == AsksIn(w, k, terminal, name)
    ensures AsksIn(w, k, terminal, name) ==> k in w.st.requests
    ensures AsksIn(w, k, terminal, name) <==> At(w.st.requests, k).Some? && WaitsFor(At(w.st.requests, k).value, terminal, name)
  {
  }

  lemma GenerateOver(w: World, terminal: Id, name: string, agent: string, description: Option<string>, value: string,
                     id: Id, now: nat, order: seq<Id>, g: Id, k: Id)
    requires CanGenerate(w, terminal, name, true, order) && GrantNamesUnique(w.st.grants)
    requires FindGrant(w.st.grants, terminal, name) == Some(g) && (k in w.st.requests ==> k !in w.st.shares)
    ensures Accounts(w, OpGenerate(terminal, name, agent, description, value, true, id, now, order),
                     GenerateSecret(w, terminal, name, agent, description, value, true, id, now, order), k)
  {
    hide WithdrawShares, IsOrder, Push, Over, ShareName, OffersNamed, DropGrants, FindGrant, GrantsOf, AccessOperations.Grants,
         ExecutionAfter, ApproverAfter, GrantNamesUnique, WaitsFor, Fresh, Names, EntryAt, Withdrawn, AsksIn;
    var op := OpGenerate(terminal, name, agent, description, value, true, id, now, order);
    var r := GenerateSecret(w, terminal, name, agent, description, value, true, id, now, order);
    GrantingQuiet(w, op, r.outcome, k);
    OnlyGrant(w.st.grants, terminal, name);
    WithdrawnMeans(w, op, r.outcome, k);
    ReplacedEntry(w, terminal, name, g, now, order, k);
    var w1 := Push(DropGrants(WithdrawShares(w, terminal, name, "replaced", now, order), {g}),
                   Activity(terminal, SecretKind, RevokedStatus, "Secret grant replaced", name, now));
    NewGrantEntry(w1, terminal, name, agent, description, value, id, now, k);
    EntryUpdates(w, k);
    EntryUpdates(w1, k);
    SameAsking(w, w1, k, terminal, name);
  }

  lemma GenerateEntry(w: World, terminal: Id, name: string, agent: string, description: Option<string>, value: string,
                      replace: bool, id: Id, now: nat, order: seq<Id>, k: Id)
    requires CanGenerate(w, terminal, name, replace, order) && GrantNamesUnique(w.st.grants)
    requires k in w.st.requests ==> k !in w.st.shares
    ensures Accounts(w, OpGenerate(terminal, name, agent, description, value, replace, id, now, order),
                     GenerateSecret(w, terminal, name, agent, description, value, replace, id, now, order), k)
  {
    hide GenerateSecret, FindGrant, CanGenerate, Accounts, GrantNamesUnique;
    var existing := FindGrant(w.st.grants, terminal, name);
    if existing.Some? && replace {
      GenerateOver(w, terminal, name, agent, description, value, id, now, order, existing.value, k);
    } else {
      GenerateNew(w, terminal, name, agent, description, value, replace, id, now, order, k);
    }
  }

  /** The one that is found is the only grant of its name. */
  lemma OnlyGrant(grants: map<Id, Grant>, terminal: Id, name: string)
    requires GrantNamesUnique(grants)
    ensures var g := FindGrant(grants, terminal, name);
            && (g.Some? <==> exists k | k in grants :: Grants(At(grants, k), terminal, name))
            && forall k: Id :: Grants(At(grants, k), terminal, name) <==> g == Some(k)
  {
    var g := FindGrant(grants, terminal, name);
    forall k: Id ensures Grants(At(grants, k), terminal, name) <==> g == Some(k) {
    }
    if g.Some? {
      assert Grants(At(grants, g.value), terminal, name);
    }
  }

  // ---- sharing

  lemma OfferedEntry(w: World, id: Id, s: Share, k: Id)
    ensures EntryAt(AddShare(w, id, s), k) ==
            if k != id then EntryAt(w, k) else EntryAt(w, k).(share := Some(s), events := Some([]))
  {
  }

  lemma JoinedEntry(w: World, id: Id, k: Id)
    requires id in w.st.shares
    ensures EntryAt(JoinShare(w, id), k) ==
            if k != id then EntryAt(w, k) else EntryAt(w, k).(share := WaitedFor(At(w.st.shares, k)))
  {
  }

  lemma ResolvedEntry(w: World, id: Id, state: ShareState, now: nat, k: Id)
    requires id in w.st.shares && (state.Viewed? || state.Dismissed?)
    ensures var s := w.st.shares[id];
            EntryAt(ResolveShares(w, {id}, state, now), k) ==
            if k != id then EntryAt(w, k)
            else EntryAt(w, k).(share := Over(Some(if state.Viewed? then s.(viewedAt := Some(now)) else s), state, now),
                                events := if k in w.log then Some(w.log[k] + [if state.Viewed? then ViewedEvent(s.name) else DismissedEvent(s.name)])
                                          else None)
  {
  }

  /** What is still open after the clock has passed was not due. */
  lemma AgedOpen(s: Option<Share>, now: nat)
    ensures Open(Aged(s, now)) ==> Aged(s, now) == s && !Overdue(s, now)
  {
  }

  lemma WaitEntry(w: World, terminal: Id, share: Id, now: nat, order: seq<Id>, k: Id)
    requires IsOrder(order, Due(w.st.shares, now))
    ensures Accounts(w, OpWait(terminal, share, now, order), WaitShare(w, terminal, share, now, order), k)
  {
    hide ExpireShares, IsOrder, Bump, JoinShare, Aged, Overdue, Due, RequestAfter, GrantAfter, ExecutionAfter, ApproverAfter;
    OthersQuiet(w, OpExpire(now, order), Done, k);
    OthersQuiet(w, OpWait(terminal, share, now, order), WaitShare(w, terminal, share, now, order).outcome, k);
    var w1 := ExpireShares(w, now, order);
    ExpireEntry(w, now, order, k);
    BumpEntry(w1, AnyRecord, k);
    if share in w1.st.shares {
      JoinedEntry(w1, share, k);
      BumpEntry(JoinShare(w1, share), AnyRecord, k);
    }
  }

  lemma RevealEntry(w: World, terminal: Id, share: Id, now: nat, order: seq<Id>, k: Id)
    requires IsOrder(order, Due(w.st.shares, now))
    ensures Accounts(w, OpReveal(terminal, share, now, order), RevealShare(w, terminal, share, now, order), k)
  {
    hide ExpireShares, IsOrder, Push, ResolveShares, Due, RequestAfter, GrantAfter, ExecutionAfter, ApproverAfter, Aged, Overdue, Over, EntryAt;
    AgedOpen(At(w.st.shares, share), now);
    EntryUpdates(ExpireShares(w, now, order), k);
    ExpireEntry(w, now, order, share);
    EntryUpdates(ExpireShares(w, now, order), share);
    OthersQuiet(w, OpExpire(now, order), Done, k);
    OthersQuiet(w, OpReveal(terminal, share, now, order), RevealShare(w, terminal, share, now, order).outcome, k);
    var w1 := ExpireShares(w, now, order);
    ExpireEntry(w, now, order, k);
    if share in w1.st.shares {
      ResolvedEntry(w1, share, Viewed, now, k);
      BumpEntry(ResolveShares(w1, {share}, Viewed, now),
                Activity(terminal, SecretKind, ViewedStatus, "Shared secret revealed", w1.st.shares[share].name, now), k);
    }
  }

  lemma DismissEntry(w: World, terminal: Id, share: Id, now: nat, order: seq<Id>, k: Id)
    requires IsOrder(order, Due(w.st.shares, now))
    ensures Accounts(w, OpDismiss(terminal, share, now, order), DismissShare(w, terminal, share, now, order), k)
  {
    hide ExpireShares, IsOrder, Push, ResolveShares, Due, RequestAfter, GrantAfter, ExecutionAfter, ApproverAfter, Aged, Overdue, Over, EntryAt;
    AgedOpen(At(w.st.shares, share), now);
    EntryUpdates(ExpireShares(w, now, order), k);
    ExpireEntry(w, now, order, share);
    EntryUpdates(ExpireShares(w, now, order), share);
    OthersQuiet(w, OpExpire(now, order), Done, k);
    OthersQuiet(w, OpDismiss(terminal, share, now, order), DismissShare(w, terminal, share, now, order).outcome, k);
    var w1 := ExpireShares(w, now, order);
    ExpireEntry(w, now, order, k);
    if share in w1.st.shares {
      ResolvedEntry(w1, share, Dismissed, now, k);
      BumpEntry(ResolveShares(w1, {share}, Dismissed, now),
                Activity(terminal, SecretKind, DismissedStatus, "Shared secret dismissed", w1.st.shares[share].name, now), k);
    }
  }

  /** Of the shares that are left a terminal has as many as the account says. */
  lemma RoomEntry(w: World, now: nat, order: seq<Id>, terminal: Id)
    requires IsOrder(order, Due(w.st.shares, now))
    ensures |SharesOf(ExpireShares(w, now, order).st.shares, terminal)| >= 32 <==> NoRoom(w, terminal, now)
  {
    hide ExpireShares, IsOrder, Due, Aged, EntryAfter;
    var shares := ExpireShares(w, now, order).st.shares;
    forall k ensures At(shares, k) == Aged(At(w.st.shares, k), now) {
      ExpireEntry(w, now, order, k);
      AgedShare(w, now, order, k);
    }
    AgedTerminals(w.st.shares, now);
    assert SharesOf(shares, terminal) ==
           set k | k in w.st.shares && w.st.shares[k].terminal == terminal && Aged(At(w.st.shares, k), now).Some? by {
      forall k ensures k in SharesOf(shares, terminal) <==>
                       k in w.st.shares && w.st.shares[k].terminal == terminal && Aged(At(w.st.shares, k), now).Some? {
        assert At(shares, k) == Aged(At(w.st.shares, k), now);
      }
    }
  }

  lemma AgedShare(w: World, now: nat, order: seq<Id>, k: Id)
    ensures EntryAfter(w, OpExpire(now, order), Done, k).share == Aged(At(w.st.shares, k), now)
  {
    hide Aged;
  }

  lemma AgedTerminals(shares: map<Id, Share>, now: nat)
    ensures forall k :: Aged(At(shares, k), now).Some? ==> k in shares && Aged(At(shares, k), now).value.terminal == shares[k].terminal
  {
  }

  lemma AnewEntry(w1: World, terminal: Id, name: string, agent: string, description: Option<string>, ttl: nat, id: Id, now: nat,
                  g: Id, victim: Id, k: Id)
    requires g in w1.st.grants && id !in w1.st.shares && (NeedsVictim(w1.st.shares, terminal) ==> victim in w1.st.shares)
    ensures var r := OfferAnew(w1, terminal, name, agent, description, ttl, id, now, g, victim);
            var end := now + ttl;
            && (r.outcome == Refused(Conflict) || r.outcome == Attached(id))
            && (r.outcome.Refused? ==> r.world == w1)
            && (r.outcome.Attached? ==> (NeedsVictim(w1.st.shares, terminal) <==> |SharesOf(w1.st.shares, terminal)| >= 32))
            && (r.outcome.Attached? ==>
                  EntryAt(r.world, k) ==
                  if k == id then
                    EntryAt(w1, k).(share := Some(Share(terminal, name, description, agent, Offered, now,
                                                        if end > 0xFFFF_FFFF_FFFF_FFFF then 0xFFFF_FFFF_FFFF_FFFF else end,
                                                        None, None, 1, w1.st.grants[g].value)),
                                    events := Some([]))
                  else if k == victim && NeedsVictim(w1.st.shares, terminal) then EntryAt(w1, k).(share := None)
                  else EntryAt(w1, k))
  {
    hide Push, AddShare, ForgetShares, OfferedOf, SharesOf, EntryAt;
    var w2 := if NeedsVictim(w1.st.shares, terminal) then ForgetShares(w1, {victim}) else w1;
    var s := Share(terminal, name, description, agent, Offered, now, SaturatingAdd(now, ttl), None, None, 1, w1.st.grants[g].value);
    ForgottenEntry(w1, {victim}, k);
    OfferedEntry(w2, id, s, k);
    BumpEntry(AddShare(w2, id, s),
              Activity(terminal, SecretKind, SharedStatus, "Secret shared with you", Or(description, name), now), k);
    EntryUpdates(w1, k);
  }

  lemma EntryUpdates(w: World, k: Id)
    ensures EntryAt(w, k) == Entry(At(w.st.requests, k), At(w.st.grants, k), At(w.st.shares, k), At(w.st.executions, k), At(w.approvers, k), At(w.log, k))
  {
  }

  /** What sharing does to an entry that the clock has passed over. */
  lemma OfferShareEntry(w1: World, terminal: Id, name: string, agent: string, description: Option<string>, ttl: nat, id: Id, now: nat,
                        victim: Id, k: Id)
    requires id !in w1.st.shares && (NeedsVictim(w1.st.shares, terminal) ==> victim in w1.st.shares)
    ensures var r := OfferShare(w1, terminal, name, agent, description, ttl, id, now, victim);
            && (!r.outcome.Attached? ==> r.world == w1)
            && (r.outcome.Attached? && r.outcome.channel != id ==>
                  EntryAt(r.world, k) ==
                  if k == r.outcome.channel then EntryAt(w1, k).(share := WaitedFor(At(w1.st.shares, k))) else EntryAt(w1, k))
            && (r.outcome == Attached(id) ==>
                  EntryAt(r.world, k) ==
                  if k == id then EntryAt(w1, k).(share := Offer(w1, terminal, name, description, agent, ttl, now), events := Some([]))
                  else if k == victim && |SharesOf(w1.st.shares, terminal)| >= 32 then EntryAt(w1, k).(share := None)
                  else EntryAt(w1, k))
  {
    hide Bump, JoinShare, OfferAnew, FindGrant, FindOffer, NeedsVictim, SharesOf, EntryAt;
    var g := FindGrant(w1.st.grants, terminal, name);
    var offer := FindOffer(w1.st.shares, terminal, name);
    if g.Some? {
      if offer.Some? {
        JoinedEntry(w1, offer.value, k);
        BumpEntry(JoinShare(w1, offer.value), AnyRecord, k);
      } else {
        AnewEntry(w1, terminal, name, agent, description, ttl, id, now, g.value, victim, k);
      }
    }
  }

  lemma VictimThere(shares: map<Id, Share>, terminal: Id, victim: Id)
    requires NeedsVictim(shares, terminal) ==> IsOldestResolved(shares, terminal, victim)
    ensures NeedsVictim(shares, terminal) ==> victim in shares
  {
    hide NeedsVictim;
  }

  lemma ShareEntry(w: World, terminal: Id, name: string, agent: string, description: Option<string>, ttl: nat, id: Id, now: nat,
                   order: seq<Id>, victim: Id, k: Id)
    requires CanShare(w, terminal, now, order, victim) && id !in w.used && w.st.shares.Keys <= w.used
    ensures Accounts(w, OpShare(terminal, name, agent, description, ttl, id, now, order, victim),
                     ShareSecret(w, terminal, name, agent, description, ttl, id, now, order, victim), k)
  {
    hide ExpireShares, IsOrder, OfferShare, Due, Aged, Overdue, NoRoom, RequestAfter, GrantAfter, ExecutionAfter, ApproverAfter,
         NeedsVictim, IsOldestResolved, SharesOf, EntryAt, FindGrant;
    var op := OpShare(terminal, name, agent, description, ttl, id, now, order, victim);
    var w1 := ExpireShares(w, now, order);
    var r := ShareSecret(w, terminal, name, agent, description, ttl, id, now, order, victim);
    OthersQuiet(w, OpExpire(now, order), Done, k);
    OthersQuiet(w, op, r.outcome, k);
    ExpireEntry(w, now, order, k);
    EntryUpdates(w1, k);
    ExpireEntry(w, now, order, id);
    EntryUpdates(w1, id);
    AgedTerminals(w.st.shares, now);
    VictimThere(w1.st.shares, terminal, victim);
    RoomEntry(w, now, order, terminal);
    OfferShareEntry(w1, terminal, name, agent, description, ttl, id, now, victim, k);
  }

  // ---- every operation ------------------------------------------------------------------------------------

  lemma KeysApart(w: World, k: Id)
    requires Inv(w)
    ensures w.st.requests.Keys <= w.used && w.st.shares.Keys <= w.used && GrantNamesUnique(w.st.grants)
    ensures k in w.st.requests ==> k !in w.st.shares
  {
    hide RequestsOk, SharesOk, ExecutionsOk, HistoryOk, WaitersOk, ChannelsOk, SudoOk;
    forall j | j in w.st.requests ensures RequestFiled(w.filed, j, w.st.requests[j]) {
    }
    forall j | j in w.st.shares ensures ShareFiled(w.filed, j, w.st.shares[j]) {
    }
  }

  lemma SudoAccounts(w: World, op: Op, k: Id)
    requires Enabled(w, op) && InvolvesSudo(op)
    ensures Accounts(w, op, Apply(w, op), k)
  {
    hide RequestSecret, RequestSudo, Reject, DetachWaiter, AddSecret, ApproveSecret, RevokeGrant, GenerateSecret,
         ExecuteSecret, ShareSecret, WaitShare, RevealShare, DismissShare, BeginSudo, AuthFailed, StartSudo, FinishSudo,
         AnnounceSudo, SpawnSudo, SudoOutput, AbortSudo, ClearTerminal, ClearInactive, ExpireShares, CanShare, CanRevoke,
         CanGenerate, Accounts;
    match op
    case OpBeginSudo(terminal, request, hash, call) => BeginEntry(w, terminal, request, hash, call, k);
    case OpAuthFailed(call) => FailedEntry(w, call, k);
    case OpStart(call) => StartEntry(w, call, k);
    case OpAnnounce(call) => AnnounceEntry(w, call, k);
    case OpSpawn(call) => SpawnEntry(w, call, k);
    case OpOutput(call, data) => OutputEntry(w, call, data, k);
    case OpFinish(call, code, now) => FinishEntry(w, call, code, now, k);
    case OpAbort(call, message, now) => AbortEntry(w, call, message, now, k);
  }

  lemma ExpiringAccounts(w: World, op: Op, k: Id)
    requires Enabled(w, op) && Expires(op) && w.st.shares.Keys <= w.used
    ensures Accounts(w, op, Apply(w, op), k)
  {
    hide RequestSecret, RequestSudo, Reject, DetachWaiter, AddSecret, ApproveSecret, RevokeGrant, GenerateSecret,
         ExecuteSecret, ShareSecret, WaitShare, RevealShare, DismissShare, BeginSudo, AuthFailed, StartSudo, FinishSudo,
         AnnounceSudo, SpawnSudo, SudoOutput, AbortSudo, ClearTerminal, ClearInactive, ExpireShares, CanShare, CanRevoke,
         CanGenerate, EntryAt, EntryAfter;
    match op
    case OpExpire(now, order) => ExpireEntry(w, now, order, k);
    case OpShare(terminal, name, agent, detail, ttl, id, now, order, victim) =>
      ShareEntry(w, terminal, name, agent, detail, ttl, id, now, order, victim, k);
    case OpWait(terminal, share, now, order) => WaitEntry(w, terminal, share, now, order, k);
    case OpReveal(terminal, share, now, order) => RevealEntry(w, terminal, share, now, order, k);
    case OpDismiss(terminal, share, now, order) => DismissEntry(w, terminal, share, now, order, k);
  }

  lemma OtherAccounts(w: World, op: Op, k: Id)
    requires Enabled(w, op) && !InvolvesSudo(op) && !Expires(op)
    requires w.st.requests.Keys <= w.used && GrantNamesUnique(w.st.grants) && (k in w.st.requests ==> k !in w.st.shares)
    ensures Accounts(w, op, Apply(w, op), k)
  {
    hide RequestSecret, RequestSudo, Reject, DetachWaiter, AddSecret, ApproveSecret, RevokeGrant, GenerateSecret,
         ExecuteSecret, ShareSecret, WaitShare, RevealShare, DismissShare, BeginSudo, AuthFailed, StartSudo, FinishSudo,
         AnnounceSudo, SpawnSudo, SudoOutput, AbortSudo, ClearTerminal, ClearInactive, ExpireShares, CanShare, CanRevoke,
         CanGenerate, Accounts, GrantNamesUnique;
    match op
    case OpRequestSecret(terminal, name, description, agent, id, hash, now) =>
      AskSecretEntry(w, terminal, name, description, agent, id, hash, now, k);
    case OpRequestSudo(terminal, command, description, agent, id, hash, now, pick) =>
      AskSudoEntry(w, terminal, command, description, agent, id, hash, now, pick, k);
    case OpReject(terminal, request, hash, comment, now) => RejectEntry(w, terminal, request, hash, comment, now, k);
    case OpDetach(channel, now) => DetachEntry(w, channel, now, k);
    case OpAddSecret(terminal, name, value, detail, id, now) => AddEntry(w, terminal, name, value, detail, id, now, k);
    case OpApproveSecret(terminal, request, hash, value, id, now) => ApproveEntry(w, terminal, request, hash, value, id, now, k);
    case OpRevoke(terminal, grant, now, order) => RevokeEntry(w, terminal, grant, now, order, k);
    case OpGenerate(terminal, name, agent, detail, value, replace, id, now, order) =>
      GenerateEntry(w, terminal, name, agent, detail, value, replace, id, now, order, k);
    case OpExecute(terminal, name, display, id, now) => ExecuteEntry(w, terminal, name, display, id, now, k);
    case OpFinishExecution(id) => FinishExecutionEntry(w, id, k);
    case OpClearTerminal(terminal) => ClearTerminalEntry(w, terminal, k);
    case OpClearInactive(active) => ClearInactiveEntry(w, active, k);
  }

  /** Every operation leaves in every entry of every table, and sends on every channel, exactly what
      its account says. */
  lemma StepAccounts(w: World, op: Op, k: Id)
    requires Inv(w) && Enabled(w, op)
    ensures EntryAt(Step(w, op), k) == EntryAfter(w, op, Apply(w, op).outcome, k)
  {
    hide Inv, Enabled, Apply, EntryAt, EntryAfter;
    KeysApart(w, k);
    if InvolvesSudo(op) {
      SudoAccounts(w, op, k);
    } else if Expires(op) {
      ExpiringAccounts(w, op, k);
    } else {
      OtherAccounts(w, op, k);
    }
  }
}
