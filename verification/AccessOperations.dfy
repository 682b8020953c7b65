/** The operations of the access broker, one function per lock section.

    Each says what the section leaves behind and what its caller is told. The
    names, descriptions and values passed in are the validated ones. */
module AccessOperations {
  import opened Wrappers
  import opened AccessModel

  datatype Result = Result(world: World, outcome: Outcome)

  function Or(value: Option<string>, default: string): string {
    match value
    case Some(v) => v
    case None => default
  }

  function KindOf(kind: RequestKind): Kind {
    if kind.Secret? then SecretKind else SudoKind
  }

  function NewGrant(terminal: Id, name: string, source: string, value: string, now: nat): Grant {
    Grant(terminal, name, source, now, 0, None, None, value)
  }

  // ---- requests --------------------------------------------------------------

  ghost function RequestSecret(w: World, terminal: Id, name: string, description: string, agent: string,
                               id: Id, hash: string, now: nat): Result
  {
    if Granted(w.st.grants, terminal, name) then
      Result(w, Immediate(GrantedEvent(name)))
    else match FindRequest(w.st.requests, terminal, name)
      case Some(k) =>
        if w.st.requests[k].description != description || w.st.requests[k].agent != agent then
          Result(w, Refused(Conflict))
        else
          Result(JoinRequest(w, k), Attached(k))
      case None =>
        if |PendingOf(w.st.requests, terminal)| >= MAX_PENDING_REQUESTS then
          Result(w, Refused(Conflict))
        else
          var r := Request(terminal, hash, Secret(name), Pending, description, agent, now, 1);
          Result(Bump(AddRequest(w, id, r)), Attached(id))
  }

  /** `pick` is the pending request for the same command that the scan met, if any:
      there can be more than one. */
  ghost predicate PicksCommand(w: World, terminal: Id, fingerprint: string, pick: Option<Id>) {
    match pick
    case Some(k) => k in w.st.requests && AsksToRun(w.st.requests[k], terminal, fingerprint)
    case None => forall k | k in w.st.requests :: !AsksToRun(w.st.requests[k], terminal, fingerprint)
  }

  ghost function RequestSudo(w: World, terminal: Id, command: SudoCommand, description: string, agent: string,
                             id: Id, hash: string, now: nat, pick: Option<Id>): Result
    requires PicksCommand(w, terminal, command.fingerprint, pick)
  {
    match pick
    case Some(k) =>
      if w.st.requests[k].description != description || w.st.requests[k].agent != agent then
        Result(w, Refused(Conflict))
      else
        Result(JoinRequest(w, k), Attached(k))
    case None =>
      if |PendingOf(w.st.requests, terminal)| >= MAX_PENDING_REQUESTS then
        Result(w, Refused(Conflict))
      else
        var r := Request(terminal, hash, Sudo(command), Pending, description, agent, now, 1);
        Result(Bump(AddRequest(w, id, r)), Attached(id))
  }

  ghost function Reject(w: World, terminal: Id, request: Id, hash: string, comment: Option<string>, now: nat): Result {
    if request !in w.st.requests || w.st.requests[request].terminal != terminal then
      Result(w, Refused(NotFound))
    else if w.st.requests[request].hash != hash then
      Result(w, Refused(AccessError.Stale))
    else if !w.st.requests[request].state.Pending? then
      Result(w, Refused(Conflict))
    else
      var r := w.st.requests[request];
      Result(Push(CloseRequests(w, {request}, RejectedEvent(comment)),
                  Activity(terminal, KindOf(r.kind), RejectedStatus,
                           if r.kind.Secret? then "Secret request rejected" else "Root command rejected",
                           Or(comment, r.kind.Summary()), now)),
             Done)
  }

  /** Dropping a subscription that was attached to `channel`. A share stays; a pending
      request goes with its last waiter. */
  ghost function DetachWaiter(w: World, channel: Id, now: nat): Result {
    if channel in w.st.shares then
      Result(Bump(LeaveShare(w, channel)), Done)
    else if channel in w.st.requests then
      var r := w.st.requests[channel];
      if Less1(r.waiters) == 0 && r.state.Pending? then
        Result(Push(DropRequests(Unsubscribe(w, channel), {channel}),
                    Activity(r.terminal, KindOf(r.kind), CanceledStatus,
                             if r.kind.Secret? then "Secret request canceled" else "Root command canceled",
                             r.kind.Summary(), now)),
               Done)
      else
        Result(Bump(LeaveRequest(w, channel)), Done)
    else
      Result(Bump(Unsubscribe(w, channel)), Done)
  }

  ghost function Unsubscribe(w: World, channel: Id): World {
    w.(live := w.live - multiset{channel})
  }

  ghost function LeaveShare(w: World, k: Id): World
    requires k in w.st.shares
  {
    var s := w.st.shares[k];
    Unsubscribe(w.(st := w.st.(shares := w.st.shares[k := s.(waiters := Less1(s.waiters))])), k)
  }

  ghost function LeaveRequest(w: World, k: Id): World
    requires k in w.st.requests
  {
    var r := w.st.requests[k];
    Unsubscribe(w.(st := w.st.(requests := w.st.requests[k := r.(waiters := Less1(r.waiters))])), k)
  }

  function Less1(n: nat): nat {
    if n == 0 then 0 else n - 1
  }

  // ---- grants ----------------------------------------------------------------

  ghost function AddSecret(w: World, terminal: Id, name: string, value: string, description: Option<string>,
                           id: Id, now: nat): Result
  {
    if Granted(w.st.grants, terminal, name) then
      Result(w, Refused(Conflict))
    else if |GrantsOf(w.st.grants, terminal)| >= MAX_SECRET_GRANTS then
      Result(w, Refused(Conflict))
    else
      Result(Push(Grants(w, terminal, name, id, NewGrant(terminal, name, "Added by you", value, now)),
                  Activity(terminal, SecretKind, ApprovedStatus, "Secret added and granted", Or(description, name), now)),
             Done)
  }

  /** A new grant answers every pending request for its name. */
  ghost function Grants(w: World, terminal: Id, name: string, id: Id, g: Grant): World {
    AddGrant(CloseRequests(w, RequestsNamed(w.st.requests, terminal, name), GrantedEvent(name)), id, g)
  }

  ghost function ApproveSecret(w: World, terminal: Id, request: Id, hash: string, value: string, id: Id, now: nat): Result {
    if request !in w.st.requests || w.st.requests[request].terminal != terminal then
      Result(w, Refused(NotFound))
    else if w.st.requests[request].hash != hash then
      Result(w, Refused(AccessError.Stale))
    else if !w.st.requests[request].state.Pending? then
      Result(w, Refused(Conflict))
    else if !w.st.requests[request].kind.Secret? then
      Result(w, Refused(Invalid))
    else
      var name := w.st.requests[request].kind.name;
      if Granted(w.st.grants, terminal, name) then
        Result(w, Refused(Conflict))
      else if |GrantsOf(w.st.grants, terminal)| >= MAX_SECRET_GRANTS then
        Result(w, Refused(Conflict))
      else
        Result(Push(AddGrant(CloseRequests(w, {request}, GrantedEvent(name)), id,
                             NewGrant(terminal, name, "Approved request", value, now)),
                    Activity(terminal, SecretKind, ApprovedStatus, "Secret request approved", name, now)),
               Done)
  }

  ghost predicate CanRevoke(w: World, terminal: Id, grant: Id, order: seq<Id>) {
    grant in w.st.grants && w.st.grants[grant].terminal == terminal ==>
      IsOrder(order, OffersNamed(w.st.shares, terminal, w.st.grants[grant].name))
  }

  ghost function RevokeGrant(w: World, terminal: Id, grant: Id, now: nat, order: seq<Id>): Result
    requires CanRevoke(w, terminal, grant, order)
  {
    if grant !in w.st.grants || w.st.grants[grant].terminal != terminal then
      Result(w, Refused(NotFound))
    else
      var name := w.st.grants[grant].name;
      Result(Push(DropGrants(WithdrawShares(w, terminal, name, "revoked", now, order), {grant}),
                  Activity(terminal, SecretKind, RevokedStatus, "Secret grant revoked", name, now)),
             Done)
  }

  ghost predicate CanGenerate(w: World, terminal: Id, name: string, replace: bool, order: seq<Id>) {
    Granted(w.st.grants, terminal, name) && replace ==> IsOrder(order, OffersNamed(w.st.shares, terminal, name))
  }

  ghost function GenerateSecret(w: World, terminal: Id, name: string, agent: string, description: Option<string>,
                                value: string, replace: bool, id: Id, now: nat, order: seq<Id>): Result
    requires CanGenerate(w, terminal, name, replace, order)
  {
    var existing := FindGrant(w.st.grants, terminal, name);
    if existing.Some? && !replace then
      Result(w, Refused(Conflict))
    else
      var w1 :=
        if existing.None? then w
        else Push(DropGrants(WithdrawShares(w, terminal, name, "replaced", now, order), {existing.value}),
                  Activity(terminal, SecretKind, RevokedStatus, "Secret grant replaced", name, now));
      if |GrantsOf(w1.st.grants, terminal)| >= MAX_SECRET_GRANTS then
        Result(w1, Refused(Conflict))
      else
        Result(Push(Grants(w1, terminal, name, id, NewGrant(terminal, name, "Generated for " + agent, value, now)),
                    Activity(terminal, SecretKind, ApprovedStatus, "Secret generated and granted", Or(description, name), now)),
               Done)
  }

  ghost function ExecuteSecret(w: World, terminal: Id, name: string, display: string, id: Id, now: nat): Result {
    if |ExecutionsOf(w.st.executions, terminal)| >= MAX_SECRET_EXECUTIONS then
      Result(w, Refused(Conflict))
    else match FindGrant(w.st.grants, terminal, name)
      case None => Result(w, Refused(NotFound))
      case Some(k) =>
        var g := w.st.grants[k];
        var used := g.(uses := SaturatingAdd(g.uses, 1), lastUsedAt := Some(now), lastCommand := Some(display));
        Result(Bump(w.(st := w.st.(grants := w.st.grants[k := used],
                                   executions := w.st.executions[id := Execution(terminal)]),
                       used := w.used + {id})),
               Done)
  }

  ghost function FinishExecution(w: World, id: Id): Result {
    Result(SetExecutions(w, w.st.executions - {id}), Done)
  }

  // ---- shares ----------------------------------------------------------------

  function ResolutionTime(s: Share): nat {
    if s.resolvedAt.Some? then s.resolvedAt.value else s.createdAt
  }

  /** The resolved share that makes room: one that was resolved longest ago. */
  ghost predicate IsOldestResolved(shares: map<Id, Share>, terminal: Id, victim: Id) {
    && victim in SharesOf(shares, terminal) - OfferedOf(shares, terminal)
    && forall k | k in SharesOf(shares, terminal) - OfferedOf(shares, terminal) ::
         ResolutionTime(shares[victim]) <= ResolutionTime(shares[k])
  }

  ghost predicate NeedsVictim(shares: map<Id, Share>, terminal: Id) {
    && |SharesOf(shares, terminal)| >= MAX_SECRET_SHARES
    && SharesOf(shares, terminal) != OfferedOf(shares, terminal)
  }

  ghost predicate CanShare(w: World, terminal: Id, now: nat, order: seq<Id>, victim: Id) {
    && IsOrder(order, Due(w.st.shares, now))
    && var shares := ExpireShares(w, now, order).st.shares;
       (NeedsVictim(shares, terminal) ==> IsOldestResolved(shares, terminal, victim))
  }

  ghost function ShareSecret(w: World, terminal: Id, name: string, agent: string, description: Option<string>,
                             ttl: nat, id: Id, now: nat, order: seq<Id>, victim: Id): Result
    requires CanShare(w, terminal, now, order, victim)
  {
    OfferShare(ExpireShares(w, now, order), terminal, name, agent, description, ttl, id, now, victim)
  }

  ghost function OfferShare(w: World, terminal: Id, name: string, agent: string, description: Option<string>,
                            ttl: nat, id: Id, now: nat, victim: Id): Result
  {
    match FindGrant(w.st.grants, terminal, name)
    case None => Result(w, Refused(Conflict))
    case Some(g) =>
      match FindOffer(w.st.shares, terminal, name)
      case Some(k) =>
        if w.st.shares[k].agent != agent || w.st.shares[k].description != description then
          Result(w, Refused(Conflict))
        else
          Result(Bump(JoinShare(w, k)), Attached(k))
      case None => OfferAnew(w, terminal, name, agent, description, ttl, id, now, g, victim)
  }

  /** A share that nobody has offered yet, of a grant. */
  ghost function OfferAnew(w: World, terminal: Id, name: string, agent: string, description: Option<string>,
                           ttl: nat, id: Id, now: nat, g: Id, victim: Id): Result
    requires g in w.st.grants
  {
    if |OfferedOf(w.st.shares, terminal)| >= MAX_PENDING_SHARES then
      Result(w, Refused(Conflict))
    else if |SharesOf(w.st.shares, terminal)| >= MAX_SECRET_SHARES
            && SharesOf(w.st.shares, terminal) == OfferedOf(w.st.shares, terminal) then
      Result(w, Refused(Conflict))
    else
      var w1 := if NeedsVictim(w.st.shares, terminal) then ForgetShares(w, {victim}) else w;
      var s := Share(terminal, name, description, agent, Offered, now, SaturatingAdd(now, ttl), None, None, 1,
                     w.st.grants[g].value);
      Result(Push(AddShare(w1, id, s),
                  Activity(terminal, SecretKind, SharedStatus, "Secret shared with you", Or(description, name), now)),
             Attached(id))
  }

  ghost function WaitShare(w: World, terminal: Id, share: Id, now: nat, order: seq<Id>): Result
    requires IsOrder(order, Due(w.st.shares, now))
  {
    var w1 := ExpireShares(w, now, order);
    if share !in w1.st.shares || w1.st.shares[share].terminal != terminal then
      Result(w1, Refused(NotFound))
    else
      var s := w1.st.shares[share];
      if s.state.Offered? then
        Result(Bump(JoinShare(w1, share)), Attached(share))
      else
        Result(Bump(w1), Immediate(OutcomeEvent(s.state, s.name)))
  }

  ghost function RevealShare(w: World, terminal: Id, share: Id, now: nat, order: seq<Id>): Result
    requires IsOrder(order, Due(w.st.shares, now))
  {
    var w1 := ExpireShares(w, now, order);
    if share !in w1.st.shares || w1.st.shares[share].terminal != terminal then
      Result(w1, Refused(NotFound))
    else if !w1.st.shares[share].state.Offered? then
      Result(w1, Refused(Gone))
    else
      var s := w1.st.shares[share];
      Result(Push(ResolveShares(w1, {share}, Viewed, now),
                  Activity(terminal, SecretKind, ViewedStatus, "Shared secret revealed", s.name, now)),
             Revealed(s.name, s.value))
  }

  ghost function DismissShare(w: World, terminal: Id, share: Id, now: nat, order: seq<Id>): Result
    requires IsOrder(order, Due(w.st.shares, now))
  {
    var w1 := ExpireShares(w, now, order);
    if share !in w1.st.shares || w1.st.shares[share].terminal != terminal then
      Result(w1, Refused(NotFound))
    else if !w1.st.shares[share].state.Offered? then
      Result(w1, Refused(Conflict))
    else
      var s := w1.st.shares[share];
      Result(Push(ResolveShares(w1, {share}, Dismissed, now),
                  Activity(terminal, SecretKind, DismissedStatus, "Shared secret dismissed", s.name, now)),
             Done)
  }

  // ---- sudo: the lock sections of approve_sudo and run_sudo --------------------

  ghost function BeginSudo(w: World, terminal: Id, request: Id, hash: string, call: Id): Result {
    if request !in w.st.requests || w.st.requests[request].terminal != terminal then
      Result(w, Refused(NotFound))
    else if w.st.requests[request].hash != hash then
      Result(w, Refused(AccessError.Stale))
    else if !w.st.requests[request].state.Pending? then
      Result(w, Refused(Conflict))
    else if !w.st.requests[request].kind.Sudo? then
      Result(w, Refused(Invalid))
    else
      var a := Approver(request, terminal, hash, w.st.requests[request].kind.command, CheckingPassword);
      Result(Bump(SetApprover(SetRequestState(w, request, Authenticating), call, a)).(used := w.used + {call}), Done)
  }

  /** The password check failed: the request waits for another attempt. */
  ghost function AuthFailed(w: World, call: Id): Result
    requires call in w.approvers
  {
    var k := w.approvers[call].request;
    var w1 := EndApprover(w, call);
    Result(if k in w.st.requests then Bump(SetRequestState(w1, k, Pending)) else w1, Refused(Invalid))
  }

  /** The objects still match what was reviewed: the request is marked running. */
  ghost function StartSudo(w: World, call: Id): Result
    requires call in w.approvers
  {
    var a := w.approvers[call];
    if a.request !in w.st.requests then
      Result(EndApprover(w, call), Refused(NotFound))
    else
      Result(Bump(SetApprover(SetRequestState(w, a.request, Running), call, a.(phase := Approved))), Done)
  }

  ghost function AnnounceSudo(w: World, call: Id): Result
    requires call in w.approvers
  {
    var a := w.approvers[call];
    Result(SetApprover(Announce(w, a.request, RunningEvent(Some(a.request))), call, a.(phase := Announced)), Done)
  }

  /** The root command is handed to sudo. */
  ghost function SpawnSudo(w: World, call: Id): Result
    requires call in w.approvers
  {
    var a := w.approvers[call];
    Result(SetApprover(w, call, a.(phase := Executing)).(
             runs := w.runs + [SudoRun(a.request, a.terminal, a.hash, a.command)]),
           Done)
  }

  ghost function SudoOutput(w: World, call: Id, data: seq<nat>): Result
    requires call in w.approvers
  {
    Result(Announce(w, w.approvers[call].request, OutputEvent(data)), Done)
  }

  ghost function FinishSudo(w: World, call: Id, code: int, now: nat): Result
    requires call in w.approvers
  {
    var a := w.approvers[call];
    Result(Push(Announce(DropRequests(EndApprover(w, call), {a.request}), a.request, CompletedEvent(code)),
                Activity(a.terminal, SudoKind, if code == 0 then ApprovedStatus else FailedStatus,
                         if code == 0 then "Root command completed" else "Root command failed",
                         a.command.display, now)),
           Done)
  }

  /** src/access.rs `fail_request`, reached when the reviewed objects changed or the
      command could not be run. */
  ghost function AbortSudo(w: World, call: Id, message: string, now: nat): Result
    requires call in w.approvers
  {
    var k := w.approvers[call].request;
    var w1 := EndApprover(w, call);
    if k !in w.st.requests then
      Result(w1, Refused(AccessError.Stale))
    else
      var r := w.st.requests[k];
      Result(Push(CloseRequests(w1, {k}, FailedEvent(message)),
                  Activity(r.terminal, KindOf(r.kind), FailedStatus,
                           if r.kind.Secret? then "Secret request failed" else "Root command failed", message, now)),
             Refused(AccessError.Stale))
  }

  // ---- clearing --------------------------------------------------------------

  /** The terminals that are cleared: one of them, or all but the active ones. */
  datatype Scope = Only(terminal: Id) | Except(active: set<Id>)
  {
    predicate Covers(terminal: Id) {
      match this
      case Only(t) => terminal == t
      case Except(active) => terminal !in active
    }
  }

  function RequestsIn(requests: map<Id, Request>, scope: Scope): set<Id> {
    set k | k in requests && scope.Covers(requests[k].terminal)
  }

  function SharesIn(shares: map<Id, Share>, scope: Scope): set<Id> {
    set k | k in shares && scope.Covers(shares[k].terminal)
  }

  function GrantsIn(grants: map<Id, Grant>, scope: Scope): set<Id> {
    set k | k in grants && scope.Covers(grants[k].terminal)
  }

  function ExecutionsIn(executions: map<Id, Execution>, scope: Scope): set<Id> {
    set k | k in executions && scope.Covers(executions[k].terminal)
  }

  /** Everything the terminals in scope owned goes, and its waiters are told. */
  ghost function Clear(w: World, scope: Scope, message: string): World {
    var w1 := CloseRequests(w, RequestsIn(w.st.requests, scope), FailedEvent(message));
    var w2 := ClearShares(w1, SharesIn(w.st.shares, scope), message);
    var w3 := DropGrants(w2, GrantsIn(w.st.grants, scope));
    SetExecutions(w3, w.st.executions - ExecutionsIn(w.st.executions, scope))
  }

  function WithoutTerminal(activity: seq<Activity>, terminal: Id): seq<Activity> {
    if activity == [] then []
    else (if activity[0].terminal == terminal then [] else [activity[0]]) + WithoutTerminal(activity[1..], terminal)
  }

  ghost function ClearTerminal(w: World, terminal: Id): Result {
    var w1 := Clear(w, Only(terminal), "terminal closed");
    Result(Bump(w1.(st := w1.st.(activity := WithoutTerminal(w.st.activity, terminal)))), Done)
  }

  ghost predicate OwnsNothing(st: State, scope: Scope) {
    && RequestsIn(st.requests, scope) == {}
    && ExecutionsIn(st.executions, scope) == {}
    && SharesIn(st.shares, scope) == {}
    && GrantsIn(st.grants, scope) == {}
  }

  ghost function ClearInactive(w: World, active: set<Id>): Result {
    var w1 := Clear(w, Except(active), "terminal exited");
    Result(if OwnsNothing(w.st, Except(active)) then w1 else Bump(w1), Done)
  }

  // ---- the transition system ---------------------------------------------------

  datatype Op =
    | OpExpire(now: nat, order: seq<Id>)
    | OpRequestSecret(terminal: Id, name: string, description: string, agent: string, id: Id, hash: string, now: nat)
    | OpRequestSudo(terminal: Id, command: SudoCommand, description: string, agent: string, id: Id, hash: string,
                    now: nat, pick: Option<Id>)
    | OpReject(terminal: Id, request: Id, hash: string, comment: Option<string>, now: nat)
    | OpDetach(channel: Id, now: nat)
    | OpAddSecret(terminal: Id, name: string, value: string, detail: Option<string>, id: Id, now: nat)
    | OpApproveSecret(terminal: Id, request: Id, hash: string, value: string, id: Id, now: nat)
    | OpRevoke(terminal: Id, grant: Id, now: nat, order: seq<Id>)
    | OpGenerate(terminal: Id, name: string, agent: string, detail: Option<string>, value: string, replace: bool,
                 id: Id, now: nat, order: seq<Id>)
    | OpExecute(terminal: Id, name: string, display: string, id: Id, now: nat)
    | OpFinishExecution(id: Id)
    | OpShare(terminal: Id, name: string, agent: string, detail: Option<string>, ttl: nat, id: Id, now: nat,
              order: seq<Id>, victim: Id)
    | OpWait(terminal: Id, share: Id, now: nat, order: seq<Id>)
    | OpReveal(terminal: Id, share: Id, now: nat, order: seq<Id>)
    | OpDismiss(terminal: Id, share: Id, now: nat, order: seq<Id>)
    | OpBeginSudo(terminal: Id, request: Id, hash: string, call: Id)
    | OpAuthFailed(call: Id)
    | OpStart(call: Id)
    | OpAnnounce(call: Id)
    | OpSpawn(call: Id)
    | OpOutput(call: Id, data: seq<nat>)
    | OpFinish(call: Id, code: int, now: nat)
    | OpAbort(call: Id, message: string, now: nat)
    | OpClearTerminal(terminal: Id)
    | OpClearInactive(active: set<Id>)

  ghost predicate InPhase(w: World, call: Id, phases: set<Phase>) {
    call in w.approvers && w.approvers[call].phase in phases
  }

  /** When an operation can happen: ids it draws are new, the approval it continues
      is at that point, the subscription it drops is live, and its hash map order is
      one the map allows. */
  ghost predicate Enabled(w: World, op: Op) {
    match op
    case OpExpire(now, order) => IsOrder(order, Due(w.st.shares, now))
    case OpRequestSecret(_, _, _, _, id, _, _) => id !in w.used
    case OpRequestSudo(terminal, command, _, _, id, _, _, pick) =>
      id !in w.used && PicksCommand(w, terminal, command.fingerprint, pick)
    case OpReject(_, _, _, _, _) => true
    case OpDetach(channel, _) => channel in w.live
    case OpAddSecret(_, _, value, _, id, _) => id !in w.used
    case OpApproveSecret(_, _, _, value, id, _) => id !in w.used
    case OpRevoke(terminal, grant, _, order) =>
      CanRevoke(w, terminal, grant, order)
    case OpGenerate(terminal, name, _, _, value, replace, id, _, order) =>
      id !in w.used && CanGenerate(w, terminal, name, replace, order)
    case OpExecute(_, _, _, id, _) => id !in w.used
    case OpFinishExecution(_) => true
    case OpShare(terminal, _, _, _, _, id, now, order, victim) =>
      id !in w.used && CanShare(w, terminal, now, order, victim)
    case OpWait(_, _, now, order) => IsOrder(order, Due(w.st.shares, now))
    case OpReveal(_, _, now, order) => IsOrder(order, Due(w.st.shares, now))
    case OpDismiss(_, _, now, order) => IsOrder(order, Due(w.st.shares, now))
    case OpBeginSudo(_, _, _, call) => call !in w.used
    case OpAuthFailed(call) => InPhase(w, call, {CheckingPassword})
    case OpStart(call) => InPhase(w, call, {CheckingPassword})
    case OpAnnounce(call) => InPhase(w, call, {Approved})
    case OpSpawn(call) => InPhase(w, call, {Announced})
    case OpOutput(call, _) => InPhase(w, call, {Executing})
    case OpFinish(call, _, _) => InPhase(w, call, {Executing})
    case OpAbort(call, _, _) => InPhase(w, call, {CheckingPassword, Announced, Executing})
    case OpClearTerminal(_) => true
    case OpClearInactive(_) => true
  }

  ghost function Apply(w: World, op: Op): Result
    requires Enabled(w, op)
  {
    match op
    case OpExpire(now, order) => Result(ExpireShares(w, now, order), Done)
    case OpRequestSecret(terminal, name, description, agent, id, hash, now) =>
      RequestSecret(w, terminal, name, description, agent, id, hash, now)
    case OpRequestSudo(terminal, command, description, agent, id, hash, now, pick) =>
      RequestSudo(w, terminal, command, description, agent, id, hash, now, pick)
    case OpReject(terminal, request, hash, comment, now) => Reject(w, terminal, request, hash, comment, now)
    case OpDetach(channel, now) => DetachWaiter(w, channel, now)
    case OpAddSecret(terminal, name, value, detail, id, now) => AddSecret(w, terminal, name, value, detail, id, now)
    case OpApproveSecret(terminal, request, hash, value, id, now) =>
      ApproveSecret(w, terminal, request, hash, value, id, now)
    case OpRevoke(terminal, grant, now, order) => RevokeGrant(w, terminal, grant, now, order)
    case OpGenerate(terminal, name, agent, detail, value, replace, id, now, order) =>
      GenerateSecret(w, terminal, name, agent, detail, value, replace, id, now, order)
    case OpExecute(terminal, name, display, id, now) => ExecuteSecret(w, terminal, name, display, id, now)
    case OpFinishExecution(id) => FinishExecution(w, id)
    case OpShare(terminal, name, agent, detail, ttl, id, now, order, victim) =>
      ShareSecret(w, terminal, name, agent, detail, ttl, id, now, order, victim)
    case OpWait(terminal, share, now, order) => WaitShare(w, terminal, share, now, order)
    case OpReveal(terminal, share, now, order) => RevealShare(w, terminal, share, now, order)
    case OpDismiss(terminal, share, now, order) => DismissShare(w, terminal, share, now, order)
    case OpBeginSudo(terminal, request, hash, call) => BeginSudo(w, terminal, request, hash, call)
    case OpAuthFailed(call) => AuthFailed(w, call)
    case OpStart(call) => StartSudo(w, call)
    case OpAnnounce(call) => AnnounceSudo(w, call)
    case OpSpawn(call) => SpawnSudo(w, call)
    case OpOutput(call, data) => SudoOutput(w, call, data)
    case OpFinish(call, code, now) => FinishSudo(w, call, code, now)
    case OpAbort(call, message, now) => AbortSudo(w, call, message, now)
    case OpClearTerminal(terminal) => ClearTerminal(w, terminal)
    case OpClearInactive(active) => ClearInactive(w, active)
  }

  ghost function Step(w: World, op: Op): World
    requires Enabled(w, op)
  {
    Apply(w, op).world
  }
}
