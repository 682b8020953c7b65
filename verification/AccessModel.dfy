/** The state of the access broker, and the step each of its lock sections takes.

    A `World` is the locked state together with the history that the properties
    talk about: which ids were drawn, what was filed under each id, every event
    sent on each channel, the live subscriptions, the sudo approvals in flight
    and the root commands that were started.

    Where the program's result depends on the order of a hash map, the order or
    the entry picked is a parameter of the operation. */
module AccessModel {
  import opened Wrappers

  /** Identifiers are only compared and drawn fresh. */
  type Id = nat

  const MAX_PENDING_REQUESTS := 32
  const MAX_SECRET_GRANTS := 64
  const MAX_SECRET_EXECUTIONS := 8
  const MAX_SECRET_SHARES := 32
  const MAX_PENDING_SHARES := 8
  const ACTIVITY_LIMIT := 100
  const SHARE_RETENTION: nat := 6 * 60 * 60 * 1000
  const U64_MAX: nat := 0xFFFF_FFFF_FFFF_FFFF

  function SaturatingAdd(a: nat, b: nat): nat {
    if a + b > U64_MAX then U64_MAX else a + b
  }

  // ---- values ----------------------------------------------------------------

  datatype FileIdentity = FileIdentity(device: nat, inode: nat)

  /** What the user reviews before a root command runs, and what then runs. */
  datatype SudoCommand = SudoCommand(
    argv: seq<string>, display: string, cwd: string, digest: string,
    executable: FileIdentity, directory: FileIdentity, fingerprint: string)

  datatype RequestKind = Secret(name: string) | Sudo(command: SudoCommand)
  {
    function Summary(): string {
      match this
      case Secret(name) => name
      case Sudo(command) => command.display
    }
  }

  datatype RequestState = Pending | Authenticating | Running

  datatype Request = Request(
    terminal: Id, hash: string, kind: RequestKind, state: RequestState,
    description: string, agent: string, createdAt: nat, waiters: nat)

  datatype Grant = Grant(
    terminal: Id, name: string, source: string, createdAt: nat, uses: nat,
    lastUsedAt: Option<nat>, lastCommand: Option<string>, value: string)

  datatype ShareState = Offered | Viewed | Dismissed | Expired

  /** `Offered` is the state the program calls pending. */
  datatype Share = Share(
    terminal: Id, name: string, description: Option<string>, agent: string, state: ShareState,
    createdAt: nat, expiresAt: nat, viewedAt: Option<nat>, resolvedAt: Option<nat>,
    waiters: nat, value: string)

  datatype Execution = Execution(terminal: Id)

  datatype Event =
    | WaitingEvent(request: Id)
    | RunningEvent(execution: Option<Id>)
    | OutputEvent(data: seq<nat>)
    | GrantedEvent(name: string)
    | RejectedEvent(comment: Option<string>)
    | CompletedEvent(returnCode: int)
    | FailedEvent(message: string)
    | ViewedEvent(name: string)
    | DismissedEvent(name: string)
    | ExpiredEvent(name: string)
  {
    predicate Terminal() {
      !WaitingEvent? && !RunningEvent? && !OutputEvent?
    }
  }

  datatype Kind = SecretKind | SudoKind

  datatype Status =
    | ApprovedStatus | RejectedStatus | RevokedStatus | FailedStatus | CanceledStatus
    | SharedStatus | ViewedStatus | DismissedStatus | ExpiredStatus

  datatype Activity = Activity(
    terminal: Id, kind: Kind, status: Status, title: string, detail: string, createdAt: nat)

  datatype State = State(
    revision: nat,
    requests: map<Id, Request>,
    grants: map<Id, Grant>,
    shares: map<Id, Share>,
    executions: map<Id, Execution>,
    activity: seq<Activity>)

  datatype AccessError = Invalid | NotFound | Conflict | Stale | Gone

  /** What a call gives back to its caller. */
  datatype Outcome =
    | Done
    | Attached(channel: Id)
    | Immediate(event: Event)
    | Revealed(name: string, value: string)
    | Refused(error: AccessError)

  // ---- history ---------------------------------------------------------------

  /** What was filed under an id when the id entered a table. It never changes. */
  datatype Filing =
    | RequestFiling(terminal: Id, hash: string, kind: RequestKind)
    | ShareFiling(terminal: Id, name: string, value: string)

  /** Where an `approve_sudo` call and the task it spawns have got to. */
  datatype Phase = CheckingPassword | Approved | Announced | Executing

  datatype Approver = Approver(
    request: Id, terminal: Id, hash: string, command: SudoCommand, phase: Phase)

  datatype SudoRun = SudoRun(request: Id, terminal: Id, hash: string, command: SudoCommand)

  datatype World = World(
    st: State,
    used: set<Id>,                 // every id ever drawn
    filed: map<Id, Filing>,        // every request and share ever filed
    log: map<Id, seq<Event>>,      // everything sent on each request or share channel
    live: multiset<Id>,            // the channel of every subscription not yet dropped
    approvers: map<Id, Approver>,  // approve_sudo calls in flight, by call
    runs: seq<SudoRun>)            // root commands handed to sudo, in order

  const EmptyState := State(0, map[], map[], map[], map[], [])
  const EmptyWorld := World(EmptyState, {}, map[], map[], multiset{}, map[], [])

  // ---- table queries ---------------------------------------------------------

  function GrantsOf(grants: map<Id, Grant>, terminal: Id): set<Id> {
    set k | k in grants && grants[k].terminal == terminal
  }

  function SharesOf(shares: map<Id, Share>, terminal: Id): set<Id> {
    set k | k in shares && shares[k].terminal == terminal
  }

  function OfferedOf(shares: map<Id, Share>, terminal: Id): set<Id> {
    set k | k in shares && shares[k].terminal == terminal && shares[k].state.Offered?
  }

  function PendingOf(requests: map<Id, Request>, terminal: Id): set<Id> {
    set k | k in requests && requests[k].terminal == terminal && requests[k].state.Pending?
  }

  function SecretsOf(requests: map<Id, Request>, terminal: Id): set<Id> {
    set k | k in requests && requests[k].terminal == terminal && requests[k].kind.Secret?
  }

  function ExecutionsOf(executions: map<Id, Execution>, terminal: Id): set<Id> {
    set k | k in executions && executions[k].terminal == terminal
  }

  predicate IsGrant(g: Grant, terminal: Id, name: string) {
    g.terminal == terminal && g.name == name
  }

  predicate IsOffer(s: Share, terminal: Id, name: string) {
    s.terminal == terminal && s.state.Offered? && s.name == name
  }

  predicate AsksFor(r: Request, terminal: Id, name: string) {
    r.terminal == terminal && r.state.Pending? && r.kind.Secret? && r.kind.name == name
  }

  predicate AsksToRun(r: Request, terminal: Id, fingerprint: string) {
    r.terminal == terminal && r.state.Pending? && r.kind.Sudo? && r.kind.command.fingerprint == fingerprint
  }

  predicate Granted(grants: map<Id, Grant>, terminal: Id, name: string) {
    exists k | k in grants :: IsGrant(grants[k], terminal, name)
  }

  ghost function FindGrant(grants: map<Id, Grant>, terminal: Id, name: string): (r: Option<Id>)
    ensures r.Some? ==> r.value in grants && IsGrant(grants[r.value], terminal, name)
    ensures r.None? ==> !Granted(grants, terminal, name)
  {
    if Granted(grants, terminal, name) then
      var k :| k in grants && IsGrant(grants[k], terminal, name); Some(k)
    else None
  }

  ghost function FindOffer(shares: map<Id, Share>, terminal: Id, name: string): (r: Option<Id>)
    ensures r.Some? ==> r.value in shares && IsOffer(shares[r.value], terminal, name)
    ensures r.None? ==> forall k | k in shares :: !IsOffer(shares[k], terminal, name)
  {
    if exists k | k in shares :: IsOffer(shares[k], terminal, name) then
      var k :| k in shares && IsOffer(shares[k], terminal, name); Some(k)
    else None
  }

  ghost function FindRequest(requests: map<Id, Request>, terminal: Id, name: string): (r: Option<Id>)
    ensures r.Some? ==> r.value in requests && AsksFor(requests[r.value], terminal, name)
    ensures r.None? ==> forall k | k in requests :: !AsksFor(requests[k], terminal, name)
  {
    if exists k | k in requests :: AsksFor(requests[k], terminal, name) then
      var k :| k in requests && AsksFor(requests[k], terminal, name); Some(k)
    else None
  }

  // ---- primitive changes -----------------------------------------------------

  function Bumped(revision: nat): nat {
    (revision + 1) % (U64_MAX + 1)
  }

  function Bump(w: World): World {
    w.(st := w.st.(revision := Bumped(w.st.revision)))
  }

  function Capped(activity: seq<Activity>): seq<Activity> {
    if |activity| > ACTIVITY_LIMIT then activity[..ACTIVITY_LIMIT] else activity
  }

  function Push(w: World, a: Activity): World {
    w.(st := w.st.(activity := Capped([a] + w.st.activity), revision := Bumped(w.st.revision)))
  }

  /** Sends one event on every channel in `ids`. */
  function Send(log: map<Id, seq<Event>>, ids: set<Id>, events: map<Id, Event>): map<Id, seq<Event>>
    requires ids <= events.Keys
  {
    map k | k in log :: if k in ids then log[k] + [events[k]] else log[k]
  }

  function AddGrant(w: World, id: Id, g: Grant): World {
    w.(st := w.st.(grants := w.st.grants[id := g]), used := w.used + {id})
  }

  function DropGrants(w: World, ids: set<Id>): World {
    w.(st := w.st.(grants := w.st.grants - ids))
  }

  function AddRequest(w: World, id: Id, r: Request): World {
    w.(st := w.st.(requests := w.st.requests[id := r]),
       used := w.used + {id},
       filed := w.filed[id := RequestFiling(r.terminal, r.hash, r.kind)],
       log := w.log[id := []],
       live := w.live + multiset{id})
  }

  /** Removes requests, telling the waiters of each what became of it. */
  function CloseRequests(w: World, ids: set<Id>, event: Event): World {
    w.(st := w.st.(requests := w.st.requests - ids),
       log := Send(w.log, ids, Same(ids, event)))
  }

  function Same(ids: set<Id>, event: Event): map<Id, Event> {
    map k | k in ids :: event
  }

  /** Removes requests that nobody waits for any more. */
  function DropRequests(w: World, ids: set<Id>): World {
    w.(st := w.st.(requests := w.st.requests - ids))
  }

  function AddShare(w: World, id: Id, s: Share): World {
    w.(st := w.st.(shares := w.st.shares[id := s]),
       used := w.used + {id},
       filed := w.filed[id := ShareFiling(s.terminal, s.name, s.value)],
       log := w.log[id := []],
       live := w.live + multiset{id})
  }

  function ResolvedShare(s: Share, state: ShareState, now: nat): Share {
    s.(state := state, resolvedAt := Some(now), value := "",
       viewedAt := if state.Viewed? then Some(now) else s.viewedAt)
  }

  function OutcomeEvent(state: ShareState, name: string): Event
    requires !state.Offered?
  {
    match state
    case Viewed => ViewedEvent(name)
    case Dismissed => DismissedEvent(name)
    case Expired => ExpiredEvent(name)
  }

  /** Moves shares out of `Offered`, wipes their values and tells their waiters. */
  function ResolveShares(w: World, ids: set<Id>, state: ShareState, now: nat): World
    requires ids <= w.st.shares.Keys && !state.Offered?
  {
    w.(st := w.st.(shares := Resolved(w.st.shares, ids, state, now)),
       log := Send(w.log, ids, Outcomes(w.st.shares, ids, state)))
  }

  function Resolved(shares: map<Id, Share>, ids: set<Id>, state: ShareState, now: nat): map<Id, Share> {
    map k | k in shares :: if k in ids then ResolvedShare(shares[k], state, now) else shares[k]
  }

  function Outcomes(shares: map<Id, Share>, ids: set<Id>, state: ShareState): map<Id, Event>
    requires ids <= shares.Keys && !state.Offered?
  {
    map k | k in ids :: OutcomeEvent(state, shares[k].name)
  }

  function ForgetShares(w: World, ids: set<Id>): World {
    w.(st := w.st.(shares := w.st.shares - ids))
  }

  /** Removes shares whose terminal went away; only an open offer is still announced. */
  function ClearShares(w: World, ids: set<Id>, message: string): World
  {
    w.(st := w.st.(shares := w.st.shares - ids),
       log := Send(w.log, StillOffered(w.st.shares, ids), Same(StillOffered(w.st.shares, ids), FailedEvent(message))))
  }

  function StillOffered(shares: map<Id, Share>, ids: set<Id>): set<Id> {
    set k | k in ids && k in shares && shares[k].state.Offered?
  }

  function JoinRequest(w: World, id: Id): World
    requires id in w.st.requests
  {
    w.(st := w.st.(requests := w.st.requests[id := w.st.requests[id].(waiters := w.st.requests[id].waiters + 1)]),
       live := w.live + multiset{id})
  }

  function JoinShare(w: World, id: Id): World
    requires id in w.st.shares
  {
    w.(st := w.st.(shares := w.st.shares[id := w.st.shares[id].(waiters := w.st.shares[id].waiters + 1)]),
       live := w.live + multiset{id})
  }

  function SetRequestState(w: World, id: Id, state: RequestState): World {
    if id in w.st.requests then
      w.(st := w.st.(requests := w.st.requests[id := w.st.requests[id].(state := state)]))
    else w
  }

  function SetExecutions(w: World, executions: map<Id, Execution>): World {
    w.(st := w.st.(executions := executions))
  }

  function Announce(w: World, id: Id, event: Event): World {
    w.(log := Send(w.log, {id}, map[id := event]))
  }

  function SetApprover(w: World, call: Id, a: Approver): World {
    w.(approvers := w.approvers[call := a])
  }

  function EndApprover(w: World, call: Id): World {
    w.(approvers := w.approvers - {call})
  }

  // ---- expiry ----------------------------------------------------------------

  /** `order` lists `ids` once each. */
  ghost predicate IsOrder(order: seq<Id>, ids: set<Id>) {
    && (forall k :: k in order <==> k in ids)
    && (forall i, j | 0 <= i < j < |order| :: order[i] != order[j])
  }

  predicate IsDue(s: Share, now: nat) {
    s.state.Offered? && s.expiresAt <= now
  }

  function Due(shares: map<Id, Share>, now: nat): set<Id> {
    set k | k in shares && IsDue(shares[k], now)
  }

  predicate IsKept(s: Share, now: nat) {
    s.state.Offered? || s.resolvedAt.None? || now < SaturatingAdd(s.resolvedAt.value, SHARE_RETENTION)
  }

  function Outdated(shares: map<Id, Share>, now: nat): set<Id> {
    set k | k in shares && !IsKept(shares[k], now)
  }

  function ExpiryRecord(s: Share, now: nat): Activity {
    Activity(s.terminal, SecretKind, ExpiredStatus, "Shared secret expired unviewed", s.name, now)
  }

  function WithdrawalRecord(s: Share, reason: string, now: nat): Activity {
    Activity(s.terminal, SecretKind, ExpiredStatus, "Shared secret withdrawn",
             s.name + " was " + reason + " before it was viewed", now)
  }

  function PushAll(w: World, records: seq<Activity>): World
    decreases |records|
  {
    if records == [] then w else Push(PushAll(w, records[..|records| - 1]), records[|records| - 1])
  }

  function ExpiryRecords(shares: map<Id, Share>, order: seq<Id>, now: nat): seq<Activity>
    requires forall k | k in order :: k in shares
  {
    seq(|order|, i requires 0 <= i < |order| => ExpiryRecord(shares[order[i]], now))
  }

  function WithdrawalRecords(shares: map<Id, Share>, order: seq<Id>, reason: string, now: nat): seq<Activity>
    requires forall k | k in order :: k in shares
  {
    seq(|order|, i requires 0 <= i < |order| => WithdrawalRecord(shares[order[i]], reason, now))
  }

  /** src/access.rs `expire_shares_locked`. */
  ghost function ExpireShares(w: World, now: nat, order: seq<Id>): World
    requires IsOrder(order, Due(w.st.shares, now))
  {
    var w1 := PushAll(ResolveShares(w, Due(w.st.shares, now), ShareState.Expired, now),
                      ExpiryRecords(w.st.shares, order, now));
    var stale := Outdated(w1.st.shares, now);
    if stale == {} then w1 else Bump(ForgetShares(w1, stale))
  }

  function OffersNamed(shares: map<Id, Share>, terminal: Id, name: string): set<Id> {
    set k | k in shares && IsOffer(shares[k], terminal, name)
  }

  /** src/access.rs `expire_shares_for_grant`. */
  ghost function WithdrawShares(w: World, terminal: Id, name: string, reason: string, now: nat, order: seq<Id>): World
    requires IsOrder(order, OffersNamed(w.st.shares, terminal, name))
  {
    PushAll(ResolveShares(w, OffersNamed(w.st.shares, terminal, name), ShareState.Expired, now),
            WithdrawalRecords(w.st.shares, order, reason, now))
  }

  function RequestsNamed(requests: map<Id, Request>, terminal: Id, name: string): set<Id> {
    set k | k in requests && AsksFor(requests[k], terminal, name)
  }
}
