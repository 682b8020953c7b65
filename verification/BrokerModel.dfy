/** The pool of session broker generations: one current broker that creates terminals, and
    draining ones that only serve what they still hold. Each lock section and each remote
    call is one step, and the steps of all the calls in flight interleave. */
module BrokerModel {
  import opened Wrappers

  type Id = nat      // a terminal
  type Path = nat    // the socket path that identifies a generation
  type Pid = nat     // one call in flight

  /** What was asked of the pool. `Use` is any operation that is only forwarded. */
  datatype Call = List | Create | Rename(id: Id) | Use(id: Id) | Remove(id: Id)

  /** Where a call is: what its next step is, and the locals it still needs. `again` marks
      the listing that a missed owner lookup makes. */
  datatype Stage =
    | Waiting(call: Call)
    | Starting(call: Call, again: bool)
    | Listing(call: Call, again: bool, todo: seq<Path>, found: map<Id, Path>)
    | Looking(call: Call, again: bool)
    | Creating
    | Recording(created: Id)
    | Forwarding(call: Call, owner: Path)
    | Forgetting(removed: Id)
    | Surveying
    | Retiring(left: seq<Path>)
    | Judged(path: Path, left: seq<Path>, gone: bool)
    | Stopping(path: Path, left: seq<Path>)
    | Returning(path: Path, left: seq<Path>)
    | Cleaning(path: Path, left: seq<Path>)

  /** A shutdown request: what the broker held when it was sent, and whether it was
      acknowledged. */
  datatype Shutdown = Shutdown(path: Path, terminals: set<Id>, acknowledged: bool)

  datatype Forwarded = Forwarded(id: Id, path: Path)

  datatype Pool = Pool(
    current: Path,
    draining: seq<Path>,
    owners: map<Id, Path>,
    lock: Option<Pid>,                // create_lock
    tasks: map<Pid, Stage>,
    held: map<Path, set<Id>>,         // the brokers that run, and the terminals each holds
    creator: map<Id, Path>,           // history: which broker created a terminal
    stopped: set<Path>,               // history: who acknowledged a shutdown
    shutdowns: seq<Shutdown>,
    forwarded: seq<Forwarded>,
    missed: seq<Id>)                  // terminals that were reported not found

  // ---- the tables ------------------------------------------------------------------

  function Without(paths: seq<Path>, path: Path): seq<Path> {
    var i := IndexOf(paths, path);
    if i < |paths| then paths[..i] + paths[i + 1..] else paths
  }

  function WithoutOwner(owners: map<Id, Path>, path: Path): map<Id, Path> {
    map id | id in owners && owners[id] != path :: owners[id]
  }

  function OwnedBy(path: Path, terminals: set<Id>): map<Id, Path> {
    map id | id in terminals :: path
  }

  // ---- the steps ------------------------------------------------------------------------

  function Go(s: Pool, p: Pid, stage: Stage): Pool {
    s.(tasks := s.tasks[p := stage])
  }

  /** The call returns, and drops the lock if it holds it. */
  function End(s: Pool, p: Pid): Pool {
    s.(tasks := s.tasks - {p}, lock := if s.lock == Some(p) then None else s.lock)
  }

  predicate Locking(call: Call) {
    call.Create? || call.Rename?
  }

  function Begin(s: Pool, p: Pid, call: Call): Pool {
    Go(s, p, match call
             case List => Starting(call, false)
             case Create => Waiting(call)
             case Rename(_) => Waiting(call)
             case Use(_) => Looking(call, false)
             case Remove(_) => Looking(call, false))
  }

  function Acquire(s: Pool, p: Pid, call: Call): Pool {
    Go(s, p, Starting(call, false)).(lock := Some(p))
  }

  /** `generations`: the current one first, then a copy of the draining ones. */
  function Snapshot(s: Pool, p: Pid, call: Call, again: bool): Pool {
    Go(s, p, Listing(call, again, [s.current] + s.draining, map[]))
  }

  /** One generation is asked for its terminals. A draining one that fails is skipped; when
      the current one fails the whole call does. */
  function Ask(s: Pool, p: Pid, stage: Stage, answered: bool): Pool
    requires stage.Listing? && stage.todo != []
    requires answered ==> stage.todo[0] in s.held
  {
    var path := stage.todo[0];
    if answered then
      Go(s, p, stage.(todo := stage.todo[1..], found := stage.found + OwnedBy(path, s.held[path])))
    else if path == s.current then End(s, p)
    else Go(s, p, stage.(todo := stage.todo[1..]))
  }

  /** The owners are replaced by what was found; then the caller of the listing goes on, or
      refuses a name that is taken. */
  function Replace(s: Pool, p: Pid, stage: Stage, refused: bool): Pool
    requires stage.Listing?
  {
    var listed := s.(owners := stage.found);
    if stage.call.List? then End(listed, p)
    else if stage.again then Go(listed, p, Looking(stage.call, true))
    else if refused then End(listed, p)
    else if stage.call.Create? then Go(listed, p, Creating)
    else Go(listed, p, Looking(stage.call, false))
  }

  predicate About(call: Call) {
    call.Rename? || call.Use? || call.Remove?
  }

  function Look(s: Pool, p: Pid, call: Call, again: bool): Pool
    requires About(call)
  {
    if call.id in s.owners then Go(s, p, Forwarding(call, s.owners[call.id]))
    else if !again then Go(s, p, Starting(call, true))
    else End(s.(missed := s.missed + [call.id]), p)
  }

  /** The current broker creates a terminal, or refuses to; its answer may be lost. */
  function MakeTerminal(s: Pool, p: Pid, made: Option<Id>, answered: bool): Pool
    requires made.Some? ==> s.current in s.held
  {
    if made.None? then End(s, p)
    else
      var after := s.(held := s.held[s.current := s.held[s.current] + {made.value}],
                      creator := s.creator[made.value := s.current]);
      if answered then Go(after, p, Recording(made.value)) else End(after, p)
  }

  function Record(s: Pool, p: Pid, id: Id): Pool {
    End(s.(owners := s.owners[id := s.current]), p)
  }

  /** The operation is sent to the owner. A removal may happen and its answer be lost. */
  function Forward(s: Pool, p: Pid, call: Call, path: Path, answered: bool, removed: bool): Pool
    requires About(call) && (removed ==> call.Remove? && path in s.held)
  {
    var sent := s.(forwarded := s.forwarded + [Forwarded(call.id, path)],
                   held := if removed then s.held[path := s.held[path] - {call.id}] else s.held);
    if answered && removed then Go(sent, p, Forgetting(call.id)) else End(sent, p)
  }

  function Forget(s: Pool, p: Pid, id: Id): Pool {
    End(s.(owners := s.owners - {id}), p)
  }

  /** A candidate is asked for its terminals. One that holds any, or that does not answer
      while its socket is there, is left alone. */
  function AskCandidate(s: Pool, p: Pid, left: seq<Path>, answered: bool, gone: bool): Pool
    requires left != [] && (answered ==> left[0] in s.held)
  {
    if answered && s.held[left[0]] == {} then Go(s, p, Judged(left[0], left[1..], false))
    else if !answered && gone then Go(s, p, Judged(left[0], left[1..], true))
    else Go(s, p, Retiring(left[1..]))
  }

  /** `forget_draining`: only the call that takes the generation out goes on with it. */
  function TakeOut(s: Pool, p: Pid, stage: Stage): Pool
    requires stage.Judged?
  {
    if stage.path in s.draining then
      Go(s.(draining := Without(s.draining, stage.path)), p,
         if stage.gone then Cleaning(stage.path, stage.left) else Stopping(stage.path, stage.left))
    else Go(s, p, Retiring(stage.left))
  }

  /** The broker is asked to shut down. It may stop without its answer arriving. */
  function SendShutdown(s: Pool, p: Pid, stage: Stage, stops: bool, acknowledged: bool): Pool
    requires stage.Stopping?
  {
    var path := stage.path;
    var terminals := if path in s.held then s.held[path] else {};
    var sent := s.(shutdowns := s.shutdowns + [Shutdown(path, terminals, acknowledged)],
                   held := if stops then s.held - {path} else s.held,
                   stopped := if acknowledged then s.stopped + {path} else s.stopped);
    Go(sent, p, if acknowledged then Cleaning(path, stage.left) else Returning(path, stage.left))
  }

  function PutBack(s: Pool, p: Pid, stage: Stage): Pool
    requires stage.Returning?
  {
    Go(s.(draining := s.draining + [stage.path]), p, Retiring(stage.left))
  }

  function Clean(s: Pool, p: Pid, stage: Stage): Pool
    requires stage.Cleaning?
  {
    Go(s.(owners := WithoutOwner(s.owners, stage.path)), p, Retiring(stage.left))
  }

  /** Everything that can happen. `Crashed` and `Vanished` are the brokers' own doing;
      `Abandoned` is a caller that went away. */
  datatype Event =
    | Called(p: Pid, call: Call)
    | Woken(p: Pid)                   // the retirement round starts
    | Acquired(p: Pid)
    | Snapshotted(p: Pid)
    | Asked(p: Pid, answered: bool)
    | Replaced(p: Pid, refused: bool)
    | Looked(p: Pid)
    | Made(p: Pid, made: Option<Id>, answered: bool)
    | Recorded(p: Pid)
    | Sent(p: Pid, answered: bool, removed: bool)
    | Forgot(p: Pid)
    | Surveyed(p: Pid)
    | CandidateAsked(p: Pid, answered: bool, gone: bool)
    | TakenOut(p: Pid)
    | ShutdownSent(p: Pid, stops: bool, acknowledged: bool)
    | PutBackIn(p: Pid)
    | Cleaned(p: Pid)
    | Finished(p: Pid)
    | Abandoned(p: Pid)
    | Crashed(path: Path)
    | Vanished(path: Path, id: Id)

  /** When an event can happen. A broker answers only while it runs, its socket is gone only
      when it does not, and the identifier of a new terminal was never used. */
  predicate Enabled(s: Pool, e: Event) {
    match e
    case Called(p, _) => p !in s.tasks
    case Woken(p) => p !in s.tasks
    case Acquired(p) => p in s.tasks && s.tasks[p].Waiting? && s.lock == None
    case Snapshotted(p) => p in s.tasks && s.tasks[p].Starting?
    case Asked(p, answered) =>
      p in s.tasks && s.tasks[p].Listing? && s.tasks[p].todo != [] && (answered ==> s.tasks[p].todo[0] in s.held)
    case Replaced(p, _) => p in s.tasks && s.tasks[p].Listing? && s.tasks[p].todo == []
    case Looked(p) => p in s.tasks && s.tasks[p].Looking? && About(s.tasks[p].call)
    case Made(p, made, _) =>
      p in s.tasks && s.tasks[p].Creating? && (made.Some? ==> s.current in s.held && made.value !in s.creator)
    case Recorded(p) => p in s.tasks && s.tasks[p].Recording?
    case Sent(p, answered, removed) =>
      && p in s.tasks && s.tasks[p].Forwarding? && About(s.tasks[p].call)
      && (removed ==> s.tasks[p].call.Remove? && s.tasks[p].owner in s.held)
    case Forgot(p) => p in s.tasks && s.tasks[p].Forgetting?
    case Surveyed(p) => p in s.tasks && s.tasks[p].Surveying?
    case CandidateAsked(p, answered, gone) =>
      && p in s.tasks && s.tasks[p].Retiring? && s.tasks[p].left != []
      && (answered ==> s.tasks[p].left[0] in s.held)
      && (gone ==> s.tasks[p].left[0] !in s.held)
    case TakenOut(p) => p in s.tasks && s.tasks[p].Judged?
    case ShutdownSent(p, stops, acknowledged) => p in s.tasks && s.tasks[p].Stopping? && (acknowledged ==> stops)
    case PutBackIn(p) => p in s.tasks && s.tasks[p].Returning?
    case Cleaned(p) => p in s.tasks && s.tasks[p].Cleaning?
    case Finished(p) => p in s.tasks && s.tasks[p].Retiring? && s.tasks[p].left == []
    case Abandoned(p) => p in s.tasks
    case Crashed(path) => path in s.held
    case Vanished(path, id) => path in s.held
  }

  function Step(s: Pool, e: Event): Pool
    requires Enabled(s, e)
  {
    match e
    case Called(p, call) => Begin(s, p, call)
    case Woken(p) => Go(s, p, Surveying)
    case Acquired(p) => Acquire(s, p, s.tasks[p].call)
    case Snapshotted(p) => Snapshot(s, p, s.tasks[p].call, s.tasks[p].again)
    case Asked(p, answered) => Ask(s, p, s.tasks[p], answered)
    case Replaced(p, refused) => Replace(s, p, s.tasks[p], refused)
    case Looked(p) => Look(s, p, s.tasks[p].call, s.tasks[p].again)
    case Made(p, made, answered) => MakeTerminal(s, p, made, answered)
    case Recorded(p) => Record(s, p, s.tasks[p].created)
    case Sent(p, answered, removed) => Forward(s, p, s.tasks[p].call, s.tasks[p].owner, answered, removed)
    case Forgot(p) => Forget(s, p, s.tasks[p].removed)
    case Surveyed(p) => Go(s, p, Retiring(s.draining))
    case CandidateAsked(p, answered, gone) => AskCandidate(s, p, s.tasks[p].left, answered, gone)
    case TakenOut(p) => TakeOut(s, p, s.tasks[p])
    case ShutdownSent(p, stops, acknowledged) => SendShutdown(s, p, s.tasks[p], stops, acknowledged)
    case PutBackIn(p) => PutBack(s, p, s.tasks[p])
    case Cleaned(p) => Clean(s, p, s.tasks[p])
    case Finished(p) => End(s, p)
    case Abandoned(p) => End(s, p)
    case Crashed(path) => s.(held := s.held - {path})
    case Vanished(path, id) => s.(held := s.held[path := s.held[path] - {id}])
  }

  /** The pool as it is set up: nothing in flight, the brokers known, each terminal in one of
      them. */
  ghost predicate Initial(s: Pool) {
    && s.current !in s.draining
    && (forall i, j | 0 <= i < j < |s.draining| :: s.draining[i] != s.draining[j])
    && s.owners == map[] && s.tasks == map[] && s.lock == None
    && (forall path | path in s.held :: path == s.current || path in s.draining)
    && (forall path, id | path in s.held && id in s.held[path] :: id in s.creator && s.creator[id] == path)
    && s.stopped == {} && s.shutdowns == [] && s.forwarded == [] && s.missed == []
  }

  /** `t` follows from `s` by these events. */
  ghost predicate Runs(s: Pool, events: seq<Event>, t: Pool)
    decreases |events|
  {
    if events == [] then s == t
    else Enabled(s, events[0]) && Runs(Step(s, events[0]), events[1..], t)
  }

  ghost predicate Reachable(t: Pool) {
    exists s: Pool, events: seq<Event> :: Initial(s) && Runs(s, events, t)
  }
}
