/** The course of a call on the pool, from its first step to its return, whatever the others do in
    between, and what each of its acts does to the tables. */
module BrokerCalls {
  import opened Wrappers
  import opened BrokerModel
  import opened BrokerInvariant
  import opened BrokerRuns

  datatype Act =
    | Locks | Lists | CurrentSilent | Refuses | Replaces
    | Finds | Misses
    | MakesNone | Makes | MakesUnheard | Records
    | Sends | Removes | RemovesUnheard | Forgets

  /** What the call `p` does in this step. Asking a generation is no act of its own, unless the
      current one does not answer. */
  function ActOf(s: Pool, e: Event, p: Pid): Option<Act>
    requires Enabled(s, e)
  {
    if PidOf(e) != Some(p) then None
    else
      match e
      case Acquired(_) => Some(Locks)
      case Snapshotted(_) => Some(Lists)
      case Asked(_, answered) => if !answered && s.tasks[p].todo[0] == s.current then Some(CurrentSilent) else None
      case Replaced(_, refused) => Some(if refused && Locking(s.tasks[p].call) && !s.tasks[p].again then Refuses else Replaces)
      case Looked(_) => Some(if s.tasks[p].call.id in s.owners then Finds else Misses)
      case Made(_, made, answered) => Some(if made.None? then MakesNone else if answered then Makes else MakesUnheard)
      case Recorded(_) => Some(Records)
      case Sent(_, answered, removed) => Some(if !removed then Sends else if answered then Removes else RemovesUnheard)
      case Forgot(_) => Some(Forgets)
      case _ => None
  }

  function Perhaps(act: Option<Act>): seq<Act> {
    if act.Some? then [act.value] else []
  }

  ghost function Course(s: Pool, events: seq<Event>, p: Pid): seq<Act>
    decreases |events|
  {
    if events == [] || !Enabled(s, events[0]) then []
    else Perhaps(ActOf(s, events[0], p)) + Course(Step(s, events[0]), events[1..], p)
  }

  // ---- the courses ---------------------------------------------------------------------------------

  predicate Then(course: seq<Act>, first: Act, rest: seq<Act> -> bool) {
    course != [] && course[0] == first && rest(course[1..])
  }

  predicate Forwards(call: Call, course: seq<Act>) {
    course == [Sends] || (call.Remove? && (course == [RemovesUnheard] || course == [Removes, Forgets]))
  }

  predicate Creates(course: seq<Act>) {
    course == [MakesNone] || course == [MakesUnheard] || course == [Makes, Records]
  }

  predicate LooksAgain(call: Call, course: seq<Act>) {
    course == [Misses] || Then(course, Finds, c => Forwards(call, c))
  }

  predicate ListsAgain(call: Call, course: seq<Act>) {
    course == [CurrentSilent] || Then(course, Replaces, c => LooksAgain(call, c))
  }

  predicate LooksFirst(call: Call, course: seq<Act>) {
    || Then(course, Finds, c => Forwards(call, c))
    || Then(course, Misses, c => Then(c, Lists, d => ListsAgain(call, d)))
  }

  predicate ListsFirst(call: Call, course: seq<Act>) {
    match call
    case List => course == [CurrentSilent] || course == [Replaces]
    case Create => course == [CurrentSilent] || course == [Refuses] || Then(course, Replaces, c => Creates(c))
    case _ =>
      || course == [CurrentSilent] || (call.Rename? && course == [Refuses])
      || Then(course, Replaces, c => LooksFirst(call, c))
  }

  /** A listing asks and replaces the owners. Whoever creates or renames does so first, under the lock. An
      operation goes to the owner; only when there is none a listing is made, and then it goes to the owner that
      was found or misses. What was created is recorded and what was removed is forgotten, if the call was told. */
  predicate Whole(call: Call, course: seq<Act>) {
    match call
    case List => Then(course, Lists, c => ListsFirst(call, c))
    case Create => Then(course, Locks, c => Then(c, Lists, d => ListsFirst(call, d)))
    case Rename(_) => Then(course, Locks, c => Then(c, Lists, d => ListsFirst(call, d)))
    case _ => LooksFirst(call, course)
  }

  /** What is still to come, seen from where the call is. */
  predicate Outlook(stage: Stage, course: seq<Act>) {
    match stage
    case Waiting(call) => Then(course, Locks, c => Then(c, Lists, d => ListsFirst(call, d)))
    case Starting(call, again) => Then(course, Lists, c => if again then ListsAgain(call, c) else ListsFirst(call, c))
    case Listing(call, again, _, _) => if again then ListsAgain(call, course) else ListsFirst(call, course)
    case Looking(call, again) => if again then LooksAgain(call, course) else LooksFirst(call, course)
    case Creating => Creates(course)
    case Recording(_) => course == [Records]
    case Forwarding(call, _) => Forwards(call, course)
    case Forgetting(_) => course == [Forgets]
    case _ => false
  }

  function CallOf(stage: Stage): Option<Call> {
    match stage
    case Waiting(call) => Some(call)
    case Starting(call, _) => Some(call)
    case Listing(call, _, _, _) => Some(call)
    case Looking(call, _) => Some(call)
    case Forwarding(call, _) => Some(call)
    case _ => None
  }

  predicate InCall(e: Event) {
    e.Acquired? || e.Snapshotted? || e.Asked? || e.Replaced? || e.Looked? || e.Made? || e.Recorded? || e.Sent? || e.Forgot?
  }

  ghost predicate OneCall(events: seq<Event>, p: Pid) {
    forall i | 0 <= i < |events| :: PidOf(events[i]) == Some(p) ==> InCall(events[i])
  }

  /** What the call knows of itself: it is not a round, it lists first if it locks, and it lists a second
      time only after it has missed. */
  predicate IsCall(stage: Stage) {
    match stage
    case Waiting(call) => Locking(call)
    case Starting(call, again) => if again then About(call) else call.List? || Locking(call)
    case Listing(call, again, _, _) => if again then About(call) else call.List? || Locking(call)
    case Looking(call, _) => About(call)
    case Creating => true
    case Recording(_) => true
    case Forwarding(call, _) => About(call)
    case Forgetting(_) => true
    case _ => false
  }

  ghost predicate After(s: Pool, p: Pid, course: seq<Act>) {
    if p in s.tasks then IsCall(s.tasks[p]) && Outlook(s.tasks[p], course) else course == []
  }

  ghost predicate GoesOn(s: Pool, e: Event, p: Pid, rest: seq<Act>)
    requires Enabled(s, e) && PidOf(e) == Some(p) && InCall(e)
  {
    && (p in Step(s, e).tasks ==> IsCall(Step(s, e).tasks[p]))
    && (After(Step(s, e), p, rest) ==> After(s, p, Perhaps(ActOf(s, e, p)) + rest))
  }

  lemma StartGoesOn(s: Pool, e: Event, p: Pid, rest: seq<Act>)
    requires Enabled(s, e) && PidOf(e) == Some(p) && (e.Acquired? || e.Snapshotted?) && IsCall(s.tasks[p])
    ensures GoesOn(s, e, p, rest)
  {
    hide ListsFirst, ListsAgain;
    assert ([Locks] + rest)[1..] == rest && ([Lists] + rest)[1..] == rest;
  }

  lemma AskGoesOn(s: Pool, e: Event, p: Pid, rest: seq<Act>)
    requires Enabled(s, e) && PidOf(e) == Some(p) && e.Asked? && IsCall(s.tasks[p])
    ensures GoesOn(s, e, p, rest)
  {
    hide LooksFirst, LooksAgain, Creates, Then, OwnedBy;
    assert [] + rest == rest;
  }

  lemma ReplaceGoesOn(s: Pool, e: Event, p: Pid, rest: seq<Act>)
    requires Enabled(s, e) && PidOf(e) == Some(p) && e.Replaced? && IsCall(s.tasks[p])
    ensures GoesOn(s, e, p, rest)
  {
    hide LooksFirst, LooksAgain, Creates;
    assert ([Replaces] + rest)[1..] == rest;
  }

  lemma LookGoesOn(s: Pool, e: Event, p: Pid, rest: seq<Act>)
    requires Enabled(s, e) && PidOf(e) == Some(p) && e.Looked? && IsCall(s.tasks[p])
    ensures GoesOn(s, e, p, rest)
  {
  }

  lemma LastGoesOn(s: Pool, e: Event, p: Pid, rest: seq<Act>)
    requires Enabled(s, e) && PidOf(e) == Some(p) && (e.Made? || e.Recorded? || e.Sent? || e.Forgot?) && IsCall(s.tasks[p])
    ensures GoesOn(s, e, p, rest)
  {
  }

  lemma OwnStep(s: Pool, e: Event, p: Pid, rest: seq<Act>)
    requires Enabled(s, e) && PidOf(e) == Some(p) && InCall(e) && IsCall(s.tasks[p])
    ensures GoesOn(s, e, p, rest)
  {
    hide Enabled, GoesOn, IsCall;
    if e.Acquired? || e.Snapshotted? {
      StartGoesOn(s, e, p, rest);
    } else if e.Asked? {
      AskGoesOn(s, e, p, rest);
    } else if e.Replaced? {
      ReplaceGoesOn(s, e, p, rest);
    } else if e.Looked? {
      LookGoesOn(s, e, p, rest);
    } else {
      LastGoesOn(s, e, p, rest);
    }
  }

  lemma OthersGoOn(s: Pool, e: Event, p: Pid)
    requires Enabled(s, e) && PidOf(e) != Some(p)
    ensures ActOf(s, e, p) == None
    ensures p in Step(s, e).tasks <==> p in s.tasks
    ensures p in s.tasks ==> Step(s, e).tasks[p] == s.tasks[p]
  {
    hide Step, Enabled;
    OthersLeave(s, e, p);
  }

  lemma MovesWhenThere(s: Pool, e: Event, p: Pid)
    requires Enabled(s, e) && PidOf(e) == Some(p) && InCall(e)
    ensures p in s.tasks
  {
  }

  lemma {:induction false} CourseFrom(s: Pool, events: seq<Event>, t: Pool, p: Pid)
    requires Runs(s, events, t) && OneCall(events, p) && p !in t.tasks
    requires p in s.tasks ==> IsCall(s.tasks[p])
    ensures After(s, p, Course(s, events, p))
    decreases |events|
  {
    hide Step, Enabled, InCall, IsCall, ActOf, Outlook;
    if events != [] {
      var e, next := events[0], Step(s, events[0]);
      var rest := Course(next, events[1..], p);
      assert forall i | 0 <= i < |events[1..]| :: events[1..][i] == events[i + 1];
      if PidOf(e) == Some(p) {
        MovesWhenThere(s, e, p);
        OwnStep(s, e, p, rest);
      } else {
        OthersGoOn(s, e, p);
        assert [] + rest == rest;
      }
      CourseFrom(next, events[1..], t, p);
    }
  }

  lemma Begins(s: Pool, p: Pid, call: Call)
    requires Enabled(s, Called(p, call))
    ensures var t := Step(s, Called(p, call)); p in t.tasks && IsCall(t.tasks[p]) && CallOf(t.tasks[p]) == Some(call)
    ensures forall course :: Outlook(Step(s, Called(p, call)).tasks[p], course) ==> Whole(call, course)
  {
  }

  /** Every call that returns, unless its caller goes away, has run one of the courses, whatever the
      others and the brokers did in between. */
  lemma {:induction false} EveryCall(s: Pool, p: Pid, call: Call, events: seq<Event>, t: Pool)
    requires Enabled(s, Called(p, call)) && Runs(Step(s, Called(p, call)), events, t)
    requires OneCall(events, p) && p !in t.tasks
    ensures Whole(call, Course(Step(s, Called(p, call)), events, p))
  {
    hide Step, Enabled, OneCall, Outlook, Whole, IsCall;
    Begins(s, p, call);
    CourseFrom(Step(s, Called(p, call)), events, t, p);
  }

  // ---- what the acts do -----------------------------------------------------------------------------------

  /** The tables other than those of the calls in flight. */
  predicate SameTables(s: Pool, t: Pool) {
    && t.current == s.current && t.draining == s.draining && t.owners == s.owners && t.held == s.held && t.creator == s.creator
    && t.stopped == s.stopped && t.shutdowns == s.shutdowns && t.forwarded == s.forwarded && t.missed == s.missed
  }

  /** A listing starts with nothing found and every generation to ask, the current one first. What is created
      is in the current broker, and recorded as its own; an operation goes to the broker that the entry names; what was
      removed is there no more, and its entry is forgotten. A second miss is what the caller is told. */
  ghost predicate Does(s: Pool, e: Event, p: Pid)
    requires Enabled(s, e) && ActOf(s, e, p).Some?
  {
    var t, stage := Step(s, e), s.tasks[p];
    match ActOf(s, e, p).value
    case Locks => SameTables(s, t) && s.lock == None && t.lock == Some(p)
    case Lists => SameTables(s, t) && t.tasks[p].todo == [s.current] + s.draining && t.tasks[p].found == map[]
    case Replaces => SameTables(s.(owners := stage.found), t)
    case Refuses => SameTables(s.(owners := stage.found), t) && p !in t.tasks
    case Finds =>
      SameTables(s, t) && t.tasks[p].call == stage.call && stage.call.id in s.owners && t.tasks[p].owner == s.owners[stage.call.id]
    case Misses =>
      && stage.call.id !in s.owners
      && SameTables(if stage.again then s.(missed := s.missed + [stage.call.id]) else s, t)
    case MakesNone => SameTables(s, t)
    case Makes =>
      && t.tasks[p] == Recording(e.made.value)
      && SameTables(s.(held := s.held[s.current := s.held[s.current] + {e.made.value}], creator := s.creator[e.made.value := s.current]), t)
    case MakesUnheard =>
      SameTables(s.(held := s.held[s.current := s.held[s.current] + {e.made.value}], creator := s.creator[e.made.value := s.current]), t)
    case Records => SameTables(s.(owners := s.owners[stage.created := s.current]), t)
    case Sends => SameTables(s.(forwarded := s.forwarded + [Forwarded(stage.call.id, stage.owner)]), t)
    case Forgets => SameTables(s.(owners := s.owners - {stage.removed}), t)
    case CurrentSilent => SameTables(s, t)
    case Removes =>
      && t.tasks[p] == Forgetting(stage.call.id)
      && SameTables(s.(forwarded := s.forwarded + [Forwarded(stage.call.id, stage.owner)],
                    held := s.held[stage.owner := s.held[stage.owner] - {stage.call.id}]), t)
    case RemovesUnheard =>
      SameTables(s.(forwarded := s.forwarded + [Forwarded(stage.call.id, stage.owner)],
                    held := s.held[stage.owner := s.held[stage.owner] - {stage.call.id}]), t)
  }

  lemma ListDoes(s: Pool, e: Event, p: Pid)
    requires Enabled(s, e) && ActOf(s, e, p).Some? && (e.Acquired? || e.Snapshotted? || e.Asked? || e.Replaced?)
    ensures Does(s, e, p)
  {
    hide OwnedBy;
  }

  lemma LookDoes(s: Pool, e: Event, p: Pid)
    requires Enabled(s, e) && ActOf(s, e, p).Some? && (e.Looked? || e.Recorded?)
    ensures Does(s, e, p)
  {
  }

  lemma MakeDoes(s: Pool, e: Event, p: Pid)
    requires Enabled(s, e) && ActOf(s, e, p).Some? && e.Made?
    ensures Does(s, e, p)
  {
  }

  lemma ForgetDoes(s: Pool, e: Event, p: Pid)
    requires Enabled(s, e) && ActOf(s, e, p).Some? && e.Forgot?
    ensures Does(s, e, p)
  {
  }

  lemma SendDoes(s: Pool, e: Event, p: Pid)
    requires Enabled(s, e) && ActOf(s, e, p).Some? && e.Sent?
    ensures Does(s, e, p)
  {
  }

  /** So every act of a call does. */
  lemma ActDoes(s: Pool, e: Event, p: Pid)
    requires Enabled(s, e) && ActOf(s, e, p).Some?
    ensures Does(s, e, p)
  {
    hide Enabled, Does;
    if e.Acquired? || e.Snapshotted? || e.Asked? || e.Replaced? {
      ListDoes(s, e, p);
    } else if e.Looked? || e.Recorded? {
      LookDoes(s, e, p);
    } else if e.Made? {
      MakeDoes(s, e, p);
    } else if e.Sent? {
      SendDoes(s, e, p);
    } else {
      ForgetDoes(s, e, p);
    }
  }

  ghost predicate Stays(s: Pool, e: Event, p: Pid)
    requires Enabled(s, e) && p in s.tasks
  {
    p in Step(s, e).tasks && CallOf(Step(s, e).tasks[p]).Some? ==> CallOf(Step(s, e).tasks[p]) == CallOf(s.tasks[p])
  }

  lemma ListingStays(s: Pool, e: Event, p: Pid)
    requires Enabled(s, e) && PidOf(e) == Some(p) && (e.Acquired? || e.Snapshotted? || e.Asked? || e.Replaced?)
    ensures Stays(s, e, p)
  {
    hide OwnedBy;
  }

  lemma LastStays(s: Pool, e: Event, p: Pid)
    requires Enabled(s, e) && PidOf(e) == Some(p) && (e.Looked? || e.Made? || e.Recorded? || e.Sent? || e.Forgot?)
    ensures Stays(s, e, p)
  {
  }

  /** A call stays about what it was made for. */
  lemma SameCall(s: Pool, e: Event, p: Pid)
    requires Enabled(s, e) && PidOf(e) == Some(p) && InCall(e)
    ensures p in s.tasks && (p in Step(s, e).tasks && CallOf(Step(s, e).tasks[p]).Some? ==> CallOf(Step(s, e).tasks[p]) == CallOf(s.tasks[p]))
  {
    hide Step, Enabled, CallOf;
    MovesWhenThere(s, e, p);
    if e.Acquired? || e.Snapshotted? || e.Asked? || e.Replaced? {
      ListingStays(s, e, p);
    } else {
      LastStays(s, e, p);
    }
  }

  /** The generations that a listing asks. */
  ghost function AskedOf(s: Pool, events: seq<Event>, p: Pid): seq<Path>
    decreases |events|
  {
    if events == [] || !Enabled(s, events[0]) then []
    else (if PidOf(events[0]) == Some(p) && events[0].Asked? then [s.tasks[p].todo[0]] else []) + AskedOf(Step(s, events[0]), events[1..], p)
  }

  lemma AskStep(s: Pool, e: Event, p: Pid)
    requires Enabled(s, e) && PidOf(e) == Some(p) && e.Asked? && p in Step(s, e).tasks
    ensures Step(s, e).tasks[p].Listing? && [s.tasks[p].todo[0]] + Step(s, e).tasks[p].todo == s.tasks[p].todo
  {
  }

  /** A listing that gets to its end has asked the generations of its start, each once and in order. */
  lemma {:induction false} AsksEvery(s: Pool, events: seq<Event>, t: Pool, p: Pid)
    requires Runs(s, events, t) && OneCall(events, p) && p in s.tasks && s.tasks[p].Listing?
    requires forall i | 0 <= i < |events| :: PidOf(events[i]) == Some(p) ==> events[i].Asked?
    requires p in t.tasks
    ensures t.tasks[p].Listing? && AskedOf(s, events, p) + t.tasks[p].todo == s.tasks[p].todo
    decreases |events|
  {
    hide Step, Enabled, InCall;
    if events != [] {
      var e, next := events[0], Step(s, events[0]);
      assert forall i | 0 <= i < |events[1..]| :: events[1..][i] == events[i + 1];
      if p !in next.tasks {
        ReturnedStays(next, events[1..], t, p);
      } else {
        if PidOf(e) == Some(p) {
          AskStep(s, e, p);
        } else {
          OthersLeave(s, e, p);
        }
        AsksEvery(next, events[1..], t, p);
      }
    }
  }

  lemma {:induction false} ReturnedStays(s: Pool, events: seq<Event>, t: Pool, p: Pid)
    requires Runs(s, events, t) && OneCall(events, p) && p !in s.tasks
    ensures p !in t.tasks
    decreases |events|
  {
    hide Step, Enabled, InCall;
    if events != [] {
      assert forall i | 0 <= i < |events[1..]| :: events[1..][i] == events[i + 1];
      if PidOf(events[0]) == Some(p) {
        MovesWhenThere(s, events[0], p);
      } else {
        OthersLeave(s, events[0], p);
      }
      ReturnedStays(Step(s, events[0]), events[1..], t, p);
    }
  }
}
