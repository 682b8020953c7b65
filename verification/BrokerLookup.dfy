/** When the pool answers that a terminal does not exist: exactly which steps decide it, and two
    interleavings in which the answer is wrong. */
module BrokerLookups {
  import opened Wrappers
  import opened BrokerModel
  import opened BrokerInvariant
  import opened BrokerRuns

  // ---- who writes the owners -----------------------------------------------------------------

  /** Only these steps write the owners. */
  predicate WritesOwners(e: Event) {
    e.Replaced? || e.Recorded? || e.Forgot? || e.Cleaned?
  }

  lemma OwnersStay(s: Pool, e: Event)
    requires Enabled(s, e) && !WritesOwners(e)
    ensures Step(s, e).owners == s.owners && Step(s, e).current == s.current
  {
    hide Enabled, Without, WithoutOwner, OwnedBy;
    match e
    case Made(_, _, _) =>
    case Asked(_, _) =>
    case Looked(_) =>
    case Sent(_, _, _) =>
    case _ =>
  }

  /** What a step does to the entry of `id`: it puts it in, takes it out, or leaves it. A listing
      puts in what it found and takes out the rest; the end of a broker takes out what that
      broker created. */
  function Touch(s: Pool, e: Event, id: Id): Option<bool>
    requires Enabled(s, e)
  {
    match e
    case Replaced(p, _) => Some(id in s.tasks[p].found)
    case Recorded(p) => if s.tasks[p].created == id then Some(true) else None
    case Forgot(p) => if s.tasks[p].removed == id then Some(false) else None
    case Cleaned(p) => if id in s.creator && s.creator[id] == s.tasks[p].path then Some(false) else None
    case _ => None
  }

  lemma TouchDecides(s: Pool, e: Event, id: Id)
    requires Inv(s) && Enabled(s, e)
    ensures id in Step(s, e).owners <==> Touch(s, e, id) == Some(true) || (Touch(s, e, id) == None && id in s.owners)
  {
    hide Inv;
    if WritesOwners(e) {
      WriterDecides(s, e, id);
    } else {
      OwnersStay(s, e);
    }
  }

  lemma WriterDecides(s: Pool, e: Event, id: Id)
    requires Inv(s) && Enabled(s, e) && WritesOwners(e)
    ensures id in Step(s, e).owners <==> Touch(s, e, id) == Some(true) || (Touch(s, e, id) == None && id in s.owners)
  {
    hide Distinct, Empty, Tasks, Holds, Locks, Logs;
  }

  /** The last step of a run that touches the entry of `id`. */
  ghost function LastTouch(s: Pool, events: seq<Event>, id: Id): Option<bool>
    decreases |events|
  {
    if events == [] || !Enabled(s, events[0]) then None
    else
      match LastTouch(Step(s, events[0]), events[1..], id)
      case Some(put) => Some(put)
      case None => Touch(s, events[0], id)
  }

  lemma {:induction false} LastTouchDecides(s: Pool, events: seq<Event>, t: Pool, id: Id)
    requires Inv(s) && Runs(s, events, t)
    ensures id in t.owners <==> LastTouch(s, events, id) == Some(true) || (LastTouch(s, events, id) == None && id in s.owners)
    decreases |events|
  {
    hide Inv, Step, Enabled, Touch;
    if events != [] {
      TouchDecides(s, events[0], id);
      StepKeeps(s, events[0]);
      LastTouchDecides(Step(s, events[0]), events[1..], t, id);
    }
  }

  // ---- the second lookup ------------------------------------------------------------------------

  /** From the moment a call's own listing replaces the owners to its second lookup: the terminal is
      reported missing if and only if the last step in between that touches its entry, that
      listing included, does not put it in. Otherwise the operation goes to its creator. */
  lemma {:induction false} SecondLookupMisses(s: Pool, p: Pid, refused: bool, events: seq<Event>, t: Pool)
    requires Reachable(s) && Enabled(s, Replaced(p, refused)) && s.tasks[p].again
    requires Runs(s, [Replaced(p, refused)] + events, t)
    requires p in t.tasks && t.tasks[p] == Looking(s.tasks[p].call, true)
    ensures About(s.tasks[p].call) && Enabled(t, Looked(p))
    ensures var id := s.tasks[p].call.id;
            var last := LastTouch(s, [Replaced(p, refused)] + events, id);
            && last.Some?
            && (!last.value ==> Step(t, Looked(p)).missed == t.missed + [id] && p !in Step(t, Looked(p)).tasks)
            && (last.value ==>
                  && Step(t, Looked(p)).missed == t.missed
                  && p in Step(t, Looked(p)).tasks && Step(t, Looked(p)).tasks[p].Forwarding?
                  && id in t.creator && Step(t, Looked(p)).tasks[p].owner == t.creator[id])
  {
    hide Inv, Runs, Reachable;
    var run := [Replaced(p, refused)] + events;
    ReachableHolds(s);
    RunKeeps(s, run, t);
    TaskFacts(t, p);
    LastTouchDecides(s, run, t, s.tasks[p].call.id);
    assert run[0] == Replaced(p, refused);
    OwnersKnown(t);
  }

  lemma OwnersKnown(t: Pool)
    requires Inv(t)
    ensures Truthful(t.owners, t.creator)
  {
  }

  /** That a call's listing has found the terminal: one of the generations it asked answered while it
      held it. */
  ghost predicate Answered(s: Pool, events: seq<Event>, p: Pid, id: Id)
    decreases |events|
  {
    && events != [] && Enabled(s, events[0])
    && (|| (events[0] == Asked(p, true) && id in s.held[s.tasks[p].todo[0]])
        || Answered(Step(s, events[0]), events[1..], p, id))
  }

  /** While a call lists, its own steps only ask. */
  ghost predicate OnlyAsks(events: seq<Event>, p: Pid) {
    forall i | 0 <= i < |events| :: PidOf(events[i]) == Some(p) ==> events[i].Asked?
  }

  lemma AskFinds(s: Pool, e: Event, p: Pid, id: Id)
    requires Enabled(s, e) && p in s.tasks && s.tasks[p].Listing? && (PidOf(e) == Some(p) ==> e.Asked?)
    requires p in Step(s, e).tasks
    ensures Step(s, e).tasks[p].Listing?
    ensures id in Step(s, e).tasks[p].found <==>
            id in s.tasks[p].found || (e == Asked(p, true) && id in s.held[s.tasks[p].todo[0]])
  {
    if PidOf(e) == Some(p) {
      AskStep(s, p, e.answered);
    } else {
      OthersLeave(s, e, p);
    }
  }

  lemma AskStep(s: Pool, p: Pid, answered: bool)
    requires Enabled(s, Asked(p, answered))
    ensures Step(s, Asked(p, answered)) == Ask(s, p, s.tasks[p], answered)
  {
  }

  lemma AskEnds(s: Pool, e: Event, p: Pid)
    requires Enabled(s, e) && p !in s.tasks && (PidOf(e) == Some(p) ==> e.Asked?)
    ensures p !in Step(s, e).tasks
  {
    hide Step;
    if PidOf(e) != Some(p) {
      OthersLeave(s, e, p);
    }
  }

  lemma {:induction false} GoneStaysGone(s: Pool, events: seq<Event>, t: Pool, p: Pid)
    requires Runs(s, events, t) && OnlyAsks(events, p) && p !in s.tasks
    ensures p !in t.tasks
    decreases |events|
  {
    hide Step, Enabled, PidOf;
    if events != [] {
      AskEnds(s, events[0], p);
      assert forall i | 0 <= i < |events[1..]| :: events[1..][i] == events[i + 1];
      GoneStaysGone(Step(s, events[0]), events[1..], t, p);
    }
  }

  /** A listing finds a terminal if and only if a generation that held it answered. */
  lemma {:induction false} ListingFinds(s: Pool, events: seq<Event>, t: Pool, p: Pid, id: Id)
    requires Runs(s, events, t) && OnlyAsks(events, p)
    requires p in s.tasks && s.tasks[p].Listing? && p in t.tasks
    ensures t.tasks[p].Listing?
    ensures id in t.tasks[p].found <==> id in s.tasks[p].found || Answered(s, events, p, id)
    decreases |events|
  {
    hide Step, PidOf;
    if events != [] {
      var next := Step(s, events[0]);
      assert forall i | 0 <= i < |events[1..]| :: events[1..][i] == events[i + 1];
      if p !in next.tasks {
        GoneStaysGone(next, events[1..], t, p);
      } else {
        AskFinds(s, events[0], p, id);
        ListingFinds(next, events[1..], t, p, id);
      }
    }
  }

  // ---- wrong answers --------------------------------------------------------------------------------

  predicate Held(s: Pool, id: Id) {
    exists path | path in s.held :: id in s.held[path]
  }

  /** Some running broker holds the terminal, before and after every step. */
  ghost predicate HeldThroughout(s: Pool, events: seq<Event>, id: Id)
    decreases |events|
  {
    && Held(s, id)
    && (events != [] ==> Enabled(s, events[0]) && HeldThroughout(Step(s, events[0]), events[1..], id))
  }

  ghost predicate Along(s: Pool, events: seq<Event>, t: Pool, id: Id) {
    Runs(s, events, t) && HeldThroughout(s, events, id)
  }

  lemma Standing(s: Pool, id: Id, path: Path)
    requires path in s.held && id in s.held[path]
    ensures Along(s, [], s, id)
  {
  }

  lemma Onward(s: Pool, events: seq<Event>, t: Pool, id: Id, e: Event, path: Path)
    requires Along(s, events, t, id) && Enabled(t, e)
    requires path in Step(t, e).held && id in Step(t, e).held[path]
    ensures Along(s, events + [e], Step(t, e), id)
  {
    hide Step, Enabled;
    RunsThen(s, events, t, e);
    HeldThen(s, events, t, e, id);
  }

  lemma {:induction false} HeldThen(s: Pool, events: seq<Event>, t: Pool, e: Event, id: Id)
    requires Runs(s, events, t) && HeldThroughout(s, events, id) && Enabled(t, e) && Held(Step(t, e), id)
    ensures HeldThroughout(s, events + [e], id)
    decreases |events|
  {
    hide Enabled, Step, Held;
    if events == [] {
      assert [e][1..] == [];
      assert events + [e] == [e];
    } else {
      assert (events + [e])[1..] == events[1..] + [e];
      HeldThen(Step(s, events[0]), events[1..], t, e, id);
    }
  }

  lemma Extend(s: Pool, e: Event, t: Pool)
    requires Reachable(s) && Enabled(s, e) && Step(s, e) == t
    ensures Reachable(t)
  {
    hide Enabled, Step, Initial;
    var first, events :| Initial(first) && Runs(first, events, s);
    RunsThen(first, events, s, e);
  }

  lemma {:induction false} RunsThen(s: Pool, events: seq<Event>, t: Pool, e: Event)
    requires Runs(s, events, t) && Enabled(t, e)
    ensures Runs(s, events + [e], Step(t, e))
    decreases |events|
  {
    hide Enabled, Step;
    if events == [] {
      assert [e][1..] == [];
      assert events + [e] == [e];
    } else {
      assert (events + [e])[1..] == events[1..] + [e];
      RunsThen(Step(s, events[0]), events[1..], t, e);
    }
  }

  /** A call about a terminal that some broker holds from the call's first step to its last, which
      answers that there is no such terminal. `before` is the pool at that last step. */
  ghost predicate WronglyMissed(s: Pool, p: Pid, id: Id, events: seq<Event>, before: Pool, t: Pool) {
    && Reachable(s) && Along(s, events + [Looked(p)], t, id)
    && events != [] && events[0] == Called(p, Use(id))
    && Runs(s, events, before) && Enabled(before, Looked(p)) && t == Step(before, Looked(p))
    && before.missed == s.missed && t.missed == before.missed + [id]
  }

  // The steps of the traces, one lemma for each kind.

  lemma CallStep(s: Pool, p: Pid, call: Call)
    requires p !in s.tasks
    ensures Enabled(s, Called(p, call)) && Step(s, Called(p, call)) == Begin(s, p, call)
  {
  }

  lemma AcquireStep(s: Pool, p: Pid, call: Call)
    requires p in s.tasks && s.tasks[p] == Waiting(call) && s.lock == None
    ensures Enabled(s, Acquired(p)) && Step(s, Acquired(p)) == Acquire(s, p, call)
  {
  }

  lemma SnapshotStep(s: Pool, p: Pid, call: Call, again: bool)
    requires p in s.tasks && s.tasks[p] == Starting(call, again)
    ensures Enabled(s, Snapshotted(p)) && Step(s, Snapshotted(p)) == Snapshot(s, p, call, again)
  {
  }

  lemma ReplaceStep(s: Pool, p: Pid, stage: Stage)
    requires p in s.tasks && s.tasks[p] == stage && stage.Listing? && stage.todo == []
    ensures Enabled(s, Replaced(p, false)) && Step(s, Replaced(p, false)) == Replace(s, p, stage, false)
  {
  }

  lemma MakeStep(s: Pool, p: Pid, id: Id)
    requires p in s.tasks && s.tasks[p] == Creating && s.current in s.held && id !in s.creator
    ensures Enabled(s, Made(p, Some(id), true)) && Step(s, Made(p, Some(id), true)) == MakeTerminal(s, p, Some(id), true)
  {
  }

  lemma RecordStep(s: Pool, p: Pid, id: Id)
    requires p in s.tasks && s.tasks[p] == Recording(id)
    ensures Enabled(s, Recorded(p)) && Step(s, Recorded(p)) == Record(s, p, id)
  {
  }

  lemma LookStep(s: Pool, p: Pid, call: Call, again: bool)
    requires p in s.tasks && s.tasks[p] == Looking(call, again) && About(call)
    ensures Enabled(s, Looked(p)) && Step(s, Looked(p)) == Look(s, p, call, again)
  {
  }

  // ---- one call, and a broker that does not answer once ----------------------------------------------

  /** Broker 1 is current, broker 2 drains and holds the terminal 7. */
  function Two(tasks: map<Pid, Stage>, missed: seq<Id>): Pool {
    Pool(1, [2], map[], None, tasks, map[1 := {}, 2 := {7}], map[7 := 2], {}, [], [], missed)
  }

  lemma TwoIsInitial()
    ensures Reachable(Two(map[], []))
  {
    hide Step, Enabled;
    var s := Two(map[], []);
    assert Initial(s) && Runs(s, [], s);
  }

  /** Nothing else is in flight: the draining broker just does not answer the one listing, which
      skips it. */
  lemma OneCallMisses() returns (events: seq<Event>, before: Pool)
    ensures WronglyMissed(Two(map[], []), 4, 7, events, before, Two(map[], [7]))
    ensures forall i | 0 <= i < |events| :: PidOf(events[i]) == Some(4)
  {
    hide Step, Enabled, Reachable, Along, WronglyMissed;
    var s, call := Two(map[], []), Use(7);
    TwoIsInitial();
    Standing(s, 7, 2);
    CallStep(s, 4, call);
    Onward(s, [], s, 7, Called(4, call), 2);
    var s1 := Two(map[4 := Looking(call, false)], []);
    assert Begin(s, 4, call) == s1;
    assert [] + [Called(4, call)] == [Called(4, call)];
    LookStep(s1, 4, call, false);
    Onward(s, [Called(4, call)], s1, 7, Looked(4), 2);
    var s2 := Two(map[4 := Starting(call, true)], []);
    assert Look(s1, 4, call, false) == s2;
    before := OneListingSkips(s, [Called(4, call)] + [Looked(4)], s2);
    events := [Called(4, call)] + [Looked(4)] + [Snapshotted(4)] + [Asked(4, true)] + [Asked(4, false)] + [Replaced(4, false)];
    assert [] + [7] == [7];
    assert Look(before, 4, call, true).tasks == map[];
    assert Look(before, 4, call, true) == Two(map[], [7]);
    LastLookMisses(s, events, before, 2);
  }

  /** The second lookup ends the call, and the trace. */
  lemma LastLookMisses(s: Pool, events: seq<Event>, before: Pool, path: Path)
    requires Reachable(s) && Along(s, events, before, 7) && before.missed == s.missed
    requires events != [] && events[0] == Called(4, Use(7))
    requires 4 in before.tasks && before.tasks[4] == Looking(Use(7), true) && 7 !in before.owners
    requires path in before.held && 7 in before.held[path]
    ensures WronglyMissed(s, 4, 7, events, before, Look(before, 4, Use(7), true))
  {
    hide Step, Enabled, Reachable, Along;
    LookStep(before, 4, Use(7), true);
    Onward(s, events, before, 7, Looked(4), path);
    RunsOf(s, events, before, 7);
  }

  lemma {:induction false} RunsOf(s: Pool, events: seq<Event>, t: Pool, id: Id)
    requires Along(s, events, t, id)
    ensures Runs(s, events, t)
  {
  }

  lemma OneListingAsks(s: Pool, events: seq<Event>, s2: Pool) returns (s4: Pool)
    requires Along(s, events, s2, 7) && s2 == Two(map[4 := Starting(Use(7), true)], [])
    ensures s4 == Two(map[4 := Listing(Use(7), true, [2], map[])], [])
    ensures Along(s, events + [Snapshotted(4)] + [Asked(4, true)], s4, 7)
  {
    hide Step, Enabled, Along;
    var call := Use(7);
    SnapshotStep(s2, 4, call, true);
    Onward(s, events, s2, 7, Snapshotted(4), 2);
    var s3 := Two(map[4 := Listing(call, true, [1, 2], map[])], []);
    assert [1] + s2.draining == [1, 2];
    assert Snapshot(s2, 4, call, true) == s3;
    AskEnabled(s3, 4, true);
    Onward(s, events + [Snapshotted(4)], s3, 7, Asked(4, true), 2);
    s4 := Two(map[4 := Listing(call, true, [2], map[])], []);
    assert s3.tasks[4].todo[1..] == [2] && s3.tasks[4].found + OwnedBy(1, {}) == map[];
    assert Ask(s3, 4, s3.tasks[4], true) == s4;
  }

  lemma OneListingSkips(s: Pool, events: seq<Event>, s2: Pool) returns (before: Pool)
    requires Along(s, events, s2, 7) && s2 == Two(map[4 := Starting(Use(7), true)], [])
    ensures before == Two(map[4 := Looking(Use(7), true)], [])
    ensures Along(s, events + [Snapshotted(4)] + [Asked(4, true)] + [Asked(4, false)] + [Replaced(4, false)], before, 7)
  {
    hide Step, Enabled, Along;
    var call := Use(7);
    var s4 := OneListingAsks(s, events, s2);
    AskEnabled(s4, 4, false);
    Onward(s, events + [Snapshotted(4)] + [Asked(4, true)], s4, 7, Asked(4, false), 2);
    var s5 := Two(map[4 := Listing(call, true, [], map[])], []);
    assert s4.tasks[4].todo[1..] == [];
    assert Ask(s4, 4, s4.tasks[4], false) == s5;
    ReplaceStep(s5, 4, s5.tasks[4]);
    Onward(s, events + [Snapshotted(4)] + [Asked(4, true)] + [Asked(4, false)], s5, 7, Replaced(4, false), 2);
    before := Two(map[4 := Looking(call, true)], []);
    assert Replace(s5, 4, s5.tasks[4], false) == before;
  }

  lemma AskEnabled(s: Pool, p: Pid, answered: bool)
    requires p in s.tasks && s.tasks[p].Listing? && s.tasks[p].todo != [] && (answered ==> s.tasks[p].todo[0] in s.held)
    ensures Enabled(s, Asked(p, answered)) && Step(s, Asked(p, answered)) == Ask(s, p, s.tasks[p], answered)
  {
  }

  // ---- every broker answers, and two listings are late --------------------------------------------------

  /** A pool of one broker, with these owners, terminals and calls in flight. */
  function One(owners: map<Id, Path>, tasks: map<Pid, Stage>, terminals: set<Id>, missed: seq<Id>): Pool {
    Pool(1, [], owners, None, tasks, map[1 := terminals], OwnedBy(1, terminals), {}, [], [], missed)
  }

  const STALE := Listing(List, false, [], OwnedBy(1, {}))

  /** A call that starts a listing asks the one broker there is. */
  lemma DoList(s: Pool, p: Pid, call: Call, again: bool)
    requires Reachable(s) && p in s.tasks && s.tasks[p] == Starting(call, again)
    requires s.draining == [] && s.current in s.held
    ensures Reachable(Go(s, p, Listing(call, again, [], OwnedBy(s.current, s.held[s.current]))))
  {
    hide Inv, Reachable, Step, Enabled;
    var asking := Snapshot(s, p, call, again);
    SnapshotStep(s, p, call, again);
    Extend(s, Snapshotted(p), asking);
    var stage := asking.tasks[p];
    assert stage.todo == [s.current] && stage.todo[1..] == [];
    assert stage.found + OwnedBy(s.current, s.held[s.current]) == OwnedBy(s.current, s.held[s.current]);
    var t := Ask(asking, p, stage, true);
    AskEnabled(asking, p, true);
    Extend(asking, Asked(p, true), t);
    assert t.tasks == s.tasks[p := Listing(call, again, [], OwnedBy(s.current, s.held[s.current]))];
  }

  /** Two listings that asked the broker before a terminal was made. */
  lemma TwoStaleListings()
    ensures Reachable(One(map[], map[1 := STALE, 2 := STALE], {}, []))
  {
    hide Step, Enabled;
    var s := One(map[], map[], {}, []);
    assert Initial(s) && Runs(s, [], s);
    hide Reachable;
    OneMoreStale(s, 1);
    var s1 := One(map[], map[1 := STALE], {}, []);
    assert s.tasks[1 := STALE] == s1.tasks;
    OneMoreStale(s1, 2);
    assert s1.tasks[2 := STALE] == map[1 := STALE, 2 := STALE];
  }

  lemma OneMoreStale(s: Pool, p: Pid)
    requires Reachable(s) && p !in s.tasks && s.draining == [] && s.current == 1 && s.held == map[1 := {}]
    ensures Reachable(s.(tasks := s.tasks[p := STALE]))
  {
    hide Step, Enabled, Reachable;
    CallStep(s, p, List);
    Extend(s, Called(p, List), Begin(s, p, List));
    DoList(Begin(s, p, List), p, List, false);
    assert Go(Begin(s, p, List), p, STALE).tasks == s.tasks[p := STALE];
  }

  /** A terminal is made and recorded beside them. */
  lemma TerminalMade(tasks: map<Pid, Stage>, id: Id)
    requires 3 !in tasks && Reachable(One(map[], tasks, {}, []))
    ensures Reachable(One(map[id := 1], tasks, {id}, []))
  {
    hide Reachable, Step, Enabled;
    var s := One(map[], tasks, {}, []);
    var s1 := Begin(s, 3, Create);
    CallStep(s, 3, Create);
    Extend(s, Called(3, Create), s1);
    AcquireStep(s1, 3, Create);
    var s2 := Acquire(s1, 3, Create);
    Extend(s1, Acquired(3), s2);
    DoList(s2, 3, Create, false);
    var listed := Listing(Create, false, [], OwnedBy(1, {}));
    var s3 := Go(s2, 3, listed);
    var s4 := s.(lock := Some(3), tasks := tasks[3 := Creating]);
    assert OwnedBy(1, {}) == map[];
    assert s3.tasks[3 := Creating] == s4.tasks;
    assert Replace(s3, 3, listed, false) == s4;
    ReplaceStep(s3, 3, listed);
    Extend(s3, Replaced(3, false), s4);
    MadeAndRecorded(s4, tasks, id);
  }

  lemma MadeAndRecorded(s: Pool, tasks: map<Pid, Stage>, id: Id)
    requires Reachable(s) && 3 !in tasks
    requires s == One(map[], tasks, {}, []).(lock := Some(3), tasks := tasks[3 := Creating])
    ensures Reachable(One(map[id := 1], tasks, {id}, []))
  {
    hide Reachable, Step, Enabled;
    MakeStep(s, 3, id);
    var s5 := MakeTerminal(s, 3, Some(id), true);
    Extend(s, Made(3, Some(id), true), s5);
    RecordStep(s5, 3, id);
    var t := Record(s5, 3, id);
    Extend(s5, Recorded(3), t);
    assert t.tasks == tasks;
    assert t.owners == map[id := 1];
    assert t.creator == OwnedBy(1, {id});
    assert t.held == map[1 := {id}] by {
      assert t.held.Keys == {1};
      assert t.held[1] == {id};
    }
  }

  /** The pool when both listings are late and the terminal 7 is recorded. */
  function Late(): Pool {
    One(map[7 := 1], map[1 := STALE, 2 := STALE], {7}, [])
  }

  function LateStart(): seq<Event> {
    [Called(4, Use(7))] + [Replaced(1, false)]
  }

  function LateEvents(): seq<Event> {
    LateStart() + [Looked(4)] + [Snapshotted(4)] + [Asked(4, true)] + [Replaced(4, false)] + [Replaced(2, false)]
  }

  lemma LateIsReachable()
    ensures Reachable(Late())
  {
    hide Step, Enabled, Reachable;
    TwoStaleListings();
    TerminalMade(map[1 := STALE, 2 := STALE], 7);
  }

  /** One late listing finishes before the call's first lookup. */
  lemma FirstLate()
    ensures Along(Late(), LateStart(), One(map[], map[2 := STALE, 4 := Looking(Use(7), false)], {7}, []), 7)
  {
    hide Step, Enabled, Along;
    var s, call := Late(), Use(7);
    Standing(s, 7, 1);
    CallStep(s, 4, call);
    Onward(s, [], s, 7, Called(4, call), 1);
    assert [] + [Called(4, call)] == [Called(4, call)];
    var s1 := Begin(s, 4, call);
    ReplaceStep(s1, 1, STALE);
    Onward(s, [Called(4, call)], s1, 7, Replaced(1, false), 1);
    var s2 := One(map[], map[2 := STALE, 4 := Looking(call, false)], {7}, []);
    assert s1.tasks - {1} == s2.tasks && OwnedBy(1, {}) == map[];
    assert Replace(s1, 1, STALE, false) == s2;
  }

  /** The two late listings finish at the wrong moments: one before the call's first lookup, one
      between its own listing and its second. Every broker answers, and the terminal is there all
      along. */
  lemma LiveTerminalReportedMissing() returns (events: seq<Event>, before: Pool)
    ensures WronglyMissed(Late(), 4, 7, events, before, One(map[], map[], {7}, [7]))
    ensures forall i | 0 <= i < |events| :: events[i].Asked? ==> events[i].answered
  {
    hide Step, Enabled, Reachable, Along, WronglyMissed, Late;
    LateIsReachable();
    FirstLate();
    events := LateEvents();
    before := FoundThenLost(Late(), LateStart(), One(map[], map[2 := STALE, 4 := Looking(Use(7), false)], {7}, []));
    LateEnds(before);
  }

  lemma LateEnds(before: Pool)
    requires before == One(map[], map[4 := Looking(Use(7), true)], {7}, [])
    requires Reachable(Late()) && Along(Late(), LateEvents(), before, 7)
    ensures WronglyMissed(Late(), 4, 7, LateEvents(), before, One(map[], map[], {7}, [7]))
  {
    hide Step, Enabled, Reachable, Along, WronglyMissed;
    assert [] + [7] == [7];
    assert Look(before, 4, Use(7), true).tasks == map[];
    assert Look(before, 4, Use(7), true) == One(map[], map[], {7}, [7]);
    LastLookMisses(Late(), LateEvents(), before, 1);
  }

  lemma FoundThenLost(s: Pool, events: seq<Event>, s2: Pool) returns (before: Pool)
    requires Along(s, events, s2, 7) && s2 == One(map[], map[2 := STALE, 4 := Looking(Use(7), false)], {7}, [])
    ensures before == One(map[], map[4 := Looking(Use(7), true)], {7}, [])
    ensures Along(s, events + [Looked(4)] + [Snapshotted(4)] + [Asked(4, true)] + [Replaced(4, false)] + [Replaced(2, false)], before, 7)
  {
    hide Step, Enabled, Along;
    var call := Use(7);
    LookStep(s2, 4, call, false);
    Onward(s, events, s2, 7, Looked(4), 1);
    var s3 := Look(s2, 4, call, false);
    SnapshotStep(s3, 4, call, true);
    Onward(s, events + [Looked(4)], s3, 7, Snapshotted(4), 1);
    var s4 := Snapshot(s3, 4, call, true);
    assert s4.tasks[4].todo == [1] && s4.tasks[4].todo[1..] == [];
    AskEnabled(s4, 4, true);
    Onward(s, events + [Looked(4)] + [Snapshotted(4)], s4, 7, Asked(4, true), 1);
    var s5 := Ask(s4, 4, s4.tasks[4], true);
    ReplaceStep(s5, 4, s5.tasks[4]);
    Onward(s, events + [Looked(4)] + [Snapshotted(4)] + [Asked(4, true)], s5, 7, Replaced(4, false), 1);
    var s6 := Replace(s5, 4, s5.tasks[4], false);
    ReplaceStep(s6, 2, STALE);
    Onward(s, events + [Looked(4)] + [Snapshotted(4)] + [Asked(4, true)] + [Replaced(4, false)], s6, 7, Replaced(2, false), 1);
    before := One(map[], map[4 := Looking(call, true)], {7}, []);
    assert OwnedBy(1, {}) == map[];
    assert s6.tasks - {2} == before.tasks;
    assert Replace(s6, 2, STALE, false) == before;
  }
}
