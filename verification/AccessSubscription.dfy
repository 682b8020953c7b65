/** What a subscriber is given: a queue of initial events, then the channel from the
    point it joined, ending with the first terminal event. */
module AccessSubscriptions {
  import opened Wrappers
  import opened AccessModel
  import opened AccessOperations
  import opened AccessInvariant
  import opened AccessRuns

  const EVENT_CAPACITY := 256

  /** `position` is where on the channel the receiver has got to. */
  datatype Subscription = Subscription(initial: seq<Event>, position: Option<nat>, finished: bool)

  /** The result of one poll; a receiver with nothing to read is `Idle`. */
  datatype Poll = Yielded(event: Event) | Idle | Ended

  const Overflow := FailedEvent("command output exceeded the consumer buffer")

  function ImmediateTo(event: Event): Subscription {
    Subscription([event], None, false)
  }

  function AttachedTo(request: Id, position: nat): Subscription {
    Subscription([WaitingEvent(request)], Some(position), false)
  }

  /** One poll of a subscription while its channel holds `events`, `open` as long as
      somebody can still send. A receiver that fell behind the channel's capacity is
      failed, and skips to the oldest event still held. */
  function Next(s: Subscription, events: seq<Event>, open: bool): (Subscription, Poll) {
    if s.finished then (s, Ended)
    else if s.initial != [] then
      (s.(initial := s.initial[1..], finished := s.initial[0].Terminal()), Yielded(s.initial[0]))
    else if s.position.None? then (s, Ended)
    else if s.position.value + EVENT_CAPACITY < |events| then
      (s.(position := Some(|events| - EVENT_CAPACITY), finished := true), Yielded(Overflow))
    else if s.position.value < |events| then
      (s.(position := Some(s.position.value + 1), finished := events[s.position.value].Terminal()),
       Yielded(events[s.position.value]))
    else if open then (s, Idle)
    else (s, Ended)
  }

  class AccessSubscription {
    var initial: seq<Event>
    var position: Option<nat>
    var finished: bool

    function State(): Subscription
      reads this
    {
      Subscription(initial, position, finished)
    }

    constructor Attached(request: Id, events: seq<Event>)
      ensures State() == AttachedTo(request, |events|)
    {
      initial, position, finished := [WaitingEvent(request)], Some(|events|), false;
    }

    constructor Immediate(event: Event)
      ensures State() == ImmediateTo(event)
    {
      initial, position, finished := [event], None, false;
    }

    /** src/access.rs `AccessSubscription::next`. */
    method Poll(events: seq<Event>, open: bool) returns (r: Poll)
      modifies this
      ensures (State(), r) == Next(old(State()), events, open)
    {
      if finished {
        return Ended;
      }
      var event;
      if initial != [] {
        event := initial[0];
        initial := initial[1..];
      } else {
        if position.None? {
          return Ended;
        }
        if position.value + EVENT_CAPACITY < |events| {
          position := Some(|events| - EVENT_CAPACITY);
          event := Overflow;
        } else if position.value < |events| {
          event := events[position.value];
          position := Some(position.value + 1);
        } else {
          return if open then Idle else Ended;
        }
      }
      finished := event.Terminal();
      r := Yielded(event);
    }
  }

  // ---- many polls ----------------------------------------------------------------

  /** What the channel looked like at one poll. */
  datatype Moment = Moment(events: seq<Event>, open: bool)

  function Polls(s: Subscription, moments: seq<Moment>): seq<Poll>
    decreases |moments|
  {
    if moments == [] then []
    else
      var (s', r) := Next(s, moments[0].events, moments[0].open);
      [r] + Polls(s', moments[1..])
  }

  function Delivered(polls: seq<Poll>): seq<Event> {
    if polls == [] then []
    else (if polls[0].Yielded? then [polls[0].event] else []) + Delivered(polls[1..])
  }

  lemma {:induction false} FinishedYieldsNothing(s: Subscription, moments: seq<Moment>)
    requires s.finished
    ensures Delivered(Polls(s, moments)) == []
    decreases |moments|
  {
    if moments != [] {
      var polls := Polls(s, moments);
      assert polls[1..] == Polls(s, moments[1..]);
      FinishedYieldsNothing(s, moments[1..]);
    }
  }

  /** Whatever is sent, a subscriber is given at most one terminal event, and it is the last. */
  lemma {:induction false} TerminalIsLast(s: Subscription, moments: seq<Moment>)
    ensures var given := Delivered(Polls(s, moments));
            forall i | 0 <= i < |given| - 1 :: !given[i].Terminal()
    decreases |moments|
  {
    if moments != [] {
      var (s', r) := Next(s, moments[0].events, moments[0].open);
      var polls := Polls(s, moments);
      assert polls[1..] == Polls(s', moments[1..]);
      TerminalIsLast(s', moments[1..]);
      assert Delivered(polls) == (if r.Yielded? then [r.event] else []) + Delivered(polls[1..]);
      if r.Yielded? && r.event.Terminal() {
        FinishedYieldsNothing(s', moments[1..]);
      }
    }
  }

  /** What is queued for a subscriber and what its channel still holds for it. */
  function Ahead(s: Subscription, events: seq<Event>): seq<Event> {
    s.initial + if s.position.Some? && s.position.value <= |events| then events[s.position.value..] else []
  }

  lemma {:induction false} PollsOn(s: Subscription, moments: seq<Moment>)
    requires moments != []
    ensures var (s', r) := Next(s, moments[0].events, moments[0].open);
            Delivered(Polls(s, moments)) == (if r.Yielded? then [r.event] else []) + Delivered(Polls(s', moments[1..]))
  {
    var (s', r) := Next(s, moments[0].events, moments[0].open);
    var polls := Polls(s, moments);
    assert polls[1..] == Polls(s', moments[1..]);
  }

  /** However the channel grows between the polls, a subscriber is given what is queued for it and then the
      events of the channel from where it joined, in order and without a gap; if it falls behind it is told so,
      last. */
  lemma {:induction false} InOrder(s: Subscription, moments: seq<Moment>, final: seq<Event>)
    requires s.position.Some? && s.position.value <= |final|
    requires forall m | 0 <= m < |moments| :: moments[m].events <= final
    ensures var given := Delivered(Polls(s, moments));
            || given <= Ahead(s, final)
            || (given != [] && given[..|given| - 1] <= Ahead(s, final)
                && given[|given| - 1] == FailedEvent("command output exceeded the consumer buffer"))
    decreases |moments|
  {
    hide Polls, Delivered;
    if moments == [] {
      NothingDelivered(s);
    } else {
      var (s', r) := Next(s, moments[0].events, moments[0].open);
      PollsOn(s, moments);
      var rest := Delivered(Polls(s', moments[1..]));
      if r.Yielded? && r.event == Overflow && s'.finished {
        FinishedYieldsNothing(s', moments[1..]);
      } else {
        InOrder(s', moments[1..], final);
        if r.Yielded? {
          assert Ahead(s, final) == [r.event] + Ahead(s', final);
          Prepended(r.event, rest, Ahead(s', final));
        }
      }
    }
  }

  lemma {:induction false} NothingDelivered(s: Subscription)
    ensures Delivered(Polls(s, [])) == []
  {
  }

  lemma Prepended(e: Event, given: seq<Event>, all: seq<Event>)
    ensures given <= all ==> [e] + given <= [e] + all
    ensures given != [] && given[..|given| - 1] <= all ==> ([e] + given)[..|given|] <= [e] + all
  {
    assert given != [] ==> ([e] + given)[..|given|] == [e] + given[..|given| - 1];
  }

  /** A subscriber that polls often enough has been given all of it, if it has not fallen behind and nothing
      before the last event is terminal. */
  lemma {:induction false} CatchesUp(s: Subscription, moments: seq<Moment>, events: seq<Event>)
    requires !s.finished && s.position.Some? && s.position.value <= |events| <= s.position.value + 256
    requires forall m | 0 <= m < |moments| :: moments[m].events == events
    requires |moments| >= |Ahead(s, events)|
    requires forall i | 0 <= i < |Ahead(s, events)| - 1 :: !Ahead(s, events)[i].Terminal()
    ensures Delivered(Polls(s, moments)) == Ahead(s, events)
    decreases |moments|
  {
    hide Polls, Delivered;
    var all := Ahead(s, events);
    if moments == [] {
      NothingDelivered(s);
    } else {
      var (s', r) := Next(s, moments[0].events, moments[0].open);
      PollsOn(s, moments);
      if all == [] {
        assert s' == s;
        CatchesUp(s, moments[1..], events);
      } else {
        var later := Ahead(s', events);
        assert all == [r.event] + later;
        if s'.finished {
          assert all[0].Terminal() && all == [r.event];
          FinishedYieldsNothing(s', moments[1..]);
        } else {
          assert forall i | 0 <= i < |later| - 1 :: later[i] == all[i + 1];
          CatchesUp(s', moments[1..], events);
        }
      }
    }
  }

  /** One that has fallen behind by more than 256 events is told that, and nothing more. */
  lemma {:induction false} FallsBehind(s: Subscription, moments: seq<Moment>)
    requires !s.finished && s.initial == [] && s.position.Some? && moments != []
    requires s.position.value + 256 < |moments[0].events|
    ensures Delivered(Polls(s, moments)) == [FailedEvent("command output exceeded the consumer buffer")]
  {
    hide Polls, Delivered;
    PollsOn(s, moments);
    FinishedYieldsNothing(Next(s, moments[0].events, moments[0].open).0, moments[1..]);
  }

  /** A subscriber that joined an empty channel on which one event `end` is ever sent gets
      what it has queued, then `end`, and no more. */
  lemma {:induction false} OneEventChannel(s: Subscription, moments: seq<Moment>, end: Event)
    requires end.Terminal() && s.position.Some? && s.position.value <= 1
    requires s.position == Some(1) ==> s.finished || s.initial != []
    requires |s.initial| <= 1 && (s.initial != [] ==> !s.initial[0].Terminal() && s.position == Some(0))
    requires forall i | 0 <= i < |moments| :: moments[i].events == [] || moments[i].events == [end]
    requires forall i | 0 <= i < |moments| :: s.position.value <= |moments[i].events| || s.finished
    ensures var given := Delivered(Polls(s, moments));
            given <= s.initial + [end] && (s.finished ==> given == [])
    decreases |moments|
  {
    if s.finished {
      FinishedYieldsNothing(s, moments);
    } else if moments != [] {
      var (s', r) := Next(s, moments[0].events, moments[0].open);
      var polls := Polls(s, moments);
      assert polls[1..] == Polls(s', moments[1..]);
      OneEventChannel(s', moments[1..], end);
    }
  }

  // ---- subscribers of a share -------------------------------------------------------

  /** A subscriber that joins an open share and polls at any later states of a run is told
      to wait, then the outcome of the share, once, and never that it fell behind. */
  lemma {:induction false} ShareSubscriber(worlds: seq<World>, ops: seq<Op>, i: nat, share: Id, times: seq<nat>, moments: seq<Moment>)
    requires IsRun(worlds, ops) && i <= |ops|
    requires share in worlds[i].st.shares && worlds[i].st.shares[share].state.Offered?
    requires |times| == |moments|
    requires forall m | 0 <= m < |times| ::
               i <= times[m] <= |ops| && share in worlds[times[m]].log && moments[m].events == worlds[times[m]].log[share]
    ensures share in worlds[i].log && worlds[i].log[share] == []
    ensures share in worlds[|ops|].log
    ensures var final := worlds[|ops|].log[share];
            && |final| <= 1
            && Delivered(Polls(AttachedTo(share, |worlds[i].log[share]|), moments)) <= [WaitingEvent(share)] + final
            && (final != [] ==> final[0].Terminal() && EndsShare(final[0], worlds[i].st.shares[share].name))
  {
    hide Inv, Evolves, Step, Enabled, Polls, Delivered, EndsShare;
    ShareStart(worlds, ops, i, share);
    FinalOutcome(worlds, ops, i, share);
    var final := worlds[|ops|].log[share];
    forall m | 0 <= m < |moments| ensures moments[m].events <= final {
      LaterLog(worlds, ops, times[m], share);
    }
    hide IsRun;
    SubscriberGets(share, moments, final);
  }

  lemma {:induction false} SubscriberGets(share: Id, moments: seq<Moment>, final: seq<Event>)
    requires |final| <= 1 && (final != [] ==> final[0].Terminal())
    requires forall m | 0 <= m < |moments| :: moments[m].events <= final
    ensures Delivered(Polls(AttachedTo(share, 0), moments)) <= [WaitingEvent(share)] + final
  {
    var s := AttachedTo(share, 0);
    if final == [] {
      OnlyQueued(s, moments);
    } else {
      forall m | 0 <= m < |moments| ensures moments[m].events == [] || moments[m].events == [final[0]] {
        assert moments[m].events <= final && final == [final[0]];
      }
      OneEventChannel(s, moments, final[0]);
      assert final == [final[0]];
    }
  }

  lemma ShareStart(worlds: seq<World>, ops: seq<Op>, i: nat, share: Id)
    requires IsRun(worlds, ops) && i <= |ops|
    requires share in worlds[i].st.shares && worlds[i].st.shares[share].state.Offered?
    ensures share in worlds[i].filed && worlds[i].filed[share].ShareFiling?
    ensures worlds[i].filed[share].name == worlds[i].st.shares[share].name
    ensures share in worlds[i].log && worlds[i].log[share] == []
  {
    Reachable(worlds, ops, i);
    assert ShareFiled(worlds[i].filed, share, worlds[i].st.shares[share]);
    OneOutcome(worlds, ops, i, share);
  }

  lemma FinalOutcome(worlds: seq<World>, ops: seq<Op>, i: nat, share: Id)
    requires IsRun(worlds, ops) && i <= |ops|
    requires share in worlds[i].filed && worlds[i].filed[share].ShareFiling?
    ensures share in worlds[|ops|].log
    ensures var final := worlds[|ops|].log[share];
            |final| <= 1 && (final != [] ==> final[0].Terminal() && EndsShare(final[0], worlds[i].filed[share].name))
  {
    LaterKeeps(worlds, ops, i, |ops|);
    assert share in worlds[|ops|].filed && worlds[|ops|].filed[share] == worlds[i].filed[share];
    OneOutcome(worlds, ops, |ops|, share);
  }

  lemma LaterLog(worlds: seq<World>, ops: seq<Op>, i: nat, share: Id)
    requires IsRun(worlds, ops) && i <= |ops| && share in worlds[i].log
    ensures share in worlds[|ops|].log && worlds[i].log[share] <= worlds[|ops|].log[share]
  {
    LaterKeeps(worlds, ops, i, |ops|);
  }

  lemma {:induction false} OnlyQueued(s: Subscription, moments: seq<Moment>)
    requires s.position == Some(0) && forall i | 0 <= i < |moments| :: moments[i].events == []
    ensures Delivered(Polls(s, moments)) <= s.initial
    decreases |moments|
  {
    if s.finished {
      FinishedYieldsNothing(s, moments);
    } else if moments != [] {
      var (s', r) := Next(s, moments[0].events, moments[0].open);
      var polls := Polls(s, moments);
      assert polls[1..] == Polls(s', moments[1..]);
      OnlyQueued(s', moments[1..]);
    }
  }

  /** A subscriber of an open share that polls twice or more, the last time when the share is
      closed, has been given exactly the wait and what became of the share. */
  lemma {:induction false} ShareSubscriberIsTold(worlds: seq<World>, ops: seq<Op>, i: nat, share: Id, times: seq<nat>, moments: seq<Moment>)
    requires IsRun(worlds, ops) && i <= |ops|
    requires share in worlds[i].st.shares && worlds[i].st.shares[share].state.Offered?
    requires |times| == |moments| && |times| >= 2
    requires forall m | 0 <= m < |times| ::
               i <= times[m] <= |ops| && share in worlds[times[m]].log && moments[m].events == worlds[times[m]].log[share]
    requires Closed(worlds[times[|times| - 1]], share)
    ensures share in worlds[i].log && share in worlds[|ops|].log && |worlds[|ops|].log[share]| == 1
    ensures var outcome := worlds[|ops|].log[share][0];
            && EndsShare(outcome, worlds[i].st.shares[share].name)
            && Delivered(Polls(AttachedTo(share, |worlds[i].log[share]|), moments)) == [WaitingEvent(share), outcome]
  {
    hide Inv, Evolves, Step, Enabled, Polls, Delivered, EndsShare, Closed;
    ShareStart(worlds, ops, i, share);
    FinalOutcome(worlds, ops, i, share);
    var last, final := times[|times| - 1], worlds[|ops|].log[share];
    ClosedForGood(worlds, ops, last, |ops|, share);
    LaterKeeps(worlds, ops, i, |ops|);
    OneOutcome(worlds, ops, |ops|, share);
    forall m | 0 <= m < |moments| ensures moments[m].events <= final {
      LaterLog(worlds, ops, times[m], share);
    }
    assert moments[|moments| - 1].events == final;
    hide IsRun;
    SubscriberIsTold(share, moments, final[0]);
  }

  lemma {:induction false} SubscriberIsTold(share: Id, moments: seq<Moment>, end: Event)
    requires end.Terminal() && |moments| >= 2 && moments[|moments| - 1].events == [end]
    requires forall m | 0 <= m < |moments| :: moments[m].events <= [end]
    ensures Delivered(Polls(AttachedTo(share, 0), moments)) == [WaitingEvent(share), end]
  {
    var s := AttachedTo(share, 0);
    var (s', r) := Next(s, moments[0].events, moments[0].open);
    var polls := Polls(s, moments);
    assert polls[1..] == Polls(s', moments[1..]);
    OnceGiven(s', moments[1..], end);
  }

  /** However often it polls before, a subscriber that still polls when the event is there has it. */
  lemma {:induction false} OnceGiven(s: Subscription, moments: seq<Moment>, end: Event)
    requires end.Terminal() && s == Subscription([], Some(0), false)
    requires moments != [] && moments[|moments| - 1].events == [end]
    requires forall m | 0 <= m < |moments| :: moments[m].events <= [end]
    ensures Delivered(Polls(s, moments)) == [end]
    decreases |moments|
  {
    var (s', r) := Next(s, moments[0].events, moments[0].open);
    var polls := Polls(s, moments);
    assert polls[1..] == Polls(s', moments[1..]);
    if moments[0].events == [] {
      OnceGiven(s, moments[1..], end);
    } else {
      assert moments[0].events == [end];
      FinishedYieldsNothing(s', moments[1..]);
    }
  }
}
