/** What comes of operations over whole runs: grants that were revoked stay gone, every grant was
    put in by an operation that answered so, and what those who wait are told is what happened. */
module AccessOutcomes {
  import opened Wrappers
  import opened AccessModel
  import opened AccessOperations
  import opened AccessInvariant
  import opened AccessChanges
  import opened AccessAccounts
  import opened AccessAnswers
  import opened AccessRuns

  ghost function OutcomeAt(worlds: seq<World>, ops: seq<Op>, m: nat): Outcome
    requires IsRun(worlds, ops) && m < |ops|
  {
    assert IsStep(worlds[m], ops[m], worlds[m + 1]);
    Apply(worlds[m], ops[m]).outcome
  }

  /** One operation of a run, by its accounts alone. */
  lemma RunStep(worlds: seq<World>, ops: seq<Op>, m: nat, k: Id)
    requires IsRun(worlds, ops) && m < |ops|
    ensures Inv(worlds[m]) && Inv(worlds[m + 1]) && Enabled(worlds[m], ops[m])
    ensures EntryAt(worlds[m + 1], k) == EntryAfter(worlds[m], ops[m], OutcomeAt(worlds, ops, m), k)
    ensures Answers(worlds[m], ops[m], OutcomeAt(worlds, ops, m))
  {
    hide Inv, Enabled, Step, Apply, EntryAt, EntryAfter, Answers;
    assert IsStep(worlds[m], ops[m], worlds[m + 1]);
    Reachable(worlds, ops, m);
    Reachable(worlds, ops, m + 1);
    StepAccounts(worlds[m], ops[m], k);
    StepAnswers(worlds[m], ops[m]);
  }

  lemma GrantEntries(w: World, w': World, op: Op, outcome: Outcome, k: Id)
    requires EntryAt(w', k) == EntryAfter(w, op, outcome, k)
    ensures At(w'.st.grants, k) == GrantAfter(w, op, outcome, k)
  {
    hide RequestAfter, GrantAfter, ShareAfter, ExecutionAfter, ApproverAfter, ChannelAfter;
  }

  lemma GrantStep(worlds: seq<World>, ops: seq<Op>, m: nat, k: Id)
    requires IsRun(worlds, ops) && m < |ops|
    ensures At(worlds[m + 1].st.grants, k) == GrantAfter(worlds[m], ops[m], OutcomeAt(worlds, ops, m), k)
  {
    hide Inv, Enabled, IsStep, EntryAt, EntryAfter, GrantAfter, Answers;
    RunStep(worlds, ops, m, k);
    GrantEntries(worlds[m], worlds[m + 1], ops[m], OutcomeAt(worlds, ops, m), k);
  }

  // ---- grants -----------------------------------------------------------------------------------------

  /** A grant that left the table never comes back. */
  lemma GoneForGood(worlds: seq<World>, ops: seq<Op>, i: nat, j: nat, k: Id)
    requires IsRun(worlds, ops) && i <= j <= |ops| && k in worlds[i].used && k !in worlds[i].st.grants
    ensures k !in worlds[j].st.grants
  {
    hide Inv, IsRun, FiledKept, LogKept, RequestsKept, SharesKept;
    LaterKeeps(worlds, ops, i, j);
  }

  lemma GrantWasUsed(worlds: seq<World>, ops: seq<Op>, i: nat, k: Id)
    requires IsRun(worlds, ops) && i < |ops| && k in worlds[i].st.grants
    ensures k in worlds[i + 1].used
  {
    hide IsRun, GrantsOk, RequestsOk, SharesOk, ExecutionsOk, HistoryOk, FiledOk, WaitersOk, ChannelsOk, SudoOk, FiledKept, LogKept,
         RequestsKept, SharesKept, GrantsKept;
    Reachable(worlds, ops, i);
    LaterKeeps(worlds, ops, i, i + 1);
  }

  /** A revocation is done if and only if the terminal has that grant. It takes out that grant, for
      good, and no other; otherwise it changes none. */
  lemma RevokedForGood(worlds: seq<World>, ops: seq<Op>, i: nat, j: nat)
    requires IsRun(worlds, ops) && i < j <= |ops| && ops[i].OpRevoke?
    ensures var w, op, outcome := worlds[i], ops[i], OutcomeAt(worlds, ops, i);
            && (outcome == Done <==> op.grant in w.st.grants && w.st.grants[op.grant].terminal == op.terminal)
            && (outcome != Done ==> outcome == Refused(NotFound))
            && (outcome == Done ==> op.grant !in worlds[i + 1].st.grants && op.grant !in worlds[j].st.grants)
            && (forall k: Id | outcome != Done || k != op.grant :: At(worlds[i + 1].st.grants, k) == At(w.st.grants, k))
  {
    hide Inv, Enabled, IsStep, EntryAt, EntryAfter;
    var op := ops[i];
    forall k: Id
      ensures At(worlds[i + 1].st.grants, k) ==
              if OutcomeAt(worlds, ops, i) == Done && k == op.grant then None else At(worlds[i].st.grants, k)
    {
      GrantStep(worlds, ops, i, k);
    }
    RunStep(worlds, ops, i, op.grant);
    if OutcomeAt(worlds, ops, i) == Done {
      GrantStep(worlds, ops, i, op.grant);
      GrantWasUsed(worlds, ops, i, op.grant);
      GoneForGood(worlds, ops, i + 1, j, op.grant);
    }
  }

  /** The operation grants this secret under the id `k`: it is added, generated, or approved for the
      request that was filed for it under the hash that the approver gives. */
  ghost predicate PutsIn(w: World, op: Op, outcome: Outcome, k: Id, terminal: Id, name: string, value: string) {
    && outcome == Done
    && match op
       case OpAddSecret(t, n, v, _, id, _) => id == k && t == terminal && n == name && v == value
       case OpGenerate(t, n, _, _, v, _, id, _, _) => id == k && t == terminal && n == name && v == value
       case OpApproveSecret(t, request, hash, v, id, _) =>
         id == k && t == terminal && v == value && At(w.filed, request) == Some(RequestFiling(terminal, hash, Secret(name)))
       case _ => false
  }

  /** The operation takes the grant `k` out: it is revoked, replaced, or its terminal is cleared. */
  ghost predicate TakesOut(w: World, op: Op, outcome: Outcome, k: Id) {
    && k in w.st.grants
    && match op
       case OpRevoke(terminal, grant, _, _) => outcome == Done && grant == k
       case OpGenerate(terminal, name, _, _, _, replace, _, _, _) =>
         replace && w.st.grants[k].terminal == terminal && w.st.grants[k].name == name
       case OpClearTerminal(terminal) => w.st.grants[k].terminal == terminal
       case OpClearInactive(active) => w.st.grants[k].terminal !in active
       case _ => false
  }

  ghost predicate WasPutIn(worlds: seq<World>, ops: seq<Op>, n: nat, k: Id, terminal: Id, name: string, value: string)
    requires IsRun(worlds, ops) && n <= |ops|
  {
    exists m | 0 <= m < n :: PutsIn(worlds[m], ops[m], OutcomeAt(worlds, ops, m), k, terminal, name, value)
  }

  /** What the account of the grants says of one entry. */
  lemma GrantMoves(w: World, op: Op, outcome: Outcome, k: Id)
    requires Inv(w) && Enabled(w, op) && Answers(w, op, outcome)
    ensures var g, g' := At(w.st.grants, k), GrantAfter(w, op, outcome, k);
            && (forall t: Id, n: string, v: string | PutsIn(w, op, outcome, k, t, n, v) ::
                  g.None? && g'.Some? && g'.value.terminal == t && g'.value.name == n && g'.value.value == v && g'.value.uses == 0)
            && (g.None? && g'.Some? ==> PutsIn(w, op, outcome, k, g'.value.terminal, g'.value.name, g'.value.value))
            && (g.Some? ==> (g'.None? <==> TakesOut(w, op, outcome, k)))
            && (g.Some? && g'.Some? ==>
                  g'.value.terminal == g.value.terminal && g'.value.name == g.value.name && g'.value.value == g.value.value)
  {
    hide GrantsOk, RequestsOk, SharesOk, ExecutionsOk, HistoryOk, WaitersOk, ChannelsOk, SudoOk;
  }

  /** In a run the table of grants changes by these operations alone. A new entry has what was given;
      an entry leaves if and only if it is taken out; another keeps its terminal, name and value. */
  lemma GrantsMove(worlds: seq<World>, ops: seq<Op>, i: nat, k: Id)
    requires IsRun(worlds, ops) && i < |ops|
    ensures var w, op, outcome := worlds[i], ops[i], OutcomeAt(worlds, ops, i);
            var g, g' := At(w.st.grants, k), At(worlds[i + 1].st.grants, k);
            && (forall t: Id, n: string, v: string | PutsIn(w, op, outcome, k, t, n, v) ::
                  g.None? && g'.Some? && g'.value.terminal == t && g'.value.name == n && g'.value.value == v && g'.value.uses == 0)
            && (g.None? && g'.Some? ==> PutsIn(w, op, outcome, k, g'.value.terminal, g'.value.name, g'.value.value))
            && (g.Some? ==> (g'.None? <==> TakesOut(w, op, outcome, k)))
            && (g.Some? && g'.Some? ==>
                  g'.value.terminal == g.value.terminal && g'.value.name == g.value.name && g'.value.value == g.value.value)
  {
    hide Inv, Enabled, IsStep, EntryAt, EntryAfter, GrantAfter, Answers, PutsIn, TakesOut;
    RunStep(worlds, ops, i, k);
    GrantStep(worlds, ops, i, k);
    GrantMoves(worlds[i], ops[i], OutcomeAt(worlds, ops, i), k);
  }

  /** Every grant was put in by one of the operations before, with its terminal, name and value. */
  lemma {:induction false} GrantsComeFrom(worlds: seq<World>, ops: seq<Op>, i: nat, k: Id)
    requires IsRun(worlds, ops) && i <= |ops| && k in worlds[i].st.grants
    ensures WasPutIn(worlds, ops, i, k, worlds[i].st.grants[k].terminal, worlds[i].st.grants[k].name, worlds[i].st.grants[k].value)
  {
    hide Inv, IsStep, PutsIn, TakesOut;
    if i > 0 {
      GrantsMove(worlds, ops, i - 1, k);
      if k in worlds[i - 1].st.grants {
        GrantsComeFrom(worlds, ops, i - 1, k);
      } else {
        var g := worlds[i].st.grants[k];
        assert PutsIn(worlds[i - 1], ops[i - 1], OutcomeAt(worlds, ops, i - 1), k, g.terminal, g.name, g.value);
      }
    }
  }

  /** A command runs with a secret if and only if the secret is granted at that moment and fewer
      than eight executions are open. */
  lemma ExecutesExactly(worlds: seq<World>, ops: seq<Op>, i: nat)
    requires IsRun(worlds, ops) && i < |ops| && ops[i].OpExecute?
    ensures OutcomeAt(worlds, ops, i) == Done <==>
              && ExecutionCount(worlds[i], ops[i].terminal) < 8
              && exists k :: k in worlds[i].st.grants && AccessAccounts.Grants(At(worlds[i].st.grants, k), ops[i].terminal, ops[i].name)
  {
    hide Inv, Enabled, IsStep, EntryAt, EntryAfter, ExecutionCount;
    RunStep(worlds, ops, i, 0);
    var w, op := worlds[i], ops[i];
    if IsGranted(w, op.terminal, op.name) {
      var k :| k in w.st.grants && w.st.grants[k].terminal == op.terminal && w.st.grants[k].name == op.name;
      assert AccessAccounts.Grants(At(w.st.grants, k), op.terminal, op.name);
    }
  }

  // ---- what those who wait are told --------------------------------------------------------------------

  lemma ChannelEntries(w: World, w': World, op: Op, outcome: Outcome, k: Id)
    requires Inv(w) && Enabled(w, op) && EntryAt(w', k) == EntryAfter(w, op, outcome, k)
    ensures k in w.log ==> k in w'.log && w'.log[k] == w.log[k] + Sent(w, op, outcome, k)
    ensures k !in w.log && k in w'.log ==> w'.log[k] == []
  {
    hide Sent, RequestAfter, GrantAfter, ShareAfter, ExecutionAfter, ApproverAfter, GrantsOk, RequestsOk, SharesOk, ExecutionsOk, HistoryOk,
         FiledOk, WaitersOk, ChannelsOk, SudoOk;
    assert At(w'.log, k) == ChannelAfter(w, op, outcome, k);
  }

  lemma ChannelStep(worlds: seq<World>, ops: seq<Op>, m: nat, k: Id)
    requires IsRun(worlds, ops) && m < |ops|
    ensures k in worlds[m].log ==>
              k in worlds[m + 1].log && worlds[m + 1].log[k] == worlds[m].log[k] + Sent(worlds[m], ops[m], OutcomeAt(worlds, ops, m), k)
    ensures k !in worlds[m].log && k in worlds[m + 1].log ==> worlds[m + 1].log[k] == []
  {
    hide Inv, Enabled, IsStep, Answers, EntryAt, EntryAfter, Sent;
    RunStep(worlds, ops, m, k);
    ChannelEntries(worlds[m], worlds[m + 1], ops[m], OutcomeAt(worlds, ops, m), k);
  }

  ghost predicate WasSent(worlds: seq<World>, ops: seq<Op>, n: nat, k: Id, event: Event)
    requires IsRun(worlds, ops) && n <= |ops|
  {
    exists m | 0 <= m < n :: k in worlds[m].log && event in Sent(worlds[m], ops[m], OutcomeAt(worlds, ops, m), k)
  }

  lemma NeverLogged(worlds: seq<World>, ops: seq<Op>, n: nat, k: Id)
    requires IsRun(worlds, ops) && n <= |ops| && k !in worlds[n].log
    ensures forall m | 0 <= m <= n :: k !in worlds[m].log
  {
    hide Inv, IsStep, FiledKept, RequestsKept, SharesKept, GrantsKept;
    forall m | 0 <= m <= n ensures k !in worlds[m].log {
      LaterKeeps(worlds, ops, m, n);
    }
  }

  /** A channel carries an event if and only if an operation sent it. */
  lemma {:induction false} CarriesWhatWasSent(worlds: seq<World>, ops: seq<Op>, i: nat, k: Id, event: Event)
    requires IsRun(worlds, ops) && i <= |ops| && k in worlds[i].log
    ensures event in worlds[i].log[k] <==> WasSent(worlds, ops, i, k, event)
  {
    hide Inv, IsStep, Sent;
    if i > 0 {
      ChannelStep(worlds, ops, i - 1, k);
      if k in worlds[i - 1].log {
        CarriesWhatWasSent(worlds, ops, i - 1, k, event);
      } else {
        NeverLogged(worlds, ops, i - 1, k);
      }
    }
  }

  /** What ends a share, and what is said then. */
  ghost predicate Ends(w: World, op: Op, outcome: Outcome, share: Id, event: Event) {
    var s := At(w.st.shares, share);
    s.Some? &&
    match event
    case ViewedEvent(name) => op.OpReveal? && op.share == share && outcome.Revealed? && name == s.value.name
    case DismissedEvent(name) => op.OpDismiss? && op.share == share && outcome == Done && name == s.value.name
    case ExpiredEvent(name) => name == s.value.name && ((Expires(op) && Overdue(s, op.now)) || Withdrawn(w, op, outcome, s))
    case FailedEvent(message) =>
      || (message == "terminal closed" && op.OpClearTerminal? && Open(s) && s.value.terminal == op.terminal)
      || (message == "terminal exited" && op.OpClearInactive? && Open(s) && s.value.terminal !in op.active)
    case _ => false
  }

  ghost predicate SaysHowItEnds(w: World, op: Op, outcome: Outcome, k: Id, event: Event) {
    var sent := Sent(w, op, outcome, k);
    && |sent| <= 1
    && (sent != [] ==> Open(At(w.st.shares, k)))
    && (event in sent <==> Ends(w, op, outcome, k, event))
  }

  lemma OnlyRequestsConcern(w: World, k: Id)
    requires SudoOk(w.st.requests, w.filed, w.approvers, w.runs) && k in w.filed && w.filed[k].ShareFiling?
    ensures forall call: Id :: !Concerns(w, call, k)
  {
    assert forall c | c in w.approvers :: ApproverOk(w.st.requests, w.filed, w.approvers[c]);
  }

  lemma ApprovalsSayNothing(w: World, op: Op, outcome: Outcome, k: Id, event: Event)
    requires InvolvesSudo(op) && forall call: Id :: !Concerns(w, call, k)
    ensures SaysHowItEnds(w, op, outcome, k, event)
  {
    hide Concerns, Open, Overdue;
  }

  lemma ExpirySays(w: World, op: Op, outcome: Outcome, k: Id, event: Event)
    requires Answers(w, op, outcome) && Expires(op)
    ensures SaysHowItEnds(w, op, outcome, k, event)
  {
    hide SameOffer, IsGranted, OpenCount, Offers;
  }

  lemma OtherSays(w: World, op: Op, outcome: Outcome, k: Id, event: Event)
    requires Answers(w, op, outcome) && !InvolvesSudo(op) && !Expires(op) && k !in w.st.requests
    ensures SaysHowItEnds(w, op, outcome, k, event)
  {
    hide IsGranted, GrantCount, PendingCount, ExecutionCount, AccessAccounts.Grants, SameAsk, AsksCommand;
  }

  lemma FiledApart(w: World, k: Id)
    requires FiledOk(w.st.requests, w.st.shares, w.filed) && k in w.filed && w.filed[k].ShareFiling?
    ensures k !in w.st.requests
  {
  }

  lemma ShareSent(w: World, op: Op, outcome: Outcome, k: Id, event: Event)
    requires Inv(w) && Answers(w, op, outcome)
    requires k in w.filed && w.filed[k].ShareFiling?
    ensures SaysHowItEnds(w, op, outcome, k, event)
  {
    hide GrantsOk, RequestsOk, SharesOk, ExecutionsOk, HistoryOk, FiledOk, WaitersOk, ChannelsOk, SudoOk, Answers, SaysHowItEnds;
    if InvolvesSudo(op) {
      OnlyRequestsConcern(w, k);
      ApprovalsSayNothing(w, op, outcome, k, event);
    } else if Expires(op) {
      ExpirySays(w, op, outcome, k, event);
    } else {
      FiledApart(w, k);
      OtherSays(w, op, outcome, k, event);
    }
  }

  /** In a step, those who wait for a share are told what ends it, and nothing else. */
  lemma ShareStep(worlds: seq<World>, ops: seq<Op>, m: nat, share: Id, event: Event)
    requires IsRun(worlds, ops) && m < |ops| && share in worlds[m].filed && worlds[m].filed[share].ShareFiling?
    ensures share in worlds[m].log && share in worlds[m + 1].log
    ensures Ends(worlds[m], ops[m], OutcomeAt(worlds, ops, m), share, event) ==>
              worlds[m].log[share] == [] && worlds[m + 1].log[share] == [event]
    ensures worlds[m + 1].log[share] == [event] ==>
              worlds[m].log[share] == [event] || Ends(worlds[m], ops[m], OutcomeAt(worlds, ops, m), share, event)
    ensures worlds[m].log[share] == [event] ==> worlds[m + 1].log[share] == [event]
    ensures |worlds[m + 1].log[share]| <= 1
  {
    hide IsStep, GrantsOk, RequestsOk, SharesOk, ExecutionsOk, HistoryOk, FiledOk, WaitersOk, SudoOk, Answers, Ends, Enabled,
         EntryAt, EntryAfter, Sent, EndsShare, OutcomeEvent;
    var w, outcome := worlds[m], OutcomeAt(worlds, ops, m);
    RunStep(worlds, ops, m, share);
    ChannelStep(worlds, ops, m, share);
    assert ShareChannelOk(w.st.shares, share, w.filed[share].name, w.log[share]);
    ShareSent(w, ops[m], outcome, share, event);
    var sent := Sent(w, ops[m], outcome, share);
    assert event in sent ==> w.log[share] == [] && sent == [event];
    if worlds[m + 1].log[share] == [event] && w.log[share] != [event] {
      assert event in w.log[share] + sent;
      assert event in sent;
    }
  }

  lemma EndedWhenFiled(worlds: seq<World>, ops: seq<Op>, m: nat, n: nat, share: Id)
    requires IsRun(worlds, ops) && m <= n <= |ops| && share in worlds[m].st.shares
    ensures share in worlds[n].filed
  {
    hide IsStep, GrantsOk, RequestsOk, SharesOk, ExecutionsOk, HistoryOk, WaitersOk, ChannelsOk, SudoOk, LogKept, RequestsKept, SharesKept,
         GrantsKept;
    Reachable(worlds, ops, m);
    LaterKeeps(worlds, ops, m, n);
    assert ShareFiled(worlds[m].filed, share, worlds[m].st.shares[share]);
  }

  ghost predicate Ended(worlds: seq<World>, ops: seq<Op>, n: nat, share: Id, event: Event)
    requires IsRun(worlds, ops) && n <= |ops|
  {
    exists m | 0 <= m < n :: Ends(worlds[m], ops[m], OutcomeAt(worlds, ops, m), share, event)
  }

  lemma FiledStays(worlds: seq<World>, ops: seq<Op>, i: nat, share: Id)
    requires IsRun(worlds, ops) && i < |ops| && share in worlds[i].filed
    ensures share in worlds[i + 1].filed && worlds[i + 1].filed[share] == worlds[i].filed[share]
  {
    hide Inv, IsStep, LogKept, RequestsKept, SharesKept, GrantsKept;
    LaterKeeps(worlds, ops, i, i + 1);
  }

  lemma NewlyFiled(worlds: seq<World>, ops: seq<Op>, i: nat, share: Id, event: Event)
    requires IsRun(worlds, ops) && 0 < i <= |ops| && share in worlds[i].filed && share !in worlds[i - 1].filed
    ensures share in worlds[i].log && worlds[i].log[share] == []
    ensures !Ended(worlds, ops, i, share, event)
  {
    hide IsStep, GrantsOk, RequestsOk, SharesOk, ExecutionsOk, HistoryOk, FiledOk, WaitersOk, SudoOk, Sent;
    Reachable(worlds, ops, i - 1);
    Reachable(worlds, ops, i);
    ChannelStep(worlds, ops, i - 1, share);
    forall m | 0 <= m < i ensures !Ends(worlds[m], ops[m], OutcomeAt(worlds, ops, m), share, event) {
      if share in worlds[m].st.shares {
        EndedWhenFiled(worlds, ops, m, i - 1, share);
      }
    }
  }

  /** Those who wait for a share are told `Viewed` if and only if it was revealed, `Dismissed` if and
      only if it was dismissed, `Expired` if and only if it was overdue or withdrawn, and a failure if and
      only if its terminal went; and whatever they are told, they are told once. */
  lemma {:induction false} ToldHowItEnded(worlds: seq<World>, ops: seq<Op>, i: nat, share: Id, event: Event)
    requires IsRun(worlds, ops) && i <= |ops| && share in worlds[i].filed && worlds[i].filed[share].ShareFiling?
    ensures share in worlds[i].log && |worlds[i].log[share]| <= 1
    ensures worlds[i].log[share] == [event] <==> Ended(worlds, ops, i, share, event)
  {
    hide Inv, IsStep, Ends, Evolves;
    if i > 0 {
      if share in worlds[i - 1].filed {
        FiledStays(worlds, ops, i - 1, share);
        ToldHowItEnded(worlds, ops, i - 1, share, event);
        ShareStep(worlds, ops, i - 1, share, event);
      } else {
        NewlyFiled(worlds, ops, i, share, event);
      }
    }
  }

  lemma WaitEntry(w: World, w': World, op: Op, outcome: Outcome)
    requires Inv(w') && op.OpWait? && Answers(w, op, outcome)
    requires At(w'.st.shares, op.share) == ShareAfter(w, op, outcome, op.share)
    ensures outcome.Immediate? ==> op.share in w'.log && w'.log[op.share] == [outcome.event]
    ensures outcome.Attached? ==> outcome.channel == op.share && op.share in w'.log && w'.log[op.share] == []
  {
    hide GrantsOk, RequestsOk, SharesOk, ExecutionsOk, HistoryOk, WaitersOk, SudoOk;
    if !outcome.Refused? {
      assert op.share in w'.st.shares;
      assert ShareFiled(w'.filed, op.share, w'.st.shares[op.share]);
      assert ShareChannelOk(w'.st.shares, op.share, w'.filed[op.share].name, w'.log[op.share]);
    }
  }

  /** Waiting for a share that is over answers at once with what its channel carries; waiting for one
      that is open attaches to a channel on which nothing has been said. */
  lemma WaitTold(worlds: seq<World>, ops: seq<Op>, i: nat)
    requires IsRun(worlds, ops) && i < |ops| && ops[i].OpWait?
    ensures var share, outcome := ops[i].share, OutcomeAt(worlds, ops, i);
            && (outcome.Immediate? ==> share in worlds[i + 1].log && worlds[i + 1].log[share] == [outcome.event])
            && (outcome.Attached? ==> outcome.channel == share && share in worlds[i + 1].log && worlds[i + 1].log[share] == [])
            && (outcome.Immediate? || outcome.Attached? || outcome == Refused(NotFound))
  {
    hide IsStep, Inv, Enabled, EntryAt, EntryAfter, ShareAfter, Answers;
    RunStep(worlds, ops, i, ops[i].share);
    ShareEntry(worlds[i], worlds[i + 1], ops[i], OutcomeAt(worlds, ops, i), ops[i].share);
    WaitEntry(worlds[i], worlds[i + 1], ops[i], OutcomeAt(worlds, ops, i));
    WaitAnswers(worlds[i], ops[i], OutcomeAt(worlds, ops, i));
  }

  lemma ShareEntry(w: World, w': World, op: Op, outcome: Outcome, k: Id)
    requires EntryAt(w', k) == EntryAfter(w, op, outcome, k)
    ensures At(w'.st.shares, k) == ShareAfter(w, op, outcome, k)
  {
    hide RequestAfter, GrantAfter, ShareAfter, ExecutionAfter, ApproverAfter, ChannelAfter;
  }

  lemma WaitAnswers(w: World, op: Op, outcome: Outcome)
    requires op.OpWait? && Answers(w, op, outcome)
    ensures outcome.Immediate? || outcome.Attached? || outcome == Refused(NotFound)
  {
  }

  // ---- which share makes room --------------------------------------------------------------------------

  predicate ClosedAt(s: Option<Share>, terminal: Id, time: nat) {
    && s.Some? && s.value.terminal == terminal && !s.value.state.Offered?
    && time == if s.value.resolvedAt.Some? then s.value.resolvedAt.value else s.value.createdAt
  }

  lemma VictimIsOldest(w: World, op: Op)
    requires Enabled(w, op) && op.OpShare? && Apply(w, op).outcome == Attached(op.id) && NoRoom(w, op.terminal, op.now)
    requires op.id !in w.st.shares
    ensures exists time: nat :: ClosedAt(Aged(At(w.st.shares, op.victim), op.now), op.terminal, time)
    ensures forall k: Id, time: nat, later: nat |
              && ClosedAt(Aged(At(w.st.shares, op.victim), op.now), op.terminal, time)
              && ClosedAt(Aged(At(w.st.shares, k), op.now), op.terminal, later) :: time <= later
  {
    hide ExpireShares, Aged, IsOrder, Due, Push, AddShare, ForgetShares, JoinShare, Bump, FindGrant, FindOffer;
    var shares := ExpireShares(w, op.now, op.order).st.shares;
    forall k: Id ensures At(shares, k) == Aged(At(w.st.shares, k), op.now) {
      AgedThere(w, op.now, op.order, k);
    }
    AgedTerminals(w.st.shares, op.now);
    assert SharesOf(shares, op.terminal) ==
           set k | k in w.st.shares && w.st.shares[k].terminal == op.terminal && Aged(At(w.st.shares, k), op.now).Some? by {
      forall k: Id ensures k in SharesOf(shares, op.terminal) <==>
                           k in w.st.shares && w.st.shares[k].terminal == op.terminal && Aged(At(w.st.shares, k), op.now).Some? {
        assert At(shares, k) == Aged(At(w.st.shares, k), op.now);
      }
    }
    var v := At(shares, op.victim);
    assert v == Aged(At(w.st.shares, op.victim), op.now);
    assert ClosedAt(v, op.terminal, ResolutionTime(v.value));
    forall k: Id, time: nat, later: nat |
      && ClosedAt(Aged(At(w.st.shares, op.victim), op.now), op.terminal, time)
      && ClosedAt(Aged(At(w.st.shares, k), op.now), op.terminal, later)
      ensures time <= later
    {
      assert At(shares, k) == Aged(At(w.st.shares, k), op.now);
      assert k in SharesOf(shares, op.terminal) - OfferedOf(shares, op.terminal);
    }
  }
}
