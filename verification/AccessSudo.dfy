/** The interleaved lock sections of an approval of a root command: each keeps the
    invariant, whatever other operations ran since the section before it. */
module AccessSudo {
  import opened Wrappers
  import opened AccessModel
  import opened AccessOperations
  import opened AccessInvariant
  import opened AccessSteps

  /** What the invariant says about the approval a call has in flight. */
  lemma ApproverFacts(w: World, call: Id)
    requires Inv(w) && call in w.approvers
    ensures ApproverOk(w.st.requests, w.filed, w.approvers[call])
    ensures w.approvers[call].request !in w.st.shares
    ensures w.approvers[call].request in w.st.requests ==>
              w.st.requests[w.approvers[call].request].kind == Sudo(w.approvers[call].command)
    ensures w.approvers[call].request in w.log
  {
    var k := w.approvers[call].request;
    assert ApproverOk(w.st.requests, w.filed, w.approvers[call]);
    assert k in w.st.shares ==> ShareFiled(w.filed, k, w.st.shares[k]);
    assert k in w.st.requests ==> RequestFiled(w.filed, k, w.st.requests[k]);
  }

  // ---- the approvals table -------------------------------------------------------

  function Restate(requests: map<Id, Request>, k: Id, state: RequestState): map<Id, Request> {
    if k in requests then requests[k := requests[k].(state := state)] else requests
  }

  lemma SudoBegun(requests: map<Id, Request>, filed: map<Id, Filing>, approvers: map<Id, Approver>, runs: seq<SudoRun>,
                  call: Id, a: Approver)
    requires SudoOk(requests, filed, approvers, runs) && call !in approvers
    requires a.request in requests && requests[a.request].state.Pending? && a.phase.CheckingPassword?
    requires a.request in filed && filed[a.request] == RequestFiling(a.terminal, a.hash, Sudo(a.command))
    ensures SudoOk(Restate(requests, a.request, Authenticating), filed, approvers[call := a], runs)
  {
    var requests', approvers' := Restate(requests, a.request, Authenticating), approvers[call := a];
    assert forall c | c in approvers :: ApproverOk(requests, filed, approvers[c]) && approvers[c].request != a.request;
    forall c | c in approvers' ensures ApproverOk(requests', filed, approvers'[c]) {
    }
    forall k | k in requests' && !requests'[k].state.Pending? ensures HasApprover(approvers', k) {
      if k == a.request {
        assert approvers'[call].request == k;
      } else {
        var c :| c in approvers && approvers[c].request == k;
        assert approvers'[c].request == k;
      }
    }
    forall i | 0 <= i < |runs| ensures RunOk(requests', filed, approvers', runs[i]) {
      assert RunOk(requests, filed, approvers, runs[i]);
    }
  }

  /** An approval that is over, once its request is pending again or gone. */
  lemma SudoEnded(requests: map<Id, Request>, filed: map<Id, Filing>, approvers: map<Id, Approver>, runs: seq<SudoRun>,
                  call: Id, requests': map<Id, Request>)
    requires SudoOk(requests, filed, approvers, runs) && call in approvers
    requires var k := approvers[call].request;
             && (forall j | j in requests' && j != k :: j in requests && requests'[j].state == requests[j].state)
             && (k in requests' ==> requests'[k].state.Pending? && approvers[call].phase.CheckingPassword?)
    ensures SudoOk(requests', filed, approvers - {call}, runs)
  {
    var k, approvers' := approvers[call].request, approvers - {call};
    forall c | c in approvers' ensures ApproverOk(requests', filed, approvers'[c]) {
      assert ApproverOk(requests, filed, approvers[c]) && approvers[c].request != k;
    }
    forall j | j in requests' && !requests'[j].state.Pending? ensures HasApprover(approvers', j) {
      var c :| c in approvers && approvers[c].request == j;
      assert c in approvers';
    }
    forall i | 0 <= i < |runs| ensures RunOk(requests', filed, approvers', runs[i]) {
      assert RunOk(requests, filed, approvers, runs[i]);
    }
  }

  /** An approval that moves on: to running once approved, then to its own steps. */
  lemma SudoAdvanced(requests: map<Id, Request>, filed: map<Id, Filing>, approvers: map<Id, Approver>, runs: seq<SudoRun>,
                     call: Id, phase: Phase)
    requires SudoOk(requests, filed, approvers, runs) && call in approvers
    requires !phase.CheckingPassword? && (approvers[call].phase.Executing? ==> phase.Executing?)
    ensures SudoOk(Restate(requests, approvers[call].request, Running), filed,
                   approvers[call := approvers[call].(phase := phase)], runs)
  {
    var k := approvers[call].request;
    var requests', approvers' := Restate(requests, k, Running), approvers[call := approvers[call].(phase := phase)];
    forall c | c in approvers' ensures ApproverOk(requests', filed, approvers'[c]) {
      assert ApproverOk(requests, filed, approvers[c]);
      assert c != call ==> approvers[c].request != k;
    }
    forall j | j in requests' && !requests'[j].state.Pending? ensures HasApprover(approvers', j) {
      if j == k {
        assert approvers'[call].request == k;
      } else {
        var c :| c in approvers && approvers[c].request == j;
        assert approvers'[c].request == j;
      }
    }
    forall i | 0 <= i < |runs| ensures RunOk(requests', filed, approvers', runs[i]) {
      assert RunOk(requests, filed, approvers, runs[i]);
    }
  }

  /** The one run of a request: nothing ran for it before. */
  lemma RunAdded(requests: map<Id, Request>, filed: map<Id, Filing>, approvers: map<Id, Approver>, runs: seq<SudoRun>, call: Id)
    requires SudoOk(requests, filed, approvers, runs) && call in approvers && approvers[call].phase.Announced?
    ensures var a := approvers[call];
            SudoOk(requests, filed, approvers[call := a.(phase := Executing)],
                   runs + [SudoRun(a.request, a.terminal, a.hash, a.command)])
  {
    var a := approvers[call];
    var r := SudoRun(a.request, a.terminal, a.hash, a.command);
    var approvers' := approvers[call := a.(phase := Executing)];
    assert ApproverOk(requests, filed, a);
    forall i | 0 <= i < |runs| ensures runs[i].request != r.request {
      assert RunOk(requests, filed, approvers, runs[i]);
    }
    SudoAdvanced(requests, filed, approvers, runs, call, Executing);
    assert Restate(requests, a.request, Running) == requests;
    assert RunOk(requests, filed, approvers', r);
  }

  // ---- the lock sections -----------------------------------------------------------

  /** A change to the state of a sudo request, with the approvals it goes with. */
  lemma RestateGood(w: World, k: Id, state: RequestState, w': World)
    requires Inv(w)
    requires w' == w.(st := w.st.(requests := Restate(w.st.requests, k, state)),
                      approvers := w'.approvers, used := w'.used)
    requires w.used <= w'.used && w'.approvers.Keys <= w'.used
    requires k in w.st.requests ==>
               w.st.requests[k].kind.Sudo? && (w.st.requests[k].state.Running? ==> state.Running?)
    requires SudoOk(w'.st.requests, w'.filed, w'.approvers, w'.runs)
    ensures Good(w, w')
  {
    hide GrantsOk, RequestsOk, SharesOk, FiledOk, WaitersOk, ChannelsOk, SudoOk, Evolves;
    RestateKeeps(w, k, state, w');
    RestatedRequestsOk(w, k, state);
  }

  lemma RestateKeeps(w: World, k: Id, state: RequestState, w': World)
    requires w' == w.(st := w.st.(requests := Restate(w.st.requests, k, state)),
                      approvers := w'.approvers, used := w'.used)
    requires w.used <= w'.used
    ensures Evolves(w, w')
  {
  }

  lemma RestatedRequestsOk(w: World, k: Id, state: RequestState)
    requires Inv(w)
    requires k in w.st.requests ==>
               w.st.requests[k].kind.Sudo? && (w.st.requests[k].state.Running? ==> state.Running?)
    ensures var requests' := Restate(w.st.requests, k, state);
            && RequestsOk(requests', w.st.grants)
            && FiledOk(requests', w.st.shares, w.filed)
            && WaitersOk(requests', w.st.shares, w.live)
            && ChannelsOk(requests', w.st.shares, w.filed, w.log)
  {
    hide GrantsOk, RequestsOk, SharesOk, FiledOk, ChannelsOk, SudoOk, Evolves;
    TableFacts(w);
    QuietUntilRunning(w);
    var requests' := Restate(w.st.requests, k, state);
    RequestsRestated(w.st.requests, w.st.grants, requests');
    FiledRestated(w.st.requests, w.st.shares, w.filed, requests', w.st.shares);
    ChannelsRestated(w.st.requests, w.st.shares, w.filed, w.log, requests', w.st.shares);
  }

  /** Nothing was sent to the waiters of a request that is not running. */
  lemma QuietUntilRunning(w: World)
    requires Inv(w)
    ensures forall k | k in w.st.requests && !w.st.requests[k].state.Running? :: k in w.log && w.log[k] == []
  {
    forall k | k in w.st.requests && !w.st.requests[k].state.Running? ensures k in w.log && w.log[k] == [] {
      assert RequestFiled(w.filed, k, w.st.requests[k]);
      assert RequestChannelOk(w.st.requests, k, w.filed[k].kind, w.log[k]);
    }
  }

  lemma BeginSudoGood(w: World, terminal: Id, request: Id, hash: string, call: Id)
    requires Inv(w) && call !in w.used
    ensures Good(w, BeginSudo(w, terminal, request, hash, call).world)
  {
    hide Inv, Evolves, SudoOk;
    EvolvesReflexive(w);
    if BeginSudo(w, terminal, request, hash, call).outcome == Done {
      var r := w.st.requests[request];
      var a := Approver(request, terminal, hash, r.kind.command, CheckingPassword);
      var w1 := SetApprover(SetRequestState(w, request, Authenticating), call, a).(used := w.used + {call});
      CallFacts(w, request, call);
      SudoBegun(w.st.requests, w.filed, w.approvers, w.runs, call, a);
      RestateGood(w, request, Authenticating, w1);
      BumpGood(w, w1);
    }
  }

  lemma CallFacts(w: World, request: Id, call: Id)
    requires Inv(w) && request in w.st.requests && call !in w.used
    ensures call !in w.approvers && w.approvers.Keys <= w.used
    ensures RequestFiled(w.filed, request, w.st.requests[request])
    ensures SudoOk(w.st.requests, w.filed, w.approvers, w.runs)
  {
  }

  lemma SudoFacts(w: World)
    requires Inv(w)
    ensures SudoOk(w.st.requests, w.filed, w.approvers, w.runs) && w.approvers.Keys <= w.used
  {
  }

  lemma AuthFailedGood(w: World, call: Id)
    requires Inv(w) && InPhase(w, call, {CheckingPassword})
    ensures Good(w, AuthFailed(w, call).world)
  {
    hide Inv, Evolves, SudoOk;
    SudoFacts(w);
    ApproverFacts(w, call);
    var k := w.approvers[call].request;
    var w1 := SetRequestState(EndApprover(w, call), k, Pending);
    SudoEnded(w.st.requests, w.filed, w.approvers, w.runs, call, w1.st.requests);
    RestateGood(w, k, Pending, w1);
    BumpGood(w, w1);
  }

  lemma StartSudoGood(w: World, call: Id)
    requires Inv(w) && InPhase(w, call, {CheckingPassword})
    ensures Good(w, StartSudo(w, call).world)
  {
    hide Inv, Evolves, SudoOk;
    SudoFacts(w);
    ApproverFacts(w, call);
    var a := w.approvers[call];
    if a.request !in w.st.requests {
      SudoEnded(w.st.requests, w.filed, w.approvers, w.runs, call, w.st.requests);
      RestateGood(w, a.request, Pending, EndApprover(w, call));
    } else {
      var w1 := SetApprover(SetRequestState(w, a.request, Running), call, a.(phase := Approved));
      SudoAdvanced(w.st.requests, w.filed, w.approvers, w.runs, call, Approved);
      RestateGood(w, a.request, Running, w1);
      BumpGood(w, w1);
    }
  }

  /** Telling the waiters of a running or cleared root command something. */
  lemma AnnounceGood(w: World, k: Id, event: Event)
    requires Inv(w) && k in w.filed && w.filed[k].RequestFiling? && w.filed[k].kind.Sudo?
    requires k in w.st.requests ==> w.st.requests[k].state.Running? && !event.Terminal()
    ensures Good(w, Announce(w, k, event))
  {
    hide GrantsOk, RequestsOk, SharesOk, FiledOk, WaitersOk, ChannelsOk, SudoOk, Evolves;
    AnnounceKeeps(w, k, event);
    AnnouncedChannels(w, k, event);
  }

  lemma AnnounceKeeps(w: World, k: Id, event: Event)
    ensures Evolves(w, Announce(w, k, event))
  {
  }

  lemma AnnouncedChannels(w: World, k: Id, event: Event)
    requires ChannelsOk(w.st.requests, w.st.shares, w.filed, w.log)
    requires k in w.filed && w.filed[k].RequestFiling? && w.filed[k].kind.Sudo?
    requires k in w.st.requests ==> w.st.requests[k].state.Running? && !event.Terminal()
    ensures ChannelsOk(w.st.requests, w.st.shares, w.filed, Announce(w, k, event).log)
  {
    var log' := Announce(w, k, event).log;
    forall j | j in w.filed && w.filed[j].ShareFiling?
      ensures ShareChannelOk(w.st.shares, j, w.filed[j].name, log'[j])
    {
      assert ShareChannelOk(w.st.shares, j, w.filed[j].name, w.log[j]);
    }
    forall j | j in w.filed && w.filed[j].RequestFiling?
      ensures RequestChannelOk(w.st.requests, j, w.filed[j].kind, log'[j])
    {
      assert RequestChannelOk(w.st.requests, j, w.filed[j].kind, w.log[j]);
    }
  }

  /** A step that only moves an approval on, or records its run. */
  lemma ApprovalGood(w: World, w': World)
    requires Inv(w) && w' == w.(approvers := w'.approvers, runs := w'.runs)
    requires w'.approvers.Keys <= w.used && w.runs <= w'.runs
    requires SudoOk(w.st.requests, w.filed, w'.approvers, w'.runs)
    ensures Good(w, w')
  {
    hide GrantsOk, RequestsOk, SharesOk, FiledOk, WaitersOk, ChannelsOk, SudoOk;
  }

  lemma AnnounceSudoGood(w: World, call: Id)
    requires Inv(w) && InPhase(w, call, {Approved})
    ensures Good(w, AnnounceSudo(w, call).world)
  {
    hide Inv, Evolves, SudoOk;
    SudoFacts(w);
    ApproverFacts(w, call);
    var a := w.approvers[call];
    var w1 := SetApprover(w, call, a.(phase := Announced));
    SudoAdvanced(w.st.requests, w.filed, w.approvers, w.runs, call, Announced);
    assert Restate(w.st.requests, a.request, Running) == w.st.requests;
    ApprovalGood(w, w1);
    AnnounceGood(w1, a.request, RunningEvent(Some(a.request)));
    Chain(w, w1, Announce(w1, a.request, RunningEvent(Some(a.request))));
  }

  lemma SpawnSudoGood(w: World, call: Id)
    requires Inv(w) && InPhase(w, call, {Announced})
    ensures Good(w, SpawnSudo(w, call).world)
  {
    hide Inv, Evolves, SudoOk;
    SudoFacts(w);
    RunAdded(w.st.requests, w.filed, w.approvers, w.runs, call);
    ApprovalGood(w, SpawnSudo(w, call).world);
  }

  lemma SudoOutputGood(w: World, call: Id, data: seq<nat>)
    requires Inv(w) && InPhase(w, call, {Executing})
    ensures Good(w, SudoOutput(w, call, data).world)
  {
    hide Inv, Evolves;
    ApproverFacts(w, call);
    AnnounceGood(w, w.approvers[call].request, OutputEvent(data));
  }

  /** The request of an approval that is over leaves the table. */
  lemma EndGood(w: World, w1: World, call: Id)
    requires Inv(w) && call in w.approvers && Good(w, w1)
    requires w1.approvers == w.approvers && w.approvers[call].request !in w1.st.requests
    ensures Good(w, EndApprover(w1, call))
  {
    hide Inv, Evolves, SudoOk;
    SudoFacts(w1);
    SudoEnded(w1.st.requests, w1.filed, w1.approvers, w1.runs, call, w1.st.requests);
    ApprovalGood(w1, EndApprover(w1, call));
    Chain(w, w1, EndApprover(w1, call));
  }

  lemma FinishSudoGood(w: World, call: Id, code: int, now: nat)
    requires Inv(w) && InPhase(w, call, {Executing})
    ensures Good(w, FinishSudo(w, call, code, now).world)
  {
    hide Inv, Evolves, Push, SudoOk;
    ApproverFacts(w, call);
    var a := w.approvers[call];
    var w1 := DropRequests(w, {a.request});
    if a.request in w.st.requests {
      DropRequestsOk(w, {a.request});
    } else {
      assert w.st.requests - {a.request} == w.st.requests;
      EvolvesReflexive(w);
    }
    EndGood(w, w1, call);
    var w2 := EndApprover(w1, call);
    AnnounceGood(w2, a.request, CompletedEvent(code));
    Chain(w, w2, Announce(w2, a.request, CompletedEvent(code)));
    PushGood(w, Announce(w2, a.request, CompletedEvent(code)),
             Activity(a.terminal, SudoKind, if code == 0 then ApprovedStatus else FailedStatus,
                      if code == 0 then "Root command completed" else "Root command failed", a.command.display, now));
  }

  lemma AbortSudoGood(w: World, call: Id, message: string, now: nat)
    requires Inv(w) && call in w.approvers
    ensures Good(w, AbortSudo(w, call, message, now).world)
  {
    hide Inv, Evolves, Push, SudoOk;
    EvolvesReflexive(w);
    var k := w.approvers[call].request;
    if k !in w.st.requests {
      EndGood(w, w, call);
    } else {
      var r := w.st.requests[k];
      var w1 := CloseRequests(w, {k}, FailedEvent(message));
      CloseRequestsOk(w, {k}, FailedEvent(message));
      EndGood(w, w1, call);
      PushGood(w, EndApprover(w1, call),
               Activity(r.terminal, KindOf(r.kind), FailedStatus,
                        if r.kind.Secret? then "Secret request failed" else "Root command failed", message, now));
    }
  }
}
