/** The badge count on the terminal list, which reads the tables without expiring
    anything, against the counts of a snapshot, which expires first. */
module AccessBadges {
  import opened Wrappers
  import opened AccessModel
  import opened AccessOperations
  import opened AccessInvariant
  import opened AccessSteps
  import opened AccessManagers

  const USIZE_MAX: nat := U64_MAX

  datatype TerminalInfo = TerminalInfo(id: Id, pending: Option<nat>)

  function Saturated(n: nat): nat {
    if n > USIZE_MAX then USIZE_MAX else n
  }

  /** Offers whose deadline has not passed. */
  function OpenOffersOf(shares: map<Id, Share>, terminal: Id, now: nat): set<Id> {
    set k | k in shares && shares[k].terminal == terminal && shares[k].state.Offered? && shares[k].expiresAt > now
  }

  predicate IsFirst(terminals: seq<TerminalInfo>, i: nat)
    requires i < |terminals|
  {
    forall j | 0 <= j < i :: terminals[j].id != terminals[i].id
  }

  /** Only the first entry of an id carries its count. */
  function Badge(terminals: seq<TerminalInfo>, i: nat, count: nat): Option<nat>
    requires i < |terminals|
  {
    Some(if IsFirst(terminals, i) then Saturated(count) else 0)
  }

  /** Counts one more for the first entry with this id. */
  method Tick(terminals: array<TerminalInfo>, id: Id)
    requires forall i | 0 <= i < terminals.Length :: terminals[i].pending.Some?
    modifies terminals
    ensures forall i | 0 <= i < terminals.Length :: terminals[i].id == old(terminals[i].id)
    ensures forall i | 0 <= i < terminals.Length ::
              terminals[i].pending == if terminals[i].id == id && IsFirst(old(terminals[..]), i)
                                      then Some(Saturated(old(terminals[i].pending.value) + 1))
                                      else old(terminals[i].pending)
  {
    var i := 0;
    while i < terminals.Length
      invariant 0 <= i <= terminals.Length
      invariant forall j | 0 <= j < i :: terminals[j].id != id
      invariant forall j | 0 <= j < terminals.Length :: terminals[j] == old(terminals[j])
    {
      if terminals[i].id == id {
        assert IsFirst(old(terminals[..]), i);
        assert forall j | i < j < terminals.Length && terminals[j].id == id :: !IsFirst(old(terminals[..]), j) by {
          forall j | i < j < terminals.Length && terminals[j].id == id ensures !IsFirst(old(terminals[..]), j) {
            assert old(terminals[..])[i].id == old(terminals[..])[j].id;
          }
        }
        terminals[i] := terminals[i].(pending := Some(Saturated(terminals[i].pending.value + 1)));
        return;
      }
      i := i + 1;
    }
  }

  function RequestsCounted(requests: map<Id, Request>, done: set<Id>, terminal: Id): set<Id> {
    set k | k in done && k in requests && requests[k].terminal == terminal && requests[k].state.Pending?
  }

  function SharesCounted(shares: map<Id, Share>, done: set<Id>, terminal: Id, now: nat): set<Id> {
    set k | k in done && k in shares && shares[k].terminal == terminal && shares[k].state.Offered? && shares[k].expiresAt > now
  }

  lemma NoneCounted(requests: map<Id, Request>, shares: map<Id, Share>, terminal: Id, now: nat)
    ensures RequestsCounted(requests, {}, terminal) == {} && SharesCounted(shares, {}, terminal, now) == {}
  {
  }

  lemma OneMoreRequest(requests: map<Id, Request>, done: set<Id>, k: Id, terminal: Id)
    requires k in requests && k !in done
    ensures |RequestsCounted(requests, done + {k}, terminal)| ==
            |RequestsCounted(requests, done, terminal)|
            + if requests[k].terminal == terminal && requests[k].state.Pending? then 1 else 0
  {
    if requests[k].terminal == terminal && requests[k].state.Pending? {
      assert RequestsCounted(requests, done + {k}, terminal) == RequestsCounted(requests, done, terminal) + {k};
    } else {
      assert RequestsCounted(requests, done + {k}, terminal) == RequestsCounted(requests, done, terminal);
    }
  }

  lemma OneMoreShare(shares: map<Id, Share>, done: set<Id>, k: Id, terminal: Id, now: nat)
    requires k in shares && k !in done
    ensures |SharesCounted(shares, done + {k}, terminal, now)| ==
            |SharesCounted(shares, done, terminal, now)|
            + if shares[k].terminal == terminal && shares[k].state.Offered? && shares[k].expiresAt > now then 1 else 0
  {
    if shares[k].terminal == terminal && shares[k].state.Offered? && shares[k].expiresAt > now {
      assert SharesCounted(shares, done + {k}, terminal, now) == SharesCounted(shares, done, terminal, now) + {k};
    } else {
      assert SharesCounted(shares, done + {k}, terminal, now) == SharesCounted(shares, done, terminal, now);
    }
  }

  /** What a snapshot of the terminal, which expires shares first, shows as pending. */
  ghost function ShownPending(w: World, terminal: Id, now: nat, order: seq<Id>): nat
    requires IsOrder(order, Due(w.st.shares, now))
  {
    var after := ExpireShares(w, now, order).st;
    |PendingOf(after.requests, terminal)| + |OfferedOf(after.shares, terminal)|
  }

  /** src/access.rs `populate_pending_request_counts`. */
  method PopulatePendingRequestCounts(manager: AccessManager, terminals: array<TerminalInfo>, now: nat)
    modifies terminals
    ensures forall i | 0 <= i < terminals.Length :: terminals[i].id == old(terminals[i].id)
    ensures forall i | 0 <= i < terminals.Length ::
              terminals[i].pending ==
                Badge(old(terminals[..]), i,
                      |PendingOf(manager.requests, old(terminals[i].id))|
                      + |OpenOffersOf(manager.shares, old(terminals[i].id), now)|)
    ensures manager.Valid() ==> forall order | IsOrder(order, Due(manager.shares, now)) ::
              forall i | 0 <= i < terminals.Length ::
                terminals[i].pending == Badge(old(terminals[..]), i, ShownPending(manager.W(), old(terminals[i].id), now, order))
  {
    hide PendingOf, OpenOffersOf, RequestsCounted, SharesCounted, ShownPending, IsFirst, Inv, Due, IsOrder;
    ghost var before := terminals[..];
    for i := 0 to terminals.Length
      invariant forall j | 0 <= j < terminals.Length :: terminals[j].id == before[j].id
      invariant forall j | 0 <= j < i :: terminals[j].pending == Some(0)
    {
      terminals[i] := terminals[i].(pending := Some(0));
    }
    CountRequests(manager, terminals, before);
    CountShares(manager, terminals, before, now);
    forall i | 0 <= i < |before| {
      AllCounted(manager.requests, manager.shares, before[i].id, now);
    }
    if manager.Valid() {
      SnapshotsAgree(manager.W(), before, now);
    }
  }

  lemma AllCounted(requests: map<Id, Request>, shares: map<Id, Share>, terminal: Id, now: nat)
    ensures RequestsCounted(requests, requests.Keys, terminal) == PendingOf(requests, terminal)
    ensures SharesCounted(shares, shares.Keys, terminal, now) == OpenOffersOf(shares, terminal, now)
  {
  }

  lemma SnapshotsAgree(w: World, terminals: seq<TerminalInfo>, now: nat)
    requires Inv(w)
    ensures forall order | IsOrder(order, Due(w.st.shares, now)) ::
              forall i | 0 <= i < |terminals| ::
                ShownPending(w, terminals[i].id, now, order) ==
                |PendingOf(w.st.requests, terminals[i].id)| + |OpenOffersOf(w.st.shares, terminals[i].id, now)|
  {
    hide Inv, IsOrder, Due, ShownPending, PendingOf, OpenOffersOf;
    forall order, i | IsOrder(order, Due(w.st.shares, now)) && 0 <= i < |terminals|
      ensures ShownPending(w, terminals[i].id, now, order) ==
              |PendingOf(w.st.requests, terminals[i].id)| + |OpenOffersOf(w.st.shares, terminals[i].id, now)|
    {
      BadgeMatchesSnapshot(w, terminals[i].id, now, order);
    }
  }

  method CountRequests(manager: AccessManager, terminals: array<TerminalInfo>, ghost before: seq<TerminalInfo>)
    requires |before| == terminals.Length
    requires forall j | 0 <= j < terminals.Length :: terminals[j] == TerminalInfo(before[j].id, Some(0))
    modifies terminals
    ensures forall j | 0 <= j < terminals.Length ::
              terminals[j] == TerminalInfo(before[j].id,
                Badge(before, j, |RequestsCounted(manager.requests, manager.requests.Keys, before[j].id)|))
  {
    hide RequestsCounted, IsFirst;
    var requests := manager.requests;
    var todo := requests.Keys;
    forall j | 0 <= j < |before| { NoneCounted(requests, map[], before[j].id, 0); }
    assert requests.Keys - todo == {};
    while todo != {}
      invariant todo <= requests.Keys
      invariant forall j | 0 <= j < terminals.Length ::
                  terminals[j] == TerminalInfo(before[j].id,
                    Badge(before, j, |RequestsCounted(requests, requests.Keys - todo, before[j].id)|))
    {
      var k :| k in todo;
      ghost var done := requests.Keys - todo;
      forall j | 0 <= j < terminals.Length { OneMoreRequest(requests, done, k, before[j].id); }
      SameFirsts(terminals[..], before);
      if requests[k].state.Pending? {
        Tick(terminals, requests[k].terminal);
      }
      todo := todo - {k};
      assert requests.Keys - todo == done + {k};
    }
    assert requests.Keys - todo == requests.Keys;
  }

  lemma SameFirsts(a: seq<TerminalInfo>, b: seq<TerminalInfo>)
    requires |a| == |b| && forall j | 0 <= j < |a| :: a[j].id == b[j].id
    ensures forall j | 0 <= j < |a| :: IsFirst(a, j) == IsFirst(b, j)
  {
  }

  method CountShares(manager: AccessManager, terminals: array<TerminalInfo>, ghost before: seq<TerminalInfo>, now: nat)
    requires |before| == terminals.Length
    requires forall j | 0 <= j < terminals.Length ::
               terminals[j] == TerminalInfo(before[j].id,
                 Badge(before, j, |RequestsCounted(manager.requests, manager.requests.Keys, before[j].id)|))
    modifies terminals
    ensures forall j | 0 <= j < terminals.Length ::
              terminals[j] == TerminalInfo(before[j].id,
                Badge(before, j, |RequestsCounted(manager.requests, manager.requests.Keys, before[j].id)|
                                 + |SharesCounted(manager.shares, manager.shares.Keys, before[j].id, now)|))
  {
    hide SharesCounted, RequestsCounted, IsFirst;
    var shares := manager.shares;
    var todo := shares.Keys;
    forall j | 0 <= j < |before| { NoneCounted(manager.requests, shares, before[j].id, now); }
    assert shares.Keys - todo == {};
    while todo != {}
      invariant todo <= shares.Keys
      invariant forall j | 0 <= j < terminals.Length ::
                  terminals[j] == TerminalInfo(before[j].id,
                    Badge(before, j, |RequestsCounted(manager.requests, manager.requests.Keys, before[j].id)|
                                     + |SharesCounted(shares, shares.Keys - todo, before[j].id, now)|))
    {
      var k :| k in todo;
      ghost var done := shares.Keys - todo;
      forall j | 0 <= j < terminals.Length { OneMoreShare(shares, done, k, before[j].id, now); }
      SameFirsts(terminals[..], before);
      if shares[k].state.Offered? && shares[k].expiresAt > now {
        Tick(terminals, shares[k].terminal);
      }
      todo := todo - {k};
      assert shares.Keys - todo == done + {k};
    }
    assert shares.Keys - todo == shares.Keys;
  }

  /** At one moment, the badge counts what a snapshot, which expires shares first, still
      shows as pending. */
  lemma BadgeMatchesSnapshot(w: World, terminal: Id, now: nat, order: seq<Id>)
    requires Inv(w) && IsOrder(order, Due(w.st.shares, now))
    ensures |PendingOf(w.st.requests, terminal)| + |OpenOffersOf(w.st.shares, terminal, now)| ==
            ShownPending(w, terminal, now, order)
  {
    hide Inv, Evolves, ExpireShares;
    ExpireSharesGood(w, now, order);
    ExpireSharesTable(w, now, order);
    assert OpenOffersOf(w.st.shares, terminal, now) == OfferedOf(ExpireShares(w, now, order).st.shares, terminal);
  }
}
