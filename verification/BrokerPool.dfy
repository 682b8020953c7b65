/** The lock sections of the broker pool, each proved to be one step of the model, so that
    what every interleaving keeps holds of the fields they update. */
module BrokerPools {
  import opened Wrappers
  import opened BrokerModel
  import opened BrokerInvariant
  import opened BrokerRuns
  import opened BrokerLookups

  class BrokerPool {
    const current: Path
    var draining: seq<Path>
    var owners: map<Id, Path>
    ghost var state: Pool    // with the calls in flight, the brokers and the history

    ghost predicate Valid()
      reads this
    {
      && Inv(state)
      && state.current == current && state.draining == draining && state.owners == owners
    }

    constructor (current: Path, draining: seq<Path>, ghost state: Pool)
      requires Initial(state) && state.current == current && state.draining == draining
      ensures Valid() && this.state == state
    {
      this.current, this.draining, this.owners, this.state := current, draining, map[], state;
      InitialHolds(state);
    }

    /** The current generation and a copy of the draining ones. */
    method Generations(ghost p: Pid) returns (generations: seq<Path>)
      requires Valid() && Enabled(state, Snapshotted(p))
      modifies this`state
      ensures Valid() && state == Step(old(state), Snapshotted(p))
      ensures p in state.tasks && state.tasks[p].Listing? && state.tasks[p].todo == generations
    {
      hide Inv;
      generations := [current];
      for i := 0 to |draining|
        invariant generations == [current] + draining[..i]
        invariant Valid() && state == old(state)
      {
        assert draining[..i + 1] == draining[..i] + [draining[i]];
        generations := generations + [draining[i]];
      }
      assert draining[..|draining|] == draining;
      SnapshotKeeps(state, p);
      state := Step(state, Snapshotted(p));
    }

    /** The terminals that one generation listed, added to what was found so far. */
    static method AddListed(found: map<Id, Path>, path: Path, listed: seq<Id>) returns (more: map<Id, Path>)
      ensures more == found + OwnedBy(path, set id | id in listed)
    {
      more := found;
      for i := 0 to |listed|
        invariant more == found + OwnedBy(path, set id | id in listed[..i])
      {
        assert listed[..i + 1] == listed[..i] + [listed[i]];
        more := more[listed[i] := path];
      }
      assert listed[..|listed|] == listed;
    }

    /** The owners become what a listing found. */
    method ReplaceOwners(found: map<Id, Path>, ghost p: Pid, ghost refused: bool)
      requires Valid() && Enabled(state, Replaced(p, refused)) && state.tasks[p].found == found
      modifies this`owners, this`state
      ensures Valid() && state == Step(old(state), Replaced(p, refused))
      ensures owners == found
    {
      hide Inv;
      ReplaceKeeps(state, p, refused);
      owners := found;
      state := Step(state, Replaced(p, refused));
    }

    /** `owner`, one lookup. */
    method LookUp(id: Id, ghost p: Pid) returns (owner: Option<Path>)
      requires Valid() && Enabled(state, Looked(p)) && state.tasks[p].call.id == id
      modifies this`state
      ensures Valid() && state == Step(old(state), Looked(p))
      ensures owner == if id in owners then Some(owners[id]) else None
      ensures owner.Some? ==> id in state.creator && state.creator[id] == owner.value
    {
      OwnersOf(state);
      hide Inv;
      owner := if id in owners then Some(owners[id]) else None;
      LookKeeps(state, p);
      state := Step(state, Looked(p));
    }

    /** The owner of a terminal that was just made. */
    method RecordOwner(id: Id, ghost p: Pid)
      requires Valid() && Enabled(state, Recorded(p)) && state.tasks[p].created == id
      modifies this`owners, this`state
      ensures Valid() && state == Step(old(state), Recorded(p))
      ensures owners == old(owners)[id := current]
    {
      hide Inv;
      RecordKeeps(state, p);
      owners := owners[id := current];
      state := Step(state, Recorded(p));
    }

    /** The owner of a terminal that was just removed. */
    method ForgetOwner(id: Id, ghost p: Pid)
      requires Valid() && Enabled(state, Forgot(p)) && state.tasks[p].removed == id
      modifies this`owners, this`state
      ensures Valid() && state == Step(old(state), Forgot(p))
      ensures owners == old(owners) - {id}
    {
      hide Inv;
      ForgetKeeps(state, p);
      owners := owners - {id};
      state := Step(state, Forgot(p));
    }

    /** src/broker.rs `forget_draining`: says whether this call took the generation out. */
    method ForgetDraining(path: Path, ghost p: Pid) returns (taken: bool)
      requires Valid() && Enabled(state, TakenOut(p)) && state.tasks[p].path == path
      modifies this`draining, this`state
      ensures Valid() && state == Step(old(state), TakenOut(p))
      ensures taken <==> path in old(draining)
      ensures Distinct(draining)
      ensures forall q :: q in draining <==> q in old(draining) && q != path
    {
      DrainingOf(state);
      hide Inv, Without, Enabled, Distinct;
      var index := Position(draining, path);
      taken := index < |draining|;
      TakeOutKeeps(state, p);
      TakenOutOnly(state, p);
      WithoutIs(draining, path);
      TakenFrom(draining, path, index);
      if taken {
        draining := draining[..index] + draining[index + 1..];
      }
      state := Step(state, TakenOut(p));
    }

    static method Position(paths: seq<Path>, path: Path) returns (index: nat)
      ensures index == IndexOf(paths, path)
    {
      index := 0;
      while index < |paths| && paths[index] != path
        invariant index <= |paths| && path !in paths[..index]
      {
        assert paths[..index + 1] == paths[..index] + [paths[index]];
        index := index + 1;
      }
      FoundAt(paths, path, index);
    }

    /** src/broker.rs `forget_owners`. */
    method ForgetOwners(path: Path, ghost p: Pid)
      requires Valid() && Enabled(state, Cleaned(p)) && state.tasks[p].path == path
      modifies this`owners, this`state
      ensures Valid() && state == Step(old(state), Cleaned(p))
      ensures forall id :: id in owners <==> id in old(owners) && old(owners)[id] != path
      ensures forall id | id in owners :: owners[id] == old(owners)[id]
    {
      hide Inv;
      CleanKeeps(state, p);
      owners := map id | id in owners && owners[id] != path :: owners[id];
      state := Step(state, Cleaned(p));
      assert owners == state.owners;
    }

    /** What a retirement round starts from. */
    method Candidates(ghost p: Pid) returns (candidates: seq<Path>)
      requires Valid() && Enabled(state, Surveyed(p))
      modifies this`state
      ensures Valid() && state == Step(old(state), Surveyed(p))
      ensures candidates == draining && current !in candidates
    {
      DrainingOf(state);
      hide Inv;
      candidates := draining;
      SurveyKeeps(state, p);
      state := Step(state, Surveyed(p));
    }

    /** A generation whose shutdown failed. */
    method PutBack(path: Path, ghost p: Pid)
      requires Valid() && Enabled(state, PutBackIn(p)) && state.tasks[p].path == path
      modifies this`draining, this`state
      ensures Valid() && state == Step(old(state), PutBackIn(p))
      ensures draining == old(draining) + [path] && path !in old(draining)
    {
      HeldIsOut(state, p);
      hide Inv;
      PutBackKeeps(state, p);
      draining := draining + [path];
      state := Step(state, PutBackIn(p));
    }
  }

  lemma TakenOutOnly(s: Pool, p: Pid)
    requires Enabled(s, TakenOut(p))
    ensures var t := Step(s, TakenOut(p));
            && t.draining == Without(s.draining, s.tasks[p].path)
            && t.owners == s.owners && t.current == s.current
  {
    hide Without;
    assert s.tasks[p].path !in s.draining ==> Without(s.draining, s.tasks[p].path) == s.draining by {
      TakenFrom(s.draining, s.tasks[p].path, IndexOf(s.draining, s.tasks[p].path));
    }
  }

  lemma OwnersOf(s: Pool)
    requires Inv(s)
    ensures Truthful(s.owners, s.creator)
  {
  }

  lemma DrainingOf(s: Pool)
    requires Inv(s)
    ensures Distinct(s.draining) && s.current !in s.draining
  {
  }

  lemma HeldIsOut(s: Pool, p: Pid)
    requires Inv(s) && p in s.tasks && Holding(s.tasks[p])
    ensures s.tasks[p].path !in s.draining
  {
  }

  lemma {:induction false} FoundAt(paths: seq<Path>, path: Path, index: nat)
    requires index <= |paths| && path !in paths[..index]
    requires index < |paths| ==> paths[index] == path
    ensures IndexOf(paths, path) == index
  {
    var i := IndexOf(paths, path);
    assert forall k | 0 <= k < index :: paths[..index][k] == paths[k];
    assert forall k | 0 <= k < i :: paths[..i][k] == paths[k];
  }

  lemma {:induction false} TakenFrom(paths: seq<Path>, path: Path, index: nat)
    requires index == IndexOf(paths, path)
    ensures Without(paths, path) == if index < |paths| then paths[..index] + paths[index + 1..] else paths
    ensures index < |paths| <==> path in paths
  {
    assert index == |paths| ==> paths[..index] == paths;
  }
}
