/** What a requester that joins a pending root command has in common with the one who filed it:
    with fingerprints made as the broker makes them, everything that the approval is about. */
module FingerprintedRequests {
  import opened Wrappers
  import opened AccessModel
  import opened AccessOperations
  import opened AccessChanges
  import opened AccessInvariant
  import opened AccessRuns
  import Fingerprint

  type Hash = Wrappers.Bytes -> string
  type Naming = Id -> Fingerprint.Uuid

  function RootOf(naming: Naming, terminal: Id, c: SudoCommand): Fingerprint.RootCommand {
    Fingerprint.RootCommand(naming(terminal), c.cwd, c.argv, c.digest, c.executable, c.directory)
  }

  /** The fingerprint is the hash of the framed parts, each shorter than 2^64 bytes. */
  ghost predicate Fingerprinted(hash: Hash, naming: Naming, terminal: Id, c: SudoCommand) {
    && Fingerprint.Measurable(Fingerprint.Encoded(Fingerprint.Parts(RootOf(naming, terminal, c))))
    && c.fingerprint == hash(Fingerprint.Preimage(RootOf(naming, terminal, c)))
  }

  ghost predicate AllFingerprinted(hash: Hash, naming: Naming, ops: seq<Op>) {
    forall i | 0 <= i < |ops| && ops[i].OpRequestSudo? :: Fingerprinted(hash, naming, ops[i].terminal, ops[i].command)
  }

  ghost predicate NoCollisions(hash: Hash) {
    forall a, b :: hash(a) == hash(b) ==> a == b
  }

  // ---- where root commands come from ------------------------------------------------------------

  /** A root command in the table was there, as it is, or is the one that was just asked for. */
  lemma CommandOrigin(w: World, op: Op, k: Id)
    requires Enabled(w, op) && k in Step(w, op).st.requests && Step(w, op).st.requests[k].kind.Sudo?
    ensures var r := Step(w, op).st.requests[k];
            || (k in w.st.requests && w.st.requests[k].kind == r.kind && w.st.requests[k].terminal == r.terminal)
            || (op.OpRequestSudo? && r.kind == Sudo(op.command) && r.terminal == op.terminal)
  {
    hide Step, Enabled;
    var c := StepChanges(w, op);
  }

  // ---- along a run --------------------------------------------------------------------------------

  ghost predicate RequestsFingerprinted(hash: Hash, naming: Naming, requests: map<Id, Request>) {
    forall k | k in requests && requests[k].kind.Sudo? :: Fingerprinted(hash, naming, requests[k].terminal, requests[k].kind.command)
  }

  lemma {:induction false} RequestsAre(worlds: seq<World>, ops: seq<Op>, i: nat, hash: Hash, naming: Naming)
    requires IsRun(worlds, ops) && i <= |ops| && AllFingerprinted(hash, naming, ops)
    ensures RequestsFingerprinted(hash, naming, worlds[i].st.requests)
  {
    hide Inv, Enabled, Step, Fingerprinted;
    if i > 0 {
      var w, op := worlds[i - 1], ops[i - 1];
      RequestsAre(worlds, ops, i - 1, hash, naming);
      Reachable(worlds, ops, i - 1);
      assert IsStep(w, op, worlds[i]);
      forall k | k in worlds[i].st.requests && worlds[i].st.requests[k].kind.Sudo?
        ensures Fingerprinted(hash, naming, worlds[i].st.requests[k].terminal, worlds[i].st.requests[k].kind.command)
      {
        CommandOrigin(w, op, k);
      }
    }
  }

  /** Under a hash without collisions, who joins a pending root command asked for the same
      terminal, directory, arguments, digest and file identities as the one who filed it. */
  lemma JoinedCommandsAreEqual(worlds: seq<World>, ops: seq<Op>, i: nat, k: Id, hash: Hash, naming: Naming)
    requires IsRun(worlds, ops) && i < |ops| && AllFingerprinted(hash, naming, ops) && NoCollisions(hash)
    requires ops[i].OpRequestSudo? && ops[i].pick == Some(k)
    ensures k in worlds[i].st.requests && worlds[i].st.requests[k].kind.Sudo?
    ensures var r, op := worlds[i].st.requests[k], ops[i];
            && r.terminal == op.terminal
            && r.kind.command.argv == op.command.argv && r.kind.command.cwd == op.command.cwd
            && r.kind.command.digest == op.command.digest
            && r.kind.command.executable == op.command.executable && r.kind.command.directory == op.command.directory
  {
    hide Inv, Step;
    RequestsAre(worlds, ops, i, hash, naming);
    assert IsStep(worlds[i], ops[i], worlds[i + 1]);
    PickedCommand(worlds[i], ops[i], k);
    var r, op := worlds[i].st.requests[k], ops[i];
    EqualCommands(hash, naming, r.terminal, r.kind.command, op.command);
  }

  lemma PickedCommand(w: World, op: Op, k: Id)
    requires Enabled(w, op) && op.OpRequestSudo? && op.pick == Some(k)
    ensures k in w.st.requests && w.st.requests[k].kind.Sudo? && w.st.requests[k].terminal == op.terminal
    ensures w.st.requests[k].kind.command.fingerprint == op.command.fingerprint
  {
  }

  lemma EqualCommands(hash: Hash, naming: Naming, terminal: Id, a: SudoCommand, b: SudoCommand)
    requires NoCollisions(hash) && a.fingerprint == b.fingerprint
    requires Fingerprinted(hash, naming, terminal, a) && Fingerprinted(hash, naming, terminal, b)
    ensures RootOf(naming, terminal, a) == RootOf(naming, terminal, b)
  {
    hide Fingerprint.Measurable, Fingerprint.Encoded, Fingerprint.Parts, Fingerprint.Preimage;
    Fingerprint.FingerprintsAgreeOnlyOnEqualCommands(RootOf(naming, terminal, a), RootOf(naming, terminal, b));
  }
}
