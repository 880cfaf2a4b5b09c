/** The API server behind kubectl. Between any two calls other actors may act (`foreign`), and
    any call may fail with or without having taken effect (`faulty`). A crashed run is one whose
    remaining calls all fail without effect. */
module ApiServer {
  import opened Wrappers
  import opened Receipts
  import opened Kubernetes
  import opened Protocol
  import opened ProtocolLemmas
  import opened Steps

  datatype Reply = Found(item: Object) | NotFound | Failed
  datatype Verdict = Accepted | AlreadyAbsent | Refused

  /** The last thing recorded is that k had no object. */
  ghost predicate JustAbsent(w: World, k: Key) {
    k !in w.store && |w.log| > 0 && w.log[|w.log|-1] == Absent(k, w.nextUid)
  }

  /** The last thing recorded is that k had an object of this UID. */
  ghost predicate JustPresent(w: World, k: Key, uid: Uid) {
    Holds(w, k, uid) && |w.log| > 0 && w.log[|w.log|-1] == Present(k, uid)
  }

  /** A delete of this object would meet its preconditions, or find nothing left to do. */
  predicate Targets(w: World, k: Key, uid: Uid, copy: Option<Object>) {
    k in w.store ==> w.store[k].uid == uid && (copy.Some? ==> w.store[k].version == copy.value.version)
  }

  /** Either nothing changed, or k is gone and at most its contents went with it. */
  ghost predicate OnlyTakes(w: World, v: World, k: Key) {
    v.store == w.store || (k !in v.store && forall j :: j in w.store && !Takes(k, j) ==> j in v.store)
  }

  function TextOf(copy: Option<Object>): Option<Text> {
    if copy.Some? && copy.value.body.Ledger? then Some(copy.value.body.text) else None
  }

  /** The create or the version precondition of the patch would be met. */
  predicate Matches(w: World, m: nat, expected: Option<Object>) {
    var k := Key(m, Receipt);
    if expected.None? then k !in w.store
    else k in w.store && w.store[k].version == expected.value.version
  }

  /** A patch accepted at the version that was read replaces exactly the text that was read. */
  lemma MatchedText(w: World, m: nat, expected: Option<Object>)
    requires Matches(w, m, expected)
    requires expected.Some? ==> expected.value.body.Ledger? && Known(w, Key(m, Receipt), expected.value)
    ensures ReceiptText(w, m) == TextOf(expected)
  {
  }

  /** Of several writers that read the same receipt one wins: its write makes the copies of the others
      stale, and a stale copy never matches again, whatever happens later. */
  lemma OneWriterWins(w: World, v: World, m: nat, copy: Object, text: Text, origin: Origin)
    requires Matches(w, m, Some(copy)) && Known(w, Key(m, Receipt), copy) && Aged(Put(w, m, text, origin), v)
    ensures !Matches(v, m, Some(copy))
  {
  }

  /** The receipt holds `text` and the history says why. */
  ghost predicate JustWrote(w: World, m: nat, text: Text, origin: Origin) {
    && LedgerAt(w, m, text) && Readable(text)
    && RecordedAs(w.log, |w.log|, m, text.parsed.value, origin)
  }

  lemma PutIsRecorded(w: World, m: nat, text: Text, origin: Origin)
    requires MayWrite(w.log, |w.log|, m, ReceiptText(w, m), text, origin)
    ensures JustWrote(Put(w, m, text, origin), m, text, origin)
    ensures forall j :: j != Key(m, Receipt) ==> SameAt(w, Put(w, m, text, origin), j)
  {
    assert Put(w, m, text, origin).log[|w.log|] == Wrote(m, ReceiptText(w, m), text, origin);
  }

  /** What the others do between two calls: steps of other runs of the tool or of anyone else. */
  type Others = (nat, World) -> seq<(Step, World)>

  ghost predicate Lawful(foreign: bool, others: Others) {
    forall t, w :: Inv(w) ==> Walk(w, others(t, w)) && (!foreign ==> others(t, w) == [])
  }

  class Api {
    var world: World
    ghost var worlds: seq<World>          // the whole run up to `world`, since before the tool was first used
    ghost var steps: seq<Step>
    var clock: nat
    var sent: nat                         // mutating requests sent through this connection
    const foreign: bool
    const faulty: bool
    const others: Others

    /** The world is where a run of allowed steps has come to, and the others only take such steps. */
    ghost predicate Valid()
      reads this
    {
      Inv(world) && RunTo(worlds, steps, world) && Lawful(foreign, others)
    }

    /** Valid, and the run went on from where it was. */
    twostate predicate Onward()
      reads this
    {
      Valid() && old(worlds) <= worlds && old(steps) <= steps
    }

    constructor (ghost worlds: seq<World>, ghost steps: seq<Step>, w: World, foreign: bool, faulty: bool, others: Others)
      requires RunTo(worlds, steps, w) && Lawful(foreign, others)
      ensures Valid() && world == w && this.worlds == worlds && this.steps == steps
      ensures sent == 0 && this.foreign == foreign && this.faulty == faulty
    {
      TraceMoves(worlds, steps, |steps|, |steps|);
      this.world, this.worlds, this.steps, this.clock, this.sent := w, worlds, steps, 0, 0;
      this.foreign, this.faulty, this.others := foreign, faulty, others;
    }

    /** One step of anyone: the run goes on by it. */
    method Take(v: World, ghost s: Step)
      requires Valid() && StepOk(world, v, s)
      modifies this
      ensures Onward() && Moves(true, old(world), v) && world == v
      ensures worlds == old(worlds) + [v] && steps == old(steps) + [s]
      ensures clock == old(clock) && sent == old(sent)
    {
      hide StepOk, RunTo, Lawful, Aged, Calm, LogOk, ReceiptsMatch, AbsencesHold, Fresh;
      StepMoves(world, v, s);
      RunGoesOn(worlds, steps, world, v, s);
      world, worlds, steps := v, worlds + [v], steps + [s];
    }

    /** Any number of steps of other runs and other actors. */
    method Interfere()
      requires Valid()
      modifies this
      ensures Onward() && Quiet(foreign, old(world), world)
      ensures !foreign ==> world == old(world)
      ensures sent == old(sent)
    {
      hide StepOk, RunTo, Inv, Aged, Calm;
      var moves := others(clock, world);
      assert Walk(world, moves) && (!foreign ==> moves == []);
      clock := clock + 1;
      MovesReflexive(foreign, world);
      for i := 0 to |moves|
        invariant Onward() && Quiet(foreign, old(world), world) && Walk(old(world), moves)
        invariant world == Reached(old(world), moves, i)
        invariant sent == old(sent)
      {
        ghost var before := world;
        WalkStep(old(world), moves, i);
        Take(moves[i].1, moves[i].0);
        MovesTransitive(true, old(world), before, world);
      }
    }

    method Fault() returns (fault: bool)
      ensures fault ==> faulty
    {
      var b: bool := *;
      fault := faulty && b;
    }

    /** Records a read that is true of the current world. */
    method Note(e: Event)
      requires Valid() && Truthful(world, e)
      modifies this
      ensures Onward() && world == Observe(old(world), e) && Quiet(foreign, old(world), world)
      ensures sent == old(sent)
    {
      hide RunTo, Lawful, Inv, Aged, Calm, Truthful;
      ReadMoves(foreign, world, e);
      Take(Observe(world, e), Read(e));
    }

    /** `kubectl get`: only an explicit NotFound counts as absence. */
    method Get(k: Key) returns (reply: Reply)
      requires Valid()
      modifies this
      ensures Onward() && Quiet(foreign, old(world), world)
      ensures reply.Found? ==> k in world.store && world.store[k] == reply.item
      ensures reply.Found? ==> JustPresent(world, k, reply.item.uid) && |old(world).log| < |world.log|
      ensures reply.NotFound? ==> JustAbsent(world, k) && |old(world).log| < |world.log|
      ensures reply.Failed? ==> faulty
      ensures sent == old(sent)
      ensures !foreign ==> world.store == old(world.store)
    {
      hide RunTo, Lawful, Inv, Aged, Calm;
      Interfere();
      var fault := Fault();
      if fault { return Failed; }
      ghost var mid := world;
      if k in world.store {
        Note(Present(k, world.store[k].uid));
        QuietTransitive(foreign, old(world), mid, world);
        return Found(world.store[k]);
      }
      Note(Absent(k, world.nextUid));
      QuietTransitive(foreign, old(world), mid, world);
      return NotFound;
    }

    /** DELETE with a UID precondition and, for checked objects, a version precondition. */
    method Delete(k: Key, uid: Uid, copy: Option<Object>, m: nat, r: Record) returns (verdict: Verdict)
      requires Valid()
      requires copy.Some? ==> copy.value.uid == uid && Known(world, k, copy.value)
      requires MayDelete(world.log, |world.log|, k, uid, if copy.Some? then Some(copy.value.body) else None, m, r)
      modifies this
      ensures Onward() && Moves(foreign, old(world), world)
      ensures !IsReceipt(k) ==> Quiet(foreign, old(world), world)
      ensures verdict.AlreadyAbsent? ==> JustAbsent(world, k) && |old(world).log| < |world.log|
      ensures !foreign ==> forall j :: IsReceipt(j) && j != k ==> SameAt(old(world), world, j)
      ensures !foreign && !verdict.Refused? ==> k !in world.store
      ensures !foreign ==> OnlyTakes(old(world), world, k)
      ensures !foreign && !faulty && Targets(old(world), k, uid, copy) ==> !verdict.Refused?
    {
      hide MayDelete, Inv, Aged, Calm, RunTo, Lawful, StepOk;
      sent := sent + 1;
      Interfere();
      var checked := if copy.Some? then Some(copy.value.body) else None;
      MayDeleteStays(old(world).log, |old(world).log|, world.log, |world.log|, k, uid, checked, m, r);
      if copy.Some? { KnownStays(old(world), world, k, copy.value); }
      var fault := Fault();
      if fault { return Refused; }
      ghost var mid := world;
      if k !in world.store {
        Note(Absent(k, world.nextUid));
        QuietTransitive(foreign, old(world), mid, world);
        return AlreadyAbsent;
      }
      if world.store[k].uid != uid || (copy.Some? && world.store[k].version != copy.value.version) {
        return Refused;
      }
      var lingers: bool := *;
      RemovalMoves(foreign, foreign && lingers, mid, k, uid, checked, m, r);
      Take(Removal(world, foreign && lingers, k, uid, checked, m, r), Step.Delete(k, uid, checked, m, r));
      MovesTransitive(foreign, old(world), mid, world);
      fault := Fault();
      return if fault then Refused else Accepted;
    }

    /** `kubectl delete` by name alone, as used for Longhorn volumes of single-plane records. */
    method DeleteByName(k: Key, m: nat, r: Record) returns (verdict: Verdict)
      requires Valid() && !IsReceipt(k)
      requires forall uid :: MayDelete(world.log, |world.log|, k, uid, None, m, r)
      modifies this
      ensures Onward() && Quiet(foreign, old(world), world)
      ensures !faulty ==> !verdict.Refused?
      ensures !verdict.Refused? ==> Attempted(world.log, |old(world).log|, |world.log|, k)
      ensures !foreign && !verdict.Refused? ==> k !in world.store
      ensures !foreign ==> OnlyTakes(old(world), world, k)
    {
      hide MayDelete, Inv, Aged, Calm, RunTo, Lawful, StepOk;
      sent := sent + 1;
      Interfere();
      var fault := Fault();
      if fault { return Refused; }
      ghost var mid := world;
      if k !in world.store {
        Note(Absent(k, world.nextUid));
        QuietTransitive(foreign, old(world), mid, world);
        assert world.log[|mid.log|].Absent?;
        return AlreadyAbsent;
      }
      var uid := world.store[k].uid;
      MayDeleteStays(old(world).log, |old(world).log|, world.log, |world.log|, k, uid, None, m, r);
      var lingers: bool := *;
      RemovalMoves(foreign, foreign && lingers, mid, k, uid, None, m, r);
      Take(Removal(world, foreign && lingers, k, uid, None, m, r), Step.Delete(k, uid, None, m, r));
      QuietTransitive(foreign, old(world), mid, world);
      assert world.log[|mid.log|].Deleted?;
      fault := Fault();
      return if fault then Refused else Accepted;
    }

    /** Creates the receipt (`expected` absent) or merge-patches it under the version of the copy
        that was read. `took` may be false although the write took effect. */
    method PutReceipt(m: nat, expected: Option<Object>, text: Text, origin: Origin) returns (took: bool)
      requires Valid() && TextBelow(text, world.nextUid)
      requires expected.Some? ==> expected.value.body.Ledger? && Known(world, Key(m, Receipt), expected.value)
      requires MayWrite(world.log, |world.log|, m, TextOf(expected), text, origin)
      modifies this
      ensures Onward() && Moves(foreign, old(world), world)
      ensures took ==> JustWrote(world, m, text, origin)
      ensures !foreign ==> forall j :: j != Key(m, Receipt) ==> SameAt(old(world), world, j)
      ensures !foreign && Matches(old(world), m, expected) ==>
        (!faulty ==> took) && (SameAt(old(world), world, Key(m, Receipt)) || LedgerAt(world, m, text))
      ensures !foreign && !Matches(old(world), m, expected) ==> SameAt(old(world), world, Key(m, Receipt))
    {
      hide MayWrite, Inv, Calm, Aged, Known, Recorded, RecordedAs, RunTo, Lawful, StepOk;
      sent := sent + 1;
      Interfere();
      MayWriteStays(old(world).log, |old(world).log|, world.log, |world.log|, m, TextOf(expected), text, origin);
      if expected.Some? { KnownStays(old(world), world, Key(m, Receipt), expected.value); }
      TextBelowStays(old(world), world, text);
      var fault := Fault();
      if fault || !Matches(world, m, expected) { return false; }
      ghost var mid := world;
      MatchedText(world, m, expected);
      PutMoves(foreign, world, m, text, origin);
      PutIsRecorded(world, m, text, origin);
      Take(Put(world, m, text, origin), Step.Write(m, text, origin));
      MovesTransitive(foreign, old(world), mid, world);
      fault := Fault();
      return !fault;
    }

    method ListClones(p: nat) returns (result: Result<map<Name, Object>>)
      requires Valid()
      modifies this
      ensures Onward() && Quiet(foreign, old(world), world)
      ensures result.Ok? ==>
        && (forall n :: n in result.value <==> Key(p, DataVolume(n)) in world.store)
        && (forall n :: n in result.value ==> result.value[n] == world.store[Key(p, DataVolume(n))])
        && |world.log| > |old(world).log| && world.log[|world.log|-1] == Clones(p, CloneUids(world, p))
      ensures result.Err? ==> faulty
      ensures !foreign ==> world.store == old(world).store
    {
      hide Inv, Calm, Aged, RunTo, Lawful;
      Interfere();
      var fault := Fault();
      if fault { return Err(ReadFailed); }
      ghost var mid := world;
      Note(Clones(p, CloneUids(world, p)));
      QuietTransitive(foreign, old(world), mid, world);
      var items := map k | k in world.store && k.plane == p && k.kind.DataVolume? :: k.kind.name := world.store[k];
      return Ok(items);
    }

    method ListClaims(p: nat) returns (result: Result<map<Name, Object>>)
      requires Valid()
      modifies this
      ensures Onward() && Quiet(foreign, old(world), world)
      ensures result.Ok? ==>
        && (forall n :: n in result.value <==> Key(p, Claim(n)) in world.store)
        && (forall n :: n in result.value ==> result.value[n] == world.store[Key(p, Claim(n))])
        && |world.log| > |old(world).log| && world.log[|world.log|-1] == Claims(p, BoundVolumes(world, p))
      ensures result.Err? ==> faulty
      ensures !foreign ==> world.store == old(world).store
    {
      hide Inv, Calm, Aged, RunTo, Lawful;
      Interfere();
      var fault := Fault();
      if fault { return Err(ReadFailed); }
      ghost var mid := world;
      Note(Claims(p, BoundVolumes(world, p)));
      QuietTransitive(foreign, old(world), mid, world);
      var items := map k | k in world.store && k.plane == p && k.kind.Claim? :: k.kind.name := world.store[k];
      return Ok(items);
    }

    method ListSnapshots(p: nat, space: string) returns (result: Result<map<Name, Object>>)
      requires Valid()
      modifies this
      ensures Onward() && Quiet(foreign, old(world), world)
      ensures result.Ok? ==>
        && (forall n :: n in result.value <==> Key(p, Snapshot(space, n)) in world.store)
        && (forall n :: n in result.value ==> result.value[n] == world.store[Key(p, Snapshot(space, n))])
        && |world.log| > |old(world).log| && world.log[|world.log|-1] == Snapshots(p, space, SnapshotOwners(world, p, space))
      ensures result.Err? ==> faulty
      ensures !foreign ==> world.store == old(world).store
    {
      hide Inv, Calm, Aged, RunTo, Lawful;
      Interfere();
      var fault := Fault();
      if fault { return Err(ReadFailed); }
      ghost var mid := world;
      Note(Snapshots(p, space, SnapshotOwners(world, p, space)));
      QuietTransitive(foreign, old(world), mid, world);
      var items := map k | k in world.store && k.plane == p && k.kind.Snapshot? && k.kind.space == space
        :: k.kind.name := world.store[k];
      return Ok(items);
    }
  }
}
