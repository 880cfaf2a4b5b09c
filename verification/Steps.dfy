/** Every atomic step any actor can take, and the whole-run theorem: each step is a move, so
    every reachable world of every interleaving satisfies the invariant. */
module Steps {
  import opened Wrappers
  import opened Receipts
  import opened Kubernetes
  import opened Protocol
  import opened ProtocolLemmas

  // ---- reads ----

  function CloneUids(w: World, p: nat): set<Uid> {
    set k | k in w.store && k.plane == p && k.kind.DataVolume? :: w.store[k].uid
  }

  function BoundVolumes(w: World, p: nat): set<Name> {
    set k | k in w.store && k.plane == p && k.kind.Claim? && w.store[k].body.Bound? && w.store[k].body.volume.Some?
      :: w.store[k].body.volume.value
  }

  function SnapshotOwners(w: World, p: nat, space: string): set<Uid> {
    set k | k in w.store && k.plane == p && k.kind.Snapshot? && k.kind.space == space
            && w.store[k].body.Snap? && w.store[k].body.owner.Some?
      :: w.store[k].body.owner.value
  }

  /** What a read event claims is true in the world it is read from. */
  ghost predicate Truthful(w: World, e: Event) {
    match e
    case Absent(k, below) => k !in w.store && below == w.nextUid
    case Present(k, uid) => Holds(w, k, uid)
    case Clones(p, uids) => uids == CloneUids(w, p)
    case Claims(p, bound) => bound == BoundVolumes(w, p)
    case SawVolume(p, n, retain) =>
      var k := Key(p, Volume(n)); k in w.store && retain == (w.store[k].body == Disk(true))
    case SawImage(p, id, evidence) =>
      var k := Key(p, GoldenClaim(id.space, id.claim));
      && k in w.store && w.store[k].uid == evidence.uid
      && w.store[k].body == Image(evidence.digest, evidence.identity, true)
      && evidence.digest == id.imageDigest && evidence.identity == id.osIdentity
    case Snapshots(p, space, owners) => owners == SnapshotOwners(w, p, space)
    case ReadBack(m, t) => ReceiptText(w, m) == Some(t)
    case _ => false
  }

  function Observe(w: World, e: Event): World {
    w.(log := w.log + [e])
  }

  // ---- writes ----

  /** Creating or patching the teardown ConfigMap; the server assigns identity and version. */
  function Put(w: World, m: nat, text: Text, origin: Origin): World {
    var k := Key(m, Receipt);
    var uid := if k in w.store then w.store[k].uid else w.nextUid;
    World(w.store[k := Object(uid, w.nextVersion, Ledger(text, true))],
          if k in w.store then w.nextUid else w.nextUid + 1,
          w.nextVersion + 1,
          w.log + [Wrote(m, ReceiptText(w, m), text, origin)])
  }

  /** Keys that may vanish with the deletion of k: a namespace takes its contents along. */
  predicate Takes(k: Key, j: Key) {
    j == k || (k.kind.Namespace? && j.plane == k.plane && Namespaced(j))
  }

  /** An accepted deletion. The object may linger under finalizers; a ConfigMap does not. */
  ghost predicate DeletionEffect(w: World, v: World, k: Key, uid: Uid, checked: Option<Body>, m: nat, r: Record) {
    && v.nextUid == w.nextUid && v.nextVersion == w.nextVersion
    && v.log == w.log + [Deleted(k, uid, checked, m, r)]
    && (forall j :: j in v.store ==> j in w.store && v.store[j] == w.store[j])
    && (forall j :: j in w.store && j !in v.store ==> Takes(k, j))
    && (IsReceipt(k) ==> k !in v.store)
  }

  /** Any other actor: creates, updates, deletes and recreates, but not receipts. */
  ghost predicate ForeignStep(w: World, v: World) {
    && v.log == w.log && Aged(w, v) && Fresh(v)
    && (forall k :: IsReceipt(k) ==> (k in v.store <==> k in w.store))
    && (forall k :: IsReceipt(k) && k in w.store ==> v.store[k] == w.store[k])
  }

  datatype Step =
    | Foreign
    | Read(e: Event)
    | Write(m: nat, text: Text, origin: Origin)
    | Delete(k: Key, uid: Uid, checked: Option<Body>, m: nat, r: Record)

  ghost predicate StepOk(w: World, v: World, s: Step) {
    match s
    case Foreign => ForeignStep(w, v)
    case Read(e) => Truthful(w, e) && v == Observe(w, e)
    case Write(m, text, origin) =>
      && MayWrite(w.log, |w.log|, m, ReceiptText(w, m), text, origin)
      && TextBelow(text, w.nextUid)
      && v == Put(w, m, text, origin)
    case Delete(k, uid, checked, m, r) =>
      && Holds(w, k, uid) && (checked.Some? ==> w.store[k].body == checked.value)
      && MayDelete(w.log, |w.log|, k, uid, checked, m, r)
      && DeletionEffect(w, v, k, uid, checked, m, r)
  }

  // ---- every step is a move ----

  lemma AbsencesStay(w: World, v: World)
    requires AbsencesHold(w) && Aged(w, v)
    requires Prefix(w.log, v.log)
    requires forall i :: |w.log| <= i < |v.log| && v.log[i].Absent? ==>
      v.log[i].below <= v.nextUid && v.log[i].key !in v.store
    ensures AbsencesHold(v)
  {
    forall i | 0 <= i < |v.log| && v.log[i].Absent?
      ensures v.log[i].below <= v.nextUid
      ensures v.log[i].key in v.store ==> v.log[i].below <= v.store[v.log[i].key].uid
    {
      if i < |w.log| { assert w.log[i] == v.log[i]; }
    }
  }

  lemma ReadMoves(foreign: bool, w: World, e: Event)
    requires Inv(w) && Truthful(w, e)
    ensures Moves(foreign, w, Observe(w, e))
    ensures Observe(w, e).log[|w.log|] == e
  {
    var v := Observe(w, e);
    LogOkAppend(w.log, e);
    AbsencesStay(w, v);
    forall m ensures LastText(v.log, |v.log|, m) == ReceiptText(v, m) {
      LastTextStays(w.log, v.log, |w.log|, m);
    }
  }

  lemma ReceiptsAfterPut(w: World, m: nat, text: Text, origin: Origin)
    requires ReceiptsMatch(w) && TextBelow(text, w.nextUid)
    ensures ReceiptsMatch(Put(w, m, text, origin))
  {
    var v := Put(w, m, text, origin);
    assert v.log[|w.log|] == Wrote(m, ReceiptText(w, m), text, origin);
    forall n ensures LastText(v.log, |v.log|, n) == ReceiptText(v, n) {
      LastTextStays(w.log, v.log, |w.log|, n);
    }
  }

  lemma PutAges(w: World, m: nat, text: Text, origin: Origin)
    requires Fresh(w) && 0 < w.nextUid
    ensures var v := Put(w, m, text, origin);
      Fresh(v) && Aged(w, v) && Calm(w, v) && Prefix(w.log, v.log)
  {
  }

  lemma PutMoves(foreign: bool, w: World, m: nat, text: Text, origin: Origin)
    requires Inv(w) && TextBelow(text, w.nextUid)
    requires MayWrite(w.log, |w.log|, m, ReceiptText(w, m), text, origin)
    ensures Moves(foreign, w, Put(w, m, text, origin))
    ensures StepOk(w, Put(w, m, text, origin), Write(m, text, origin))
  {
    assert ReceiptText(w, m) == LastText(w.log, |w.log|, m);
    hide MayWrite, LogOk, ReceiptsMatch, LastText, ReceiptText, Fresh, AbsencesHold, Aged, Calm;
    var v := Put(w, m, text, origin);
    LogOkAppend(w.log, Wrote(m, ReceiptText(w, m), text, origin));
    PutAges(w, m, text, origin);
    AbsencesStay'(w, v);
    ReceiptsAfterPut(w, m, text, origin);
  }

  /** As AbsencesStay, when no absence was observed. */
  lemma AbsencesStay'(w: World, v: World)
    requires AbsencesHold(w) && Aged(w, v) && |v.log| == |w.log| + 1 && Prefix(w.log, v.log)
    requires !v.log[|w.log|].Absent?
    ensures AbsencesHold(v)
  {
    AbsencesStay(w, v);
  }

  lemma ReceiptsAfterDeletion(w: World, v: World, k: Key, uid: Uid, checked: Option<Body>, m: nat, r: Record)
    requires ReceiptsMatch(w) && DeletionEffect(w, v, k, uid, checked, m, r)
    ensures ReceiptsMatch(v)
  {
    hide MayDelete;
    forall n ensures LastText(v.log, |v.log|, n) == ReceiptText(v, n) {
      LastTextStays(w.log, v.log, |w.log|, n);
      assert v.log[|w.log|].Deleted?;
      assert Takes(k, Key(n, Receipt)) ==> k == Key(n, Receipt);
    }
  }

  lemma ChecksReceipt(w: World, k: Key, checked: Option<Body>, uid: Uid, m: nat, r: Record)
    requires ReceiptsMatch(w) && k in w.store && (checked.Some? ==> w.store[k].body == checked.value)
    requires MayDelete(w.log, |w.log|, k, uid, checked, m, r)
    ensures ChecksLast(w.log, |w.log|, k, checked)
  {
    if k.kind.Receipt? { assert ReceiptText(w, k.plane) == LastText(w.log, |w.log|, k.plane); }
  }

  lemma DeletionMoves(foreign: bool, w: World, v: World, k: Key, uid: Uid, checked: Option<Body>, m: nat, r: Record)
    requires Inv(w) && Holds(w, k, uid) && (checked.Some? ==> w.store[k].body == checked.value)
    requires MayDelete(w.log, |w.log|, k, uid, checked, m, r)
    requires DeletionEffect(w, v, k, uid, checked, m, r)
    ensures Moves(foreign, w, v)
  {
    ChecksReceipt(w, k, checked, uid, m, r);
    hide MayDelete, LogOk, ReceiptsMatch, ChecksLast;
    var e := Deleted(k, uid, checked, m, r);
    LogOkAppend(w.log, e);
    AbsencesStay'(w, v);
    ReceiptsAfterDeletion(w, v, k, uid, checked, m, r);
    forall j | j in w.store && j !in v.store ensures Explained(v, |w.log|, j, w.store[j].uid) {
      assert v.log[|w.log|] == e && Takes(k, j);
    }
  }

  /** Effect of an accepted deletion, with or without finalizers that keep the object for now. */
  function Removal(w: World, lingers: bool, k: Key, uid: Uid, checked: Option<Body>, m: nat, r: Record): World {
    var left := if lingers && !IsReceipt(k) then w.store
                else map j | j in w.store && !Takes(k, j) :: w.store[j];
    w.(store := left, log := w.log + [Deleted(k, uid, checked, m, r)])
  }

  lemma RemovalMoves(foreign: bool, lingers: bool, w: World, k: Key, uid: Uid, checked: Option<Body>, m: nat, r: Record)
    requires Inv(w) && Holds(w, k, uid) && (checked.Some? ==> w.store[k].body == checked.value)
    requires MayDelete(w.log, |w.log|, k, uid, checked, m, r)
    ensures Moves(foreign, w, Removal(w, lingers, k, uid, checked, m, r))
    ensures StepOk(w, Removal(w, lingers, k, uid, checked, m, r), Delete(k, uid, checked, m, r))
    ensures forall j :: IsReceipt(j) && j != k ==> SameAt(w, Removal(w, lingers, k, uid, checked, m, r), j)
  {
    hide MayDelete, LogOk, Inv;
    DeletionMoves(foreign, w, Removal(w, lingers, k, uid, checked, m, r), k, uid, checked, m, r);
  }

  lemma ForeignMoves(w: World, v: World)
    requires Inv(w) && ForeignStep(w, v)
    ensures Moves(true, w, v)
  {
    AbsencesStay(w, v);
    forall m ensures ReceiptText(v, m) == ReceiptText(w, m) { assert IsReceipt(Key(m, Receipt)); }
  }

  lemma StepMoves(w: World, v: World, s: Step)
    requires Inv(w) && StepOk(w, v, s)
    ensures Moves(true, w, v)
  {
    match s
    case Foreign => ForeignMoves(w, v);
    case Read(e) => ReadMoves(true, w, e);
    case Write(m, text, origin) => PutMoves(true, w, m, text, origin);
    case Delete(k, uid, checked, m, r) => DeletionMoves(true, w, v, k, uid, checked, m, r);
  }

  // ---- whole runs ----

  /** Worlds of one interleaving of any number of runs, crashed runs and other actors. */
  ghost predicate Trace(worlds: seq<World>, steps: seq<Step>) {
    && |worlds| == |steps| + 1
    && forall i :: 0 <= i < |steps| ==> StepOk(worlds[i], worlds[i+1], steps[i])
  }

  /** Consecutive steps, each with the world it leads to. */
  ghost predicate Walk(w: World, moves: seq<(Step, World)>) {
    forall i :: 0 <= i < |moves| ==> StepOk(Reached(w, moves, i), moves[i].1, moves[i].0)
  }

  /** The world after the first i of them. */
  function Reached(w: World, moves: seq<(Step, World)>, i: nat): World
    requires i <= |moves|
  {
    if i == 0 then w else moves[i-1].1
  }

  lemma WalkStep(w: World, moves: seq<(Step, World)>, i: nat)
    requires Walk(w, moves) && i < |moves|
    ensures StepOk(Reached(w, moves, i), moves[i].1, moves[i].0)
  {
    hide StepOk, Reached;
  }

  /** Before the tool has ever run on these planes. */
  ghost predicate Initial(w: World) {
    && w.log == [] && 0 < w.nextUid && Fresh(w)
    && (forall k :: k in w.store && IsReceipt(k) ==>
          && k.kind == LegacyReceipt
          && w.store[k].body.Ledger? && TextBelow(w.store[k].body.text, w.nextUid))
  }

  /** A run from before the tool was first used has come to w. */
  ghost predicate RunTo(worlds: seq<World>, steps: seq<Step>, w: World) {
    Trace(worlds, steps) && Initial(worlds[0]) && worlds[|steps|] == w
  }

  ghost predicate Reachable(w: World) {
    exists worlds, steps :: RunTo(worlds, steps, w)
  }

  lemma StartOfRun(worlds: seq<World>, steps: seq<Step>, w: World)
    requires RunTo(worlds, steps, w)
    ensures 0 < |worlds| == |steps| + 1
  {
  }

  lemma RunGoesOn(worlds: seq<World>, steps: seq<Step>, w: World, v: World, s: Step)
    requires RunTo(worlds, steps, w) && StepOk(w, v, s)
    ensures RunTo(worlds + [v], steps + [s], v)
  {
    hide Initial, StepOk;
    var ws, ss := worlds + [v], steps + [s];
    forall i | 0 <= i < |ss| ensures StepOk(ws[i], ws[i+1], ss[i]) {
      if i < |steps| { assert ss[i] == steps[i]; }
    }
  }

  lemma ReachableIsSound(w: World)
    requires Reachable(w)
    ensures Inv(w)
  {
    var worlds, steps :| RunTo(worlds, steps, w);
    TraceMoves(worlds, steps, |steps|, |steps|);
  }

  lemma InitialIsSound(w: World)
    requires Initial(w)
    ensures Inv(w)
  {
    forall m ensures ReceiptText(w, m) == None { assert IsReceipt(Key(m, Receipt)); }
  }

  lemma {:induction false} TraceMoves(worlds: seq<World>, steps: seq<Step>, i: nat, j: nat)
    requires Trace(worlds, steps) && Initial(worlds[0]) && i <= j < |worlds|
    ensures Inv(worlds[i]) && Moves(true, worlds[i], worlds[j])
    decreases j, i
  {
    hide Initial, StepOk, Inv, Moves;
    if j == 0 {
      InitialIsSound(worlds[0]);
      MovesReflexive(true, worlds[0]);
    } else if i < j {
      TraceMoves(worlds, steps, i, j - 1);
      TraceMoves(worlds, steps, j - 1, j - 1);
      StepMoves(worlds[j-1], worlds[j], steps[j-1]);
      MovesTransitive(true, worlds[i], worlds[j-1], worlds[j]);
    } else {
      TraceMoves(worlds, steps, j - 1, j - 1);
      StepMoves(worlds[j-1], worlds[j], steps[j-1]);
      MovesSound(true, worlds[j-1], worlds[j]);
      MovesReflexive(true, worlds[j]);
    }
  }
}
