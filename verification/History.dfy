/** What every history and every interleaving keeps: consequences of the protocol that no single
    step shows. */
module History {
  import opened Wrappers
  import opened Receipts
  import opened Kubernetes
  import opened Protocol
  import opened ProtocolLemmas
  import opened Steps

  // ---- from events back to steps ----

  /** The step that records e at w. */
  ghost predicate Performs(w: World, s: Step, e: Event) {
    match s
    case Foreign => false
    case Read(seen) => e == seen
    case Write(m, text, origin) => e == Wrote(m, ReceiptText(w, m), text, origin)
    case Delete(k, uid, checked, m, r) => e == Deleted(k, uid, checked, m, r)
  }

  /** Every recorded event was performed by a step of the run, in order. */
  lemma {:induction false} EventHappened(worlds: seq<World>, steps: seq<Step>, j: nat, n: nat) returns (i: nat)
    requires Trace(worlds, steps) && Initial(worlds[0]) && j < |worlds| && n < |worlds[j].log|
    ensures i < j && |worlds[i].log| == n && Performs(worlds[i], steps[i], worlds[j].log[n])
  {
    var w, v, s := worlds[j-1], worlds[j], steps[j-1];
    assert StepOk(w, v, s);
    if n < |w.log| {
      i := EventHappened(worlds, steps, j - 1, n);
      assert v.log[n] == w.log[n];
    } else {
      i := j - 1;
    }
  }

  // ---- UID safety ----

  /** A durable record names this very object as its own. */
  ghost predicate Named(log: seq<Event>, k: Key, uid: Uid) {
    exists m, r :: Recorded(log, |log|, m, r) && Names(m, r, k, uid)
  }

  predicate Names(m: nat, r: Record, k: Key, uid: Uid) {
    match k.kind
    case Cluster => k.plane == m && uid == r.cluster
    case Namespace => (k.plane == m && uid == r.space) || (k.plane == Provider(m, r) && uid == ProviderSpace(r))
    case Volume(name) =>
      k.plane == Provider(m, r) && name in r.volumes && (r.planes.Some? ==> name in r.storage && uid == r.storage[name].volume)
    case Longhorn(name) =>
      k.plane == Provider(m, r) && name in r.volumes && (r.planes.Some? ==> name in r.storage && Some(uid) == r.storage[name].longhorn)
    case _ => false
  }

  /** Kinds that are deleted by identity. */
  predicate Identified(k: Key) {
    k.kind.Cluster? || k.kind.Namespace? || k.kind.Volume? || k.kind.Longhorn?
  }

  /** Whatever a step of the tool removes is an object that a record named before, or a part of a
      namespace that was. */
  lemma UidSafety(worlds: seq<World>, steps: seq<Step>, i: nat, k: Key)
    requires Trace(worlds, steps) && Initial(worlds[0]) && i < |steps| && !steps[i].Foreign?
    requires Identified(k) || Namespaced(k)
    requires k in worlds[i].store && k !in worlds[i+1].store
    ensures exists target ::
      && target in worlds[i].store && Takes(target, k)
      && Named(worlds[i].log, target, worlds[i].store[target].uid)
  {
    var w, v := worlds[i], worlds[i+1];
    assert StepOk(w, v, steps[i]);
    match steps[i]
    case Delete(target, uid, checked, m, r) =>
      assert Takes(target, k);
      RefreshedIsRecorded(w.log, |w.log|, m, r);
      assert Names(m, r, target, uid);
    case _ =>
  }

  // ---- everything that goes, between any two worlds ----

  /** Some step from a on took this object: another actor's, or one that hangs on a recorded UID or name. */
  ghost predicate Departed(worlds: seq<World>, steps: seq<Step>, a: nat, b: nat, k: Key, uid: Uid)
    requires a <= b < |worlds| == |steps| + 1
  {
    exists i :: a <= i < b && Holds(worlds[i], k, uid) && !Holds(worlds[i+1], k, uid)
                && (steps[i].Foreign? || TargetNamed(worlds[i], k))
  }

  ghost predicate TargetNamed(w: World, k: Key) {
    exists target :: target in w.store && Takes(target, k) && Named(w.log, target, w.store[target].uid)
  }

  /** Every Cluster, namespace, volume or namespace content of world a that world b lacks departed in that way. */
  ghost predicate Accounted(worlds: seq<World>, steps: seq<Step>, a: nat, b: nat)
    requires a <= b < |worlds| == |steps| + 1
  {
    forall k, uid :: (Identified(k) || Namespaced(k)) && Holds(worlds[a], k, uid) && !Holds(worlds[b], k, uid) ==>
      Departed(worlds, steps, a, b, k, uid)
  }

  lemma {:induction false} FirstLoss(worlds: seq<World>, a: nat, b: nat, k: Key, uid: Uid) returns (i: nat)
    requires a <= b < |worlds| && Holds(worlds[a], k, uid) && !Holds(worlds[b], k, uid)
    ensures a <= i < b && Holds(worlds[i], k, uid) && !Holds(worlds[i+1], k, uid)
    decreases b - a
  {
    if Holds(worlds[a+1], k, uid) { i := FirstLoss(worlds, a + 1, b, k, uid); } else { i := a; }
  }

  /** The tool replaces nothing but receipts: what it takes leaves its place empty. */
  lemma ToolOnlyRemoves(w: World, v: World, s: Step, k: Key, uid: Uid)
    requires StepOk(w, v, s) && !s.Foreign? && !IsReceipt(k) && Holds(w, k, uid) && !Holds(v, k, uid)
    ensures k !in v.store
  {
  }

  lemma RemovalsAccounted(worlds: seq<World>, steps: seq<Step>, a: nat, b: nat)
    requires Trace(worlds, steps) && Initial(worlds[0]) && a <= b < |worlds|
    ensures Accounted(worlds, steps, a, b)
  {
    hide Initial, Named;
    forall k, uid | (Identified(k) || Namespaced(k)) && Holds(worlds[a], k, uid) && !Holds(worlds[b], k, uid)
      ensures Departed(worlds, steps, a, b, k, uid)
    {
      var i := FirstLoss(worlds, a, b, k, uid);
      if !steps[i].Foreign? {
        assert StepOk(worlds[i], worlds[i+1], steps[i]);
        ToolOnlyRemoves(worlds[i], worlds[i+1], steps[i], k, uid);
        UidSafety(worlds, steps, i, k);
        assert TargetNamed(worlds[i], k);
      }
    }
  }

  /** Every run that has come to a world accounts for what it removed since an earlier one. */
  lemma RunAccounts(earlier: seq<World>, worlds: seq<World>, steps: seq<Step>, w: World)
    requires RunTo(worlds, steps, w) && 0 < |earlier| && earlier <= worlds
    ensures Accounted(worlds, steps, |earlier| - 1, |steps|)
  {
    RemovalsAccounted(worlds, steps, |earlier| - 1, |steps|);
  }

  // ---- reads of the run ----

  /** A read that found `uid` happened at a world of the run that held it. */
  lemma ReadHappened(worlds: seq<World>, steps: seq<Step>, j: nat, from: nat, n: nat, k: Key, uid: Uid) returns (i: nat)
    requires Trace(worlds, steps) && Initial(worlds[0]) && j < |worlds| && n <= |worlds[j].log|
    requires ReadAs(worlds[j].log, from, n, k, uid)
    ensures i < j && from <= |worlds[i].log| < n && Holds(worlds[i], k, uid) && steps[i] == Read(Present(k, uid))
  {
    hide Initial;
    var x :| from <= x < n && worlds[j].log[x] == Present(k, uid);
    i := EventHappened(worlds, steps, j, x);
    assert StepOk(worlds[i], worlds[i+1], steps[i]);
  }

  /** What a look found was so at a world of the run, since the history had `from` events. */
  lemma LookHappened(worlds: seq<World>, steps: seq<Step>, j: nat, from: nat, k: Key, uid: Uid) returns (i: nat)
    requires Trace(worlds, steps) && Initial(worlds[0]) && j < |worlds|
    requires Looked(worlds[j].log, from, |worlds[j].log|, k, uid)
    ensures i < j && from <= |worlds[i].log| && (Holds(worlds[i], k, uid) || k !in worlds[i].store)
  {
    hide Initial;
    var log := worlds[j].log;
    if ReadAs(log, from, |log|, k, uid) {
      i := ReadHappened(worlds, steps, j, from, |log|, k, uid);
    } else {
      var x :| from <= x < |log| && log[x].Absent? && log[x].key == k;
      i := EventHappened(worlds, steps, j, x);
      assert StepOk(worlds[i], worlds[i+1], steps[i]);
    }
  }

  /** UIDs are never reused: an object there before and after was there all along. */
  lemma HeldBetween(worlds: seq<World>, steps: seq<Step>, h: nat, c: nat, l: nat, k: Key, uid: Uid)
    requires Trace(worlds, steps) && Initial(worlds[0]) && h <= c <= l < |worlds|
    requires Holds(worlds[h], k, uid) && Holds(worlds[l], k, uid)
    ensures Holds(worlds[c], k, uid)
  {
    hide Trace, Initial;
    TraceMoves(worlds, steps, h, c);
    TraceMoves(worlds, steps, c, l);
  }

  lemma RefreshedIsRecorded(log: seq<Event>, n: nat, m: nat, r: Record)
    requires n <= |log|
    ensures forall o :: RecordedAs(log, n, m, r, o) ==> Recorded(log, n, m, r)
  {
  }

  /** The tool never removes or alters a Golden claim, the ledger namespace or kube-system. */
  lemma ToolKeepsShared(w: World, v: World, s: Step, k: Key)
    requires StepOk(w, v, s) && !s.Foreign?
    requires k.kind.GoldenClaim? || k.kind.LedgerSpace? || k.kind.SystemSpace?
    ensures SameAt(w, v, k)
  {
  }

  // ---- ordering ----

  /** The refreshed inventory was written after the Cluster was seen gone. */
  lemma RefreshAfterCluster(log: seq<Event>, n: nat, m: nat, r: Record)
    requires LogOk(log) && n <= |log| && RecordedAs(log, n, m, r, Refreshed)
    ensures Inventoried(log, n, m, r, true) && SeenGone(log, n, Key(m, Cluster), r.cluster)
  {
    var i :| 0 <= i < n && log[i].Wrote? && log[i].plane == m && log[i].text.parsed == Some(r) && log[i].origin == Refreshed;
    assert Justified(log, i, log[i]);
    InventoriedStays(log, i, log, n, m, r, true);
    var a, b :| 0 <= a < b < n && log[a].Clones? && log[a].plane == Provider(m, r) && log[a].uids <= r.dataVolumes
      && CoveredAt(log, b, n, Provider(m, r), r.volumes) && SeenGone(log, a, Key(m, Cluster), r.cluster);
    SeenGoneStays(log, a, log, n, Key(m, Cluster), r.cluster);
  }

  /** Before any namespace goes, the Cluster of that record was seen gone; the management namespace
      of a split record waits for the provider one; storage, grants and snapshots wait for all. */
  lemma DeletionOrder(log: seq<Event>, n: nat)
    requires LogOk(log) && n < |log| && log[n].Deleted?
    ensures var k, m, r := log[n].key, log[n].owner, log[n].record;
      && (k.kind.Namespace? ==> SeenGone(log, n, Key(m, Cluster), r.cluster))
      && (k.kind.Namespace? && k != Key(Provider(m, r), Namespace) ==>
            SeenGone(log, n, Key(Provider(m, r), Namespace), ProviderSpace(r)))
      && (k.kind.Namespace? && k == Key(Provider(m, r), Namespace) && log[n].uid == ProviderSpace(r)
          && (r.planes.Some? ==> r.planes.value.provider != m) ==>
            RecordedAs(log, n, m, r, Refreshed) && Inventoried(log, n, m, r, true))
      && (k.kind.Volume? || k.kind.Longhorn? || k.kind.Role? || k.kind.RoleBinding? || k.kind.Snapshot? ==>
            Cleared(log, n, m, r) && Recorded(log, n, m, r))
  {
    var k, m, r := log[n].key, log[n].owner, log[n].record;
    assert Justified(log, n, log[n]);
    if k.kind.Namespace? && RecordedAs(log, n, m, r, Refreshed) { RefreshAfterCluster(log, n, m, r); }
  }

  /** Seen gone at some point of a run means gone in every later world of it. */
  lemma GoneEverAfter(worlds: seq<World>, steps: seq<Step>, i: nat, j: nat, k: Key, uid: Uid)
    requires Trace(worlds, steps) && Initial(worlds[0]) && i <= j < |worlds|
    requires SeenGone(worlds[i].log, |worlds[i].log|, k, uid)
    ensures Gone(worlds[j], k, uid)
  {
    TraceMoves(worlds, steps, i, j);
    SeenGoneIsGone(worlds[i], k, uid);
    GoneForGood(worlds[i], worlds[j], k, uid);
  }

  /** Whoever deletes a namespace, in every later world the Cluster of its record is gone. */
  lemma NamespaceAfterCluster(worlds: seq<World>, steps: seq<Step>, i: nat, j: nat)
    requires Trace(worlds, steps) && Initial(worlds[0]) && i < |steps| && i <= j < |worlds|
    requires steps[i].Delete? && steps[i].k.kind.Namespace?
    ensures Gone(worlds[j], Key(steps[i].m, Cluster), steps[i].r.cluster)
  {
    var w, r, m := worlds[i], steps[i].r, steps[i].m;
    TraceMoves(worlds, steps, i, i);
    assert StepOk(w, worlds[i+1], steps[i]);
    if RecordedAs(w.log, |w.log|, m, r, Refreshed) { RefreshAfterCluster(w.log, |w.log|, m, r); }
    GoneEverAfter(worlds, steps, i, j, Key(m, Cluster), r.cluster);
  }

  // ---- ledger history ----

  function RecordOf(text: Option<Text>): Option<Record> {
    if text.Some? then text.value.parsed else None
  }

  /** The record in force on plane m after n events. */
  ghost function RecordAt(log: seq<Event>, n: nat, m: nat): Option<Record>
    requires n <= |log|
  {
    RecordOf(LastText(log, n, m))
  }

  /** Event n ends the generation recorded on plane m: a new one supersedes it, or it is pruned. */
  ghost predicate Exits(log: seq<Event>, n: nat, m: nat)
    requires n < |log|
  {
    || (log[n].Wrote? && log[n].plane == m && log[n].origin == Begun && log[n].before.Some?)
    || (log[n].Deleted? && log[n].key == Key(m, Receipt))
  }

  /** Every receipt in force is a valid record. */
  lemma {:induction false} RecordInForce(log: seq<Event>, n: nat, m: nat)
    requires LogOk(log) && n <= |log| && LastText(log, n, m).Some?
    ensures Readable(LastText(log, n, m).value)
  {
    assert Justified(log, n - 1, log[n-1]);
    if log[n-1].Wrote? && log[n-1].plane == m {
    } else {
      RecordInForce(log, n - 1, m);
    }
  }

  lemma ExtendsReflexive(r: Record)
    ensures Extends(r, r)
  {
  }

  lemma ExtendsTransitive(a: Record, b: Record, c: Record)
    requires Extends(a, b) && Extends(b, c)
    ensures Extends(a, c)
  {
  }

  /** One event that stays in the generation extends the record in force. */
  lemma EventExtends(log: seq<Event>, n: nat, m: nat)
    requires LogOk(log) && n < |log| && RecordAt(log, n, m).Some?
    requires !Exits(log, n, m)
    ensures RecordAt(log, n + 1, m).Some? && Extends(RecordAt(log, n, m).value, RecordAt(log, n + 1, m).value)
  {
    assert Justified(log, n, log[n]);
  }

  /** Between any two points of any history the record in force was only extended, unless the
      generation was left in between. */
  lemma {:induction false} LedgerHistory(log: seq<Event>, a: nat, b: nat, m: nat)
    requires LogOk(log) && a <= b <= |log| && RecordAt(log, a, m).Some?
    requires forall n :: a <= n < b ==> !Exits(log, n, m)
    ensures RecordAt(log, b, m).Some? && Extends(RecordAt(log, a, m).value, RecordAt(log, b, m).value)
  {
    hide Exits, LogOk, LastText, Extends;
    ExtendsReflexive(RecordAt(log, a, m).value);
    if a < b {
      LedgerHistory(log, a, b - 1, m);
      EventExtends(log, b - 1, m);
      ExtendsTransitive(RecordAt(log, a, m).value, RecordAt(log, b - 1, m).value, RecordAt(log, b, m).value);
    }
  }

  /** The only way out of a generation is from its completed single-plane record. */
  lemma ExitIsCompleted(log: seq<Event>, n: nat, m: nat)
    requires LogOk(log) && n < |log|
    ensures Exits(log, n, m) ==>
      RecordAt(log, n, m).Some? && RecordAt(log, n, m).value.complete && RecordAt(log, n, m).value.planes.None?
  {
    assert Justified(log, n, log[n]);
  }

  lemma SplitStays(a: Record, b: Record)
    requires Extends(a, b)
    ensures a.planes == b.planes
  {
  }

  /** Split-plane records are never left: whatever happens later extends them. */
  lemma {:induction false} SplitRecordsStay(log: seq<Event>, a: nat, b: nat, m: nat)
    requires LogOk(log) && a <= b <= |log| && RecordAt(log, a, m).Some? && RecordAt(log, a, m).value.planes.Some?
    ensures RecordAt(log, b, m).Some? && Extends(RecordAt(log, a, m).value, RecordAt(log, b, m).value)
  {
    hide Exits, LogOk, LastText, Extends;
    ExtendsReflexive(RecordAt(log, a, m).value);
    if a < b {
      SplitRecordsStay(log, a, b - 1, m);
      SplitStays(RecordAt(log, a, m).value, RecordAt(log, b - 1, m).value);
      ExitIsCompleted(log, b - 1, m);
      EventExtends(log, b - 1, m);
      ExtendsTransitive(RecordAt(log, a, m).value, RecordAt(log, b - 1, m).value, RecordAt(log, b, m).value);
    }
  }

  /** The receipt every reachable world holds is the record its history puts in force, so of any two
      worlds of a run the later receipt extends the earlier one unless the generation was left. */
  lemma ReceiptsExtend(worlds: seq<World>, steps: seq<Step>, i: nat, j: nat, m: nat)
    requires Trace(worlds, steps) && Initial(worlds[0]) && i <= j < |worlds|
    requires RecordOf(ReceiptText(worlds[i], m)).Some?
    ensures
      || (RecordOf(ReceiptText(worlds[j], m)).Some?
          && Extends(RecordOf(ReceiptText(worlds[i], m)).value, RecordOf(ReceiptText(worlds[j], m)).value))
      || exists n: nat :: |worlds[i].log| <= n < |worlds[j].log| && Exits(worlds[j].log, n, m)
  {
    var w, v := worlds[i], worlds[j];
    TraceMoves(worlds, steps, i, j);
    TraceMoves(worlds, steps, j, j);
    LastTextStays(w.log, v.log, |w.log|, m);
    assert ReceiptText(w, m) == LastText(w.log, |w.log|, m) && ReceiptText(v, m) == LastText(v.log, |v.log|, m);
    if forall n :: |w.log| <= n < |v.log| ==> !Exits(v.log, n, m) {
      LedgerHistory(v.log, |w.log|, |v.log|, m);
    }
  }

  // ---- completion ----

  /** Read absent at a world in which the whole generation was already gone. */
  ghost predicate AbsentAfterAll(worlds: seq<World>, j: nat, m: nat, r: Record, k: Key)
    requires j <= |worlds|
  {
    exists i :: 0 <= i < j && k !in worlds[i].store && GenerationGone(worlds[i], m, r)
  }

  ghost predicate GenerationGone(w: World, m: nat, r: Record) {
    && Gone(w, Key(m, Cluster), r.cluster)
    && Gone(w, Key(m, Namespace), r.space)
    && Gone(w, Key(Provider(m, r), Namespace), ProviderSpace(r))
  }

  lemma ClearedIsGone(worlds: seq<World>, steps: seq<Step>, i: nat, j: nat, m: nat, r: Record)
    requires Trace(worlds, steps) && Initial(worlds[0]) && i <= j < |worlds|
    requires Cleared(worlds[i].log, |worlds[i].log|, m, r)
    ensures GenerationGone(worlds[j], m, r)
  {
    GoneEverAfter(worlds, steps, i, j, Key(m, Cluster), r.cluster);
    GoneEverAfter(worlds, steps, i, j, Key(m, Namespace), r.space);
    GoneEverAfter(worlds, steps, i, j, Key(Provider(m, r), Namespace), ProviderSpace(r));
  }

  /** A read recorded after the record was cleared happened in a world without its generation. */
  lemma ReadAfterCleared(worlds: seq<World>, steps: seq<Step>, j: nat, n: nat, m: nat, r: Record) returns (i: nat)
    requires Trace(worlds, steps) && Initial(worlds[0]) && j < |worlds| && n < |worlds[j].log|
    requires Cleared(worlds[j].log, n, m, r)
    ensures i < j && Performs(worlds[i], steps[i], worlds[j].log[n]) && StepOk(worlds[i], worlds[i+1], steps[i])
    ensures GenerationGone(worlds[i], m, r)
  {
    i := EventHappened(worlds, steps, j, n);
    TraceMoves(worlds, steps, i, j);
    PrefixCleared(worlds[i].log, worlds[j].log, m, r);
    ClearedIsGone(worlds, steps, i, i, m, r);
  }

  lemma PrefixCleared(log: seq<Event>, more: seq<Event>, m: nat, r: Record)
    requires Prefix(log, more) && Cleared(more, |log|, m, r)
    ensures Cleared(log, |log|, m, r)
  {
    PrefixSeen(log, more, Key(m, Cluster), r.cluster);
    PrefixSeen(log, more, Key(Provider(m, r), Namespace), ProviderSpace(r));
    PrefixSeen(log, more, Key(m, Namespace), r.space);
  }

  lemma PrefixSeen(log: seq<Event>, more: seq<Event>, k: Key, uid: Uid)
    requires Prefix(log, more) && SeenGone(more, |log|, k, uid)
    ensures SeenGone(log, |log|, k, uid)
  {
    var i :| 0 <= i < |log| && more[i].Absent? && more[i].key == k && uid < more[i].below;
    assert log[i] == more[i];
  }

  lemma SweptWasAbsent(worlds: seq<World>, steps: seq<Step>, j: nat, m: nat, r: Record, k: Key)
    requires Trace(worlds, steps) && Initial(worlds[0]) && j < |worlds|
    requires SweptAt(worlds[j].log, |worlds[j].log|, m, r, k)
    ensures AbsentAfterAll(worlds, j, m, r, k)
  {
    var log := worlds[j].log;
    var n :| 0 <= n < |log| && log[n].Absent? && log[n].key == k && Cleared(log, n, m, r);
    var i := ReadAfterCleared(worlds, steps, j, n, m, r);
    assert k !in worlds[i].store;
  }

  /** No snapshot of the record's DataVolumes was left in the Golden namespace. */
  ghost predicate SnapshotsAbsent(worlds: seq<World>, j: nat, m: nat, r: Record, space: string)
    requires j <= |worlds|
  {
    exists i :: 0 <= i < j && SnapshotOwners(worlds[i], Provider(m, r), space) !! r.dataVolumes && GenerationGone(worlds[i], m, r)
  }

  /** The Golden claim was the recorded one, unchanged and healthy. */
  ghost predicate GoldenIntact(worlds: seq<World>, j: nat, m: nat, r: Record, id: GoldenId, evidence: Evidence)
    requires j <= |worlds|
  {
    exists i :: 0 <= i < j && GenerationGone(worlds[i], m, r)
                && Truthful(worlds[i], SawImage(Provider(m, r), id, evidence))
  }

  lemma GoldenSweptMeans(worlds: seq<World>, steps: seq<Step>, j: nat, m: nat, r: Record)
    requires Trace(worlds, steps) && Initial(worlds[0]) && j < |worlds| && r.config.golden.Some?
    requires GoldenSwept(worlds[j].log, |worlds[j].log|, m, r)
    ensures var id := r.config.golden.value;
      && r.evidence.Some?
      && AbsentAfterAll(worlds, j, m, r, Key(Provider(m, r), Role(id.space)))
      && AbsentAfterAll(worlds, j, m, r, Key(Provider(m, r), RoleBinding(id.space)))
      && (r.dataVolumes != {} ==> SnapshotsAbsent(worlds, j, m, r, id.space))
      && GoldenIntact(worlds, j, m, r, id, r.evidence.value)
  {
    assert |worlds| == |steps| + 1;
    hide Cleared, Trace, Initial, GenerationGone, StepOk, SweptAt;
    var log, id := worlds[j].log, r.config.golden.value;
    SweptWasAbsent(worlds, steps, j, m, r, Key(Provider(m, r), Role(id.space)));
    SweptWasAbsent(worlds, steps, j, m, r, Key(Provider(m, r), RoleBinding(id.space)));
    if r.dataVolumes != {} {
      var n :| 0 <= n < |log| && log[n].Snapshots? && log[n].plane == Provider(m, r) && log[n].space == id.space
               && log[n].owners !! r.dataVolumes && Cleared(log, n, m, r);
      var i := ReadAfterCleared(worlds, steps, j, n, m, r);
      ReadIsTruthful(worlds[i], worlds[i+1], steps[i], log[n]);
    }
    var n :| 0 <= n < |log| && log[n] == SawImage(Provider(m, r), id, r.evidence.value) && Cleared(log, n, m, r);
    var i := ReadAfterCleared(worlds, steps, j, n, m, r);
    ReadIsTruthful(worlds[i], worlds[i+1], steps[i], log[n]);
  }

  lemma ReadIsTruthful(w: World, v: World, s: Step, e: Event)
    requires StepOk(w, v, s) && Performs(w, s, e) && !e.Wrote? && !e.Deleted?
    ensures Truthful(w, e)
  {
  }

  /** What completing r at world i is worth at the later world j: every identity of the record is gone,
      every recorded volume was read absent once all of them were (its Longhorn volume too for split
      planes), and for a Golden configuration the grants and snapshots were read absent and the Golden
      claim was read unchanged at that point. */
  ghost predicate Attested(worlds: seq<World>, i: nat, j: nat, m: nat, r: Record)
    requires i <= j < |worlds|
  {
    && GenerationGone(worlds[j], m, r)
    && (forall n :: n in r.volumes ==>
          && AbsentAfterAll(worlds, i, m, r, Key(Provider(m, r), Volume(n)))
          && (r.planes.Some? ==> AbsentAfterAll(worlds, i, m, r, Key(Provider(m, r), Longhorn(n)))))
    && (r.config.golden.Some? ==> var id := r.config.golden.value;
          && r.evidence.Some?
          && AbsentAfterAll(worlds, i, m, r, Key(Provider(m, r), Role(id.space)))
          && AbsentAfterAll(worlds, i, m, r, Key(Provider(m, r), RoleBinding(id.space)))
          && (r.dataVolumes != {} ==> SnapshotsAbsent(worlds, i, m, r, id.space))
          && GoldenIntact(worlds, i, m, r, id, r.evidence.value))
  }

  /** Whenever completion is written, all of this holds, in every later world of the run. */
  lemma CompletionSound(worlds: seq<World>, steps: seq<Step>, i: nat, j: nat)
    requires Trace(worlds, steps) && Initial(worlds[0]) && i < |steps| && i <= j < |worlds|
    requires steps[i].Write? && steps[i].origin == Completed
    ensures steps[i].text.parsed.Some? && steps[i].text.parsed.value.complete
    ensures Attested(worlds, i, j, steps[i].m, steps[i].text.parsed.value)
  {
    hide Cleared, SweptAt, GenerationGone, AbsentAfterAll, GoldenSwept;
    var w, m := worlds[i], steps[i].m;
    assert StepOk(w, worlds[i+1], steps[i]);
    var r := steps[i].text.parsed.value;
    ClearedIsGone(worlds, steps, i, j, m, r);
    forall n | n in r.volumes
      ensures AbsentAfterAll(worlds, i, m, r, Key(Provider(m, r), Volume(n)))
      ensures r.planes.Some? ==> AbsentAfterAll(worlds, i, m, r, Key(Provider(m, r), Longhorn(n)))
    {
      SweptWasAbsent(worlds, steps, i, m, r, Key(Provider(m, r), Volume(n)));
      if r.planes.Some? { SweptWasAbsent(worlds, steps, i, m, r, Key(Provider(m, r), Longhorn(n))); }
    }
    if r.config.golden.Some? { GoldenSweptMeans(worlds, steps, i, m, r); }
  }

  /** Before world j some step of the run completed the record, with all that this means up to j. */
  ghost predicate TornDown(worlds: seq<World>, j: nat, m: nat, r: Record)
    requires j < |worlds|
  {
    exists i :: 0 <= i < j && Attested(worlds, i, j, m, r)
  }

  lemma WrittenByWrite(w: World, v: World, s: Step, e: Event)
    requires StepOk(w, v, s) && Performs(w, s, e) && e.Wrote?
    ensures s.Write? && s.m == e.plane && s.text == e.text && s.origin == e.origin
  {
  }

  lemma RecordedCompletion(worlds: seq<World>, steps: seq<Step>, w: World, m: nat, r: Record)
    requires RunTo(worlds, steps, w) && RecordedAs(w.log, |w.log|, m, r, Completed)
    ensures TornDown(worlds, |steps|, m, r)
  {
    hide Initial, Attested;
    var n :| 0 <= n < |w.log| && w.log[n].Wrote? && w.log[n].plane == m && w.log[n].text.parsed == Some(r)
             && w.log[n].origin == Completed;
    var i := EventHappened(worlds, steps, |steps|, n);
    WrittenByWrite(worlds[i], worlds[i+1], steps[i], w.log[n]);
    CompletionSound(worlds, steps, i, |steps|);
  }

  /** A complete record was completed by this tool, or came with a migrated receipt. */
  lemma CompleteOrigin(log: seq<Event>, m: nat, r: Record)
    requires LogOk(log) && Recorded(log, |log|, m, r) && r.complete
    ensures RecordedAs(log, |log|, m, r, Completed) || RecordedAs(log, |log|, m, r, Migrated)
  {
    var n :| 0 <= n < |log| && log[n].Wrote? && log[n].plane == m && log[n].text.parsed == Some(r);
    assert Justified(log, n, log[n]);
  }

  // ---- retained volumes ----

  /** The volume was found with a reclaim policy other than Retain at one of these worlds. */
  ghost predicate Reclaimed(worlds: seq<World>, b: nat, j: nat, p: nat, n: Name)
    requires j <= |worlds|
  {
    exists i :: b <= i < j && Key(p, Volume(n)) in worlds[i].store && worlds[i].store[Key(p, Volume(n))].body != Disk(true)
  }

  /** The volume came with a receipt that was migrated to plane m at event y. */
  ghost predicate BroughtAt(log: seq<Event>, y: nat, m: nat, name: Name)
    requires y < |log|
  {
    && log[y].Wrote? && log[y].plane == m && log[y].origin == Migrated
    && log[y].text.parsed.Some? && name in log[y].text.parsed.value.volumes
  }

  ghost predicate Brought(log: seq<Event>, n: nat, m: nat, name: Name)
    requires n <= |log|
  {
    exists y :: 0 <= y < n && BroughtAt(log, y, m, name)
  }

  lemma {:induction false} LastWrite(log: seq<Event>, n: nat, m: nat) returns (y: nat)
    requires n <= |log| && LastText(log, n, m).Some?
    ensures y < n && log[y].Wrote? && log[y].plane == m && log[y].text == LastText(log, n, m).value
  {
    if log[n-1].Wrote? && log[n-1].plane == m { y := n - 1; } else { y := LastWrite(log, n - 1, m); }
  }

  /** Every volume a written record names was read with the policy Retain before that write, or came with
      a migrated receipt. */
  lemma {:induction false} WrittenVolumesRetained(log: seq<Event>, x: nat, m: nat, name: Name)
    requires LogOk(log) && x < |log| && log[x].Wrote? && log[x].plane == m
    requires log[x].text.parsed.Some? && name in log[x].text.parsed.value.volumes
    ensures Retained(log, 0, x, Provider(m, log[x].text.parsed.value), name) || Brought(log, x + 1, m, name)
    decreases x
  {
    hide Inventoried, Cleared, StorageSwept, GoldenSwept, Retained;
    assert Justified(log, x, log[x]);
    var r := log[x].text.parsed.value;
    var p := Provider(m, r);
    match log[x].origin
    case Begun => assert AllRetained(log, x, p, r.volumes);
    case Migrated => assert BroughtAt(log, x, m, name);
    case Refreshed =>
      var before := log[x].before.value.parsed.value;
      assert AllRetained(log, x, p, r.volumes - before.volumes);
      if name in before.volumes { EarlierVolume(log, x, m, name); }
    case Completed => EarlierVolume(log, x, m, name);
  }

  lemma EarlierVolume(log: seq<Event>, x: nat, m: nat, name: Name)
    requires LogOk(log) && x < |log| && LastText(log, x, m).Some? && LastText(log, x, m).value.parsed.Some?
    requires name in LastText(log, x, m).value.parsed.value.volumes
    ensures Retained(log, 0, x, Provider(m, LastText(log, x, m).value.parsed.value), name) || Brought(log, x + 1, m, name)
    decreases x, 0
  {
    hide LogOk, Retained;
    var y := LastWrite(log, x, m);
    WrittenVolumesRetained(log, y, m, name);
    var p := Provider(m, log[y].text.parsed.value);
    if Retained(log, 0, y, p, name) { RetainedStays(log, y, log, x, 0, 0, p, name); }
  }

  /** A volume the tool deletes, or whose Longhorn volume it deletes, had the policy Retain at an earlier
      world of the run, or came with a migrated receipt. */
  lemma DeletedWasRetained(worlds: seq<World>, steps: seq<Step>, i: nat, name: Name)
    requires Trace(worlds, steps) && Initial(worlds[0]) && i < |steps| && steps[i].Delete?
    requires steps[i].k.kind == Volume(name) || steps[i].k.kind == Longhorn(name)
    ensures
      || WasRetained(worlds, i, steps[i].k.plane, name)
      || Brought(worlds[i].log, |worlds[i].log|, steps[i].m, name)
  {
    hide Initial, Cleared, SweptAt, Retained;
    var w, m, r := worlds[i], steps[i].m, steps[i].r;
    TraceMoves(worlds, steps, i, i);
    assert StepOk(w, worlds[i+1], steps[i]);
    assert Recorded(w.log, |w.log|, m, r) && name in r.volumes;
    var x :| 0 <= x < |w.log| && w.log[x].Wrote? && w.log[x].plane == m && w.log[x].text.parsed == Some(r);
    WrittenVolumesRetained(w.log, x, m, name);
    if Retained(w.log, 0, x, Provider(m, r), name) { RetainHappened(worlds, steps, i, x, Provider(m, r), name); }
  }

  ghost predicate WasRetained(worlds: seq<World>, i: nat, p: nat, name: Name)
    requires i <= |worlds|
  {
    exists a :: 0 <= a < i && Key(p, Volume(name)) in worlds[a].store && worlds[a].store[Key(p, Volume(name))].body == Disk(true)
  }

  lemma RetainHappened(worlds: seq<World>, steps: seq<Step>, i: nat, x: nat, p: nat, name: Name)
    requires Trace(worlds, steps) && Initial(worlds[0]) && i < |worlds| && x <= |worlds[i].log|
    requires Retained(worlds[i].log, 0, x, p, name)
    ensures WasRetained(worlds, i, p, name)
  {
    hide Initial;
    var y :| 0 <= y < x && worlds[i].log[y] == SawVolume(p, name, true);
    var a := EventHappened(worlds, steps, i, y);
    assert StepOk(worlds[a], worlds[a+1], steps[a]);
  }

  /** Worlds a and b of the run were surveyed into r after its Cluster was gone; throughout, the
      workload namespace was the recorded one. */
  ghost predicate SurveyedInto(worlds: seq<World>, a: nat, b: nat, j: nat, m: nat, r: Record)
    requires a < b < j <= |worlds|
  {
    var p := Provider(m, r);
    && Gone(worlds[a], Key(m, Cluster), r.cluster)
    && (forall c :: a <= c <= b ==> Holds(worlds[c], Key(p, Namespace), ProviderSpace(r)))
    && CloneUids(worlds[a], p) <= r.dataVolumes
    && forall n :: n in BoundVolumes(worlds[b], p) ==> n in r.volumes || Reclaimed(worlds, b, j, p, n)
  }

  lemma InventoryHappened(worlds: seq<World>, steps: seq<Step>, j: nat, m: nat, r: Record) returns (a: nat, b: nat)
    requires Trace(worlds, steps) && Initial(worlds[0]) && j < |worlds|
    requires Inventoried(worlds[j].log, |worlds[j].log|, m, r, true)
    ensures a < b < j && SurveyedInto(worlds, a, b, j, m, r)
  {
    assert |worlds| == |steps| + 1;
    hide Initial, Truthful, SeenGone, CoveredAt, ReadAs;
    var log, p := worlds[j].log, Provider(m, r);
    var x, y :| 0 <= x < y < |log| && log[x].Clones? && log[x].plane == p && log[x].uids <= r.dataVolumes
      && CoveredAt(log, y, |log|, p, r.volumes) && SeenGone(log, x, Key(m, Cluster), r.cluster)
      && ReadAround(log, 0, x, y, |log|, Key(p, Namespace), ProviderSpace(r));
    a := EventHappened(worlds, steps, j, x);
    b := EventHappened(worlds, steps, j, y);
    EarlierEvent(worlds, steps, a, b, j);
    TraceMoves(worlds, steps, a, j);
    PrefixSeen(worlds[a].log, log, Key(m, Cluster), r.cluster);
    SeenGoneIsGone(worlds[a], Key(m, Cluster), r.cluster);
    assert StepOk(worlds[a], worlds[a+1], steps[a]) && StepOk(worlds[b], worlds[b+1], steps[b]);
    SurveyRead(worlds, steps, a, x, b, y, j, p, r.dataVolumes, r.volumes);
    SpaceHeld(worlds, steps, a, b, j, Key(p, Namespace), ProviderSpace(r));
  }

  /** Read as `uid` before world a and after world b: held in between. */
  lemma SpaceHeld(worlds: seq<World>, steps: seq<Step>, a: nat, b: nat, j: nat, k: Key, uid: Uid)
    requires Trace(worlds, steps) && Initial(worlds[0]) && a < b < j < |worlds|
    requires |worlds[a].log| <= |worlds[j].log| && steps[b].Read? && !steps[b].e.Present?
    requires ReadAround(worlds[j].log, 0, |worlds[a].log|, |worlds[b].log|, |worlds[j].log|, k, uid)
    ensures forall c :: a <= c <= b ==> Holds(worlds[c], k, uid)
  {
    hide Initial, ReadAs;
    var h := ReadHappened(worlds, steps, j, 0, |worlds[a].log|, k, uid);
    var l := ReadHappened(worlds, steps, j, |worlds[b].log|, |worlds[j].log|, k, uid);
    EarlierEvent(worlds, steps, h, a, j);
    EarlierEvent(worlds, steps, b, l, j);
    forall c | a <= c <= b ensures Holds(worlds[c], k, uid) { HeldBetween(worlds, steps, h, c, l, k, uid); }
  }

  lemma SurveyRead(worlds: seq<World>, steps: seq<Step>, a: nat, x: nat, b: nat, y: nat, j: nat,
                   p: nat, uids: set<Uid>, volumes: set<Name>)
    requires Trace(worlds, steps) && Initial(worlds[0]) && a < b < j < |worlds| && x < y < |worlds[j].log|
    requires Performs(worlds[a], steps[a], worlds[j].log[x]) && StepOk(worlds[a], worlds[a+1], steps[a])
    requires Performs(worlds[b], steps[b], worlds[j].log[y]) && StepOk(worlds[b], worlds[b+1], steps[b])
    requires worlds[j].log[x].Clones? && worlds[j].log[x].plane == p && worlds[j].log[x].uids <= uids
    requires |worlds[b].log| == y && CoveredAt(worlds[j].log, y, |worlds[j].log|, p, volumes)
    ensures CloneUids(worlds[a], p) <= uids
    ensures forall n :: n in BoundVolumes(worlds[b], p) ==> n in volumes || Reclaimed(worlds, b, j, p, n)
  {
    hide Initial, Trace;
    var log := worlds[j].log;
    assert Truthful(worlds[a], log[x]) && Truthful(worlds[b], log[y]);
    forall n | n in BoundVolumes(worlds[b], p) && n !in volumes ensures Reclaimed(worlds, b, j, p, n) {
      assert Passing(log, y, |log|, p, n);
      PassingHappened(worlds, steps, b, y, j, p, n);
    }
  }

  lemma PassingHappened(worlds: seq<World>, steps: seq<Step>, b: nat, y: nat, j: nat, p: nat, n: Name)
    requires Trace(worlds, steps) && Initial(worlds[0]) && b < j < |worlds| && |worlds[b].log| == y <= |worlds[j].log|
    requires Passing(worlds[j].log, y, |worlds[j].log|, p, n)
    ensures Reclaimed(worlds, b, j, p, n)
  {
    var log := worlds[j].log;
    var z :| y <= z < |log| && log[z] == SawVolume(p, n, false);
    var i := EventHappened(worlds, steps, j, z);
    EarlierEvent(worlds, steps, b, i, j);
    assert StepOk(worlds[i], worlds[i+1], steps[i]);
  }

  /** Histories only grow along a run. */
  lemma EarlierEvent(worlds: seq<World>, steps: seq<Step>, a: nat, b: nat, j: nat)
    requires Trace(worlds, steps) && Initial(worlds[0]) && a < j < |worlds| && b < j
    ensures |worlds[a].log| < |worlds[b].log| ==> a < b
    ensures |worlds[a].log| <= |worlds[b].log| && steps[b].Read? ==> a <= b
  {
    if b <= a { TraceMoves(worlds, steps, b, a); }
    if b < a {
      TraceMoves(worlds, steps, b + 1, a);
      assert StepOk(worlds[b], worlds[b+1], steps[b]);
    }
  }

  /** A step that deletes the workload namespace of its record. */
  predicate DeletesWorkload(s: Step) {
    && s.Delete? && s.k == Key(Provider(s.m, s.r), Namespace) && s.uid == ProviderSpace(s.r)
    && (s.r.planes.Some? ==> s.r.planes.value.provider != s.m)
  }

  /** Before the workload namespace goes, its inventory was taken after the Cluster was gone and is
      durable: every volume then bound is in the written record or was seen not to be retained. */
  lemma InventoryBeforeNamespace(worlds: seq<World>, steps: seq<Step>, i: nat) returns (a: nat, b: nat)
    requires Trace(worlds, steps) && Initial(worlds[0]) && i < |steps| && DeletesWorkload(steps[i])
    ensures RecordedAs(worlds[i].log, |worlds[i].log|, steps[i].m, steps[i].r, Refreshed)
    ensures a < b < i && SurveyedInto(worlds, a, b, i, steps[i].m, steps[i].r)
  {
    TraceMoves(worlds, steps, i, i);
    assert StepOk(worlds[i], worlds[i+1], steps[i]);
    RefreshAfterCluster(worlds[i].log, |worlds[i].log|, steps[i].m, steps[i].r);
    a, b := InventoryHappened(worlds, steps, i, steps[i].m, steps[i].r);
  }

  /** Event x wrote r, and plane m stays in that generation until the end of the log. */
  ghost predicate InForceSince(log: seq<Event>, x: nat, m: nat, r: Record) {
    && x < |log| && log[x].Wrote? && log[x].plane == m && log[x].text.parsed == Some(r)
    && forall n :: x < n < |log| ==> !Exits(log, n, m)
  }

  /** No retained volume is orphaned: a volume recorded when the workload namespace was deleted is
      read absent, with the whole generation gone, before that generation can be completed. */
  lemma RetainedVolumesEnd(worlds: seq<World>, steps: seq<Step>, i: nat, x: nat, j: nat, n: Name)
    requires Trace(worlds, steps) && Initial(worlds[0]) && i <= j < |steps| && DeletesWorkload(steps[i])
    requires InForceSince(worlds[j].log, x, steps[i].m, steps[i].r)
    requires steps[j].Write? && steps[j].m == steps[i].m && steps[j].origin == Completed
    requires n in steps[i].r.volumes
    ensures steps[j].text.parsed.Some? && Extends(steps[i].r, steps[j].text.parsed.value)
    ensures AbsentAfterAll(worlds, j, steps[i].m, steps[j].text.parsed.value, Key(Provider(steps[i].m, steps[i].r), Volume(n)))
  {
    var w, m, r := worlds[j], steps[i].m, steps[i].r;
    TraceMoves(worlds, steps, j, j);
    assert StepOk(w, worlds[j+1], steps[j]);
    LedgerHistory(w.log, x + 1, |w.log|, m);
    assert ReceiptText(w, m) == LastText(w.log, |w.log|, m);
    CompletionSound(worlds, steps, j, j);
  }
}
