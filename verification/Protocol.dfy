/** What every step of every concurrent run, crash and foreign actor keeps.
    A history is acceptable when each event is justified by the events before it; worlds move
    by a relation that is reflexive, transitive and contains every step. */
module Protocol {
  import opened Wrappers
  import opened Receipts
  import opened Kubernetes

  // ---- facts that a history can carry; all of them only become true, never false ----

  /** By index n an observation has shown that `uid` no longer names the object at `k`. */
  ghost predicate SeenGone(log: seq<Event>, n: nat, k: Key, uid: Uid)
    requires n <= |log|
  {
    exists i :: 0 <= i < n && log[i].Absent? && log[i].key == k && uid < log[i].below
  }

  /** Between `from` and n a read found `uid` at `k`. */
  ghost predicate ReadAs(log: seq<Event>, from: nat, n: nat, k: Key, uid: Uid)
    requires n <= |log|
  {
    exists i :: from <= i < n && log[i] == Present(k, uid)
  }

  /** Between `from` and n a read found `k` absent. */
  ghost predicate ReadNone(log: seq<Event>, from: nat, n: nat, k: Key)
    requires n <= |log|
  {
    exists i :: from <= i < n && log[i].Absent? && log[i].key == k
  }

  /** Between `from` and n a read found `uid` at `k`, or nothing. */
  ghost predicate Looked(log: seq<Event>, from: nat, n: nat, k: Key, uid: Uid)
    requires n <= |log|
  {
    ReadAs(log, from, n, k, uid) || ReadNone(log, from, n, k)
  }

  /** Between `from` and n a deletion at `k` took effect, or `k` was found absent. */
  ghost predicate Attempted(log: seq<Event>, from: nat, n: nat, k: Key)
    requires n <= |log|
  {
    exists i :: from <= i < n && (log[i].Deleted? || log[i].Absent?) && log[i].key == k
  }

  ghost predicate Recorded(log: seq<Event>, n: nat, m: nat, r: Record)
    requires n <= |log|
  {
    exists i :: 0 <= i < n && log[i].Wrote? && log[i].plane == m && log[i].text.parsed == Some(r)
  }

  ghost predicate RecordedAs(log: seq<Event>, n: nat, m: nat, r: Record, origin: Origin)
    requires n <= |log|
  {
    exists i :: 0 <= i < n && log[i].Wrote? && log[i].plane == m && log[i].text.parsed == Some(r)
                && log[i].origin == origin
  }

  /** Some later read found the volume with a reclaim policy other than Retain. */
  ghost predicate Passing(log: seq<Event>, from: nat, n: nat, p: nat, name: Name)
    requires n <= |log|
  {
    exists i :: from <= i < n && log[i] == SawVolume(p, name, false)
  }

  /** Between `from` and n a read found the volume with the reclaim policy Retain. */
  ghost predicate Retained(log: seq<Event>, from: nat, n: nat, p: nat, name: Name)
    requires n <= |log|
  {
    exists i :: from <= i < n && log[i] == SawVolume(p, name, true)
  }

  ghost predicate AllRetained(log: seq<Event>, n: nat, p: nat, names: set<Name>)
    requires n <= |log|
  {
    forall name :: name in names ==> Retained(log, 0, n, p, name)
  }

  /** The claim list at index j is covered: every bound volume is recorded or was seen to be
      reclaimed with its claim. */
  ghost predicate CoveredAt(log: seq<Event>, j: nat, n: nat, p: nat, volumes: set<Name>)
    requires j < n <= |log|
  {
    && log[j].Claims? && log[j].plane == p
    && forall name :: name in log[j].bound ==> name in volumes || Passing(log, j, n, p, name)
  }

  /** `k` was read as `uid` both before event i and after event j. */
  ghost predicate ReadAround(log: seq<Event>, from: nat, i: nat, j: nat, n: nat, k: Key, uid: Uid)
    requires i <= |log| && n <= |log|
  {
    ReadAs(log, from, i, k, uid) && ReadAs(log, j, n, k, uid)
  }

  /** A complete inventory of the workload namespace, taken while it had the recorded UID, is
      contained in `r`; when `drained` it was taken after the Cluster had been seen gone. */
  ghost predicate Inventoried(log: seq<Event>, n: nat, m: nat, r: Record, drained: bool)
    requires n <= |log|
  {
    exists i, j :: 0 <= i < j < n
      && log[i].Clones? && log[i].plane == Provider(m, r) && log[i].uids <= r.dataVolumes
      && CoveredAt(log, j, n, Provider(m, r), r.volumes)
      && ReadAround(log, 0, i, j, n, Key(Provider(m, r), Namespace), ProviderSpace(r))
      && (drained ==> SeenGone(log, i, Key(m, Cluster), r.cluster))
  }

  /** Cluster and every namespace of the record have been seen gone. */
  ghost predicate Cleared(log: seq<Event>, n: nat, m: nat, r: Record)
    requires n <= |log|
  {
    && SeenGone(log, n, Key(m, Cluster), r.cluster)
    && SeenGone(log, n, Key(Provider(m, r), Namespace), ProviderSpace(r))
    && SeenGone(log, n, Key(m, Namespace), r.space)
  }

  /** `k` was observed absent at a time when the record was already cleared. */
  ghost predicate SweptAt(log: seq<Event>, n: nat, m: nat, r: Record, k: Key)
    requires n <= |log|
  {
    exists i :: 0 <= i < n && log[i].Absent? && log[i].key == k && Cleared(log, i, m, r)
  }

  ghost predicate StorageSwept(log: seq<Event>, n: nat, m: nat, r: Record)
    requires n <= |log|
  {
    forall name :: name in r.volumes ==>
      && SweptAt(log, n, m, r, Key(Provider(m, r), Volume(name)))
      && (r.planes.Some? ==> SweptAt(log, n, m, r, Key(Provider(m, r), Longhorn(name))))
  }

  ghost predicate SnapshotsSwept(log: seq<Event>, n: nat, m: nat, r: Record, space: string)
    requires n <= |log|
  {
    r.dataVolumes == {} ||
    exists i :: 0 <= i < n && log[i].Snapshots? && log[i].plane == Provider(m, r) && log[i].space == space
                && log[i].owners !! r.dataVolumes && Cleared(log, i, m, r)
  }

  ghost predicate ImageUnchanged(log: seq<Event>, n: nat, m: nat, r: Record, id: GoldenId, evidence: Evidence)
    requires n <= |log|
  {
    exists i :: 0 <= i < n && log[i] == SawImage(Provider(m, r), id, evidence) && Cleared(log, i, m, r)
  }

  ghost predicate GoldenSwept(log: seq<Event>, n: nat, m: nat, r: Record)
    requires n <= |log|
  {
    r.config.golden.Some? ==>
      var id := r.config.golden.value;
      && r.evidence.Some?
      && SweptAt(log, n, m, r, Key(Provider(m, r), Role(id.space)))
      && SweptAt(log, n, m, r, Key(Provider(m, r), RoleBinding(id.space)))
      && SnapshotsSwept(log, n, m, r, id.space)
      && ImageUnchanged(log, n, m, r, id, r.evidence.value)
  }

  // ---- justification of each event ----

  function ShortIdentity(identity: string): string {
    var bare := if |identity| >= 7 && identity[..7] == "sha256:" then identity[7..] else identity;
    if |bare| <= 12 then bare else bare[..12]
  }

  /** A completed single-plane receipt whose name was reused by another generation. */
  predicate Superseded(before: Record, after: Record) {
    && before.complete && before.planes.None? && after.planes.None?
    && (before.cluster != after.cluster || before.space != after.space)
  }

  ghost predicate MayWrite(log: seq<Event>, n: nat, m: nat, before: Option<Text>, text: Text, origin: Origin)
    requires n <= |log|
  {
    && Readable(text)
    && var r := text.parsed.value;
    match origin
    case Begun =>
      && !r.complete
      && (before.None? || (Readable(before.value) && Superseded(before.value.parsed.value, r)))
      && Inventoried(log, n, m, r, false)
      && AllRetained(log, n, Provider(m, r), r.volumes)
    case Refreshed =>
      && before.Some? && Readable(before.value)
      && !r.complete && !before.value.parsed.value.complete
      && Extends(before.value.parsed.value, r)
      && Inventoried(log, n, m, r, true)
      && AllRetained(log, n, Provider(m, r), r.volumes - before.value.parsed.value.volumes)
    case Completed =>
      && before.Some? && r.complete && before.value.parsed == Some(r.(complete := false))
      && Cleared(log, n, m, r)
      && StorageSwept(log, n, m, r)
      && GoldenSwept(log, n, m, r)
    case Migrated =>
      before.None? || before.value == text
  }

  ghost predicate MayDelete(log: seq<Event>, n: nat, k: Key, uid: Uid, checked: Option<Body>, m: nat, r: Record)
    requires n <= |log|
  {
    var p := Provider(m, r);
    match k.kind
    case Cluster =>
      k.plane == m && uid == r.cluster && Recorded(log, n, m, r)
    case Namespace =>
      || (k.plane == p && uid == ProviderSpace(r) && RecordedAs(log, n, m, r, Refreshed))
      || (k.plane == m && uid == r.space && r.planes.Some? && Recorded(log, n, m, r)
          && SeenGone(log, n, Key(m, Cluster), r.cluster)
          && SeenGone(log, n, Key(p, Namespace), ProviderSpace(r)))
    case Volume(name) =>
      && k.plane == p && name in r.volumes && Recorded(log, n, m, r) && Cleared(log, n, m, r)
      && (r.planes.Some? ==> name in r.storage && uid == r.storage[name].volume)
    case Longhorn(name) =>
      && k.plane == p && name in r.volumes && Recorded(log, n, m, r) && Cleared(log, n, m, r)
      && (r.planes.Some? ==>
            && name in r.storage && Some(uid) == r.storage[name].longhorn
            && SweptAt(log, n, m, r, Key(p, Volume(name))))
    case Role(space) => MayRevoke(log, n, k, space, checked, m, r)
    case RoleBinding(space) => MayRevoke(log, n, k, space, checked, m, r)
    case Snapshot(space, name) =>
      && k.plane == p && r.config.golden.Some? && space == r.config.golden.value.space
      && Recorded(log, n, m, r) && Cleared(log, n, m, r)
      && checked.Some? && checked.value.Snap?
      && checked.value.claim == Some(r.config.golden.value.claim)
      && checked.value.owner.Some? && checked.value.owner.value in r.dataVolumes
    case Receipt =>
      && k.plane == m && r.complete && r.planes.None?
      && checked.Some? && checked.value.Ledger? && checked.value.text.parsed == Some(r)
      && SeenGone(log, n, Key(m, Cluster), r.cluster)
      && SeenGone(log, n, Key(m, Namespace), r.space)
    case LegacyReceipt =>
      && k.plane == m && checked.Some? && checked.value.Ledger?
      && exists i :: 0 <= i < n && log[i] == ReadBack(m, checked.value.text)
    case _ => false
  }

  ghost predicate MayRevoke(log: seq<Event>, n: nat, k: Key, space: string, checked: Option<Body>, m: nat, r: Record)
    requires n <= |log|
  {
    && k.plane == Provider(m, r) && r.config.golden.Some? && space == r.config.golden.value.space
    && Recorded(log, n, m, r) && Cleared(log, n, m, r)
    && checked == Some(Grant(Some(ShortIdentity(r.config.golden.value.osIdentity))))
  }

  /** Receipt of plane m after the first n events. */
  ghost function LastText(log: seq<Event>, n: nat, m: nat): Option<Text>
    requires n <= |log|
  {
    if n == 0 then None
    else if log[n-1].Wrote? && log[n-1].plane == m then Some(log[n-1].text)
    else if log[n-1].Deleted? && log[n-1].key == Key(m, Receipt) then None
    else LastText(log, n - 1, m)
  }

  ghost predicate Justified(log: seq<Event>, n: nat, e: Event)
    requires n <= |log|
  {
    match e
    case Wrote(m, before, text, origin) =>
      before == LastText(log, n, m) && MayWrite(log, n, m, before, text, origin)
    case Deleted(k, uid, checked, m, r) => MayDelete(log, n, k, uid, checked, m, r) && ChecksLast(log, n, k, checked)
    case _ => true
  }

  /** The version precondition of a receipt's deletion pins the text in force. */
  ghost predicate ChecksLast(log: seq<Event>, n: nat, k: Key, checked: Option<Body>)
    requires n <= |log|
  {
    k.kind.Receipt? ==> checked.Some? && checked.value.Ledger? && LastText(log, n, k.plane) == Some(checked.value.text)
  }

  ghost predicate LogOk(log: seq<Event>) {
    forall n :: 0 <= n < |log| ==> Justified(log, n, log[n])
  }

  // ---- state invariant ----

  predicate RecordBelow(r: Record, bound: nat) {
    r.cluster < bound && r.space < bound && ProviderSpace(r) < bound
  }

  predicate TextBelow(t: Text, bound: nat) {
    t.parsed.Some? ==> RecordBelow(t.parsed.value, bound)
  }

  ghost predicate Fresh(w: World) {
    forall k :: k in w.store ==>
      && 0 < w.store[k].uid < w.nextUid && w.store[k].version < w.nextVersion
      && (k.kind.SystemSpace? ==> w.store[k].uid == k.plane)
  }

  /** An observation of absence stays true: later objects under that key carry later UIDs. */
  ghost predicate AbsencesHold(w: World) {
    forall i :: 0 <= i < |w.log| && w.log[i].Absent? ==>
      w.log[i].below <= w.nextUid
      && (w.log[i].key in w.store ==> w.log[i].below <= w.store[w.log[i].key].uid)
  }

  ghost predicate ReceiptsMatch(w: World) {
    && (forall m :: ReceiptText(w, m) == LastText(w.log, |w.log|, m))
    && (forall k :: k in w.store && IsReceipt(k) ==>
          w.store[k].body.Ledger? && TextBelow(w.store[k].body.text, w.nextUid))
    && (forall i :: 0 <= i < |w.log| && w.log[i].Wrote? ==> TextBelow(w.log[i].text, w.nextUid))
  }

  ghost predicate Inv(w: World) {
    0 < w.nextUid && Fresh(w) && AbsencesHold(w) && ReceiptsMatch(w) && LogOk(w.log)
  }

  // ---- how worlds move ----

  /** Identities: UIDs are never reused and a version names one content. */
  ghost predicate Aged(w: World, v: World) {
    && w.nextUid <= v.nextUid && w.nextVersion <= v.nextVersion
    && forall k :: k in v.store ==>
         || (w.nextUid <= v.store[k].uid && w.nextVersion <= v.store[k].version)
         || (k in w.store && w.store[k].uid == v.store[k].uid
             && w.store[k].version <= v.store[k].version
             && (w.store[k].version == v.store[k].version ==> w.store[k].body == v.store[k].body))
  }

  /** What holding a copy `o` of the object at k is worth later: the stored version is no older,
      and if it is still the same version then it is the same object. */
  ghost predicate Known(w: World, k: Key, o: Object) {
    && o.uid < w.nextUid && o.version < w.nextVersion
    && (k in w.store ==>
          o.version <= w.store[k].version && (o.version == w.store[k].version ==> w.store[k] == o))
  }

  ghost predicate Rely(w: World, v: World) {
    Inv(v) && Aged(w, v) && Prefix(w.log, v.log)
  }

  predicate Namespaced(k: Key) {
    k.kind.Cluster? || k.kind.DataVolume? || k.kind.Claim?
  }

  /** Only the tool's own deletions between `from` and the end of the log explain a missing object. */
  ghost predicate Explained(v: World, from: nat, k: Key, uid: Uid) {
    exists i :: from <= i < |v.log| && v.log[i].Deleted?
                && ((v.log[i].key == k && v.log[i].uid == uid)
                    || (v.log[i].key == Key(k.plane, Namespace) && Namespaced(k)))
  }

  /** No foreign actor: apart from receipts nothing appears or changes, and every object that
      disappears was deleted by the tool. */
  ghost predicate Calm(w: World, v: World) {
    && (forall k :: k in v.store && !IsReceipt(k) ==> k in w.store && w.store[k] == v.store[k])
    && (forall k :: k in w.store && !IsReceipt(k) && k !in v.store ==>
          Explained(v, |w.log|, k, w.store[k].uid))
  }

  /** The relation between the worlds before and after a call, with or without foreign actors. */
  ghost predicate Moves(foreign: bool, w: World, v: World) {
    Rely(w, v) && (!foreign ==> Calm(w, v))
  }

  predicate SameAt(w: World, v: World, k: Key) {
    (k in v.store <==> k in w.store) && (k in w.store ==> v.store[k] == w.store[k])
  }

  /** As Moves, for calls that leave the receipts alone. */
  ghost predicate Quiet(foreign: bool, w: World, v: World) {
    Moves(foreign, w, v) && (!foreign ==> forall k :: IsReceipt(k) ==> SameAt(w, v, k))
  }
}
