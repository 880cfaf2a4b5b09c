/** The API planes as a value: live objects, fresh identities and the history of what the tool
    wrote, deleted and observed. Fixed: one cluster name; its namespace has the same name. */
module Kubernetes {
  import opened Wrappers
  import opened Receipts

  datatype Kind =
    | Cluster
    | Namespace
    | DataVolume(name: Name)
    | Claim(name: Name)
    | Volume(name: Name)
    | Longhorn(name: Name)
    | Role(space: string)
    | RoleBinding(space: string)
    | Snapshot(space: string, name: Name)
    | GoldenClaim(space: string, name: Name)
    | Receipt
    | LegacyReceipt
    | LedgerSpace                                   // namespace of the receipts
    | SystemSpace                                   // kube-system

  /** A plane is named by the UID of its kube-system namespace. */
  datatype Key = Key(plane: Uid, kind: Kind)

  datatype Body =
    | Plain
    | Clone(source: Option<(string, string)>)       // DataVolume: cloned PVC namespace and name
    | Bound(volume: Option<Name>)                   // PVC: bound PersistentVolume
    | Disk(retain: bool)                            // PersistentVolume: reclaim policy is Retain
    | Grant(osIdentity: Option<string>)             // RBAC: identity label, when all owner labels match
    | Snap(owner: Option<Uid>, claim: Option<string>) // owner label; source claim when labelled as CDI's
    | Image(digest: string, identity: string, healthy: bool) // Golden PVC annotations; bound, right class
    | Ledger(text: Text, labelled: bool)            // teardown ConfigMap

  datatype Object = Object(uid: Uid, version: nat, body: Body)

  /** Why a receipt was written. */
  datatype Origin = Begun | Refreshed | Completed | Migrated

  /** History of the tool. Reads are recorded when they happen, writes when they take effect;
      a deletion names the record on whose behalf it was sent. */
  datatype Event =
    | Wrote(plane: nat, before: Option<Text>, text: Text, origin: Origin)
    | Deleted(key: Key, uid: Uid, checked: Option<Body>, owner: nat, record: Record)
    | Absent(key: Key, below: nat)                  // key had no object; every UID then issued is below
    | Present(key: Key, uid: Uid)                   // key had an object of this UID
    | Clones(plane: nat, uids: set<Uid>)            // DataVolume list of the workload namespace
    | Claims(plane: nat, bound: set<Name>)          // PVC list of the workload namespace
    | SawVolume(plane: nat, name: Name, retain: bool)
    | SawImage(plane: nat, id: GoldenId, evidence: Evidence)
    | Snapshots(plane: nat, space: string, owners: set<Uid>)
    | ReadBack(plane: nat, text: Text)

  datatype World = World(store: map<Key, Object>, nextUid: nat, nextVersion: nat, log: seq<Event>)

  predicate IsReceipt(k: Key) {
    k.kind == Receipt || k.kind == LegacyReceipt
  }

  function TextAt(w: World, k: Key): Option<Text> {
    if k in w.store && w.store[k].body.Ledger? then Some(w.store[k].body.text) else None
  }

  function ReceiptText(w: World, m: nat): Option<Text> {
    TextAt(w, Key(m, Receipt))
  }

  /** The labelled receipt of plane m holds exactly these bytes. */
  predicate LedgerAt(w: World, m: nat, text: Text) {
    Key(m, Receipt) in w.store && w.store[Key(m, Receipt)].body == Ledger(text, true)
  }

  ghost predicate Holds(w: World, k: Key, uid: Uid) {
    k in w.store && w.store[k].uid == uid
  }

  /** `uid` was issued and no longer names the object at `k`. */
  ghost predicate Gone(w: World, k: Key, uid: Uid) {
    uid < w.nextUid && !Holds(w, k, uid)
  }

  ghost predicate Prefix<T>(a: seq<T>, b: seq<T>) {
    |a| <= |b| && forall i :: 0 <= i < |a| ==> a[i] == b[i]
  }
}
