/** The durable teardown record: what a receipt says and when it is well formed. */
module Receipts {
  import opened Wrappers

  type Uid = nat
  type Name = string

  /** Golden image a Talos cluster was cloned from, as saved in the record's config subset. */
  datatype GoldenId = GoldenId(space: string, claim: string, osIdentity: string, imageDigest: string)

  /** What `verify_golden` reads back from the shared PVC. */
  datatype Evidence = Evidence(uid: Uid, digest: string, identity: string)

  datatype Config = Config(kind: string, golden: Option<GoldenId>)

  /** Plane identities are the UIDs of the two kube-system namespaces. */
  datatype Planes = Planes(management: nat, provider: nat, providerNamespace: Uid)

  datatype Storage = Storage(volume: Uid, longhorn: Option<Uid>)

  datatype Record = Record(
    cluster: Uid,
    space: Uid,
    config: Config,
    evidence: Option<Evidence>,
    dataVolumes: set<Uid>,
    volumes: set<Name>,
    planes: Option<Planes>,
    storage: map<Name, Storage>,
    complete: bool)

  /** Bytes of `record.json`: what they parse to and which spelling of it they are. */
  datatype Text = Text(parsed: Option<Record>, spelling: nat)

  function Canonical(r: Record): Text {
    Text(Some(r), 0)
  }

  /** `validate_teardown_record`; UID 0 stands for a missing UID. */
  predicate ValidRecord(r: Record) {
    && r.cluster != 0 && r.space != 0
    && r.config.kind != ""
    && (r.config.golden.Some? ==>
          && r.config.kind == "talos"
          && r.evidence.Some?
          && r.config.golden.value.space != "" && r.config.golden.value.claim != ""
          && r.config.golden.value.osIdentity != "" && r.config.golden.value.imageDigest != "")
    && (r.config.golden.None? ==> r.evidence.None?)
    && (r.planes.Some? ==>
          && r.planes.value.management != r.planes.value.provider
          && r.planes.value.providerNamespace != 0
          && r.storage.Keys == r.volumes
          && (forall n :: n in r.storage ==> r.storage[n].volume != 0 && r.storage[n].longhorn != Some(0)))
    && (r.planes.None? ==> r.storage == map[])
  }

  /** `teardown_record_from_configmap`: bytes that parse to a valid record. */
  predicate Readable(t: Text) {
    t.parsed.Some? && ValidRecord(t.parsed.value)
  }

  /** Plane that holds the workload namespace and its storage. */
  function Provider(m: nat, r: Record): nat {
    if r.planes.Some? then r.planes.value.provider else m
  }

  function ProviderSpace(r: Record): Uid {
    if r.planes.Some? then r.planes.value.providerNamespace else r.space
  }

  /** Identity of the generation a record describes; only growth and completion keep it. */
  predicate SameGeneration(a: Record, b: Record) {
    && a.cluster == b.cluster && a.space == b.space
    && a.config == b.config && a.evidence == b.evidence && a.planes == b.planes
  }

  /** `b` continues `a`: same generation, inventories only grow, no saved UID is rebound,
      and completion is never taken back. */
  predicate Extends(a: Record, b: Record) {
    && SameGeneration(a, b)
    && a.dataVolumes <= b.dataVolumes
    && a.volumes <= b.volumes
    && (forall n :: n in a.storage ==> n in b.storage && b.storage[n] == a.storage[n])
    && (a.complete ==> b.complete)
  }
}
