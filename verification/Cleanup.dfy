/** Cleanup after the namespaces are gone: retained volumes, then clone RBAC and CDI snapshots. */
module Cleanup {
  import opened Wrappers
  import opened Receipts
  import opened Kubernetes
  import opened Protocol
  import opened ProtocolLemmas
  import opened Steps
  import opened ApiServer
  import opened Lifecycle
  import opened Phases

  ghost predicate ClearedNow(w: World, m: nat, r: Record) {
    Cleared(w.log, |w.log|, m, r) && Recorded(w.log, |w.log|, m, r)
  }

  ghost predicate Swept(w: World, m: nat, r: Record, k: Key) {
    SweptAt(w.log, |w.log|, m, r, k)
  }

  lemma ClearedNowStays(w: World, v: World, m: nat, r: Record)
    requires Prefix(w.log, v.log) && ClearedNow(w, m, r)
    ensures ClearedNow(v, m, r)
  {
    ClearedStays(w.log, |w.log|, v.log, |v.log|, m, r);
    RecordedStays(w.log, |w.log|, v.log, |v.log|, m, r);
  }

  lemma SweptNowStays(w: World, v: World, m: nat, r: Record, k: Key)
    requires Prefix(w.log, v.log) && Swept(w, m, r, k)
    ensures Swept(v, m, r, k)
  {
    SweptStays(w.log, |w.log|, v.log, |v.log|, m, r, k);
  }

  /** An absence observed after the record was cleared sweeps k. */
  lemma AbsenceSweeps(w: World, v: World, m: nat, r: Record, k: Key)
    requires Prefix(w.log, v.log) && |w.log| < |v.log| && ClearedNow(w, m, r) && JustAbsent(v, k)
    ensures Swept(v, m, r, k)
  {
    ClearedStays(w.log, |w.log|, v.log, |v.log| - 1, m, r);
  }

  // ---- cleanup_retained_volumes ----

  /** Reads k, insists on the durable UID when there is one, deletes it and waits for absence. */
  method Sweep(api: Api, k: Key, expected: Option<Uid>, bound: bool, m: nat, r: Record, polls: nat)
    returns (failures: seq<Reason>)
    requires api.Valid() && !IsReceipt(k) && !Permanent(k) && ClearedNow(api.world, m, r)
    requires !api.foreign ==> SpacesAbsent(api.world, m, r)
    requires forall uid: Uid, body ::
      (bound ==> expected == Some(uid)) ==> MayDelete(api.world.log, |api.world.log|, k, uid, body, m, r)
    modifies api
    ensures api.Onward() && Advances(api.foreign, Provider(m, r), old(api.world), api.world)
    ensures failures == [] ==> Swept(api.world, m, r, k) && k !in api.world.store
    ensures !api.foreign && !api.faulty && (bound ==> SomeUid(old(api.world), k, expected)) ==> failures == []
    ensures !api.foreign ==> OnlyTakes(old(api.world), api.world, k)
    ensures !api.foreign && bound && !SomeUid(old(api.world), k, expected) ==>
      failures != [] && api.world.store == old(api.world).store
  {
    hide MayDelete, Inv, Calm, Aged, ClearedNow, SweptAt, RunTo, Lawful;
    var p := Provider(m, r);
    var reply := api.Get(k);
    ReadsShrink(api.foreign, p, old(api.world), api.world);
    ghost var w1 := api.world;
    match reply
    case Failed => return [ReadFailed];
    case NotFound =>
      AbsenceSweeps(old(api.world), w1, m, r, k);
      return [];
    case Found(o) =>
      if bound && Some(o.uid) != expected { return [StorageDiffers]; }
      FoundIsKnown(w1, k);
      MayDeleteStays(old(api.world).log, |old(api.world).log|, w1.log, |w1.log|, k, o.uid, Some(o.body), m, r);
      ClearedNowStays(old(api.world), w1, m, r);
      var deleted := PreconditionedDelete(api, k, o, true, m, r, polls);
      DeletionShrinks(api.foreign, p, w1, api.world, k);
      AdvancesTransitive(api.foreign, p, old(api.world), w1, api.world);
      if deleted.Err? { return [deleted.reason]; }
      AbsenceSweeps(w1, api.world, m, r, k);
      return [];
  }

  predicate SomeUid(w: World, k: Key, expected: Option<Uid>) {
    k in w.store ==> Some(w.store[k].uid) == expected
  }

  /** The PV is gone, for split planes its Longhorn volume too. */
  predicate VolumeAbsent(w: World, m: nat, r: Record, name: Name) {
    && Key(Provider(m, r), Volume(name)) !in w.store
    && (r.planes.Some? ==> Key(Provider(m, r), Longhorn(name)) !in w.store)
  }

  /** Nothing is left of these volumes; `sure` where the Longhorn volumes of a single plane count too. */
  predicate NoneLeft(w: World, m: nat, r: Record, names: set<Name>, sure: bool) {
    forall name :: name in names ==>
      VolumeAbsent(w, m, r, name) && (sure ==> Key(Provider(m, r), Longhorn(name)) !in w.store)
  }

  lemma NoneLeftStays(w: World, v: World, m: nat, r: Record, names: set<Name>, sure: bool)
    requires Shrinks(w, v, Provider(m, r)) && NoneLeft(w, m, r, names, sure)
    ensures NoneLeft(v, m, r, names, sure)
  {
    assert forall n, p :: !IsReceipt(Key(p, Volume(n))) && !IsReceipt(Key(p, Longhorn(n)));
  }

  /** No Longhorn volume of these is there. */
  predicate BackingGone(w: World, p: nat, names: set<Name>) {
    forall name :: name in names ==> Key(p, Longhorn(name)) !in w.store
  }

  /** Each of these volumes that was undisturbed in w is gone in v, whatever became of the others. */
  predicate EachDone(w: World, v: World, m: nat, r: Record, names: set<Name>) {
    forall name :: name in names && VolumeUndisturbed(w, m, r, name) ==> VolumeAbsent(v, m, r, name)
  }

  predicate VolumeUndisturbed(w: World, m: nat, r: Record, name: Name) {
    r.planes.Some? ==> name in r.storage && StorageMatches(w, Provider(m, r), name, r.storage[name])
  }

  lemma OneMoreEach(start: World, w: World, v: World, m: nat, r: Record, names: set<Name>, name: Name)
    requires Shrinks(start, w, Provider(m, r)) && Shrinks(w, v, Provider(m, r)) && EachDone(start, w, m, r, names)
    requires VolumeUndisturbed(w, m, r, name) ==> VolumeAbsent(v, m, r, name)
    ensures EachDone(start, v, m, r, names + {name})
  {
    assert forall n, p :: !IsReceipt(Key(p, Volume(n))) && !IsReceipt(Key(p, Longhorn(n)));
  }

  /** Every Longhorn volume of these was deleted in this stretch of the history, or found absent. */
  ghost predicate BackingTried(log: seq<Event>, from: nat, n: nat, p: nat, names: set<Name>)
    requires n <= |log|
  {
    forall name :: name in names ==> Attempted(log, from, n, Key(p, Longhorn(name)))
  }

  lemma BackingTriedStays(log: seq<Event>, more: seq<Event>, before: nat, from: nat, p: nat, names: set<Name>)
    requires Prefix(log, more) && before <= from && BackingTried(log, from, |log|, p, names)
    ensures BackingTried(more, before, |more|, p, names)
  {
    hide Attempted;
    forall name | name in names ensures Attempted(more, before, |more|, Key(p, Longhorn(name))) {
      AttemptedStays(log, more, before, from, Key(p, Longhorn(name)));
    }
  }

  /** One retained PV and its Longhorn volume. For split-plane records both must match their saved
      UIDs, Longhorn waits for the PV to be swept, and its own absence is required; a single-plane
      Longhorn failure is only a warning. */
  method CleanupVolume(api: Api, m: nat, r: Record, name: Name, polls: nat) returns (failures: seq<Reason>)
    requires api.Valid() && ClearedNow(api.world, m, r) && ValidRecord(r) && name in r.volumes
    requires !api.foreign ==> SpacesAbsent(api.world, m, r)
    modifies api
    ensures api.Onward() && Advances(api.foreign, Provider(m, r), old(api.world), api.world)
    ensures failures == [] ==>
      && Swept(api.world, m, r, Key(Provider(m, r), Volume(name)))
      && (r.planes.Some? ==> Swept(api.world, m, r, Key(Provider(m, r), Longhorn(name))))
    ensures !api.foreign && failures == [] ==> VolumeAbsent(api.world, m, r, name)
    ensures !api.faulty && r.planes.None? ==>
      Attempted(api.world.log, |old(api.world).log|, |api.world.log|, Key(Provider(m, r), Longhorn(name)))
    ensures !api.foreign && !api.faulty && r.planes.None? ==> Key(Provider(m, r), Longhorn(name)) !in api.world.store
    ensures !api.foreign && !api.faulty
      && (r.planes.Some? ==> name in r.storage && StorageMatches(old(api.world), Provider(m, r), name, r.storage[name]))
      ==> failures == []
  {
    hide Inv, Calm, Aged, Cleared, Recorded, SweptAt, SeenGone, Attempted, RunTo, Lawful;
    var p := Provider(m, r);
    var split := r.planes.Some?;
    failures := Sweep(api, Key(p, Volume(name)), if split then Some(r.storage[name].volume) else None, split, m, r, polls);
    ghost var w1 := api.world;
    ClearedAfter(api.foreign, old(api.world), w1, m, r);
    if split {
      if failures != [] { return; }
      failures := Sweep(api, Key(p, Longhorn(name)), r.storage[name].longhorn, true, m, r, polls);
      SweptAfter(api.foreign, w1, api.world, m, r, Key(p, Volume(name)));
    } else {
      var verdict := api.DeleteByName(Key(p, Longhorn(name)), m, r);
      DeletionShrinks(api.foreign, p, w1, api.world, Key(p, Longhorn(name)));
      if failures == [] { SweptAfter(api.foreign, w1, api.world, m, r, Key(p, Volume(name))); }
      if !verdict.Refused? { AttemptedStays(api.world.log, api.world.log, |old(api.world).log|, |w1.log|, Key(p, Longhorn(name))); }
    }
    AdvancesTransitive(api.foreign, p, old(api.world), w1, api.world);
    assert !IsReceipt(Key(p, Volume(name)));
  }

  lemma ClearedAfter(foreign: bool, w: World, v: World, m: nat, r: Record)
    requires Advances(foreign, Provider(m, r), w, v) && ClearedNow(w, m, r)
    requires !foreign ==> SpacesAbsent(w, m, r)
    ensures ClearedNow(v, m, r) && (!foreign ==> SpacesAbsent(v, m, r))
  {
    ClearedNowStays(w, v, m, r);
  }

  lemma SweptAfter(foreign: bool, w: World, v: World, m: nat, r: Record, k: Key)
    requires Quiet(foreign, w, v) && Swept(w, m, r, k)
    ensures Swept(v, m, r, k)
  {
    SweptNowStays(w, v, m, r, k);
  }

  ghost predicate StorageUndisturbed(w: World, m: nat, r: Record) {
    r.planes.Some? ==>
      forall n :: n in r.volumes ==> n in r.storage && StorageMatches(w, Provider(m, r), n, r.storage[n])
  }

  lemma StorageStaysUndisturbed(w: World, v: World, m: nat, r: Record)
    requires Shrinks(w, v, Provider(m, r)) && StorageUndisturbed(w, m, r)
    ensures StorageUndisturbed(v, m, r)
  {
  }

  ghost predicate StorageDone(w: World, m: nat, r: Record, names: set<Name>) {
    forall name :: name in names ==>
      && Swept(w, m, r, Key(Provider(m, r), Volume(name)))
      && (r.planes.Some? ==> Swept(w, m, r, Key(Provider(m, r), Longhorn(name))))
  }

  lemma StorageDoneStays(w: World, v: World, m: nat, r: Record, names: set<Name>)
    requires Prefix(w.log, v.log) && StorageDone(w, m, r, names)
    ensures StorageDone(v, m, r, names)
  {
    forall name | name in names
      ensures Swept(v, m, r, Key(Provider(m, r), Volume(name)))
      ensures r.planes.Some? ==> Swept(v, m, r, Key(Provider(m, r), Longhorn(name)))
    {
      SweptNowStays(w, v, m, r, Key(Provider(m, r), Volume(name)));
      if r.planes.Some? { SweptNowStays(w, v, m, r, Key(Provider(m, r), Longhorn(name))); }
    }
  }

  /** `cleanup_retained_volumes`: every recorded volume is tried; failures are collected. */
  method CleanupRetainedVolumes(api: Api, m: nat, r: Record, polls: nat) returns (failures: seq<Reason>)
    requires api.Valid() && ClearedNow(api.world, m, r) && ValidRecord(r)
    requires !api.foreign ==> SpacesAbsent(api.world, m, r)
    modifies api
    ensures api.Onward() && Advances(api.foreign, Provider(m, r), old(api.world), api.world)
    ensures failures == [] ==> StorageSwept(api.world.log, |api.world.log|, m, r)
    ensures !api.faulty && r.planes.None? ==>
      BackingTried(api.world.log, |old(api.world).log|, |api.world.log|, Provider(m, r), r.volumes)
    ensures !api.foreign && !api.faulty && r.planes.None? ==> BackingGone(api.world, Provider(m, r), r.volumes)
    ensures !api.foreign && failures == [] ==> NoneLeft(api.world, m, r, r.volumes, !api.faulty)
    ensures !api.foreign && !api.faulty ==> EachDone(old(api.world), api.world, m, r, r.volumes)
    ensures !api.foreign && !api.faulty && StorageUndisturbed(old(api.world), m, r) ==> failures == []
  {
    hide Inv, Calm, Aged, Cleared, Recorded, SweptAt, SeenGone, Shrinks, StorageDone, Attempted, VolumeAbsent,
         EachDone, RunTo, Lawful;
    ghost var start := api.world;
    failures := [];
    QuietReflexive(api.foreign, start);
    ReadsShrink(api.foreign, Provider(m, r), start, start);
    var left := r.volumes;
    assert r.volumes - left == {};
    NothingDone(start, m, r);
    while left != {}
      invariant api.Onward() && Advances(api.foreign, Provider(m, r), start, api.world)
      invariant ClearedNow(api.world, m, r) && left <= r.volumes
      invariant !api.foreign ==> SpacesAbsent(api.world, m, r)
      invariant failures == [] ==> StorageDone(api.world, m, r, r.volumes - left)
      invariant !api.faulty && r.planes.None? ==>
        BackingTried(api.world.log, |start.log|, |api.world.log|, Provider(m, r), r.volumes - left)
      invariant !api.foreign && !api.faulty && r.planes.None? ==> BackingGone(api.world, Provider(m, r), r.volumes - left)
      invariant !api.foreign && failures == [] ==> NoneLeft(api.world, m, r, r.volumes - left, !api.faulty)
      invariant !api.foreign && !api.faulty ==> EachDone(start, api.world, m, r, r.volumes - left)
      invariant !api.foreign && !api.faulty && StorageUndisturbed(start, m, r) ==> failures == []
      decreases left
    {
      var name :| name in left;
      ghost var before := api.world;
      if !api.foreign && StorageUndisturbed(start, m, r) { StorageStaysUndisturbed(start, before, m, r); }
      var more := CleanupVolume(api, m, r, name, polls);
      ClearedAfter(api.foreign, before, api.world, m, r);
      AdvancesTransitive(api.foreign, Provider(m, r), start, before, api.world);
      if !api.faulty && r.planes.None? {
        OneMoreTried(start, before, api.world, Provider(m, r), r.volumes - left, name);
        if !api.foreign { OneMoreBacking(before, api.world, m, r, r.volumes - left, name); }
      }
      if !api.foreign && failures == [] && more == [] {
        SplitAbsent(api.world, m, r, name);
        OneMoreLeft(before, api.world, m, r, r.volumes - left, name, !api.faulty);
      }
      if !api.foreign && !api.faulty { OneMoreEach(start, before, api.world, m, r, r.volumes - left, name); }
      assert r.volumes - left + {name} == r.volumes - (left - {name});
      if failures + more == [] {
        OneMoreDone(before, api.world, m, r, r.volumes - left, name);
      }
      left := left - {name};
      failures := failures + more;
    }
    assert r.volumes - left == r.volumes;
    if failures == [] {
      AllDone(api.world, m, r);
    }
  }

  lemma SplitAbsent(w: World, m: nat, r: Record, name: Name)
    requires VolumeAbsent(w, m, r, name)
    ensures r.planes.Some? ==> Key(Provider(m, r), Longhorn(name)) !in w.store
  {
  }

  lemma OneMoreTried(w0: World, w: World, v: World, p: nat, names: set<Name>, name: Name)
    requires Prefix(w.log, v.log) && |w0.log| <= |w.log| && BackingTried(w.log, |w0.log|, |w.log|, p, names)
    requires Attempted(v.log, |w.log|, |v.log|, Key(p, Longhorn(name)))
    ensures BackingTried(v.log, |w0.log|, |v.log|, p, names + {name})
  {
    hide Attempted;
    BackingTriedStays(w.log, v.log, |w0.log|, |w0.log|, p, names);
    AttemptedStays(v.log, v.log, |w0.log|, |w.log|, Key(p, Longhorn(name)));
  }

  lemma OneMoreBacking(w: World, v: World, m: nat, r: Record, names: set<Name>, name: Name)
    requires Shrinks(w, v, Provider(m, r)) && BackingGone(w, Provider(m, r), names)
    requires Key(Provider(m, r), Longhorn(name)) !in v.store
    ensures BackingGone(v, Provider(m, r), names + {name})
  {
    assert forall n :: !IsReceipt(Key(Provider(m, r), Longhorn(n)));
  }

  lemma OneMoreLeft(w: World, v: World, m: nat, r: Record, names: set<Name>, name: Name, sure: bool)
    requires Shrinks(w, v, Provider(m, r)) && NoneLeft(w, m, r, names, sure)
    requires VolumeAbsent(v, m, r, name) && (sure ==> Key(Provider(m, r), Longhorn(name)) !in v.store)
    ensures NoneLeft(v, m, r, names + {name}, sure)
  {
    NoneLeftStays(w, v, m, r, names, sure);
  }

  lemma NothingDone(w: World, m: nat, r: Record)
    ensures StorageDone(w, m, r, r.volumes - r.volumes) && EachDone(w, w, m, r, {})
  {
  }

  lemma OneMoreDone(w: World, v: World, m: nat, r: Record, names: set<Name>, name: Name)
    requires Prefix(w.log, v.log) && StorageDone(w, m, r, names)
    requires Swept(v, m, r, Key(Provider(m, r), Volume(name)))
    requires r.planes.Some? ==> Swept(v, m, r, Key(Provider(m, r), Longhorn(name)))
    ensures StorageDone(v, m, r, names + {name})
  {
    StorageDoneStays(w, v, m, r, names);
  }

  lemma AllDone(w: World, m: nat, r: Record)
    requires StorageDone(w, m, r, r.volumes)
    ensures StorageSwept(w.log, |w.log|, m, r)
  {
  }

  // ---- cleanup_authorization ----

  /** The label value of an image identity: at most twelve characters, those after the digest prefix. */
  lemma ShortIdentityIs(identity: string, digest: string)
    requires identity == "sha256:" + digest || (identity == digest && !("sha256:" <= identity))
    ensures |ShortIdentity(identity)| == (if |digest| < 12 then |digest| else 12)
    ensures ShortIdentity(identity) <= digest
  {
    if identity == "sha256:" + digest {
      assert identity[..7] == "sha256:" && identity[7..] == digest;
    } else {
      assert |identity| >= 7 && identity[..7] == "sha256:" ==> "sha256:" <= identity;
    }
  }

  /** Reads one clone-RBAC object; a foreign owner stops the run. */
  method ReadGrant(api: Api, k: Key, owner: Body) returns (result: Result<Option<Object>>)
    requires api.Valid()
    modifies api
    ensures api.Onward() && Quiet(api.foreign, old(api.world), api.world)
    ensures result.Ok? && result.value.Some? ==>
      result.value.value.body == owner && Known(api.world, k, result.value.value)
    ensures !api.foreign && result.Ok? ==>
      if result.value.Some? then k in api.world.store && api.world.store[k] == result.value.value
      else k !in api.world.store
    ensures !api.foreign ==> api.world.store == old(api.world).store
    ensures !api.foreign && !api.faulty && (k in old(api.world).store ==> old(api.world).store[k].body == owner) ==> result.Ok?
  {
    hide RunTo, Lawful;
    var reply := api.Get(k);
    match reply
    case Failed => return Err(ReadFailed);
    case NotFound => return Ok(None);
    case Found(o) =>
      if o.body != owner { return Err(GrantNotOwned); }
      FoundIsKnown(api.world, k);
      return Ok(Some(o));
  }

  /** Deletes one clone-RBAC object that was found to be the cluster's own. */
  method Revoke(api: Api, k: Key, copy: Option<Object>, m: nat, r: Record, polls: nat) returns (result: Result<()>)
    requires api.Valid() && !IsReceipt(k) && !k.kind.Namespace? && !Permanent(k)
    requires !api.foreign ==> SpacesAbsent(api.world, m, r)
    requires copy.Some? ==>
      && Known(api.world, k, copy.value)
      && MayDelete(api.world.log, |api.world.log|, k, copy.value.uid, Some(copy.value.body), m, r)
    modifies api
    ensures api.Onward() && Advances(api.foreign, Provider(m, r), old(api.world), api.world)
    ensures !api.foreign && !api.faulty && (copy.Some? ==> Targets(old(api.world), k, copy.value.uid, copy)) ==> result.Ok?
    ensures !api.foreign && result.Ok? && copy.Some? ==> k !in api.world.store
  {
    hide MayDelete, Inv, Calm, Aged, RunTo, Lawful;
    QuietReflexive(api.foreign, api.world);
    ReadsShrink(api.foreign, Provider(m, r), api.world, api.world);
    if copy.None? { return Ok(()); }
    result := PreconditionedDelete(api, k, copy.value, true, m, r, polls);
    DeletionShrinks(api.foreign, Provider(m, r), old(api.world), api.world, k);
  }

  /** The read-back after revocation: anything but an explicit absence stops the run. */
  method ConfirmRevoked(api: Api, k: Key, m: nat, r: Record) returns (result: Result<()>)
    requires api.Valid() && ClearedNow(api.world, m, r)
    modifies api
    ensures api.Onward() && Quiet(api.foreign, old(api.world), api.world)
    ensures result.Ok? ==> Swept(api.world, m, r, k)
    ensures !api.foreign ==> api.world.store == old(api.world).store
    ensures !api.foreign && !api.faulty && k !in old(api.world).store ==> result.Ok?
  {
    hide Inv, Calm, Aged, ClearedNow, SweptAt, RunTo, Lawful;
    var reply := api.Get(k);
    match reply
    case Failed => return Err(ReadFailed);
    case Found(_) => return Err(GrantRemains);
    case NotFound =>
      AbsenceSweeps(old(api.world), api.world, m, r, k);
      return Ok(());
  }

  function RoleKey(m: nat, r: Record): Key
    requires r.config.golden.Some?
  {
    Key(Provider(m, r), Role(r.config.golden.value.space))
  }

  function BindingKey(m: nat, r: Record): Key
    requires r.config.golden.Some?
  {
    Key(Provider(m, r), RoleBinding(r.config.golden.value.space))
  }

  function OwnGrant(r: Record): Body
    requires r.config.golden.Some?
  {
    Grant(Some(ShortIdentity(r.config.golden.value.osIdentity)))
  }

  predicate GrantsFit(w: World, m: nat, r: Record)
    requires r.config.golden.Some?
  {
    && (RoleKey(m, r) in w.store ==> w.store[RoleKey(m, r)].body == OwnGrant(r))
    && (BindingKey(m, r) in w.store ==> w.store[BindingKey(m, r)].body == OwnGrant(r))
  }

  /** Both RBAC objects are read and checked before either is deleted. */
  method ReadGrants(api: Api, m: nat, r: Record) returns (result: Result<(Option<Object>, Option<Object>)>)
    requires api.Valid() && r.config.golden.Some?
    modifies api
    ensures api.Onward() && Quiet(api.foreign, old(api.world), api.world)
    ensures result.Ok? ==> var (role, binding) := result.value;
      && (role.Some? ==> role.value.body == OwnGrant(r) && Known(api.world, RoleKey(m, r), role.value))
      && (binding.Some? ==> binding.value.body == OwnGrant(r) && Known(api.world, BindingKey(m, r), binding.value))
    ensures !api.foreign && result.Ok? ==> var (role, binding) := result.value;
      && GrantsFit(api.world, m, r)
      && (if role.Some? then RoleKey(m, r) in api.world.store && api.world.store[RoleKey(m, r)] == role.value
          else RoleKey(m, r) !in api.world.store)
      && (if binding.Some? then BindingKey(m, r) in api.world.store && api.world.store[BindingKey(m, r)] == binding.value
          else BindingKey(m, r) !in api.world.store)
    ensures !api.foreign ==> api.world.store == old(api.world).store
    ensures !api.foreign && !api.faulty && GrantsFit(old(api.world), m, r) ==> result.Ok?
  {
    hide Inv, Calm, Aged, Quiet, Known, RunTo, Lawful;
    var role := ReadGrant(api, RoleKey(m, r), OwnGrant(r));
    if role.Err? { return Err(role.reason); }
    ghost var w1 := api.world;
    var binding := ReadGrant(api, BindingKey(m, r), OwnGrant(r));
    QuietTransitive(api.foreign, old(api.world), w1, api.world);
    KnownAfter(api.foreign, w1, api.world, RoleKey(m, r), role.value);
    if binding.Err? { return Err(binding.reason); }
    return Ok((role.value, binding.value));
  }

  /** The read-back of both after deletion. */
  method ConfirmGrants(api: Api, m: nat, r: Record) returns (result: Result<()>)
    requires api.Valid() && ClearedNow(api.world, m, r) && r.config.golden.Some?
    modifies api
    ensures api.Onward() && Quiet(api.foreign, old(api.world), api.world)
    ensures result.Ok? ==> Swept(api.world, m, r, RoleKey(m, r)) && Swept(api.world, m, r, BindingKey(m, r))
    ensures !api.foreign ==> api.world.store == old(api.world).store
    ensures !api.foreign && !api.faulty && RoleKey(m, r) !in old(api.world).store && BindingKey(m, r) !in old(api.world).store
      ==> result.Ok?
  {
    hide Inv, Calm, Aged, Quiet, Cleared, Recorded, SweptAt, SeenGone, RunTo, Lawful;
    ghost var w0 := api.world;
    result := ConfirmRevoked(api, RoleKey(m, r), m, r);
    ghost var w1 := api.world;
    if result.Err? { return; }
    ClearedQuietly(api.foreign, w0, w1, m, r);
    result := ConfirmRevoked(api, BindingKey(m, r), m, r);
    QuietTransitive(api.foreign, w0, w1, api.world);
    SweptAfter(api.foreign, w1, api.world, m, r, RoleKey(m, r));
  }

  lemma ClearedQuietly(foreign: bool, w: World, v: World, m: nat, r: Record)
    requires Quiet(foreign, w, v) && ClearedNow(w, m, r)
    ensures ClearedNow(v, m, r)
  {
    ClearedNowStays(w, v, m, r);
  }

  lemma GrantJustified(w: World, m: nat, r: Record, k: Key, copy: Option<Object>)
    requires ClearedNow(w, m, r) && r.config.golden.Some? && (k == RoleKey(m, r) || k == BindingKey(m, r))
    ensures copy.Some? && copy.value.body == OwnGrant(r) ==>
      MayDelete(w.log, |w.log|, k, copy.value.uid, Some(copy.value.body), m, r)
  {
  }

  /** Clone RBAC: read both, delete the binding and then the role, read both back as absent. */
  method RevokeGrants(api: Api, m: nat, r: Record, polls: nat) returns (result: Result<()>)
    requires api.Valid() && ClearedNow(api.world, m, r) && r.config.golden.Some?
    requires !api.foreign ==> SpacesAbsent(api.world, m, r)
    modifies api
    ensures api.Onward() && Advances(api.foreign, Provider(m, r), old(api.world), api.world)
    ensures result.Ok? ==> Swept(api.world, m, r, RoleKey(m, r)) && Swept(api.world, m, r, BindingKey(m, r))
    ensures !api.foreign && !api.faulty && GrantsFit(old(api.world), m, r) ==> result.Ok?
    ensures !api.foreign && !GrantsFit(old(api.world), m, r) ==> !result.Ok? && api.world.store == old(api.world).store
  {
    hide Inv, Calm, Aged, Quiet, Cleared, Recorded, SweptAt, SeenGone, Known, MayDelete, RunTo, Lawful;
    var p := Provider(m, r);
    ghost var w0 := api.world;
    var grants := ReadGrants(api, m, r);
    ghost var w2 := api.world;
    ReadsShrink(api.foreign, p, w0, w2);
    ClearedAfter(api.foreign, w0, w2, m, r);
    if grants.Err? { return Err(grants.reason); }
    var (role, binding) := grants.value;
    GrantJustified(w2, m, r, BindingKey(m, r), binding);
    result := Revoke(api, BindingKey(m, r), binding, m, r, polls);
    ghost var w3 := api.world;
    AdvancesTransitive(api.foreign, p, w0, w2, w3);
    ClearedAfter(api.foreign, w2, w3, m, r);
    KnownAfter(api.foreign, w2, w3, RoleKey(m, r), role);
    if result.Err? { return; }
    GrantJustified(w3, m, r, RoleKey(m, r), role);
    result := Revoke(api, RoleKey(m, r), role, m, r, polls);
    ghost var w4 := api.world;
    AdvancesTransitive(api.foreign, p, w0, w3, w4);
    ClearedAfter(api.foreign, w3, w4, m, r);
    if result.Err? { return; }
    result := ConfirmGrants(api, m, r);
    ReadsShrink(api.foreign, p, w4, api.world);
    AdvancesTransitive(api.foreign, p, w0, w4, api.world);
  }

  lemma KnownAfter(foreign: bool, w: World, v: World, k: Key, copy: Option<Object>)
    requires Quiet(foreign, w, v) && (copy.Some? ==> Known(w, k, copy.value))
    ensures copy.Some? ==> Known(v, k, copy.value)
  {
    if copy.Some? { KnownStays(w, v, k, copy.value); }
  }

  /** Snapshot of one of the record's DataVolumes. */
  predicate Owned(r: Record, body: Body) {
    body.Snap? && body.owner.Some? && body.owner.value in r.dataVolumes
  }

  /** An owned snapshot must carry CDI's label and point at the recorded Golden claim. */
  predicate Proper(r: Record, body: Body)
    requires r.config.golden.Some?
  {
    Owned(r, body) ==> body.claim == Some(r.config.golden.value.claim)
  }

  /** Names of the owned snapshots, provided every one of them is proper. */
  method SelectOwned(r: Record, items: map<Name, Object>) returns (result: Result<set<Name>>)
    requires r.config.golden.Some?
    ensures result.Ok? <==> forall n :: n in items ==> Proper(r, items[n].body)
    ensures result.Ok? ==> result.value == set n | n in items && Owned(r, items[n].body)
  {
    var left := items.Keys;
    var owned := {};
    while left != {}
      invariant left <= items.Keys
      invariant forall n :: n in items && n !in left ==> Proper(r, items[n].body)
      invariant owned == set n | n in items && n !in left && Owned(r, items[n].body)
      decreases left
    {
      var n :| n in left;
      left := left - {n};
      if Owned(r, items[n].body) {
        if !Proper(r, items[n].body) { return Err(SnapshotInvalid); }
        owned := owned + {n};
      }
    }
    return Ok(owned);
  }

  function SnapshotKey(m: nat, r: Record, n: Name): Key
    requires r.config.golden.Some?
  {
    Key(Provider(m, r), Snapshot(r.config.golden.value.space, n))
  }

  ghost predicate SnapshotsFit(w: World, m: nat, r: Record)
    requires r.config.golden.Some?
  {
    forall n :: SnapshotKey(m, r, n) in w.store ==> Proper(r, w.store[SnapshotKey(m, r, n)].body)
  }

  predicate AllTarget(w: World, m: nat, r: Record, items: map<Name, Object>, owned: set<Name>)
    requires owned <= items.Keys && r.config.golden.Some?
  {
    forall n :: n in owned ==> Targets(w, SnapshotKey(m, r, n), items[n].uid, Some(items[n]))
  }

  /** Deletes the selected snapshots one by one under UID and version. */
  method DeleteSnapshots(api: Api, m: nat, r: Record, items: map<Name, Object>, owned: set<Name>, polls: nat)
    returns (result: Result<()>)
    requires api.Valid() && ClearedNow(api.world, m, r) && r.config.golden.Some?
    requires !api.foreign ==> SpacesAbsent(api.world, m, r)
    requires owned <= items.Keys
    requires forall n :: n in owned ==>
      Known(api.world, SnapshotKey(m, r, n), items[n]) && Owned(r, items[n].body) && Proper(r, items[n].body)
    modifies api
    ensures api.Onward() && Advances(api.foreign, Provider(m, r), old(api.world), api.world)
    ensures !api.foreign && result.Ok? ==> forall n :: n in owned ==> SnapshotKey(m, r, n) !in api.world.store
    ensures !api.foreign && !api.faulty && AllTarget(old(api.world), m, r, items, owned) ==> result.Ok?
  {
    hide Inv, Calm, Aged, Quiet, Cleared, Recorded, SeenGone, Known, Owned, Proper, RunTo, Lawful;
    var p := Provider(m, r);
    ghost var start := api.world;
    QuietReflexive(api.foreign, start);
    ReadsShrink(api.foreign, p, start, start);
    var left := owned;
    while left != {}
      invariant api.Onward() && Advances(api.foreign, p, start, api.world) && left <= owned
      invariant ClearedNow(api.world, m, r) && (!api.foreign ==> SpacesAbsent(api.world, m, r))
      invariant forall n :: n in left ==> Known(api.world, SnapshotKey(m, r, n), items[n])
      invariant !api.foreign ==> forall n :: n in owned - left ==> SnapshotKey(m, r, n) !in api.world.store
      decreases left
    {
      var n :| n in left;
      ghost var before := api.world;
      SnapshotDeletionJustified(before, m, r, n, items[n]);
      result := Revoke(api, SnapshotKey(m, r, n), Some(items[n]), m, r, polls);
      AdvancesTransitive(api.foreign, p, start, before, api.world);
      ClearedAfter(api.foreign, before, api.world, m, r);
      if result.Err? { return; }
      forall j | j in left ensures Known(api.world, SnapshotKey(m, r, j), items[j]) {
        KnownAfter(api.foreign, before, api.world, SnapshotKey(m, r, j), Some(items[j]));
      }
      left := left - {n};
    }
    return Ok(());
  }

  lemma SnapshotDeletionJustified(w: World, m: nat, r: Record, n: Name, o: Object)
    requires ClearedNow(w, m, r) && r.config.golden.Some? && Owned(r, o.body) && Proper(r, o.body)
    ensures MayDelete(w.log, |w.log|, SnapshotKey(m, r, n), o.uid, Some(o.body), m, r)
  {
  }

  ghost predicate SnapshotsDone(w: World, m: nat, r: Record)
    requires r.config.golden.Some?
  {
    SnapshotsSwept(w.log, |w.log|, m, r, r.config.golden.value.space)
  }

  lemma ListedOwners(w: World, m: nat, r: Record, items: map<Name, Object>)
    requires r.config.golden.Some?
    requires forall n :: n in items <==> SnapshotKey(m, r, n) in w.store
    requires forall n :: n in items ==> items[n] == w.store[SnapshotKey(m, r, n)]
    requires forall n :: n in items ==> !Owned(r, items[n].body)
    ensures SnapshotOwners(w, Provider(m, r), r.config.golden.value.space) !! r.dataVolumes
  {
    forall k | k in w.store && k.plane == Provider(m, r) && k.kind.Snapshot? && k.kind.space == r.config.golden.value.space
               && w.store[k].body.Snap? && w.store[k].body.owner.Some?
      ensures w.store[k].body.owner.value !in r.dataVolumes
    {
      assert k == SnapshotKey(m, r, k.kind.name) && k.kind.name in items;
    }
  }

  lemma ListedFit(w: World, v: World, m: nat, r: Record, items: map<Name, Object>)
    requires r.config.golden.Some? && w.store == v.store
    requires forall n :: n in items <==> SnapshotKey(m, r, n) in v.store
    requires forall n :: n in items ==> items[n] == v.store[SnapshotKey(m, r, n)]
    ensures SnapshotsFit(w, m, r) <==> forall n :: n in items ==> Proper(r, items[n].body)
  {
  }

  lemma SnapshotsDoneNow(foreign: bool, w: World, v: World, m: nat, r: Record)
    requires Quiet(foreign, w, v) && |w.log| < |v.log| && ClearedNow(w, m, r) && r.config.golden.Some?
    requires v.log[|v.log|-1].Snapshots? && v.log[|v.log|-1].plane == Provider(m, r)
    requires v.log[|v.log|-1].space == r.config.golden.value.space && v.log[|v.log|-1].owners !! r.dataVolumes
    ensures SnapshotsDone(v, m, r)
  {
    ClearedStays(w.log, |w.log|, v.log, |v.log| - 1, m, r);
  }

  /** First list: every owned snapshot must be proper before any is deleted. */
  method ListOwnedSnapshots(api: Api, m: nat, r: Record) returns (result: Result<(map<Name, Object>, set<Name>)>)
    requires api.Valid() && r.config.golden.Some?
    modifies api
    ensures api.Onward() && Quiet(api.foreign, old(api.world), api.world)
    ensures result.Ok? ==> var (items, owned) := result.value;
      && owned == (set n | n in items && Owned(r, items[n].body))
      && forall n :: n in owned ==> Known(api.world, SnapshotKey(m, r, n), items[n]) && Proper(r, items[n].body)
    ensures !api.foreign && result.Ok? ==> var (items, owned) := result.value;
      && (forall n :: SnapshotKey(m, r, n) in api.world.store ==> n in items)
      && (forall n :: n in items ==> SnapshotKey(m, r, n) in api.world.store
                                     && items[n] == api.world.store[SnapshotKey(m, r, n)])
    ensures !api.foreign ==> api.world.store == old(api.world).store
    ensures !api.foreign && result.Ok? ==> SnapshotsFit(old(api.world), m, r)
    ensures !api.foreign && !api.faulty && SnapshotsFit(old(api.world), m, r) ==> result.Ok?
  {
    hide Inv, Calm, Aged, Quiet, Known, SnapshotOwners, SnapshotsFit, RunTo, Lawful;
    var listed := api.ListSnapshots(Provider(m, r), r.config.golden.value.space);
    if listed.Err? { return Err(listed.reason); }
    if !api.foreign { ListedFit(old(api.world), api.world, m, r, listed.value); }
    var owned := SelectOwned(r, listed.value);
    if owned.Err? { return Err(owned.reason); }
    forall n | n in owned.value ensures Known(api.world, SnapshotKey(m, r, n), listed.value[n]) {
      FoundIsKnown(api.world, SnapshotKey(m, r, n));
    }
    return Ok((listed.value, owned.value));
  }

  ghost predicate NoneOwned(w: World, m: nat, r: Record)
    requires r.config.golden.Some?
  {
    forall n :: SnapshotKey(m, r, n) in w.store ==> !Owned(r, w.store[SnapshotKey(m, r, n)].body)
  }

  /** Second list: none owned may remain. */
  method ConfirmNoneOwned(api: Api, m: nat, r: Record) returns (result: Result<()>)
    requires api.Valid() && ClearedNow(api.world, m, r) && r.config.golden.Some?
    modifies api
    ensures api.Onward() && Quiet(api.foreign, old(api.world), api.world)
    ensures result.Ok? ==> SnapshotsDone(api.world, m, r)
    ensures !api.foreign ==> api.world.store == old(api.world).store
    ensures !api.foreign && !api.faulty && NoneOwned(old(api.world), m, r) ==> result.Ok?
  {
    hide Inv, Calm, Aged, Quiet, ClearedNow, SnapshotOwners, SnapshotsDone, RunTo, Lawful;
    var remaining := api.ListSnapshots(Provider(m, r), r.config.golden.value.space);
    if remaining.Err? { return Err(remaining.reason); }
    if exists n :: n in remaining.value && Owned(r, remaining.value[n].body) {
      assert !api.foreign ==> forall n :: n in remaining.value ==> SnapshotKey(m, r, n) in old(api.world).store;
      return Err(SnapshotsRemain);
    }
    ListedOwners(api.world, m, r, remaining.value);
    SnapshotsDoneNow(api.foreign, old(api.world), api.world, m, r);
    return Ok(());
  }

  method RemoveSnapshots(api: Api, m: nat, r: Record, polls: nat) returns (result: Result<()>)
    requires api.Valid() && ClearedNow(api.world, m, r) && r.config.golden.Some?
    requires !api.foreign ==> SpacesAbsent(api.world, m, r)
    modifies api
    ensures api.Onward() && Advances(api.foreign, Provider(m, r), old(api.world), api.world)
    ensures result.Ok? ==> SnapshotsDone(api.world, m, r)
    ensures !api.foreign && !api.faulty && SnapshotsFit(old(api.world), m, r) ==> result.Ok?
    ensures !api.foreign && r.dataVolumes != {} && !SnapshotsFit(old(api.world), m, r) ==>
      !result.Ok? && api.world.store == old(api.world).store
  {
    hide Inv, Calm, Aged, Quiet, Cleared, Recorded, SeenGone, Known, SnapshotsFit, RunTo, Lawful;
    var p := Provider(m, r);
    ghost var w0 := api.world;
    QuietReflexive(api.foreign, w0);
    ReadsShrink(api.foreign, p, w0, w0);
    if r.dataVolumes == {} { return Ok(()); }
    var listed := ListOwnedSnapshots(api, m, r);
    ghost var w1 := api.world;
    ReadsShrink(api.foreign, p, w0, w1);
    ClearedAfter(api.foreign, w0, w1, m, r);
    if listed.Err? { return Err(listed.reason); }
    var deleted := DeleteSnapshots(api, m, r, listed.value.0, listed.value.1, polls);
    ghost var w2 := api.world;
    AdvancesTransitive(api.foreign, p, w0, w1, w2);
    ClearedAfter(api.foreign, w1, w2, m, r);
    if deleted.Err? { return deleted; }
    result := ConfirmNoneOwned(api, m, r);
    ReadsShrink(api.foreign, p, w2, api.world);
    AdvancesTransitive(api.foreign, p, w0, w2, api.world);
  }

  ghost predicate GoldenUndisturbed(w: World, m: nat, r: Record) {
    r.config.golden.Some? ==>
      var id := r.config.golden.value;
      var k := Key(Provider(m, r), GoldenClaim(id.space, id.claim));
      && ImageFits(w, Provider(m, r), id)
      && r.evidence == Some(Evidence(w.store[k].uid, id.imageDigest, id.osIdentity))
      && GrantsFit(w, m, r) && SnapshotsFit(w, m, r)
  }

  lemma GoldenStays(w: World, v: World, m: nat, r: Record)
    requires Shrinks(w, v, Provider(m, r)) && r.config.golden.Some?
    ensures GoldenUndisturbed(w, m, r) ==>
      var id := r.config.golden.value;
      var k := Key(Provider(m, r), GoldenClaim(id.space, id.claim));
      && GoldenUndisturbed(v, m, r) && GrantsFit(v, m, r) && SnapshotsFit(v, m, r)
      && ImageFits(v, Provider(m, r), id) && k in v.store
      && r.evidence == Some(Evidence(v.store[k].uid, id.imageDigest, id.osIdentity))
  {
  }

  /** The Golden claim is the one in the record. */
  predicate GoldenPresent(w: World, m: nat, r: Record)
    requires r.config.golden.Some?
  {
    var id := r.config.golden.value;
    var k := Key(Provider(m, r), GoldenClaim(id.space, id.claim));
    k in w.store && r.evidence == Some(Evidence(w.store[k].uid, id.imageDigest, id.osIdentity))
  }

  /** The first look: the shared claim must be the recorded one before anything is revoked. */
  method CheckGolden(api: Api, m: nat, r: Record) returns (result: Result<Evidence>)
    requires api.Valid() && r.config.golden.Some?
    modifies api
    ensures api.Onward() && Quiet(api.foreign, old(api.world), api.world)
    ensures result.Ok? ==> Some(result.value) == r.evidence
    ensures !api.foreign ==> api.world.store == old(api.world).store
    ensures !api.foreign && result.Ok? ==> GoldenPresent(old(api.world), m, r)
    ensures !api.foreign && !api.faulty && GoldenUndisturbed(old(api.world), m, r) ==> result.Ok?
  {
    hide Inv, Calm, Aged, GrantsFit, SnapshotsFit, RunTo, Lawful;
    result := VerifyGolden(api, Provider(m, r), r.config.golden.value);
    if result.Ok? && Some(result.value) != r.evidence { return Err(GoldenChanged); }
  }

  /** `cleanup_authorization` on behalf of a teardown record. */
  method CleanupAuthorization(api: Api, m: nat, r: Record, polls: nat) returns (result: Result<()>)
    requires api.Valid() && ClearedNow(api.world, m, r) && ValidRecord(r) && r.config.golden.Some?
    requires !api.foreign ==> SpacesAbsent(api.world, m, r)
    modifies api
    ensures api.Onward() && Advances(api.foreign, Provider(m, r), old(api.world), api.world)
    ensures result.Ok? ==> GoldenSwept(api.world.log, |api.world.log|, m, r)
    ensures !api.foreign && !api.faulty && GoldenUndisturbed(old(api.world), m, r) ==> result.Ok?
    ensures !api.foreign && !GoldenPresent(old(api.world), m, r) ==> !result.Ok? && api.world.store == old(api.world).store
  {
    hide Inv, Calm, Aged, Quiet, Cleared, Recorded, SeenGone, SweptAt, SnapshotsDone, GoldenUndisturbed,
         GoldenPresent, GrantsFit, SnapshotsFit, ImageFits, Shrinks, RunTo, Lawful;
    var p, id := Provider(m, r), r.config.golden.value;
    ghost var w0 := api.world;
    QuietReflexive(api.foreign, w0);
    ReadsShrink(api.foreign, p, w0, w0);
    var before := CheckGolden(api, m, r);
    ghost var w1 := api.world;
    ReadsShrink(api.foreign, p, w0, w1);
    ClearedAfter(api.foreign, w0, w1, m, r);
    if !api.foreign { GoldenStays(w0, w1, m, r); }
    if before.Err? { return Err(before.reason); }
    var revoked := RevokeGrants(api, m, r, polls);
    ghost var w2 := api.world;
    AdvancesTransitive(api.foreign, p, w0, w1, w2);
    ClearedAfter(api.foreign, w1, w2, m, r);
    if !api.foreign { GoldenStays(w1, w2, m, r); }
    if revoked.Err? { return revoked; }
    var removed := RemoveSnapshots(api, m, r, polls);
    ghost var w3 := api.world;
    AdvancesTransitive(api.foreign, p, w0, w2, w3);
    ClearedAfter(api.foreign, w2, w3, m, r);
    SweptAfter(api.foreign, w2, w3, m, r, RoleKey(m, r));
    SweptAfter(api.foreign, w2, w3, m, r, BindingKey(m, r));
    if !api.foreign { GoldenStays(w2, w3, m, r); }
    if removed.Err? { return removed; }
    var after := VerifyGolden(api, p, id);
    ReadsShrink(api.foreign, p, w3, api.world);
    AdvancesTransitive(api.foreign, p, w0, w3, api.world);
    if after.Err? { return Err(after.reason); }
    if after.value != before.value { return Err(GoldenChanged); }
    GoldenIsSwept(api.foreign, w3, api.world, m, r);
    return Ok(());
  }

  lemma GoldenIsSwept(foreign: bool, w: World, v: World, m: nat, r: Record)
    requires Quiet(foreign, w, v) && |w.log| < |v.log| && ClearedNow(w, m, r)
    requires ValidRecord(r) && r.config.golden.Some?
    requires Swept(w, m, r, RoleKey(m, r)) && Swept(w, m, r, BindingKey(m, r)) && SnapshotsDone(w, m, r)
    requires v.log[|v.log|-1] == SawImage(Provider(m, r), r.config.golden.value, r.evidence.value)
    ensures GoldenSwept(v.log, |v.log|, m, r)
  {
    SweptNowStays(w, v, m, r, RoleKey(m, r));
    SweptNowStays(w, v, m, r, BindingKey(m, r));
    SnapshotsSweptStays(w.log, |w.log|, v.log, |v.log|, m, r, r.config.golden.value.space);
    ClearedStays(w.log, |w.log|, v.log, |v.log| - 1, m, r);
  }
}
