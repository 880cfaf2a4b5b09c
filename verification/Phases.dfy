/** The mutating phases of `teardown`, in order: Cluster, inventory refresh, namespaces, retained
    volumes. Each collects its failures and leaves the decision to the caller. */
module Phases {
  import opened Wrappers
  import opened Receipts
  import opened Kubernetes
  import opened Protocol
  import opened ProtocolLemmas
  import opened Steps
  import opened ApiServer
  import opened Lifecycle

  /** Objects no teardown ever deletes. */
  predicate Permanent(k: Key) {
    k.kind.GoldenClaim? || k.kind.LedgerSpace? || k.kind.SystemSpace?
  }

  /** Without other actors a run only removes objects, never a permanent one, and as long as the
      workload namespace is there nothing on the provider plane but the Cluster. */
  ghost predicate Shrinks(w: World, v: World, p: nat) {
    && (forall k :: k in v.store && !IsReceipt(k) ==> k in w.store && v.store[k] == w.store[k])
    && (forall k :: k in w.store && Permanent(k) ==> k in v.store)
    && (Key(p, Namespace) in v.store ==>
          forall k :: k in w.store && k.plane == p && !k.kind.Cluster? && !IsReceipt(k) ==> k in v.store)
  }

  ghost predicate Advances(foreign: bool, p: nat, w: World, v: World) {
    Quiet(foreign, w, v) && (!foreign ==> Shrinks(w, v, p))
  }

  lemma AdvancesTransitive(foreign: bool, p: nat, u: World, v: World, w: World)
    requires Advances(foreign, p, u, v) && Advances(foreign, p, v, w)
    ensures Advances(foreign, p, u, w)
  {
    QuietTransitive(foreign, u, v, w);
  }

  lemma ReadsShrink(foreign: bool, p: nat, w: World, v: World)
    requires Quiet(foreign, w, v) && (!foreign ==> v.store == w.store)
    ensures Advances(foreign, p, w, v)
  {
  }

  lemma DeletionShrinks(foreign: bool, p: nat, w: World, v: World, k: Key)
    requires Quiet(foreign, w, v) && (!foreign ==> OnlyTakes(w, v, k)) && !IsReceipt(k) && !Permanent(k)
    requires k.kind.Cluster? || k.kind.Namespace? || (!foreign ==> Key(p, Namespace) !in w.store)
    ensures Advances(foreign, p, w, v)
  {
  }

  /** k still holds the recorded object, or nothing. */
  predicate Undisturbed(w: World, k: Key, uid: Uid) {
    k in w.store ==> w.store[k].uid == uid
  }

  // ---- Cluster and namespaces: delete the bound object, then look again ----

  /** Deleting `uid` at k is on record, or `uid` was already seen gone. */
  ghost predicate Deletable(w: World, k: Key, uid: Uid, m: nat, r: Record) {
    MayDelete(w.log, |w.log|, k, uid, None, m, r) || Seen(w, k, uid)
  }

  lemma DeletableStays(w: World, v: World, k: Key, uid: Uid, m: nat, r: Record)
    requires Prefix(w.log, v.log) && Deletable(w, k, uid, m, r)
    ensures Deletable(v, k, uid, m, r)
  {
    if Seen(w, k, uid) {
      SeenStays(w, v, k, uid);
    } else {
      MayDeleteStays(w.log, |w.log|, v.log, |v.log|, k, uid, None, m, r);
    }
  }

  /** An object that was seen gone cannot be the one that was just read. */
  lemma LiveIsNotSeen(w: World, k: Key, uid: Uid, m: nat, r: Record)
    requires Inv(w) && Holds(w, k, uid) && Deletable(w, k, uid, m, r)
    ensures MayDelete(w.log, |w.log|, k, uid, None, m, r)
  {
    if Seen(w, k, uid) {
      SeenGoneIsGone(w, k, uid);
      assert false;
    }
  }

  method DeleteBound(api: Api, k: Key, uid: Uid, m: nat, r: Record, polls: nat) returns (failures: seq<Reason>)
    requires api.Valid() && (k.kind.Cluster? || k.kind.Namespace?) && Deletable(api.world, k, uid, m, r)
    modifies api
    ensures api.Onward() && Advances(api.foreign, Provider(m, r), old(api.world), api.world)
    ensures !api.foreign ==> OnlyTakes(old(api.world), api.world, k)
    ensures !api.foreign && !Undisturbed(old(api.world), k, uid) ==>
      failures != [] && api.world.store == old(api.world).store
    ensures !api.foreign && !api.faulty && Undisturbed(old(api.world), k, uid) ==>
      failures == [] && k !in api.world.store
  {
    hide MayDelete, Inv, Calm, Aged, SeenGone, Deletable, RunTo, Lawful;
    var p := Provider(m, r);
    var current := BoundResource(api, k, uid);
    ReadsShrink(api.foreign, p, old(api.world), api.world);
    ghost var w1 := api.world;
    match current
    case Err(e) => return [e];
    case Ok(None) => return [];
    case Ok(Some(o)) =>
      FoundIsKnown(w1, k);
      DeletableStays(old(api.world), w1, k, uid, m, r);
      LiveIsNotSeen(w1, k, uid, m, r);
      var deleted := PreconditionedDelete(api, k, o, false, m, r, polls);
      DeletionShrinks(api.foreign, p, w1, api.world, k);
      AdvancesTransitive(api.foreign, p, old(api.world), w1, api.world);
      return if deleted.Err? then [deleted.reason] else [];
  }

  /** The second look: only an explicit absence counts. */
  method SeenToBeGone(api: Api, k: Key, uid: Uid) returns (gone: bool, failures: seq<Reason>)
    requires api.Valid() && uid < api.world.nextUid
    modifies api
    ensures api.Onward() && Quiet(api.foreign, old(api.world), api.world)
    ensures gone ==> Seen(api.world, k, uid)
    ensures gone <==> failures == []
    ensures gone ==> k !in api.world.store
    ensures !api.foreign ==> api.world.store == old(api.world).store
    ensures !api.foreign && !api.faulty && k !in old(api.world).store ==> gone
  {
    hide Inv, Calm, Aged, SeenGone, RunTo, Lawful;
    var after := BoundResource(api, k, uid);
    match after
    case Err(e) => return false, [e];
    case Ok(Some(_)) => return false, [StillPresent];
    case Ok(None) =>
      UidsGrow(old(api.world), api.world);
      JustAbsentIsSeen(api.world, k, uid);
      return true, [];
  }

  lemma UidsGrow(w: World, v: World)
    requires Rely(w, v)
    ensures w.nextUid <= v.nextUid
  {
  }

  lemma QuietReflexive(foreign: bool, w: World)
    requires Inv(w)
    ensures Quiet(foreign, w, w)
  {
  }

  /** Deletes the recorded Cluster and reports whether it was then seen gone. */
  method DeleteCluster(api: Api, m: nat, r: Record, polls: nat) returns (gone: bool, failures: seq<Reason>)
    requires api.Valid() && Recorded(api.world.log, |api.world.log|, m, r) && r.cluster < api.world.nextUid
    modifies api
    ensures api.Onward() && Advances(api.foreign, Provider(m, r), old(api.world), api.world)
    ensures gone ==> Seen(api.world, Key(m, Cluster), r.cluster)
    ensures gone || failures != []
    ensures !api.foreign ==> OnlyTakes(old(api.world), api.world, Key(m, Cluster))
    ensures !api.foreign && gone ==> Key(m, Cluster) !in api.world.store
    ensures !api.foreign && !Undisturbed(old(api.world), Key(m, Cluster), r.cluster) ==>
      !gone && api.world.store == old(api.world).store
    ensures !api.foreign && !api.faulty && Undisturbed(old(api.world), Key(m, Cluster), r.cluster) ==>
      gone && failures == []
  {
    hide Inv, Calm, Aged, SeenGone, Recorded, RunTo, Lawful;
    var k := Key(m, Cluster);
    assert Deletable(api.world, k, r.cluster, m, r);
    var first := DeleteBound(api, k, r.cluster, m, r, polls);
    ghost var w1 := api.world;
    UidsGrow(old(api.world), w1);
    var seen, second := SeenToBeGone(api, k, r.cluster);
    ReadsShrink(api.foreign, Provider(m, r), w1, api.world);
    AdvancesTransitive(api.foreign, Provider(m, r), old(api.world), w1, api.world);
    return seen, first + second;
  }

  /** Deletes one namespace when allowed and reports whether it is then seen gone. */
  method DeleteSpace(api: Api, k: Key, uid: Uid, allowed: bool, m: nat, r: Record, polls: nat)
    returns (absent: bool, failures: seq<Reason>)
    requires api.Valid() && k.kind.Namespace? && uid < api.world.nextUid
    requires allowed ==> Deletable(api.world, k, uid, m, r)
    modifies api
    ensures api.Onward() && Advances(api.foreign, Provider(m, r), old(api.world), api.world)
    ensures absent ==> Seen(api.world, k, uid) && k !in api.world.store
    ensures absent || failures != []
    ensures !api.foreign && (!allowed || !Undisturbed(old(api.world), k, uid)) ==> api.world.store == old(api.world).store
    ensures !api.foreign && !api.faulty && allowed && Undisturbed(old(api.world), k, uid) ==> absent && failures == []
  {
    hide Inv, Calm, Aged, SeenGone, Deletable, RunTo, Lawful;
    failures := [];
    QuietReflexive(api.foreign, api.world);
    ReadsShrink(api.foreign, Provider(m, r), old(api.world), api.world);
    if allowed {
      failures := DeleteBound(api, k, uid, m, r, polls);
    }
    ghost var w1 := api.world;
    UidsGrow(old(api.world), w1);
    var seen, second := SeenToBeGone(api, k, uid);
    ReadsShrink(api.foreign, Provider(m, r), w1, api.world);
    AdvancesTransitive(api.foreign, Provider(m, r), old(api.world), w1, api.world);
    return seen, failures + second;
  }

  // ---- inventory refresh ----

  /** What a refresh of r may persist. */
  ghost predicate RefreshOf(w: World, m: nat, r: Record, next: Record) {
    var p := Provider(m, r);
    && ValidRecord(next) && Extends(r, next) && !next.complete && Key(p, Namespace) in w.store
    && next.dataVolumes == r.dataVolumes + CloneUids(w, p)
    && next.volumes == r.volumes + Kept(w, p, BoundVolumes(w, p), r.volumes)
    && VolumesAccounted(w, p, next.volumes, r.volumes)
    && (r.planes.Some? ==> forall n :: n in next.volumes ==> StorageMatches(w, p, n, next.storage[n]))
  }

  /** What the refresh needs to succeed when nothing interferes. */
  ghost predicate Refreshable(w: World, m: nat, r: Record) {
    var p := Provider(m, r);
    && Surveyable(w, p, r.config, ProviderSpace(r), r.volumes)
    && (r.planes.Some? ==> forall n :: n in r.volumes && n in r.storage ==> StorageMatches(w, p, n, r.storage[n]))
  }

  /** The run's own copy of the receipt it read or wrote. */
  ghost predicate Carries(w: World, m: nat, r: Record, copy: Object) {
    && copy.body.Ledger? && copy.body.text.parsed == Some(r) && Known(w, Key(m, Receipt), copy)
    && ValidRecord(r) && RecordBelow(r, w.nextUid)
  }

  lemma CarriesStays(w: World, v: World, m: nat, r: Record, copy: Object)
    requires Aged(w, v) && Carries(w, m, r, copy)
    ensures Carries(v, m, r, copy)
  {
    KnownStays(w, v, Key(m, Receipt), copy);
  }

  function Merge(r: Record, uids: set<Uid>, volumes: set<Name>, storage: map<Name, Storage>): Record {
    r.(dataVolumes := r.dataVolumes + uids, volumes := r.volumes + volumes, storage := storage)
  }

  /** Surveys the workload namespace again and merges what it finds into the record. */
  method MergeInventory(api: Api, m: nat, r: Record) returns (result: Result<Record>)
    requires api.Valid() && ValidRecord(r) && !r.complete
    requires Seen(api.world, Key(m, Cluster), r.cluster)
    modifies api
    ensures api.Onward() && Quiet(api.foreign, old(api.world), api.world)
    ensures result.Ok? ==>
      && ValidRecord(result.value) && Extends(r, result.value) && !result.value.complete
      && Inventoried(api.world.log, |api.world.log|, m, result.value, true)
      && AllRetained(api.world.log, |api.world.log|, Provider(m, r), result.value.volumes - r.volumes)
    ensures !api.foreign ==> api.world.store == old(api.world).store
    ensures !api.foreign && result.Ok? ==> RefreshOf(api.world, m, r, result.value)
    ensures !api.foreign && !api.faulty && Refreshable(old(api.world), m, r) ==> result.Ok?
  {
    hide Inv, Calm, Aged, SeenGone, Surveyed, Inventoried, StorageMatches, AllLooked, Captured,
         Collected, AllRetained, Kept, BoundVolumes, RunTo, Lawful;
    var p := Provider(m, r);
    var survey := TeardownInventory(api, p, r.config, ProviderSpace(r), r.volumes);
    if survey.Err? { return Err(survey.reason); }
    ghost var w1 := api.world;
    CollectedRetains(w1.log, |old(api.world).log|, p, survey.value.1, r.volumes);
    if !api.foreign { KeptAccounted(w1, p, BoundVolumes(w1, p), r.volumes); }
    var storage := r.storage;
    if r.planes.Some? {
      if !api.foreign { RefreshIdentifies(old(api.world), w1, m, r, survey.value.1); }
      var identified := TeardownStorageUids(api, p, r.volumes + survey.value.1, r.storage);
      QuietTransitive(api.foreign, old(api.world), w1, api.world);
      if identified.Err? { return Err(identified.reason); }
      storage := identified.value;
    }
    var next := Merge(r, survey.value.0, survey.value.1, storage);
    SurveyIsInventory(old(api.world), w1, m, next, survey.value.0, survey.value.1);
    InventoriedStays(w1.log, |w1.log|, api.world.log, |api.world.log|, m, next, true);
    assert next.volumes - r.volumes == survey.value.1 - r.volumes;
    AllRetainedStays(w1.log, |w1.log|, api.world.log, |api.world.log|, p, next.volumes - r.volumes);
    if !api.foreign { SameBound(w1, api.world, p, r.volumes); }
    return Ok(next);
  }

  lemma KeptAccounted(w: World, p: nat, bound: set<Name>, saved: set<Name>)
    ensures VolumesAccounted(w, p, Kept(w, p, bound, saved), saved)
  {
  }

  lemma SameBound(w: World, v: World, p: nat, saved: set<Name>)
    requires w.store == v.store
    ensures Kept(w, p, BoundVolumes(w, p), saved) == Kept(v, p, BoundVolumes(v, p), saved)
  {
    assert BoundVolumes(w, p) == BoundVolumes(v, p);
  }

  lemma RefreshIdentifies(w: World, w1: World, m: nat, r: Record, volumes: set<Name>)
    requires w.store == w1.store && ValidRecord(r) && r.planes.Some?
    requires VolumesAccounted(w1, Provider(m, r), volumes, r.volumes)
    ensures Refreshable(w, m, r) ==>
      forall n :: n in r.volumes + volumes ==> Identifiable(w1, Provider(m, r), n, SavedStorage(r.storage, n))
  {
  }

  /** Makes the merged inventory durable. `next` is the record it set out to write. */
  method RefreshInventory(api: Api, m: nat, r: Record, copy: Object)
    returns (result: Result<Object>, next: Record)
    requires api.Valid() && Carries(api.world, m, r, copy) && !r.complete
    requires Seen(api.world, Key(m, Cluster), r.cluster)
    modifies api
    ensures api.Onward() && Moves(api.foreign, old(api.world), api.world)
    ensures result.Ok? ==>
      && Extends(r, next) && !next.complete
      && Carries(api.world, m, next, result.value)
      && RecordedAs(api.world.log, |api.world.log|, m, next, Refreshed)
    ensures !api.foreign ==> forall j :: j != Key(m, Receipt) ==> SameAt(old(api.world), api.world, j)
    ensures !api.foreign && Matches(old(api.world), m, Some(copy)) ==>
      && (result.Ok? ==> Matches(api.world, m, Some(result.value)) && LedgerAt(api.world, m, Canonical(next)))
      && (SameAt(old(api.world), api.world, Key(m, Receipt))
          || (LedgerAt(api.world, m, Canonical(next)) && RefreshOf(old(api.world), m, r, next)))
      && (!api.faulty && Refreshable(old(api.world), m, r) ==>
            result.Ok? && RefreshOf(old(api.world), m, r, next))
  {
    hide Inv, Calm, Aged, SeenGone, Inventoried, AllRetained, RecordedAs, Known, RefreshOf, Refreshable, RunTo, Lawful;
    ghost var w0 := api.world;
    MovesReflexive(api.foreign, w0);
    next := r;
    var merged := MergeInventory(api, m, r);
    if merged.Err? { return Err(merged.reason), next; }
    next := merged.value;
    ghost var w1 := api.world;
    CarriesStays(w0, w1, m, r, copy);
    result := PersistRecord(api, m, next, Some(copy), Refreshed);
    MovesTransitive(api.foreign, w0, w1, api.world);
    UidsGrow(w0, api.world);
    if !api.foreign { SameRefresh(w0, w1, api.world, m, r, next); }
  }

  lemma SameRefresh(w: World, w1: World, v: World, m: nat, r: Record, next: Record)
    requires w.store == w1.store
    ensures RefreshOf(w, m, r, next) == RefreshOf(w1, m, r, next)
    ensures forall k :: SameAt(w, v, k) == SameAt(w1, v, k)
    ensures forall o :: Matches(w, m, o) == Matches(w1, m, o)
  {
  }

  predicate SpacesUndisturbed(w: World, m: nat, r: Record) {
    && Undisturbed(w, Key(Provider(m, r), Namespace), ProviderSpace(r))
    && Undisturbed(w, Key(m, Namespace), r.space)
  }

  predicate SpacesAbsent(w: World, m: nat, r: Record) {
    Key(Provider(m, r), Namespace) !in w.store && Key(m, Namespace) !in w.store
  }

  /** The provider namespace first; the management namespace only once that one is seen gone. */
  method DeleteSpaces(api: Api, m: nat, r: Record, clusterGone: bool, ready: bool, polls: nat)
    returns (absent: bool, failures: seq<Reason>)
    requires api.Valid() && RecordBelow(r, api.world.nextUid)
    requires Recorded(api.world.log, |api.world.log|, m, r)
    requires clusterGone ==> Seen(api.world, Key(m, Cluster), r.cluster)
    requires ready ==>
      || RecordedAs(api.world.log, |api.world.log|, m, r, Refreshed)
      || Seen(api.world, Key(Provider(m, r), Namespace), ProviderSpace(r))
    modifies api
    ensures api.Onward() && Advances(api.foreign, Provider(m, r), old(api.world), api.world)
    ensures absent && clusterGone ==> Cleared(api.world.log, |api.world.log|, m, r)
    ensures !api.foreign && absent ==> SpacesAbsent(api.world, m, r)
    ensures absent || failures != []
    ensures !api.foreign && !(clusterGone && ready) ==> api.world.store == old(api.world).store
    ensures !api.foreign && !api.faulty && clusterGone && ready && SpacesUndisturbed(old(api.world), m, r) ==>
      absent && failures == []
  {
    hide Inv, Calm, Aged, SeenGone, Recorded, RecordedAs, RunTo, Lawful;
    var p := Provider(m, r);
    var k := Key(p, Namespace);
    var allowed := clusterGone && ready;
    absent, failures := DeleteSpace(api, k, ProviderSpace(r), allowed, m, r, polls);
    ghost var w1 := api.world;
    UidsGrow(old(api.world), w1);
    if clusterGone { SeenStays(old(api.world), w1, Key(m, Cluster), r.cluster); }
    if r.planes.Some? {
      RecordedStays(old(api.world).log, |old(api.world).log|, w1.log, |w1.log|, m, r);
      var gone, more := DeleteSpace(api, Key(m, Namespace), r.space, allowed && absent, m, r, polls);
      AdvancesTransitive(api.foreign, p, old(api.world), w1, api.world);
      if clusterGone { SeenStays(w1, api.world, Key(m, Cluster), r.cluster); }
      if absent { SeenStays(w1, api.world, k, ProviderSpace(r)); }
      absent, failures := absent && gone, failures + more;
    }
  }
}
