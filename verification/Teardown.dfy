/** The whole `teardown` run: open or resume a generation, then delete, refresh, clear and complete.
    Proved here: retries converge, whatever point earlier runs crashed at. */
module Teardown {
  import opened Wrappers
  import opened Receipts
  import opened Kubernetes
  import opened Protocol
  import opened ProtocolLemmas
  import opened Steps
  import opened ApiServer
  import opened Lifecycle
  import opened Phases
  import opened Cleanup
  import opened Opening
  import History

  // ---- worlds from which an undisturbed run finishes ----

  /** The receipt holds this unfinished record, and the request and the world agree with it. */
  ghost predicate Fits(w: World, q: Request, r: Record) {
    && ReceiptRecord(w, q.management) == Some(r) && !r.complete
    && PlanesFit(q, r)
    && (q.local.Some? ==> q.local.value.config == r.config)
    && RecordFits(w, q.management, r)
  }

  ghost predicate Resumable(w: World, q: Request) {
    && Prepared(w, q)
    && ReceiptRecord(w, q.management).Some?
    && Fits(w, q, ReceiptRecord(w, q.management).value)
  }

  /** No receipt, or a completed one whose name was reused on a single plane. */
  predicate Replaceable(w: World, q: Request) {
    Key(q.management, Receipt) in w.store ==>
      && ReceiptRecord(w, q.management).Some?
      && var done := ReceiptRecord(w, q.management).value;
      done.complete && PlanesFit(q, done) && q.provider.None? && NameReused(w, q, done)
  }

  ghost predicate Startable(w: World, q: Request) {
    && Prepared(w, q) && q.local.Some?
    && Draftable(w, q, q.local.value.config)
    && Replaceable(w, q)
  }

  ghost predicate Finished(w: World, q: Request) {
    && Prepared(w, q)
    && ReceiptRecord(w, q.management).Some?
    && ReceiptRecord(w, q.management).value.complete
    && PlanesFit(q, ReceiptRecord(w, q.management).value)
    && GenerationAbsent(w, q)
  }

  /** Where runs of one request leave the planes when nobody else interferes. */
  ghost predicate Convergent(w: World, q: Request) {
    Startable(w, q) || Resumable(w, q) || Finished(w, q)
  }

  // ---- progress keeps a record fitting ----

  lemma WidenStays(w: World, v: World, m: nat, r: Record)
    requires Shrinks(w, v, Provider(m, r))
    requires GoldenUndisturbed(w, m, Widen(w, m, r))
    ensures GoldenUndisturbed(v, m, Widen(v, m, r))
  {
    hide ImageFits;
    var wide, next := Widen(w, m, r), Widen(v, m, r);
    var p := Provider(m, r);
    assert next.dataVolumes <= wide.dataVolumes by {
      if Key(p, Namespace) in v.store { assert CloneUids(v, p) <= CloneUids(w, p); }
    }
    GoldenNarrows(w, v, m, wide, next);
  }

  lemma GoldenNarrows(w: World, v: World, m: nat, wide: Record, r: Record)
    requires Shrinks(w, v, Provider(m, r)) && GoldenUndisturbed(w, m, wide)
    requires r.dataVolumes <= wide.dataVolumes && r == wide.(dataVolumes := r.dataVolumes)
    ensures GoldenUndisturbed(v, m, r)
  {
    if r.config.golden.Some? {
      var id := r.config.golden.value;
      assert Permanent(Key(Provider(m, r), GoldenClaim(id.space, id.claim)));
      assert RoleKey(m, r) == RoleKey(m, wide) && BindingKey(m, r) == BindingKey(m, wide);
      forall n | SnapshotKey(m, r, n) in v.store ensures Proper(r, v.store[SnapshotKey(m, r, n)].body) {
        assert SnapshotKey(m, wide, n) in w.store;
      }
    }
  }

  lemma RefreshableStays(w: World, v: World, m: nat, r: Record)
    requires Shrinks(w, v, Provider(m, r)) && Key(Provider(m, r), Namespace) in v.store
    requires Refreshable(w, m, r)
    ensures Refreshable(v, m, r)
  {
    var p := Provider(m, r);
    assert BoundVolumes(v, p) <= BoundVolumes(w, p);
  }

  lemma RecordFitsStays(w: World, v: World, m: nat, r: Record)
    requires Shrinks(w, v, Provider(m, r)) && RecordFits(w, m, r)
    ensures RecordFits(v, m, r)
  {
    hide Shrinks, Refreshable, GoldenUndisturbed, Widen, StorageUndisturbed;
    StorageStaysUndisturbed(w, v, m, r);
    WidenStays(w, v, m, r);
    UndisturbedStays(w, v, m, r);
    if Key(Provider(m, r), Namespace) in v.store { RefreshableStays(w, v, m, r); }
  }

  lemma UndisturbedStays(w: World, v: World, m: nat, r: Record)
    requires Shrinks(w, v, Provider(m, r)) && GenerationUndisturbed(w, m, r)
    ensures GenerationUndisturbed(v, m, r)
    ensures Key(Provider(m, r), Namespace) in v.store ==> Key(Provider(m, r), Namespace) in w.store
  {
  }

  /** A refreshed record fits wherever the record it extends did. */
  lemma RefreshedFits(w: World, m: nat, r: Record, next: Record)
    requires RecordFits(w, m, r) && RefreshOf(w, m, r, next)
    ensures RecordFits(w, m, next)
  {
    var p := Provider(m, r);
    assert Widen(w, m, next).dataVolumes == Widen(w, m, r).dataVolumes;
    GoldenNarrows'(w, m, Widen(w, m, r), Widen(w, m, next));
  }

  /** Golden cleanup depends only on the configuration and the DataVolume inventory. */
  lemma GoldenNarrows'(w: World, m: nat, a: Record, b: Record)
    requires GoldenUndisturbed(w, m, a) && SameGeneration(a, b) && a.dataVolumes == b.dataVolumes
    ensures GoldenUndisturbed(w, m, b)
  {
    if b.config.golden.Some? {
      assert RoleKey(m, a) == RoleKey(m, b) && BindingKey(m, a) == BindingKey(m, b);
      forall n | SnapshotKey(m, b, n) in w.store ensures Proper(b, w.store[SnapshotKey(m, b, n)].body) {
        assert SnapshotKey(m, a, n) in w.store;
      }
    }
  }

  /** The narrower obligation of the cleanup phase. */
  lemma FitsCleanup(w: World, m: nat, r: Record)
    requires RecordFits(w, m, r)
    ensures StorageUndisturbed(w, m, r) && GoldenUndisturbed(w, m, r)
    ensures GenerationUndisturbed(w, m, r)
  {
    GoldenNarrows(w, w, m, Widen(w, m, r), r);
  }

  // ---- opening: durable provenance before any deletion ----

  /** A split-plane record names the storage identity of every volume. */
  predicate StorageBound(q: Request, r: Record) {
    PlanesFit(q, r) && (r.planes.Some? ==> r.storage.Keys == r.volumes)
  }

  ghost predicate Agreeable(w: World, q: Request, r: Record) {
    q.confirmed && PlanesFit(q, r) && StorageUndisturbed(w, q.management, r)
  }

  /** Nothing the record names was replaced: what must hold before anything is deleted. */
  ghost predicate Corroborated(w: World, q: Request, r: Record) {
    GenerationUndisturbed(w, q.management, r) && StorageUndisturbed(w, q.management, r)
  }

  lemma SameCorroboration(w: World, v: World, q: Request, r: Record)
    requires forall j :: j != Key(q.management, Receipt) ==> SameAt(w, v, j)
    ensures Corroborated(w, q, r) ==> Corroborated(v, q, r)
  {
    SameElsewhere(w, v, q.management, Provider(q.management, r));
    if Corroborated(w, q, r) {
      StorageStaysUndisturbed(w, v, q.management, r);
      UndisturbedStays(w, v, q.management, r);
    }
  }

  /** Operator consent, then a look at every saved split-plane identity before any mutation. */
  method Consent(api: Api, q: Request, r: Record) returns (result: Result<()>)
    requires api.Valid()
    modifies api
    ensures api.Onward() && Quiet(api.foreign, old(api.world), api.world)
    ensures result.Ok? ==> q.confirmed
    ensures result.Ok? && StorageBound(q, r) && r.planes.Some? ==>
      AllLooked(api.world.log, |old(api.world).log|, |api.world.log|, Provider(q.management, r), r.volumes, r.storage)
    ensures !api.foreign ==> api.world.store == old(api.world).store
    ensures !api.foreign && result.Ok? && StorageBound(q, r) ==> StorageUndisturbed(api.world, q.management, r)
    ensures !api.foreign && !api.faulty && Agreeable(old(api.world), q, r) ==> result.Ok?
  {
    hide Inv, Calm, Aged, StorageMatches, AllLooked, Captured, RunTo, Lawful;
    MovesReflexive(api.foreign, api.world);
    if !q.confirmed { return Err(Declined); }
    if q.provider.None? { return Ok(()); }
    var checked := TeardownStorageUids(api, ProviderOf(q), r.volumes, r.storage);
    assert checked.Ok? && r.storage.Keys == r.volumes ==> checked.value == r.storage;
    return if checked.Ok? then Ok(()) else Err(checked.reason);
  }

  ghost predicate Bindable(w: World, q: Request, r: Record) {
    PlanesFit(q, r) && GenerationLive(w, q) && GenerationUndisturbed(w, q.management, r)
  }

  /** The drafted identities are still live right before they are recorded. */
  method Rebind(api: Api, q: Request, r: Record) returns (result: Result<()>)
    requires api.Valid()
    modifies api
    ensures api.Onward() && Quiet(api.foreign, old(api.world), api.world)
    ensures result.Ok? && PlanesFit(q, r) ==>
      IdentitiesRead(api.world.log, |old(api.world).log|, |api.world.log|, q.management, r)
    ensures !api.foreign ==> api.world.store == old(api.world).store
    ensures !api.foreign && result.Ok? && PlanesFit(q, r) ==>
      GenerationLive(api.world, q) && GenerationUndisturbed(api.world, q.management, r)
    ensures !api.foreign && !api.faulty && Bindable(old(api.world), q, r) ==> result.Ok?
  {
    hide Inv, Calm, Aged, Quiet, ReadAs, ReadNone, RunTo, Lawful;
    var cluster := BoundResource(api, Key(q.management, Cluster), r.cluster);
    if cluster.Err? { return Err(cluster.reason); }
    ghost var w1 := api.world;
    var space := BoundResource(api, Key(q.management, Namespace), r.space);
    QuietTransitive(api.foreign, old(api.world), w1, api.world);
    if space.Err? { return Err(space.reason); }
    if cluster.value.None? || space.value.None? { return Err(GenerationNotLive); }
    BothRead(api.foreign, old(api.world), w1, api.world,
             Key(q.management, Cluster), r.cluster, Key(q.management, Namespace), r.space);
    if q.provider.Some? {
      ghost var w2 := api.world;
      space := BoundResource(api, Key(ProviderOf(q), Namespace), ProviderSpace(r));
      QuietTransitive(api.foreign, old(api.world), w2, api.world);
      if space.Err? { return Err(space.reason); }
      if space.value.None? { return Err(GenerationNotLive); }
      BothRead(api.foreign, old(api.world), w2, api.world,
               Key(q.management, Cluster), r.cluster, Key(ProviderOf(q), Namespace), ProviderSpace(r));
      BothRead(api.foreign, old(api.world), w2, api.world,
               Key(q.management, Namespace), r.space, Key(ProviderOf(q), Namespace), ProviderSpace(r));
    }
    return Ok(());
  }

  /** Two reads in a row. */
  lemma BothRead(foreign: bool, w: World, w1: World, v: World, first: Key, one: Uid, second: Key, two: Uid)
    requires Quiet(foreign, w, w1) && Quiet(foreign, w1, v)
    requires ReadAs(w1.log, |w.log|, |w1.log|, first, one) && ReadAs(v.log, |w1.log|, |v.log|, second, two)
    ensures ReadAs(v.log, |w.log|, |v.log|, first, one) && ReadAs(v.log, |w.log|, |v.log|, second, two)
  {
    hide Looked, ReadAs, Inv, Aged, Calm;
    ReadStays(w1.log, v.log, |w.log|, |w.log|, first, one);
    ReadStays(v.log, v.log, |w.log|, |w1.log|, second, two);
  }

  /** A receipt that a new generation may overwrite. */
  ghost predicate Overwritable(w: World, q: Request, existing: Option<Object>) {
    existing.Some? ==>
      && existing.value.body.Ledger? && existing.value.body.text.parsed.Some?
      && var done := existing.value.body.text.parsed.value;
      && Carries(w, q.management, done, existing.value)
      && done.complete && PlanesFit(q, done) && q.provider.None? && Outlived(w, q.management, done)
  }

  lemma BeginJustified(w: World, v: World, q: Request, existing: Option<Object>, r: Record)
    requires Overwritable(w, q, existing) && PlanesFit(q, r) && !r.complete
    requires Current(w, v, Key(q.management, Cluster), r.cluster)
    requires Current(w, v, Key(q.management, Namespace), r.space)
    requires Inventoried(v.log, |v.log|, q.management, r, false)
    requires AllRetained(v.log, |v.log|, ProviderOf(q), r.volumes)
    ensures ValidRecord(r) ==> MayWrite(v.log, |v.log|, q.management, TextOf(existing), Canonical(r), Begun)
  {
  }

  /** A drafted record that can be carried through from w. */
  ghost predicate Begins(w: World, q: Request, c: Config, r: Record) {
    && ValidRecord(r) && PlanesFit(q, r) && !r.complete && r.config == c
    && RecordFits(w, q.management, r)
  }

  lemma DraftBegins(w: World, v: World, q: Request, c: Config, r: Record)
    requires w.store == v.store && Inv(v) && Draftable(w, q, c) && Drafted(v, q, c, r)
    requires q.provider.Some? ==> q.provider.value != q.management
    ensures Begins(w, q, c, r)
    ensures (q.confirmed ==> Agreeable(v, q, r)) && Bindable(v, q, r)
  {
    assert Drafted(w, q, c, r) by { SameDraft(w, v, q, c, r); }
    DraftFits(w, q, c, r);
  }

  lemma SameDraft(w: World, v: World, q: Request, c: Config, r: Record)
    requires w.store == v.store
    ensures Drafted(w, q, c, r) == Drafted(v, q, c, r)
  {
    SameIdentity(w, v, q);
    SameView(w, v, ProviderOf(q), c);
  }

  lemma SameAgreement(w: World, v: World, q: Request, r: Record)
    requires w.store == v.store
    ensures Agreeable(w, q, r) == Agreeable(v, q, r) && Bindable(w, q, r) == Bindable(v, q, r)
  {
  }

  lemma DraftAges(foreign: bool, w0: World, w1: World, v: World, q: Request, r: Record)
    requires Quiet(foreign, w1, v)
    requires Current(w0, w1, Key(q.management, Cluster), r.cluster)
    requires Current(w0, w1, Key(q.management, Namespace), r.space)
    requires Inventoried(w1.log, |w1.log|, q.management, r, false) && RecordBelow(r, w1.nextUid)
    requires AllRetained(w1.log, |w1.log|, ProviderOf(q), r.volumes)
    ensures Current(w0, v, Key(q.management, Cluster), r.cluster)
    ensures Current(w0, v, Key(q.management, Namespace), r.space)
    ensures Inventoried(v.log, |v.log|, q.management, r, false) && RecordBelow(r, v.nextUid)
    ensures AllRetained(v.log, |v.log|, ProviderOf(q), r.volumes)
  {
    AllRetainedStays(w1.log, |w1.log|, v.log, |v.log|, ProviderOf(q), r.volumes);
    InventoriedStays(w1.log, |w1.log|, v.log, |v.log|, q.management, r, false);
    CurrentStays(w0, w1, v, Key(q.management, Cluster), r.cluster);
    CurrentStays(w0, w1, v, Key(q.management, Namespace), r.space);
  }

  /** The persisted copy is one the run can carry on. */
  lemma Persisted(foreign: bool, w: World, v: World, m: nat, r: Record, copy: Object, origin: Origin)
    requires Moves(foreign, w, v) && ValidRecord(r) && RecordBelow(r, w.nextUid)
    requires copy.body.Ledger? && copy.body.text == Canonical(r) && Known(v, Key(m, Receipt), copy)
    requires RecordedAs(v.log, |v.log|, m, r, origin)
    ensures Carries(v, m, r, copy) && Recorded(v.log, |v.log|, m, r)
  {
  }

  lemma DraftCorroborated(w1: World, w2: World, v: World, q: Request, c: Config, r: Record)
    requires w1.store == w2.store == v.store && Drafted(w1, q, c, r) && PlanesFit(q, r)
    requires StorageBound(q, r) ==> StorageUndisturbed(w2, q.management, r)
    requires GenerationUndisturbed(v, q.management, r)
    ensures Corroborated(v, q, r)
  {
  }

  /** Vetted, and the three identities were there. */
  ghost predicate Confirmed(log: seq<Event>, from: nat, n: nat, m: nat, r: Record)
    requires n <= |log|
  {
    Vetted(log, from, n, m, r) && IdentitiesRead(log, from, n, m, r)
  }

  lemma DraftConfirmed(foreign: bool, w0: World, w1: World, w2: World, v: World, q: Request, r: Record)
    requires Quiet(foreign, w0, w1) && Quiet(foreign, w1, w2) && Quiet(foreign, w2, v)
    requires PlanesFit(q, r) && StorageFormed(q, r.volumes, r.storage)
    requires StorageBound(q, r) && r.planes.Some? ==>
      AllLooked(w2.log, |w1.log|, |w2.log|, Provider(q.management, r), r.volumes, r.storage)
    requires IdentitiesRead(v.log, |w2.log|, |v.log|, q.management, r)
    ensures Confirmed(v.log, |w0.log|, |v.log|, q.management, r)
  {
    hide AllLooked, IdentitiesRead, IdentitiesLooked, Inv, Aged, Calm;
    IdentitiesStay(v.log, v.log, |w0.log|, |w2.log|, q.management, r);
    ReadIsLooked(v.log, |w0.log|, q.management, r);
    if r.planes.Some? {
      AllLookedStays(w2.log, v.log, |w0.log|, |w1.log|, Provider(q.management, r), r.volumes, r.storage);
    }
  }

  lemma ConfirmedStays(foreign: bool, w: World, v: World, from: nat, m: nat, r: Record)
    requires Moves(foreign, w, v) && Confirmed(w.log, from, |w.log|, m, r)
    ensures Confirmed(v.log, from, |v.log|, m, r)
  {
    hide Vetted, IdentitiesRead, IdentitiesLooked, Inv, Aged, Calm;
    VettedStays(w.log, v.log, from, from, m, r);
    IdentitiesStay(w.log, v.log, from, from, m, r);
  }

  /** Draft, consent and a last look at the identities: everything before the first write. */
  method PrepareRecord(api: Api, q: Request, c: Config) returns (result: Result<Record>)
    requires api.Valid() && (q.provider.Some? ==> q.provider.value != q.management)
    modifies api
    ensures api.Onward() && Quiet(api.foreign, old(api.world), api.world)
    ensures result.Ok? ==> var r := result.value;
      && q.confirmed && PlanesFit(q, r) && RecordBelow(r, api.world.nextUid) && !r.complete && r.config == c
      && Inventoried(api.world.log, |api.world.log|, q.management, r, false)
      && AllRetained(api.world.log, |api.world.log|, ProviderOf(q), r.volumes)
      && Current(old(api.world), api.world, Key(q.management, Cluster), r.cluster)
      && Current(old(api.world), api.world, Key(q.management, Namespace), r.space)
      && Confirmed(api.world.log, |old(api.world).log|, |api.world.log|, q.management, r)
    ensures !api.foreign ==> api.world.store == old(api.world).store
    ensures !api.foreign && result.Ok? ==> Corroborated(api.world, q, result.value)
    ensures !api.foreign && result.Ok? && Draftable(old(api.world), q, c) ==> Begins(old(api.world), q, c, result.value)
    ensures !api.foreign && !api.faulty && q.confirmed && Draftable(old(api.world), q, c) ==> result.Ok?
  {
    hide Inv, Calm, Aged, Quiet, Moves, Current, Inventoried, Drafted, Draftable, Begins, Agreeable, Bindable,
         RecordBelow, Corroborated, StorageUndisturbed, GenerationUndisturbed, AllLooked, IdentitiesRead, Confirmed,
         AllRetained, RunTo, Lawful;
    ghost var w0 := api.world;
    var draft := DraftRecord(api, q, c);
    ghost var w1 := api.world;
    if draft.Err? { return draft; }
    var r := draft.value;
    if !api.foreign && Draftable(w0, q, c) { DraftBegins(w0, w1, q, c, r); }
    var agreed := Consent(api, q, r);
    ghost var w2 := api.world;
    QuietTransitive(api.foreign, w0, w1, w2);
    if agreed.Err? { return Err(agreed.reason); }
    if !api.foreign { SameAgreement(w1, w2, q, r); }
    var bound := Rebind(api, q, r);
    QuietTransitive(api.foreign, w0, w2, api.world);
    QuietTransitive(api.foreign, w1, w2, api.world);
    if bound.Err? { return Err(bound.reason); }
    if !api.foreign { DraftCorroborated(w1, w2, api.world, q, c, r); }
    DraftAges(api.foreign, w0, w1, api.world, q, r);
    DraftConfirmed(api.foreign, w0, w1, w2, api.world, q, r);
    return Ok(r);
  }

  /** Makes the record of a new generation durable. */
  method BeginRecord(api: Api, q: Request, c: Config, existing: Option<Object>)
    returns (result: Result<Object>, r: Record)
    requires api.Valid() && (q.provider.Some? ==> q.provider.value != q.management)
    requires Overwritable(api.world, q, existing)
    modifies api
    ensures api.Onward() && Moves(api.foreign, old(api.world), api.world)
    ensures result.Ok? ==>
      && q.confirmed && PlanesFit(q, r) && !r.complete && r.config == c
      && Carries(api.world, q.management, r, result.value)
      && Recorded(api.world.log, |api.world.log|, q.management, r)
      && Confirmed(api.world.log, |old(api.world).log|, |api.world.log|, q.management, r)
    ensures !api.foreign ==> forall j :: j != Key(q.management, Receipt) ==> SameAt(old(api.world), api.world, j)
    ensures !api.foreign && result.Ok? ==> Corroborated(api.world, q, r)
    ensures !api.foreign && Matches(old(api.world), q.management, existing) && Draftable(old(api.world), q, c) ==>
      && (result.Ok? ==> Matches(api.world, q.management, Some(result.value)) && LedgerAt(api.world, q.management, Canonical(r)))
      && (SameAt(old(api.world), api.world, Key(q.management, Receipt))
          || (LedgerAt(api.world, q.management, Canonical(r)) && Begins(old(api.world), q, c, r)))
      && (!api.faulty && q.confirmed ==> result.Ok? && Begins(old(api.world), q, c, r))
  {
    hide Inv, Calm, Aged, Quiet, Moves, Current, Inventoried, Known, Recorded, RecordedAs, Draftable, RecordFits,
         RecordBelow, Carries, LedgerAt, Corroborated, Confirmed, AllRetained, RunTo, Lawful;
    var m := q.management;
    ghost var w0 := api.world;
    r := NewRecord(q, c, Identity(0, 0, 0), None, {}, {}, map[]);
    var prepared := PrepareRecord(api, q, c);
    ghost var w1 := api.world;
    QuietMoves(api.foreign, w0, w1);
    if prepared.Err? { return Err(prepared.reason), r; }
    r := prepared.value;
    OverwritableCopy(api.foreign, w0, w1, q, existing);
    BeginJustified(w0, w1, q, existing, r);
    result := PersistRecord(api, m, r, existing, Begun);
    MovesTransitive(api.foreign, w0, w1, api.world);
    if !api.foreign { SameStart(w0, w1, api.world); SameCorroboration(w1, api.world, q, r); }
    if result.Ok? {
      Persisted(api.foreign, w1, api.world, m, r, result.value, Begun);
      ConfirmedStays(api.foreign, w1, api.world, |w0.log|, m, r);
    }
  }

  lemma OverwritableCopy(foreign: bool, w: World, v: World, q: Request, existing: Option<Object>)
    requires Quiet(foreign, w, v) && Overwritable(w, q, existing)
    ensures existing.Some? ==> existing.value.body.Ledger? && Known(v, Key(q.management, Receipt), existing.value)
  {
    KnownAfter(foreign, w, v, Key(q.management, Receipt), existing);
  }

  // ---- opening ----

  /** Where a run stands once its provenance is durable; `present` is whether the workload namespace
      was there when its identity was bound. */
  datatype Opened = AlreadyDone(done: Record) | Ready(record: Record, copy: Object, present: bool)

  ghost predicate Standing(w: World, q: Request, o: Opened) {
    && (o.AlreadyDone? ==> CompleteOnRecord(w, q, o.done))
    && (o.Ready? ==>
      && q.confirmed && PlanesFit(q, o.record) && !o.record.complete
      && Carries(w, q.management, o.record, o.copy)
      && Recorded(w.log, |w.log|, q.management, o.record)
      && (!o.present ==> Seen(w, Key(ProviderOf(q), Namespace), ProviderSpace(o.record))))
  }

  /** In a calm world: the run's copy is the receipt, and the record can be carried through. */
  ghost predicate Steady(w: World, q: Request, r: Record, copy: Object) {
    Prepared(w, q) && Fits(w, q, r) && Matches(w, q.management, Some(copy))
  }

  method ResumeRecord(api: Api, q: Request, r: Record, copy: Object) returns (result: Result<Opened>)
    requires api.Valid() && PlanesFit(q, r) && !r.complete && Carries(api.world, q.management, r, copy)
    requires Recorded(api.world.log, |api.world.log|, q.management, r)
    modifies api
    ensures api.Onward() && Quiet(api.foreign, old(api.world), api.world)
    ensures result.Ok? ==> Standing(api.world, q, result.value) && result.value.Ready?
    ensures result.Ok? ==> result.value.record == r
    ensures result.Ok? ==> Vetted(api.world.log, |old(api.world).log|, |api.world.log|, q.management, r)
    ensures !api.foreign ==> api.world.store == old(api.world).store
    ensures !api.foreign && result.Ok? ==>
      && result.value.record == r && result.value.copy == copy
      && (result.value.present <==> Key(ProviderOf(q), Namespace) in api.world.store)
    ensures !api.foreign && result.Ok? ==> Corroborated(api.world, q, r)
    ensures !api.foreign && !api.faulty && q.confirmed && RecordFits(old(api.world), q.management, r) ==> result.Ok?
  {
    hide Inv, Calm, Aged, Quiet, Moves, Known, SeenGone, Recorded, RecordFits, StorageUndisturbed, AllLooked,
         IdentitiesLooked, RunTo, Lawful;
    ghost var w0 := api.world;
    if RecordFits(w0, q.management, r) { FitsCleanup(w0, q.management, r); }
    var present := BindRecord(api, q, r);
    if present.Err? { return Err(present.reason); }
    ghost var w1 := api.world;
    if !api.foreign { SameAgreement(w0, w1, q, r); }
    var agreed := Consent(api, q, r);
    QuietTransitive(api.foreign, w0, w1, api.world);
    if agreed.Err? { return Err(agreed.reason); }
    if !api.foreign { ResumeCorroborated(w1, api.world, q, r, copy); }
    ResumeStands(api.foreign, w0, w1, api.world, q, r, copy, present.value);
    ResumeVetted(api.foreign, w0, w1, api.world, q, r);
    return Ok(Ready(r, copy, present.value));
  }

  lemma ResumeCorroborated(w1: World, v: World, q: Request, r: Record, copy: Object)
    requires w1.store == v.store && PlanesFit(q, r) && ValidRecord(r)
    requires GenerationUndisturbed(w1, q.management, r) && (StorageBound(q, r) ==> StorageUndisturbed(v, q.management, r))
    ensures Corroborated(v, q, r)
  {
  }

  lemma ResumeVetted(foreign: bool, w0: World, w1: World, v: World, q: Request, r: Record)
    requires Quiet(foreign, w0, w1) && Quiet(foreign, w1, v) && PlanesFit(q, r) && ValidRecord(r)
    requires IdentitiesLooked(w1.log, |w0.log|, |w1.log|, q.management, r)
    requires StorageBound(q, r) && r.planes.Some? ==>
      AllLooked(v.log, |w1.log|, |v.log|, Provider(q.management, r), r.volumes, r.storage)
    ensures Vetted(v.log, |w0.log|, |v.log|, q.management, r)
  {
    hide AllLooked, IdentitiesLooked, Inv, Aged, Calm;
    IdentitiesStay(w1.log, v.log, |w0.log|, |w0.log|, q.management, r);
    if r.planes.Some? {
      AllLookedStays(v.log, v.log, |w0.log|, |w1.log|, Provider(q.management, r), r.volumes, r.storage);
    }
  }

  lemma ResumeStands(foreign: bool, w0: World, w1: World, v: World, q: Request, r: Record, copy: Object, present: bool)
    requires Quiet(foreign, w0, v) && Quiet(foreign, w1, v) && q.confirmed
    requires PlanesFit(q, r) && !r.complete && Carries(w0, q.management, r, copy)
    requires Recorded(w0.log, |w0.log|, q.management, r)
    requires !present ==> Seen(w1, Key(ProviderOf(q), Namespace), ProviderSpace(r))
    ensures Standing(v, q, Ready(r, copy, present))
  {
    CarriesStays(w0, v, q.management, r, copy);
    RecordedStays(w0.log, |w0.log|, v.log, |v.log|, q.management, r);
    if !present { SeenStays(w1, v, Key(ProviderOf(q), Namespace), ProviderSpace(r)); }
  }

  datatype Choice = Done(done: Record) | Anew(existing: Option<Object>) | Continue(record: Record, copy: Object)

  /** A completed record of this request's planes is in the history. */
  ghost predicate CompleteOnRecord(w: World, q: Request, r: Record) {
    r.complete && PlanesFit(q, r) && Recorded(w.log, |w.log|, q.management, r)
  }

  ghost predicate Chosen(w: World, q: Request, choice: Choice) {
    match choice
    case Done(r) => CompleteOnRecord(w, q, r)
    case Anew(existing) => q.local.Some? && Overwritable(w, q, existing)
    case Continue(r, copy) =>
      && PlanesFit(q, r) && !r.complete && Carries(w, q.management, r, copy)
      && Recorded(w.log, |w.log|, q.management, r)
      && (q.local.Some? ==> q.local.value.config == r.config)
  }

  /** What the choice says about a calm world. */
  ghost predicate Tallies(w: World, q: Request, choice: Choice) {
    match choice
    case Done(r) =>
      ReceiptRecord(w, q.management) == Some(r) && r.complete && PlanesFit(q, r) && GenerationAbsent(w, q)
    case Anew(existing) => Matches(w, q.management, existing) && Replaceable(w, q)
    case Continue(r, copy) => ReceiptRecord(w, q.management) == Some(r) && Matches(w, q.management, Some(copy))
  }

  /** What becomes of a completed receipt. */
  method ChooseCompleted(api: Api, q: Request, r: Record, copy: Object) returns (result: Result<Choice>)
    requires api.Valid() && CompleteOnRecord(api.world, q, r) && Carries(api.world, q.management, r, copy)
    modifies api
    ensures api.Onward() && Quiet(api.foreign, old(api.world), api.world) && api.sent == old(api.sent)
    ensures result.Ok? ==> Chosen(api.world, q, result.value) && !result.value.Continue?
    ensures !api.foreign ==> api.world.store == old(api.world).store
    ensures !api.foreign && result.Ok? && Tallies(old(api.world), q, Continue(r, copy)) ==>
      Tallies(api.world, q, result.value)
    ensures !api.foreign && !api.faulty && GenerationAbsent(old(api.world), q) ==> result.Ok?
    ensures !api.foreign && !api.faulty && q.local.Some? && q.provider.None? && NameReused(old(api.world), q, r) ==> result.Ok?
  {
    hide Inv, Calm, Aged, Quiet, Outlived, Known, RunTo, Lawful;
    var judged := JudgeCompleted(api, q, r);
    if judged.Err? { return Err(judged.reason); }
    if judged.value.TornDown? {
      OnRecordAfter(api.foreign, old(api.world), api.world, q, r);
      return Ok(Done(r));
    }
    if q.local.None? { return Err(LocalConfigAbsent); }
    CarriesAfter(api.foreign, old(api.world), api.world, q.management, r, copy);
    return Ok(Anew(Some(copy)));
  }

  lemma OnRecordAfter(foreign: bool, w: World, v: World, q: Request, r: Record)
    requires Quiet(foreign, w, v) && CompleteOnRecord(w, q, r)
    ensures CompleteOnRecord(v, q, r)
  {
    RecordedStays(w.log, |w.log|, v.log, |v.log|, q.management, r);
  }

  lemma CarriesAfter(foreign: bool, w: World, v: World, m: nat, r: Record, copy: Object)
    requires Quiet(foreign, w, v) && Carries(w, m, r, copy)
    ensures Carries(v, m, r, copy)
  {
    CarriesStays(w, v, m, r, copy);
  }

  /** Reads the receipt and decides; sends nothing. */
  method Choose(api: Api, q: Request) returns (result: Result<Choice>)
    requires api.Valid()
    modifies api
    ensures api.Onward() && Quiet(api.foreign, old(api.world), api.world) && api.sent == old(api.sent)
    ensures result.Ok? ==> Chosen(api.world, q, result.value) && (q.provider.Some? ==> q.provider.value != q.management)
    ensures !api.foreign ==> api.world.store == old(api.world).store
    ensures !api.foreign && result.Ok? ==> Tallies(api.world, q, result.value)
    ensures !api.foreign && !api.faulty && Convergent(old(api.world), q) ==> result.Ok?
  {
    hide Inv, Calm, Aged, Quiet, Carries, Recorded, Draftable, RecordFits, Overwritable, RunTo, Lawful;
    ghost var w0 := api.world;
    var ready := Preflight(api, q);
    if ready.Err? { return Err(ready.reason); }
    ghost var w1 := api.world;
    var receipt := ReadReceipt(api, q.management);
    QuietTransitive(api.foreign, w0, w1, api.world);
    if receipt.Err? { return Err(receipt.reason); }
    if receipt.value.None? {
      if q.local.None? { return Err(LocalConfigAbsent); }
      NothingToOverwrite(api.world, q);
      return Ok(Anew(None));
    }
    var copy := receipt.value.value;
    var r := copy.body.text.parsed.value;
    if !PlanesAgree(ready.value, r) { return Err(PlaneDiffers); }
    if r.complete {
      ghost var w2 := api.world;
      result := ChooseCompleted(api, q, r, copy);
      QuietTransitive(api.foreign, w0, w2, api.world);
    } else {
      if q.local.Some? && q.local.value.config != r.config { return Err(ConfigDiffers); }
      return Ok(Continue(r, copy));
    }
  }

  lemma NothingToOverwrite(w: World, q: Request)
    ensures Overwritable(w, q, None)
  {
  }

  // ---- one run ----

  lemma SameElsewhere(w: World, v: World, m: nat, p: nat)
    requires forall j :: j != Key(m, Receipt) ==> SameAt(w, v, j)
    ensures Shrinks(w, v, p) && Shrinks(v, w, p)
  {
    forall k | !IsReceipt(k) || Permanent(k) ensures k != Key(m, Receipt) && SameAt(w, v, k) {}
  }

  lemma PreparedSame(w: World, v: World, q: Request)
    requires forall j :: j != Key(q.management, Receipt) ==> SameAt(w, v, j)
    ensures Prepared(w, q) ==> Prepared(v, q)
    ensures Key(ProviderOf(q), Namespace) in w.store <==> Key(ProviderOf(q), Namespace) in v.store
  {
    SameElsewhere(w, v, q.management, ProviderOf(q));
    if Prepared(w, q) { PreparedStays(w, v, q); }
    assert SameAt(w, v, Key(ProviderOf(q), Namespace));
  }

  /** After the first write the record on the server is the one the run carries on. */
  lemma BegunFits(w: World, v: World, q: Request, c: Config, r: Record)
    requires forall j :: j != Key(q.management, Receipt) ==> SameAt(w, v, j)
    requires Begins(w, q, c, r) && LedgerAt(v, q.management, Canonical(r))
    requires q.local.Some? ==> q.local.value.config == c
    ensures Fits(v, q, r)
  {
    SameElsewhere(w, v, q.management, Provider(q.management, r));
    RecordFitsStays(w, v, q.management, r);
  }

  lemma SameConvergent(w: World, v: World, q: Request)
    requires v.store == w.store
    ensures Startable(w, q) == Startable(v, q) && Resumable(w, q) == Resumable(v, q) && Finished(w, q) == Finished(v, q)
    ensures forall r, copy :: Steady(w, q, r, copy) == Steady(v, q, r, copy)
    ensures Convergent(w, q) ==> q.confirmed
  {
    SameDraftable(w, v, q);
    forall r ensures RecordFits(w, q.management, r) == RecordFits(v, q.management, r) {
      var p := Provider(q.management, r);
      assert Shrinks(w, v, p) && Shrinks(v, w, p);
      if RecordFits(w, q.management, r) { RecordFitsStays(w, v, q.management, r); }
      if RecordFits(v, q.management, r) { RecordFitsStays(v, w, q.management, r); }
    }
  }

  lemma SameDraftable(w: World, v: World, q: Request)
    requires v.store == w.store
    ensures forall c :: Draftable(w, q, c) == Draftable(v, q, c)
  {
    SameIdentity(w, v, q);
    forall c ensures Draftable(w, q, c) == Draftable(v, q, c) {
      SameView(w, v, ProviderOf(q), c);
    }
  }

  /** In a calm world opening leaves the planes convergent, and hands on what is there. */
  ghost predicate Opens(w: World, q: Request, result: Result<Opened>) {
    && Convergent(w, q)
    && (result.Ok? && result.value.AlreadyDone? ==> Finished(w, q))
    && (result.Ok? && result.value.Ready? ==>
          && Steady(w, q, result.value.record, result.value.copy)
          && (result.value.present <==> Key(ProviderOf(q), Namespace) in w.store))
  }

  /** What beginning a generation does to a calm world in which its draft can be carried through. */
  ghost predicate BeginEffect(w: World, v: World, q: Request, c: Config, r: Record, existing: Option<Object>, begun: Result<Object>) {
    Matches(w, q.management, existing) && Draftable(w, q, c) ==>
      && (begun.Ok? ==> Matches(v, q.management, Some(begun.value)) && LedgerAt(v, q.management, Canonical(r)) && ValidRecord(r) && !r.complete)
      && (SameAt(w, v, Key(q.management, Receipt)) || (LedgerAt(v, q.management, Canonical(r)) && Begins(w, q, c, r)))
  }

  lemma BegunOpens(w: World, v: World, q: Request, r: Record, existing: Option<Object>, begun: Result<Object>)
    requires forall j :: j != Key(q.management, Receipt) ==> SameAt(w, v, j)
    requires q.local.Some? && BeginEffect(w, v, q, q.local.value.config, r, existing, begun)
    requires Convergent(w, q) && Tallies(w, q, Anew(existing))
    ensures Opens(v, q, if begun.Ok? then Ok(Ready(r, begun.value, true)) else Err(begun.reason))
  {
    hide Draftable, RecordFits, Prepared;
    var c := q.local.value.config;
    assert Startable(w, q);
    PreparedSame(w, v, q);
    DraftableIsLive(w, q, c);
    if SameAt(w, v, Key(q.management, Receipt)) {
      SameEverywhere(w, v, q.management);
      SameConvergent(w, v, q);
    } else {
      BegunFits(w, v, q, c, r);
    }
  }

  lemma SameEverywhere(w: World, v: World, m: nat)
    requires forall j :: SameAt(w, v, j)
    ensures v.store == w.store
  {
    assert v.store.Keys == w.store.Keys by {
      forall j ensures j in v.store.Keys <==> j in w.store.Keys { assert SameAt(w, v, j); }
    }
    forall j | j in w.store ensures v.store[j] == w.store[j] { assert SameAt(w, v, j); }
  }

  lemma DraftableIsLive(w: World, q: Request, c: Config)
    requires Draftable(w, q, c)
    ensures Key(ProviderOf(q), Namespace) in w.store && !GenerationAbsent(w, q)
  {
  }

  lemma VettedEarlier(foreign: bool, w: World, w1: World, v: World, m: nat, r: Record)
    requires Moves(foreign, w, w1) && Moves(foreign, w1, v) && Vetted(v.log, |w1.log|, |v.log|, m, r)
    ensures Vetted(v.log, |w.log|, |v.log|, m, r)
  {
    hide Vetted, Inv, Aged, Calm;
    VettedStays(v.log, v.log, |w.log|, |w1.log|, m, r);
  }

  /** `teardown` up to the first deletion: choose, then begin or resume. */
  method Open(api: Api, q: Request) returns (result: Result<Opened>)
    requires api.Valid()
    modifies api
    ensures api.Onward() && Moves(api.foreign, old(api.world), api.world)
    ensures result.Ok? ==> Standing(api.world, q, result.value)
    ensures result.Ok? && result.value.Ready? ==>
      Vetted(api.world.log, |old(api.world).log|, |api.world.log|, q.management, result.value.record)
    ensures !api.foreign ==> forall j :: j != Key(q.management, Receipt) ==> SameAt(old(api.world), api.world, j)
    ensures !api.foreign && result.Ok? && result.value.Ready? ==>
      && Corroborated(api.world, q, result.value.record)
      && (q.local.Some? ==> q.local.value.config == result.value.record.config)
    ensures !api.foreign && result.Ok? && result.value.AlreadyDone? ==> TornDownBefore(old(api.world), q)
    ensures !api.foreign && Convergent(old(api.world), q) ==> Opens(api.world, q, result)
    ensures !api.foreign && Finished(old(api.world), q) ==> api.world.store == old(api.world).store && api.sent == old(api.sent)
    ensures !api.foreign && !api.faulty && Convergent(old(api.world), q) ==> result.Ok?
  {
    hide Inv, Calm, Aged, Quiet, Moves, Carries, Recorded, Draftable, RecordFits, Overwritable, Prepared, Known,
         Vetted, IdentitiesRead, RunTo, Lawful;
    ghost var w0 := api.world;
    var choice := Choose(api, q);
    ghost var w1 := api.world;
    QuietMoves(api.foreign, w0, w1);
    if !api.foreign { SameConvergent(w0, w1, q); SameStart(w0, w1, w1); }
    if choice.Err? { return Err(choice.reason); }
    match choice.value
    case Done(r) => return Ok(AlreadyDone(r));
    case Continue(r, copy) =>
      result := ResumeRecord(api, q, r, copy);
      QuietMoves(api.foreign, w1, api.world);
      MovesTransitive(api.foreign, w0, w1, api.world);
      if result.Ok? { VettedEarlier(api.foreign, w0, w1, api.world, q.management, r); }
      if !api.foreign { SameConvergent(w1, api.world, q); }
    case Anew(existing) =>
      var c := q.local.value.config;
      var begun, r := BeginRecord(api, q, c, existing);
      MovesTransitive(api.foreign, w0, w1, api.world);
      if !api.foreign {
        SameStart(w0, w1, api.world);
        if Convergent(w1, q) { BegunOpens(w1, api.world, q, r, existing, begun); }
      }
      if begun.Err? { return Err(begun.reason); }
      VettedEarlier(api.foreign, w0, w1, api.world, q.management, r);
      return Ok(Ready(r, begun.value, true));
  }

  // ---- deleting, refreshing, clearing ----

  /** The record a run works on while it mutates, and its copy of the receipt. */
  ghost predicate Working(w: World, q: Request, r: Record, copy: Object) {
    && PlanesFit(q, r) && !r.complete && Carries(w, q.management, r, copy)
    && Recorded(w.log, |w.log|, q.management, r)
  }

  lemma WorkingStays(foreign: bool, w: World, v: World, q: Request, r: Record, copy: Object)
    requires Moves(foreign, w, v) && Working(w, q, r, copy)
    ensures Working(v, q, r, copy)
  {
    CarriesStays(w, v, q.management, r, copy);
    RecordedStays(w.log, |w.log|, v.log, |v.log|, q.management, r);
  }

  lemma WorkingBelow(w: World, q: Request, r: Record, copy: Object)
    requires Working(w, q, r, copy)
    ensures RecordBelow(r, w.nextUid) && ValidRecord(r)
  {
  }

  /** Deletions that leave the receipt alone keep a calm run on course. */
  lemma SteadyStays(w: World, v: World, q: Request, r: Record, copy: Object)
    requires Advances(false, Provider(q.management, r), w, v) && Steady(w, q, r, copy)
    ensures Steady(v, q, r, copy)
  {
    assert SameAt(w, v, Key(q.management, Receipt)) by { assert IsReceipt(Key(q.management, Receipt)); }
    RecordFitsStays(w, v, q.management, r);
    assert Provider(q.management, r) == ProviderOf(q);
    PreparedStays(w, v, q);
  }

  /** The Cluster goes first; then, while its namespace is still there, the inventory is refreshed. */
  method Drain(api: Api, q: Request, r: Record, copy: Object, present: bool, polls: nat)
    returns (gone: bool, ready: bool, next: Record, latest: Object, failures: seq<Reason>)
    requires api.Valid() && Working(api.world, q, r, copy)
    requires !present ==> Seen(api.world, Key(ProviderOf(q), Namespace), ProviderSpace(r))
    modifies api
    ensures api.Onward() && Moves(api.foreign, old(api.world), api.world)
    ensures Working(api.world, q, next, latest) && Extends(r, next)
    ensures gone ==> Seen(api.world, Key(q.management, Cluster), r.cluster)
    ensures ready ==>
      || RecordedAs(api.world.log, |api.world.log|, q.management, next, Refreshed)
      || Seen(api.world, Key(ProviderOf(q), Namespace), ProviderSpace(r))
    ensures failures == [] ==> gone && ready
    ensures !api.foreign && Aboard(old(api.world), q, r, copy, present) ==>
      && Resumable(api.world, q)
      && (failures == [] ==> Steady(api.world, q, next, latest) && Key(q.management, Cluster) !in api.world.store)
      && (!api.faulty ==> failures == [])
  {
    hide Inv, Calm, Aged, Quiet, Moves, Carries, Recorded, RecordedAs, SeenGone, Steady, Resumable, Shrinks, RunTo, Lawful;
    var m := q.management;
    ghost var w0 := api.world;
    next, latest := r, copy;
    WorkingBelow(w0, q, r, copy);
    gone, failures := DeleteCluster(api, m, r, polls);
    ready := !present;
    ghost var w1 := api.world;
    QuietMoves(api.foreign, w0, w1);
    WorkingStays(api.foreign, w0, w1, q, r, copy);
    if !present { SeenAfter(api.foreign, w0, w1, Key(ProviderOf(q), Namespace), ProviderSpace(r)); }
    if !api.foreign && Aboard(w0, q, r, copy, present) {
      AboardStays(w0, w1, q, r, copy, present);
    }
    if gone && present {
      var refreshed, merged := RefreshInventory(api, m, r, copy);
      MovesTransitive(api.foreign, w0, w1, api.world);
      SeenAfter(api.foreign, w1, api.world, Key(m, Cluster), r.cluster);
      WorkingStays(api.foreign, w1, api.world, q, r, copy);
      if !api.foreign && Aboard(w0, q, r, copy, present) {
        RefreshStays(w1, api.world, q, r, copy, merged, refreshed);
      }
      if refreshed.Ok? {
        next, latest, ready := merged, refreshed.value, true;
        NextWorks(api.world, q, r, next, latest);
      } else {
        failures := failures + [refreshed.reason];
      }
    }
  }

  /** A calm run that has just bound its record. */
  ghost predicate Aboard(w: World, q: Request, r: Record, copy: Object, present: bool) {
    Steady(w, q, r, copy) && (present <==> Key(ProviderOf(q), Namespace) in w.store)
  }

  lemma SeenAfter(foreign: bool, w: World, v: World, k: Key, uid: Uid)
    requires Moves(foreign, w, v) && Seen(w, k, uid)
    ensures Seen(v, k, uid)
  {
    SeenStays(w, v, k, uid);
  }

  lemma AboardStays(w: World, v: World, q: Request, r: Record, copy: Object, present: bool)
    requires Advances(false, Provider(q.management, r), w, v) && OnlyTakes(w, v, Key(q.management, Cluster))
    requires Aboard(w, q, r, copy, present) && PlanesFit(q, r)
    ensures Aboard(v, q, r, copy, present) && Resumable(v, q)
    ensures Undisturbed(w, Key(q.management, Cluster), r.cluster)
    ensures present ==> Refreshable(v, q.management, r)
    ensures Matches(v, q.management, Some(copy))
  {
    SteadyStays(w, v, q, r, copy);
  }

  lemma RefreshStays(w: World, v: World, q: Request, r: Record, copy: Object, next: Record, refreshed: Result<Object>)
    requires forall j :: j != Key(q.management, Receipt) ==> SameAt(w, v, j)
    requires Steady(w, q, r, copy)
    requires SameAt(w, v, Key(q.management, Receipt))
             || (LedgerAt(v, q.management, Canonical(next)) && RefreshOf(w, q.management, r, next))
    requires refreshed.Ok? ==>
      && Matches(v, q.management, Some(refreshed.value)) && LedgerAt(v, q.management, Canonical(next))
      && Extends(r, next) && !next.complete && Carries(v, q.management, next, refreshed.value)
    ensures Resumable(v, q)
    ensures refreshed.Ok? ==> Steady(v, q, next, refreshed.value)
    ensures Key(q.management, Cluster) in v.store <==> Key(q.management, Cluster) in w.store
  {
    hide RefreshOf, RecordFits, Prepared;
    var m := q.management;
    SameElsewhere(w, v, m, Provider(m, r));
    PreparedSame(w, v, q);
    RecordFitsStays(w, v, m, r);
    if RefreshOf(w, m, r, next) {
      RefreshExtends(w, m, r, next);
      RefreshedFits(w, m, r, next);
      SameElsewhere(w, v, m, Provider(m, next));
      RecordFitsStays(w, v, m, next);
    }
    assert SameAt(w, v, Key(m, Cluster));
  }

  lemma RefreshExtends(w: World, m: nat, r: Record, next: Record)
    requires RefreshOf(w, m, r, next)
    ensures ValidRecord(next) && Extends(r, next) && !next.complete
  {
  }

  lemma NextWorks(w: World, q: Request, r: Record, next: Record, latest: Object)
    requires PlanesFit(q, r) && Extends(r, next) && !next.complete && Carries(w, q.management, next, latest)
    requires RecordedAs(w.log, |w.log|, q.management, next, Refreshed)
    ensures Working(w, q, next, latest)
  {
  }

  /** What completion needs on record. */
  ghost predicate AllSwept(w: World, m: nat, r: Record) {
    && Cleared(w.log, |w.log|, m, r) && StorageSwept(w.log, |w.log|, m, r) && GoldenSwept(w.log, |w.log|, m, r)
  }

  /** Storage and clone cleanup, entered only once the generation is seen gone. */
  method CleanUp(api: Api, m: nat, r: Record, polls: nat) returns (failures: seq<Reason>)
    requires api.Valid() && ClearedNow(api.world, m, r) && ValidRecord(r)
    requires !api.foreign ==> SpacesAbsent(api.world, m, r)
    modifies api
    ensures api.Onward() && Advances(api.foreign, Provider(m, r), old(api.world), api.world)
    ensures failures == [] ==> AllSwept(api.world, m, r)
    ensures !api.faulty && r.planes.None? ==>
      BackingTried(api.world.log, |old(api.world).log|, |api.world.log|, Provider(m, r), r.volumes)
    ensures !api.foreign && failures == [] ==> NoneLeft(api.world, m, r, r.volumes, !api.faulty)
    // each half is done even where the other fails
    ensures !api.foreign && !api.faulty ==> EachDone(old(api.world), api.world, m, r, r.volumes)
    ensures !api.foreign && !api.faulty && GoldenUndisturbed(old(api.world), m, r) ==>
      GoldenSwept(api.world.log, |api.world.log|, m, r)
    ensures !api.foreign && !api.faulty
      && StorageUndisturbed(old(api.world), m, r) && GoldenUndisturbed(old(api.world), m, r)
      ==> failures == []
  {
    hide Inv, Calm, Aged, Quiet, Cleared, Recorded, StorageSwept, GoldenSwept, Shrinks, StorageUndisturbed,
         GoldenUndisturbed, BackingTried, NoneLeft, BackingGone, EachDone, RunTo, Lawful;
    ghost var w0 := api.world;
    failures := CleanupRetainedVolumes(api, m, r, polls);
    ghost var w1 := api.world;
    ClearedAfter(api.foreign, w0, w1, m, r);
    if r.config.golden.Some? {
      if !api.foreign && GoldenUndisturbed(w0, m, r) { GoldenStays(w0, w1, m, r); }
      var authorization := CleanupAuthorization(api, m, r, polls);
      AdvancesTransitive(api.foreign, Provider(m, r), w0, w1, api.world);
      ClearedAfter(api.foreign, w1, api.world, m, r);
      LeftAfter(api.foreign, !api.faulty, w0, w1, api.world, m, r, failures == []);
      if !api.foreign && EachDone(w0, w1, m, r, r.volumes) { EachStays(w0, w1, api.world, m, r); }
      if failures == [] { StorageAfter(api.foreign, w1, api.world, m, r); }
      if authorization.Err? { failures := failures + [authorization.reason]; }
    } else {
      NoGolden(w1, m, r);
    }
    if failures == [] { ClearedIsCleared(api.world, m, r); }
  }

  lemma EachStays(start: World, w: World, v: World, m: nat, r: Record)
    requires Shrinks(w, v, Provider(m, r)) && EachDone(start, w, m, r, r.volumes)
    ensures EachDone(start, v, m, r, r.volumes)
  {
    assert forall n, p :: !IsReceipt(Key(p, Volume(n))) && !IsReceipt(Key(p, Longhorn(n)));
  }

  /** Later steps of a run bring no volume back. */
  lemma LeftAfter(foreign: bool, sure: bool, w0: World, w: World, v: World, m: nat, r: Record, done: bool)
    requires Advances(foreign, Provider(m, r), w0, w) && Advances(foreign, Provider(m, r), w, v)
    ensures BackingTried(w.log, |w0.log|, |w.log|, Provider(m, r), r.volumes) ==>
      BackingTried(v.log, |w0.log|, |v.log|, Provider(m, r), r.volumes)
    ensures BackingTried(v.log, |w.log|, |v.log|, Provider(m, r), r.volumes) ==>
      BackingTried(v.log, |w0.log|, |v.log|, Provider(m, r), r.volumes)
    ensures !foreign && done && NoneLeft(w, m, r, r.volumes, sure) ==> NoneLeft(v, m, r, r.volumes, sure)
  {
    hide BackingTried, NoneLeft, Inv, Aged, Calm, Shrinks;
    var p := Provider(m, r);
    if BackingTried(w.log, |w0.log|, |w.log|, p, r.volumes) {
      BackingTriedStays(w.log, v.log, |w0.log|, |w0.log|, p, r.volumes);
    }
    if BackingTried(v.log, |w.log|, |v.log|, p, r.volumes) {
      BackingTriedStays(v.log, v.log, |w0.log|, |w.log|, p, r.volumes);
    }
    if !foreign && NoneLeft(w, m, r, r.volumes, sure) { NoneLeftStays(w, v, m, r, r.volumes, sure); }
  }

  lemma StorageAfter(foreign: bool, w: World, v: World, m: nat, r: Record)
    requires Quiet(foreign, w, v) && StorageSwept(w.log, |w.log|, m, r)
    ensures StorageSwept(v.log, |v.log|, m, r)
  {
    StorageSweptStays(w.log, |w.log|, v.log, |v.log|, m, r);
  }

  lemma NoGolden(w: World, m: nat, r: Record)
    requires r.config.golden.None?
    ensures GoldenSwept(w.log, |w.log|, m, r)
  {
  }

  lemma ClearedIsCleared(w: World, m: nat, r: Record)
    requires ClearedNow(w, m, r)
    ensures Cleared(w.log, |w.log|, m, r)
  {
  }

  /** Namespaces, then cleanup. Without the Cluster gone and the inventory durable this only looks. */
  method Clear(api: Api, q: Request, r: Record, copy: Object, gone: bool, ready: bool, polls: nat)
    returns (failures: seq<Reason>)
    requires api.Valid() && Working(api.world, q, r, copy)
    requires gone ==> Seen(api.world, Key(q.management, Cluster), r.cluster)
    requires ready ==>
      || RecordedAs(api.world.log, |api.world.log|, q.management, r, Refreshed)
      || Seen(api.world, Key(ProviderOf(q), Namespace), ProviderSpace(r))
    modifies api
    ensures api.Onward() && Advances(api.foreign, Provider(q.management, r), old(api.world), api.world)
    ensures gone && failures == [] ==> AllSwept(api.world, q.management, r)
    ensures gone && failures == [] && !api.faulty && r.planes.None? ==>
      BackingTried(api.world.log, |old(api.world).log|, |api.world.log|, Provider(q.management, r), r.volumes)
    ensures !api.foreign && gone && failures == [] ==> NoneLeft(api.world, q.management, r, r.volumes, !api.faulty)
    ensures !api.foreign && failures == [] ==> SpacesAbsent(api.world, q.management, r)
    ensures !api.foreign && !api.faulty && gone && ready && RecordFits(old(api.world), q.management, r) ==> failures == []
  {
    hide Inv, Calm, Aged, Quiet, Moves, Carries, Recorded, RecordedAs, SeenGone, Shrinks, AllSwept, Cleared,
         RecordFits, StorageUndisturbed, GoldenUndisturbed, GenerationUndisturbed, BackingTried, NoneLeft, RunTo, Lawful;
    var m := q.management;
    ghost var w0 := api.world;
    WorkingBelow(w0, q, r, copy);
    if RecordFits(w0, m, r) { FitsCleanup(w0, m, r); UndisturbedSpaces(w0, m, r); }
    var absent, failed := DeleteSpaces(api, m, r, gone, ready, polls);
    ghost var w1 := api.world;
    failures := failed;
    if gone && absent {
      ClearedNowAfter(api.foreign, w0, w1, m, r);
      if !api.foreign && RecordFits(w0, m, r) { FitsAfter(w0, w1, m, r); }
      var more := CleanUp(api, m, r, polls);
      AdvancesTransitive(api.foreign, Provider(m, r), w0, w1, api.world);
      LeftAfter(api.foreign, !api.faulty, w0, w1, api.world, m, r, true);
      if !api.foreign { SpacesStayAbsent(w1, api.world, m, r); }
      failures := failures + more;
    }
  }

  lemma UndisturbedSpaces(w: World, m: nat, r: Record)
    requires GenerationUndisturbed(w, m, r)
    ensures SpacesUndisturbed(w, m, r)
  {
  }

  lemma ClearedNowAfter(foreign: bool, w: World, v: World, m: nat, r: Record)
    requires Quiet(foreign, w, v) && Recorded(w.log, |w.log|, m, r) && Cleared(v.log, |v.log|, m, r)
    ensures ClearedNow(v, m, r)
  {
    RecordedStays(w.log, |w.log|, v.log, |v.log|, m, r);
  }

  lemma FitsAfter(w: World, v: World, m: nat, r: Record)
    requires Advances(false, Provider(m, r), w, v) && RecordFits(w, m, r)
    ensures StorageUndisturbed(v, m, r) && GoldenUndisturbed(v, m, r)
  {
    RecordFitsStays(w, v, m, r);
    FitsCleanup(v, m, r);
  }

  lemma SpacesStayAbsent(w: World, v: World, m: nat, r: Record)
    requires Advances(false, Provider(m, r), w, v) && SpacesAbsent(w, m, r)
    ensures SpacesAbsent(v, m, r)
  {
  }

  /** The completion marker, written under the version of the last copy. */
  method Complete(api: Api, q: Request, r: Record, copy: Object) returns (result: Result<Object>)
    requires api.Valid() && Working(api.world, q, r, copy) && AllSwept(api.world, q.management, r)
    modifies api
    ensures api.Onward() && Moves(api.foreign, old(api.world), api.world)
    ensures result.Ok? ==> RecordedAs(api.world.log, |api.world.log|, q.management, r.(complete := true), Completed)
    ensures !api.foreign && Ending(old(api.world), q, r, copy) ==>
      && Convergent(api.world, q) && (result.Ok? ==> Finished(api.world, q)) && (!api.faulty ==> result.Ok?)
  {
    hide Inv, Calm, Aged, Quiet, Moves, Known, Recorded, RecordedAs, AllSwept, LedgerAt, Ending, Convergent, Finished,
         RunTo, Lawful;
    ghost var w0 := api.world;
    CompletionJustified(w0, q.management, r, copy);
    if Ending(w0, q, r, copy) { EndingMatches(w0, q, r, copy); }
    result := PersistRecord(api, q.management, r.(complete := true), Some(copy), Completed);
    if !api.foreign && Ending(w0, q, r, copy) { CompletionConverges(w0, api.world, q, r, copy); }
  }

  /** A calm run whose generation is gone. */
  ghost predicate Ending(w: World, q: Request, r: Record, copy: Object) {
    Steady(w, q, r, copy) && GenerationAbsent(w, q)
  }

  lemma EndingMatches(w: World, q: Request, r: Record, copy: Object)
    requires Ending(w, q, r, copy)
    ensures Matches(w, q.management, Some(copy))
  {
  }

  lemma CompletionJustified(w: World, m: nat, r: Record, copy: Object)
    requires AllSwept(w, m, r) && !r.complete && ValidRecord(r)
    requires copy.body.Ledger? && copy.body.text.parsed == Some(r)
    ensures ValidRecord(r.(complete := true))
    ensures MayWrite(w.log, |w.log|, m, TextOf(Some(copy)), Canonical(r.(complete := true)), Completed)
  {
    hide Cleared, StorageSwept, GoldenSwept;
    CompletedSwept(w, m, r);
  }

  lemma DoneSweptAt(log: seq<Event>, n: nat, m: nat, r: Record, k: Key)
    requires n <= |log| && SweptAt(log, n, m, r, k)
    ensures SweptAt(log, n, m, r.(complete := true), k)
  {
    var i :| 0 <= i < n && log[i].Absent? && log[i].key == k && Cleared(log, i, m, r);
    assert Cleared(log, i, m, r.(complete := true));
  }

  lemma DoneGolden(log: seq<Event>, n: nat, m: nat, r: Record)
    requires n <= |log| && GoldenSwept(log, n, m, r) && r.config.golden.Some?
    ensures SnapshotsSwept(log, n, m, r.(complete := true), r.config.golden.value.space)
    ensures ImageUnchanged(log, n, m, r.(complete := true), r.config.golden.value, r.evidence.value)
  {
    hide SweptAt, SeenGone;
    var id, done := r.config.golden.value, r.(complete := true);
    if r.dataVolumes != {} {
      var i :| 0 <= i < n && log[i].Snapshots? && log[i].plane == Provider(m, r) && log[i].space == id.space
               && log[i].owners !! r.dataVolumes && Cleared(log, i, m, r);
      assert Cleared(log, i, m, done);
    }
    var i :| 0 <= i < n && log[i] == SawImage(Provider(m, r), id, r.evidence.value) && Cleared(log, i, m, r);
    assert Cleared(log, i, m, done);
  }

  /** The completion flag plays no part in what was swept. */
  lemma CompletedSwept(w: World, m: nat, r: Record)
    requires AllSwept(w, m, r)
    ensures AllSwept(w, m, r.(complete := true))
  {
    hide SweptAt, SeenGone, SnapshotsSwept, ImageUnchanged;
    var p, done := Provider(m, r), r.(complete := true);
    forall name | name in r.volumes
      ensures SweptAt(w.log, |w.log|, m, done, Key(p, Volume(name)))
      ensures r.planes.Some? ==> SweptAt(w.log, |w.log|, m, done, Key(p, Longhorn(name)))
    {
      DoneSweptAt(w.log, |w.log|, m, r, Key(p, Volume(name)));
      if r.planes.Some? { DoneSweptAt(w.log, |w.log|, m, r, Key(p, Longhorn(name))); }
    }
    if r.config.golden.Some? {
      DoneSweptAt(w.log, |w.log|, m, r, RoleKey(m, r));
      DoneSweptAt(w.log, |w.log|, m, r, BindingKey(m, r));
      DoneGolden(w.log, |w.log|, m, r);
    }
  }

  lemma CompletionConverges(w: World, v: World, q: Request, r: Record, copy: Object)
    requires Ending(w, q, r, copy) && ValidRecord(r)
    requires forall j :: j != Key(q.management, Receipt) ==> SameAt(w, v, j)
    requires SameAt(w, v, Key(q.management, Receipt)) || LedgerAt(v, q.management, Canonical(r.(complete := true)))
    ensures Convergent(v, q)
    ensures LedgerAt(v, q.management, Canonical(r.(complete := true))) ==> Finished(v, q)
  {
    var m, done := q.management, r.(complete := true);
    PreparedSame(w, v, q);
    assert GenerationAbsent(v, q) by {
      assert SameAt(w, v, Key(m, Cluster)) && SameAt(w, v, Key(m, Namespace)) && SameAt(w, v, Key(ProviderOf(q), Namespace));
    }
    if LedgerAt(v, m, Canonical(done)) {
      assert ValidRecord(done);
      assert Finished(v, q);
    } else {
      SameElsewhere(w, v, m, Provider(m, r));
      RecordFitsStays(w, v, m, r);
      assert Resumable(v, q);
    }
  }

  /** Everything after provenance is durable. */
  method RunPhases(api: Api, q: Request, r: Record, copy: Object, present: bool, polls: nat) returns (result: Result<Record>)
    requires api.Valid() && Working(api.world, q, r, copy)
    requires !present ==> Seen(api.world, Key(ProviderOf(q), Namespace), ProviderSpace(r))
    modifies api
    ensures api.Onward() && Moves(api.foreign, old(api.world), api.world)
    ensures result.Ok? ==>
      && CompleteOnRecord(api.world, q, result.value) && Extends(r, result.value)
      && RecordedAs(api.world.log, |api.world.log|, q.management, result.value, Completed)
    ensures result.Ok? && !api.faulty && r.planes.None? ==>
      BackingTried(api.world.log, |old(api.world).log|, |api.world.log|, q.management, result.value.volumes)
    ensures !api.foreign && result.Ok? ==>
      NoneLeft(api.world, q.management, result.value, result.value.volumes, !api.faulty)
    ensures !api.foreign && Aboard(old(api.world), q, r, copy, present) ==>
      && Convergent(api.world, q)
      && (result.Ok? ==> Finished(api.world, q))
      && (!api.faulty ==> result.Ok?)
  {
    hide Inv, Calm, Aged, Quiet, Moves, Carries, Recorded, RecordedAs, SeenGone, Shrinks, AllSwept, RecordFits,
         Steady, Resumable, Finished, Startable, BackingTried, NoneLeft, RunTo, Lawful;
    var m := q.management;
    ghost var w0 := api.world;
    ghost var calm := !api.foreign && Aboard(w0, q, r, copy, present);
    var gone, ready, next, latest, failures := Drain(api, q, r, copy, present, polls);
    ghost var w1 := api.world;
    if calm && failures == [] { SteadyFits(w1, q, next, latest); }
    if ready && !RecordedAs(w1.log, |w1.log|, m, next, Refreshed) { SameProviderSpace(r, next); }
    var more := Clear(api, q, next, latest, gone, ready, polls);
    ghost var w2 := api.world;
    QuietMoves(api.foreign, w1, w2);
    MovesTransitive(api.foreign, w0, w1, w2);
    WorkingStays(api.foreign, w1, w2, q, next, latest);
    if calm { ResumableStays(w1, w2, q, next); }
    if failures + more != [] { return Err(TeardownIncomplete); }
    if calm {
      SteadyStays(w1, w2, q, next, latest);
      AbsentAtEnd(w1, w2, q, next, latest);
    }
    var completed := Complete(api, q, next, latest);
    MovesTransitive(api.foreign, w0, w2, api.world);
    if completed.Err? { return Err(completed.reason); }
    LeftAtEnd(api.foreign, !api.faulty, w0, w1, w2, api.world, q.management, r, next);
    CompletedOnRecord(api.world, q, next);
    return Ok(next.(complete := true));
  }

  lemma LeftAtEnd(foreign: bool, sure: bool, w0: World, w1: World, w2: World, v: World, m: nat, r: Record, next: Record)
    requires Moves(foreign, w0, w1) && Moves(foreign, w1, w2) && Moves(foreign, w2, v) && Extends(r, next)
    ensures r.planes.None? && BackingTried(w2.log, |w1.log|, |w2.log|, Provider(m, next), next.volumes) ==>
      BackingTried(v.log, |w0.log|, |v.log|, m, next.volumes)
    ensures !foreign && NoneLeft(w2, m, next, next.volumes, sure) ==>
      NoneLeft(v, m, next.(complete := true), next.volumes, sure)
  {
    hide BackingTried, Inv, Aged;
    if r.planes.None? && BackingTried(w2.log, |w1.log|, |w2.log|, Provider(m, next), next.volumes) {
      BackingTriedStays(w2.log, v.log, |w0.log|, |w1.log|, m, next.volumes);
    }
    assert forall n, p :: !IsReceipt(Key(p, Volume(n))) && !IsReceipt(Key(p, Longhorn(n)));
  }

  lemma SteadyFits(w: World, q: Request, r: Record, copy: Object)
    requires Steady(w, q, r, copy)
    ensures RecordFits(w, q.management, r)
  {
  }

  lemma SameProviderSpace(r: Record, next: Record)
    requires Extends(r, next)
    ensures ProviderSpace(r) == ProviderSpace(next)
  {
  }

  lemma ResumableStays(w: World, v: World, q: Request, r: Record)
    requires Advances(false, Provider(q.management, r), w, v) && Resumable(w, q) && PlanesFit(q, r)
    ensures Resumable(v, q)
  {
    var k := Key(q.management, Receipt);
    assert SameAt(w, v, k) by { assert IsReceipt(k); }
    var current := ReceiptRecord(w, q.management).value;
    assert Provider(q.management, current) == ProviderOf(q);
    RecordFitsStays(w, v, q.management, current);
    PreparedStays(w, v, q);
  }

  lemma AbsentAtEnd(w: World, v: World, q: Request, r: Record, copy: Object)
    requires Advances(false, Provider(q.management, r), w, v) && PlanesFit(q, r)
    requires Key(q.management, Cluster) !in w.store && SpacesAbsent(v, q.management, r) && Steady(v, q, r, copy)
    ensures Ending(v, q, r, copy)
  {
    assert !IsReceipt(Key(q.management, Cluster));
  }

  lemma CompletedOnRecord(w: World, q: Request, r: Record)
    requires PlanesFit(q, r) && RecordedAs(w.log, |w.log|, q.management, r.(complete := true), Completed)
    ensures CompleteOnRecord(w, q, r.(complete := true))
  {
  }

  /** A completed receipt of these planes, and nothing of its generation is there. */
  predicate TornDownBefore(w: World, q: Request) {
    && ReceiptRecord(w, q.management).Some? && ReceiptRecord(w, q.management).value.complete
    && PlanesFit(q, ReceiptRecord(w, q.management).value) && GenerationAbsent(w, q)
  }

  /** `teardown`. `removed`: the local render directory was deleted. */
  method Teardown(api: Api, q: Request, polls: nat) returns (result: Result<Record>, removed: bool)
    requires api.Valid()
    modifies api
    ensures api.Onward() && Moves(api.foreign, old(api.world), api.world)
    ensures result.Ok? ==> CompleteOnRecord(api.world, q, result.value)
    // at this world of the run: what a completed record attests, and what became of everything that is gone
    ensures result.Ok? ==>
      || History.TornDown(api.worlds, |api.steps|, q.management, result.value)
      || RecordedAs(api.world.log, |api.world.log|, q.management, result.value, Migrated)
    ensures History.Accounted(api.worlds, api.steps, |old(api.worlds)| - 1, |api.steps|)
    // what is left of the volumes when this call did the work
    ensures !api.foreign && result.Ok? && !TornDownBefore(old(api.world), q) ==>
      NoneLeft(api.world, q.management, result.value, result.value.volumes, !api.faulty)
    ensures removed ==> result.Ok? && q.provider.None? && !q.preserve
    ensures result.Ok? && q.local.Some? && q.provider.None? && !q.preserve ==> removed
    ensures !api.foreign && Convergent(old(api.world), q) ==>
      && Convergent(api.world, q)
      && (result.Ok? ==> Finished(api.world, q))
      && (!api.faulty ==> result.Ok?)
    ensures !api.foreign && Finished(old(api.world), q) ==>
      api.world.store == old(api.world).store && api.sent == old(api.sent)
  {
    hide Inv, Calm, Aged, Quiet, Moves, Carries, Recorded, RecordedAs, SeenGone, Convergent, Finished, Steady,
         RunTo, Lawful, Vetted, BackingTried, NoneLeft,
         History.TornDown, History.Accounted;
    ghost var w0, from := api.world, api.worlds;
    removed := false;
    if Finished(w0, q) { FinishedConverges(w0, q); }
    StartOfRun(api.worlds, api.steps, w0);
    var entry := Open(api, q);
    History.RunAccounts(from, api.worlds, api.steps, api.world);
    if entry.Err? { return Err(entry.reason), removed; }
    match entry.value
    case AlreadyDone(done) =>
      removed := q.local.Some? && q.provider.None? && !q.preserve;
      CompleteAttests(api.worlds, api.steps, api.world, q, done);
      return Ok(done), removed;
    case Ready(r, copy, present) =>
      ghost var w1 := api.world;
      if !api.foreign && Finished(w1, q) { FinishedIsNotSteady(w1, q, r, copy); }
      if !api.foreign && w0.store == w1.store { SameConvergent(w0, w1, q); }
      result := RunPhases(api, q, r, copy, present, polls);
      MovesTransitive(api.foreign, w0, w1, api.world);
      History.RunAccounts(from, api.worlds, api.steps, api.world);
      if result.Ok? { CompleteAttests(api.worlds, api.steps, api.world, q, result.value); }
      removed := result.Ok? && q.provider.None? && !q.preserve;
  }

  /** A complete record was completed at a step of the run, or migrated. */
  lemma CompleteAttests(worlds: seq<World>, steps: seq<Step>, w: World, q: Request, r: Record)
    requires RunTo(worlds, steps, w) && Inv(w) && CompleteOnRecord(w, q, r)
    ensures |worlds| == |steps| + 1
    ensures
      || History.TornDown(worlds, |steps|, q.management, r)
      || RecordedAs(w.log, |w.log|, q.management, r, Migrated)
  {
    hide RecordedAs, Recorded, LogOk, AbsencesHold, Fresh, ReceiptsMatch, History.TornDown;
    StartOfRun(worlds, steps, w);
    History.CompleteOrigin(w.log, q.management, r);
    if RecordedAs(w.log, |w.log|, q.management, r, Completed) {
      History.RecordedCompletion(worlds, steps, w, q.management, r);
    }
  }

  lemma FinishedConverges(w: World, q: Request)
    requires Finished(w, q)
    ensures Convergent(w, q)
  {
  }

  lemma FinishedIsNotSteady(w: World, q: Request, r: Record, copy: Object)
    requires Finished(w, q)
    ensures !Steady(w, q, r, copy)
  {
  }

  // ---- retries ----

  /** The smallest world to start from: a Cluster in its namespace, and the ledger namespace. */
  function SmallestWorld(): World {
    World(map[Key(0, Cluster) := Object(1, 0, Plain), Key(0, Namespace) := Object(2, 0, Plain),
              Key(0, LedgerSpace) := Object(3, 0, Plain)], 4, 1, [])
  }

  function SmallestRequest(): Request {
    Request(0, None, Some(Local(Config("plain", None), false)), true, false)
  }

  lemma InitialIsReachable(w: World)
    requires Initial(w)
    ensures Reachable(w)
  {
    assert RunTo([w], [], w);
  }

  lemma SmallestIsReachable()
    ensures Reachable(SmallestWorld())
  {
    InitialIsReachable(SmallestWorld());
  }

  lemma SmallestStarts()
    ensures Reachable(SmallestWorld()) && Startable(SmallestWorld(), SmallestRequest())
  {
    hide Reachable;
    var w := SmallestWorld();
    SmallestIsReachable();
    assert BoundVolumes(w, 0) == {};
    assert Surveyable(w, 0, Config("plain", None), 2, {});
  }

  /** Two planes with the namespaces of the cluster, and the Cluster. */
  function SplitSpaces(): map<Key, Object> {
    map[Key(1, SystemSpace) := Object(1, 0, Plain), Key(2, SystemSpace) := Object(2, 0, Plain),
        Key(1, LedgerSpace) := Object(3, 0, Plain), Key(1, Cluster) := Object(4, 0, Plain),
        Key(1, Namespace) := Object(5, 0, Plain), Key(2, Namespace) := Object(6, 0, Plain)]
  }

  /** A clone with its claim, and the retained volume behind it. */
  function SplitVolumes(id: GoldenId, n: Name): map<Key, Object> {
    map[Key(2, DataVolume(n)) := Object(7, 0, Clone(Some((id.space, id.claim)))),
        Key(2, Claim(n)) := Object(8, 0, Body.Bound(Some(n))),
        Key(2, Volume(n)) := Object(9, 0, Disk(true)), Key(2, Longhorn(n)) := Object(10, 0, Plain)]
  }

  /** The Golden image with the cluster's grants, and a snapshot for the clone. */
  function SplitImages(id: GoldenId, n: Name): map<Key, Object> {
    var grant := Grant(Some(ShortIdentity(id.osIdentity)));
    map[Key(2, GoldenClaim(id.space, id.claim)) := Object(11, 0, Image(id.imageDigest, id.osIdentity, true)),
        Key(2, Role(id.space)) := Object(12, 0, grant), Key(2, RoleBinding(id.space)) := Object(13, 0, grant),
        Key(2, Snapshot(id.space, n)) := Object(14, 0, Snap(Some(7), Some(id.claim)))]
  }

  function SplitWorld(id: GoldenId, n: Name): World {
    World(SplitSpaces() + SplitVolumes(id, n) + SplitImages(id, n), 15, 1, [])
  }

  function SplitRequest(id: GoldenId): Request {
    Request(1, Some(2), Some(Local(Config("talos", Some(id)), true)), true, false)
  }

  /** So does every Golden image give a world with two planes. */
  lemma SplitStarts(id: GoldenId, n: Name)
    requires id.space != "" && id.claim != "" && id.osIdentity != "" && id.imageDigest != ""
    ensures Reachable(SplitWorld(id, n)) && Startable(SplitWorld(id, n), SplitRequest(id))
  {
    hide SplitWorld, GoldenUndisturbed, Surveyable, Reachable, Initial;
    SplitIsInitial(id, n);
    InitialIsReachable(SplitWorld(id, n));
    SplitIsLive(id, n);
    SplitSurveyable(id, n);
    SplitGolden(id, n);
  }

  lemma SplitIsInitial(id: GoldenId, n: Name)
    ensures Initial(SplitWorld(id, n))
  {
    hide SplitSpaces, SplitVolumes, SplitImages, Pristine, Initial;
    SplitHasSpaces();
    SplitHasVolumes(id, n);
    SplitHasImages(id, n);
    PristineJoins(SplitSpaces(), SplitVolumes(id, n));
    PristineJoins(SplitSpaces() + SplitVolumes(id, n), SplitImages(id, n));
    PristineIsInitial(SplitSpaces() + SplitVolumes(id, n) + SplitImages(id, n));
  }

  /** Objects of an initial world: fresh, and no receipts. */
  ghost predicate Pristine(store: map<Key, Object>) {
    forall k :: k in store ==>
      && 0 < store[k].uid < 15 && store[k].version < 1 && !IsReceipt(k)
      && (k.kind.SystemSpace? ==> store[k].uid == k.plane)
  }

  lemma PristineJoins(a: map<Key, Object>, b: map<Key, Object>)
    requires Pristine(a) && Pristine(b)
    ensures Pristine(a + b)
  {
  }

  lemma PristineIsInitial(store: map<Key, Object>)
    requires Pristine(store)
    ensures Initial(World(store, 15, 1, []))
  {
  }

  lemma SplitHasVolumes(id: GoldenId, n: Name)
    ensures var v := SplitVolumes(id, n);
      && Key(2, DataVolume(n)) in v && Key(2, Claim(n)) in v && Key(2, Volume(n)) in v
      && v[Key(2, DataVolume(n))].body == Clone(Some((id.space, id.claim)))
      && v[Key(2, Claim(n))].body == Body.Bound(Some(n))
      && forall k :: k in v ==>
           && k.plane == 2 && !k.kind.Namespace? && !k.kind.Snapshot?
           && (k.kind.DataVolume? ==> k.kind.name == n) && (k.kind.Claim? ==> k.kind.name == n)
    ensures Pristine(SplitVolumes(id, n))
  {
  }

  lemma SplitHasImages(id: GoldenId, n: Name)
    ensures var g, grant := SplitImages(id, n), Grant(Some(ShortIdentity(id.osIdentity)));
      && Key(2, Role(id.space)) in g && g[Key(2, Role(id.space))].body == grant
      && Key(2, RoleBinding(id.space)) in g && g[Key(2, RoleBinding(id.space))].body == grant
      && Key(2, GoldenClaim(id.space, id.claim)) in g
      && g[Key(2, GoldenClaim(id.space, id.claim))].body == Image(id.imageDigest, id.osIdentity, true)
      && forall k :: k in g ==>
           && !k.kind.Namespace? && !k.kind.DataVolume? && !k.kind.Claim? && !k.kind.Volume?
           && (k.kind.Snapshot? ==> g[k].body == Snap(Some(7), Some(id.claim)))
    ensures Pristine(SplitImages(id, n))
  {
    hide ShortIdentity;
  }

  lemma SplitHasSpaces()
    ensures Key(2, Namespace) in SplitSpaces() && SplitSpaces()[Key(2, Namespace)].uid == 6
    ensures {Key(1, Cluster), Key(1, Namespace), Key(1, LedgerSpace)} <= SplitSpaces().Keys
    ensures {Key(1, SystemSpace), Key(2, SystemSpace)} <= SplitSpaces().Keys
    ensures forall k :: k in SplitSpaces() ==>
      !k.kind.DataVolume? && !k.kind.Claim? && !k.kind.Snapshot? && !k.kind.Volume?
    ensures Pristine(SplitSpaces())
  {
  }

  lemma SplitIsLive(id: GoldenId, n: Name)
    ensures var w, q := SplitWorld(id, n), SplitRequest(id);
      && Prepared(w, q) && GenerationLive(w, q) && IdentityOf(w, q).providerSpace == 6
      && Key(1, Receipt) !in w.store
  {
    hide SplitSpaces, SplitVolumes, SplitImages;
    SplitHasSpaces();
    SplitHasVolumes(id, n);
    SplitHasImages(id, n);
    assert IsReceipt(Key(1, Receipt));
  }

  lemma SplitSurveyable(id: GoldenId, n: Name)
    ensures Surveyable(SplitWorld(id, n), 2, Config("talos", Some(id)), 6, {})
  {
    hide SplitSpaces, SplitVolumes, SplitImages, Pristine, ShortIdentity;
    SplitHasSpaces();
    SplitHasVolumes(id, n);
    SplitHasImages(id, n);
    var w := SplitWorld(id, n);
    assert Key(2, Claim(n)) in w.store;
    assert BoundVolumes(w, 2) == {n};
  }

  lemma SplitGolden(id: GoldenId, n: Name)
    ensures var w, q := SplitWorld(id, n), SplitRequest(id);
      GoldenUndisturbed(w, 1, DraftOf(w, q, Config("talos", Some(id)), {}, map[]))
  {
    hide ShortIdentity, SplitSpaces, SplitVolumes, SplitImages, Pristine, IdentityOf, CloneUids;
    SplitHasSpaces();
    SplitHasVolumes(id, n);
    SplitHasImages(id, n);
  }

  /** Nobody else is there. */
  function Nobody(): Others {
    (t: nat, w: World) => []
  }

  lemma NobodyIsLawful()
    ensures Lawful(false, Nobody())
  {
  }

  /** The request again, once a successful run removed the local render directory. */
  function Afterwards(q: Request, removed: bool): Request {
    if removed then q.(local := None) else q
  }

  /** The request is still the first one, or its generation is finished and its local files are gone. */
  ghost predicate SameErrand(w: World, q: Request, now: Request) {
    Convergent(w, now) && (now == q || (now == Afterwards(q, true) && Finished(w, q)))
  }

  /** One run without other actors leaves the same errand for the next. */
  lemma ErrandStays(w: World, v: World, q: Request, now: Request, removed: bool)
    requires SameErrand(w, q, now) && Convergent(v, now) && (removed ==> Finished(v, now))
    requires Finished(w, now) ==> v.store == w.store
    ensures SameErrand(v, q, Afterwards(now, removed))
    ensures Finished(v, now) ==> Finished(v, q)
  {
    hide Startable, Resumable;
    if v.store == w.store { SameConvergent(w, v, q); }
  }

  /** Any number of runs cut short at any call, then one that is left alone: it completes, leaves
      nothing of the recorded volumes unless an earlier run had completed, and a further run sends no
      mutating request and changes nothing. Runs after a success find the local
      render directory gone where that success removed it. */
  method RetryConverges(w: World, q: Request, crashes: nat, polls: nat)
    returns (cut: World, left: World, first: Result<Record>, again: Result<Record>, sent: nat, after: World)
    requires Reachable(w) && Convergent(w, q)
    ensures Reachable(left) && Rely(w, left) && Finished(left, q)
    ensures first.Ok? && CompleteOnRecord(left, q, first.value)
    ensures Rely(w, cut) && (crashes == 0 ==> cut == w)
    ensures !TornDownBefore(cut, q) ==>
      NoneLeft(left, q.management, first.value, first.value.volumes, true)
    ensures again.Ok? && sent == 0 && after.store == left.store
  {
    hide Inv, Calm, Aged, Convergent, Finished, CompleteOnRecord, RunTo, SameErrand, Lawful, NoneLeft, TornDownBefore;
    ghost var worlds, steps :| RunTo(worlds, steps, w);
    ReachableIsSound(w);
    NobodyIsLawful();
    MovesReflexive(false, w);
    left := w;
    var now := q;
    var removed: bool;
    assert SameErrand(left, q, now) by { SameErrandAtFirst(w, q); }
    for i := 0 to crashes
      invariant RunTo(worlds, steps, left) && Moves(false, w, left) && SameErrand(left, q, now)
      invariant i == 0 ==> left == w
    {
      var shaky := new Api(worlds, steps, left, false, true, Nobody());
      ErrandConverges(left, q, now);
      var _, gone := Teardown(shaky, now, polls);
      MovesTransitive(false, w, left, shaky.world);
      ErrandStays(left, shaky.world, q, now, gone);
      left, worlds, steps := shaky.world, shaky.worlds, shaky.steps;
      now := Afterwards(now, gone);
    }
    cut := left;
    SameReceiptDone(cut, q, now);
    var clean := new Api(worlds, steps, left, false, false, Nobody());
    ErrandConverges(left, q, now);
    first, removed := Teardown(clean, now, polls);
    MovesTransitive(false, w, left, clean.world);
    ErrandStays(left, clean.world, q, now, removed);
    ErrandOnRecord(left, clean.world, q, now, first.value);
    left := clean.world;
    now := Afterwards(now, removed);
    ErrandConverges(left, q, now);
    var late := new Api(clean.worlds, clean.steps, left, false, false, Nobody());
    again, removed := Teardown(late, now, polls);
    sent, after := late.sent, late.world;
  }

  lemma SameReceiptDone(w: World, q: Request, now: Request)
    requires SameErrand(w, q, now)
    ensures TornDownBefore(w, now) ==> TornDownBefore(w, q)
    ensures now.management == q.management
  {
  }

  lemma SameErrandAtFirst(w: World, q: Request)
    requires Convergent(w, q)
    ensures SameErrand(w, q, q)
  {
  }

  lemma ErrandConverges(w: World, q: Request, now: Request)
    requires SameErrand(w, q, now)
    ensures Convergent(w, now)
    ensures Finished(w, q) ==> Finished(w, now)
  {
  }

  lemma ErrandOnRecord(w: World, v: World, q: Request, now: Request, r: Record)
    requires SameErrand(w, q, now) && CompleteOnRecord(v, now, r)
    ensures CompleteOnRecord(v, q, r)
  {
  }
}
