/** The building blocks of the teardown: bound reads, guarded deletes, inventories and the
    read-back write of the receipt, over an API that others use at the same time. */
module Lifecycle {
  import opened Wrappers
  import opened Receipts
  import opened Kubernetes
  import opened Protocol
  import opened ProtocolLemmas
  import opened Steps
  import opened ApiServer

  // ---- facts about the present, read off the history ----

  ghost predicate Seen(w: World, k: Key, uid: Uid) {
    SeenGone(w.log, |w.log|, k, uid)
  }

  lemma SeenStays(w: World, v: World, k: Key, uid: Uid)
    requires Prefix(w.log, v.log) && Seen(w, k, uid)
    ensures Seen(v, k, uid)
  {
    SeenGoneStays(w.log, |w.log|, v.log, |v.log|, k, uid);
  }

  lemma JustAbsentIsSeen(w: World, k: Key, uid: Uid)
    requires JustAbsent(w, k) && uid < w.nextUid
    ensures Seen(w, k, uid)
  {
    assert w.log[|w.log|-1].Absent?;
  }

  /** Between positions `from` and n of the history the workload namespace was surveyed: the
      clones are all in `uids` and the bound volumes all in `volumes` or seen to be reclaimed, and
      the namespace was read as `space` before and after. */
  ghost predicate Surveyed(log: seq<Event>, from: nat, n: nat, p: nat, space: Uid, uids: set<Uid>, volumes: set<Name>)
    requires n <= |log|
  {
    exists i, j :: from <= i < j < n && log[i].Clones? && log[i].plane == p && log[i].uids <= uids
                   && CoveredAt(log, j, n, p, volumes) && ReadAround(log, from, i, j, n, Key(p, Namespace), space)
  }

  // ---- bound_resource ----

  /** Reads k and insists on the recorded UID. */
  method BoundResource(api: Api, k: Key, uid: Uid) returns (result: Result<Option<Object>>)
    requires api.Valid()
    modifies api
    ensures api.Onward() && Quiet(api.foreign, old(api.world), api.world)
    ensures api.sent == old(api.sent)
    ensures result.Ok? && result.value.Some? ==>
      && result.value.value.uid == uid && k in api.world.store && api.world.store[k] == result.value.value
      && |old(api.world).log| < |api.world.log| && ReadAs(api.world.log, |old(api.world).log|, |api.world.log|, k, uid)
    ensures result.Ok? && result.value.None? ==>
      && JustAbsent(api.world, k) && |old(api.world).log| < |api.world.log|
      && ReadNone(api.world.log, |old(api.world).log|, |api.world.log|, k)
    ensures !api.foreign ==> api.world.store == old(api.world).store
    ensures !api.foreign && !api.faulty && (k in old(api.world).store ==> Holds(old(api.world), k, uid)) ==> result.Ok?
  {
    hide RunTo, Lawful;
    var reply := api.Get(k);
    match reply
    case Failed => return Err(ReadFailed);
    case NotFound => return Ok(None);
    case Found(o) =>
      if o.uid != uid { return Err(Recreated); }
      return Ok(Some(o));
  }

  // ---- preconditioned_delete ----

  /** How often, between `from` and n, `k` was read as `uid`. */
  ghost function Sightings(log: seq<Event>, from: nat, n: nat, k: Key, uid: Uid): nat
    requires from <= n <= |log|
  {
    if n == from then 0
    else Sightings(log, from, n - 1, k, uid) + (if log[n-1] == Present(k, uid) then 1 else 0)
  }

  lemma {:induction false} SightingsGrow(log: seq<Event>, more: seq<Event>, from: nat, n: nat, k: Key, uid: Uid)
    requires Prefix(log, more) && from <= |log| && |log| <= n <= |more|
    ensures Sightings(more, from, n, k, uid) >= Sightings(log, from, |log|, k, uid)
    decreases n
  {
    if n > |log| { SightingsGrow(log, more, from, n - 1, k, uid); } else { SightingsSame(log, more, from, n, k, uid); }
  }

  lemma {:induction false} SightingsSame(log: seq<Event>, more: seq<Event>, from: nat, n: nat, k: Key, uid: Uid)
    requires Prefix(log, more) && from <= n <= |log|
    ensures Sightings(more, from, n, k, uid) == Sightings(log, from, n, k, uid)
  {
    if n > from { SightingsSame(log, more, from, n - 1, k, uid); }
  }

  /** One more read that finds it. */
  lemma SeenAgain(log: seq<Event>, w: World, from: nat, k: Key, uid: Uid)
    requires Prefix(log, w.log) && |log| < |w.log| && from <= |log| && JustPresent(w, k, uid)
    ensures Sightings(w.log, from, |w.log|, k, uid) >= Sightings(log, from, |log|, k, uid) + 1
  {
    SightingsGrow(log, w.log, from, |w.log| - 1, k, uid);
  }

  /** Deletes the object that was read, then polls until it is absent. `polls` bounds the wait. */
  method PreconditionedDelete(api: Api, k: Key, o: Object, versioned: bool, m: nat, r: Record, polls: nat)
    returns (result: Result<()>)
    requires api.Valid() && Known(api.world, k, o)
    requires MayDelete(api.world.log, |api.world.log|, k, o.uid, if versioned then Some(o.body) else None, m, r)
    modifies api
    ensures api.Onward() && Moves(api.foreign, old(api.world), api.world)
    ensures !IsReceipt(k) ==> Quiet(api.foreign, old(api.world), api.world)
    ensures result.Ok? ==> JustAbsent(api.world, k) && |old(api.world).log| < |api.world.log|
    ensures |old(api.world).log| <= |api.world.log|
    ensures result == Err(DeleteTimedOut) ==>
      Sightings(api.world.log, |old(api.world).log|, |api.world.log|, k, o.uid) > polls
    ensures !api.foreign ==> forall j :: IsReceipt(j) && j != k ==> SameAt(old(api.world), api.world, j)
    ensures !api.foreign ==> OnlyTakes(old(api.world), api.world, k)
    ensures !api.foreign && !api.faulty && Targets(old(api.world), k, o.uid, Some(o)) ==> result.Ok?
  {
    hide MayDelete, Inv, Calm, Aged, Sightings, RunTo, Lawful;
    ghost var start := |api.world.log|;
    var verdict := api.Delete(k, o.uid, if versioned then Some(o) else None, m, r);
    match verdict
    case AlreadyAbsent => return Ok(());
    case Refused => return Err(DeleteFailed);
    case Accepted =>
      ghost var sent := api.world;
      MovesReflexive(api.foreign, sent);
      for i := 0 to polls + 1
        invariant api.Onward() && Quiet(api.foreign, sent, api.world)
        invariant start <= |api.world.log| && Sightings(api.world.log, start, |api.world.log|, k, o.uid) >= i
        invariant !api.foreign ==> api.world.store == sent.store
        invariant !api.foreign && !api.faulty ==> i == 0
      {
        ghost var before := api.world;
        var reply := api.Get(k);
        QuietTransitive(api.foreign, sent, before, api.world);
        MovesTransitive(api.foreign, old(api.world), sent, api.world);
        match reply
        case NotFound => return Ok(());
        case Failed => return Err(ReadFailed);
        case Found(current) =>
          if current.uid != o.uid { return Err(Recreated); }
          SeenAgain(before.log, api.world, start, k, o.uid);
      }
      MovesTransitive(api.foreign, old(api.world), sent, api.world);
      return Err(DeleteTimedOut);
  }

  lemma FoundIsKnown(w: World, k: Key)
    requires Inv(w) && k in w.store
    ensures Known(w, k, w.store[k]) && 0 < w.store[k].uid < w.nextUid
  {
  }

  // ---- verify_golden ----

  /** The shared Golden PVC as found: the configured image, healthy. */
  ghost predicate ImageFits(w: World, p: nat, id: GoldenId) {
    var k := Key(p, GoldenClaim(id.space, id.claim));
    k in w.store && w.store[k].body == Image(id.imageDigest, id.osIdentity, true)
  }

  method VerifyGolden(api: Api, p: nat, id: GoldenId) returns (result: Result<Evidence>)
    requires api.Valid()
    modifies api
    ensures api.Onward() && Quiet(api.foreign, old(api.world), api.world)
    ensures result.Ok? ==>
      && |api.world.log| > |old(api.world).log|
      && api.world.log[|api.world.log|-1] == SawImage(p, id, result.value)
      && ImageFits(api.world, p, id)
      && result.value == Evidence(api.world.store[Key(p, GoldenClaim(id.space, id.claim))].uid, id.imageDigest, id.osIdentity)
    ensures !api.foreign ==> api.world.store == old(api.world).store
    ensures !api.foreign && !api.faulty && ImageFits(old(api.world), p, id) ==> result.Ok?
  {
    hide Inv, Calm, Aged, RunTo, Lawful;
    var k := Key(p, GoldenClaim(id.space, id.claim));
    var reply := api.Get(k);
    if !reply.Found? { return Err(ReadFailed); }
    if reply.item.body != Image(id.imageDigest, id.osIdentity, true) {
      return Err(GoldenInvalid);
    }
    var evidence := Evidence(reply.item.uid, id.imageDigest, id.osIdentity);
    ghost var mid := api.world;
    api.Note(SawImage(p, id, evidence));
    QuietTransitive(api.foreign, old(api.world), mid, api.world);
    return Ok(evidence);
  }

  // ---- teardown_inventory ----

  function ExpectedSource(config: Config): Option<(string, string)> {
    if config.golden.Some? then Some((config.golden.value.space, config.golden.value.claim)) else None
  }

  /** A DataVolume the inventory accepts: any, or only clones of the recorded Golden PVC. */
  predicate Clonable(config: Config, body: Body) {
    config.golden.None? || body == Clone(ExpectedSource(config))
  }

  /** UIDs of the listed DataVolumes, provided each one is acceptable. */
  method CollectClones(config: Config, items: map<Name, Object>) returns (result: Result<set<Uid>>)
    ensures result.Ok? <==> forall n :: n in items ==> Clonable(config, items[n].body)
    ensures result.Ok? ==> result.value == set n | n in items :: items[n].uid
  {
    var left := items.Keys;
    var uids := {};
    while left != {}
      invariant left <= items.Keys
      invariant forall n :: n in items && n !in left ==> Clonable(config, items[n].body)
      invariant uids == set n | n in items && n !in left :: items[n].uid
      decreases left
    {
      var n :| n in left;
      if !Clonable(config, items[n].body) { return Err(CloneSourceDiffers); }
      left := left - {n};
      uids := uids + {items[n].uid};
    }
    return Ok(uids);
  }

  /** Names of the volumes that listed claims are bound to. */
  function BoundNames(items: map<Name, Object>): set<Name> {
    set n | n in items && items[n].body.Bound? && items[n].body.volume.Some? :: items[n].body.volume.value
  }

  predicate VolumesAccounted(w: World, p: nat, bound: set<Name>, saved: set<Name>) {
    forall n :: n in bound ==> n in saved || Key(p, Volume(n)) in w.store
  }

  /** The bound volumes an inventory saves: those to be retained, and saved ones that are gone. */
  function Kept(w: World, p: nat, bound: set<Name>, saved: set<Name>): set<Name> {
    set n | n in bound && (if Key(p, Volume(n)) in w.store then w.store[Key(p, Volume(n))].body == Disk(true) else n in saved)
  }

  /** Between `from` and n each of these was read with the policy Retain, or was saved and read absent. */
  ghost predicate Collected(log: seq<Event>, from: nat, n: nat, p: nat, names: set<Name>, saved: set<Name>)
    requires n <= |log|
  {
    forall name :: name in names ==>
      Retained(log, from, n, p, name) || (name in saved && ReadNone(log, from, n, Key(p, Volume(name))))
  }

  lemma CollectedStays(log: seq<Event>, more: seq<Event>, before: nat, from: nat, p: nat, names: set<Name>, saved: set<Name>)
    requires Prefix(log, more) && before <= from && Collected(log, from, |log|, p, names, saved)
    ensures Collected(more, before, |more|, p, names, saved)
  {
    hide Retained, ReadNone;
    forall name | name in names
      ensures Retained(more, before, |more|, p, name) || (name in saved && ReadNone(more, before, |more|, Key(p, Volume(name))))
    {
      if Retained(log, from, |log|, p, name) {
        RetainedStays(log, |log|, more, |more|, before, from, p, name);
      } else {
        ReadNoneStays(log, |log|, more, |more|, from, Key(p, Volume(name)));
        ReadFromBefore(more, before, from, |more|, Key(p, Volume(name)), 0);
      }
    }
  }

  /** Names collected outside `saved` were read with the policy Retain. */
  lemma CollectedRetains(log: seq<Event>, from: nat, p: nat, names: set<Name>, saved: set<Name>)
    requires Collected(log, from, |log|, p, names, saved)
    ensures AllRetained(log, |log|, p, names - saved)
  {
    hide ReadNone;
    forall name | name in names - saved ensures Retained(log, 0, |log|, p, name) {
      RetainedStays(log, |log|, log, |log|, 0, from, p, name);
    }
  }

  /** Reads every bound volume: Retain ones are collected, others noted as passing, and a missing
      one stops the run unless an earlier inventory already saved it. */
  method CollectVolumes(api: Api, p: nat, bound: set<Name>, saved: set<Name>) returns (result: Result<set<Name>>)
    requires api.Valid()
    modifies api
    ensures api.Onward() && Quiet(api.foreign, old(api.world), api.world)
    ensures result.Ok? ==>
      && result.value <= bound
      && forall name :: name in bound ==>
           name in result.value || Passing(api.world.log, |old(api.world).log|, |api.world.log|, p, name)
    ensures result.Ok? ==>
      Collected(api.world.log, |old(api.world).log|, |api.world.log|, p, result.value, saved)
    ensures !api.foreign ==> api.world.store == old(api.world).store
    ensures !api.foreign && result.Ok? ==>
      result.value == Kept(api.world, p, bound, saved) && VolumesAccounted(api.world, p, bound, saved)
    ensures !api.foreign && !api.faulty && VolumesAccounted(old(api.world), p, bound, saved) ==> result.Ok?
  {
    hide Inv, Calm, Aged, RunTo, Lawful, Collected, Kept, Passing;
    ghost var start := api.world;
    MovesReflexive(api.foreign, start);
    var left := bound;
    var volumes := {};
    KeptNone(start, p, saved);
    assert bound - left == {};
    while left != {}
      invariant api.Onward() && Quiet(api.foreign, start, api.world)
      invariant left <= bound && volumes <= bound
      invariant forall name :: name in bound && name !in left ==>
        name in volumes || Passing(api.world.log, |start.log|, |api.world.log|, p, name)
      invariant Collected(api.world.log, |start.log|, |api.world.log|, p, volumes, saved)
      invariant !api.foreign ==> api.world.store == start.store
      invariant !api.foreign ==> volumes == Kept(start, p, bound - left, saved) && VolumesAccounted(start, p, bound - left, saved)
      decreases left
    {
      var name :| name in left;
      ghost var before := api.world;
      var reply := api.Get(Key(p, Volume(name)));
      QuietTransitive(api.foreign, start, before, api.world);
      PassingStays(before.log, api.world.log, |start.log|, p);
      CollectedStays(before.log, api.world.log, |start.log|, |start.log|, p, volumes, saved);
      if !api.foreign { KeptNext(start, p, bound, left, saved, name); }
      left := left - {name};
      match reply
      case Failed => return Err(ReadFailed);
      case NotFound =>
        if name !in saved { return Err(UnknownVolumeAbsent); }
        OneMoreAbsent(api.world, |start.log|, p, volumes, saved, name);
        volumes := volumes + {name};
      case Found(o) =>
        before := api.world;
        api.Note(SawVolume(p, name, o.body == Disk(true)));
        QuietTransitive(api.foreign, start, before, api.world);
        PassingStays(before.log, api.world.log, |start.log|, p);
        CollectedStays(before.log, api.world.log, |start.log|, |start.log|, p, volumes, saved);
        if o.body == Disk(true) {
          OneMoreRetained(before.log, api.world.log, |start.log|, p, volumes, saved, name);
          volumes := volumes + {name};
        } else {
          JustPassed(before.log, api.world.log, |start.log|, p, name);
        }
    }
    assert bound - left == bound;
    if !api.foreign { SameKept(start, api.world, p, bound, saved); }
    return Ok(volumes);
  }

  lemma KeptNone(w: World, p: nat, saved: set<Name>)
    ensures Kept(w, p, {}, saved) == {} && VolumesAccounted(w, p, {}, saved) && Collected(w.log, |w.log|, |w.log|, p, {}, saved)
  {
  }

  lemma SameKept(w: World, v: World, p: nat, bound: set<Name>, saved: set<Name>)
    requires w.store == v.store
    ensures Kept(w, p, bound, saved) == Kept(v, p, bound, saved)
  {
  }

  lemma KeptNext(w: World, p: nat, bound: set<Name>, left: set<Name>, saved: set<Name>, name: Name)
    requires name in left && left <= bound
    ensures var k := Key(p, Volume(name));
      Kept(w, p, bound - (left - {name}), saved) ==
        if (if k in w.store then w.store[k].body == Disk(true) else name in saved)
        then Kept(w, p, bound - left, saved) + {name} else Kept(w, p, bound - left, saved)
    ensures VolumesAccounted(w, p, bound - left, saved) && (name in saved || Key(p, Volume(name)) in w.store) ==>
      VolumesAccounted(w, p, bound - (left - {name}), saved)
  {
  }

  lemma OneMoreAbsent(w: World, from: nat, p: nat, names: set<Name>, saved: set<Name>, name: Name)
    requires from < |w.log| && Collected(w.log, from, |w.log|, p, names, saved) && name in saved
    requires JustAbsent(w, Key(p, Volume(name)))
    ensures Collected(w.log, from, |w.log|, p, names + {name}, saved)
  {
    assert ReadNone(w.log, from, |w.log|, Key(p, Volume(name))) by { assert w.log[|w.log|-1].Absent?; }
  }

  lemma OneMoreRetained(log: seq<Event>, more: seq<Event>, from: nat, p: nat, names: set<Name>, saved: set<Name>, name: Name)
    requires more == log + [SawVolume(p, name, true)] && from <= |log| && Collected(more, from, |more|, p, names, saved)
    ensures Collected(more, from, |more|, p, names + {name}, saved)
  {
    assert Retained(more, from, |more|, p, name) by { assert more[|log|] == SawVolume(p, name, true); }
  }

  lemma JustPassed(log: seq<Event>, more: seq<Event>, from: nat, p: nat, name: Name)
    requires more == log + [SawVolume(p, name, false)] && from <= |log|
    ensures Passing(more, from, |more|, p, name)
  {
    assert more[|log|] == SawVolume(p, name, false);
  }

  lemma PassingStays(log: seq<Event>, more: seq<Event>, from: nat, p: nat)
    requires Prefix(log, more)
    ensures forall name :: Passing(log, from, |log|, p, name) ==> Passing(more, from, |more|, p, name)
  {
  }

  /** What the inventory needs to succeed when nothing interferes. */
  ghost predicate Surveyable(w: World, p: nat, config: Config, uid: Uid, saved: set<Name>) {
    && Holds(w, Key(p, Namespace), uid)
    && (forall n :: Key(p, DataVolume(n)) in w.store ==> Clonable(config, w.store[Key(p, DataVolume(n))].body))
    && VolumesAccounted(w, p, BoundVolumes(w, p), saved)
  }

  lemma ListedClones(w: World, p: nat, items: map<Name, Object>)
    requires forall n :: n in items <==> Key(p, DataVolume(n)) in w.store
    requires forall n :: n in items ==> items[n] == w.store[Key(p, DataVolume(n))]
    ensures CloneUids(w, p) == set n | n in items :: items[n].uid
  {
    forall k | k in w.store && k.plane == p && k.kind.DataVolume?
      ensures w.store[k].uid in set n | n in items :: items[n].uid
    {
      assert k == Key(p, DataVolume(k.kind.name)) && k.kind.name in items;
    }
  }

  lemma ListedClaims(w: World, p: nat, items: map<Name, Object>)
    requires forall n :: n in items <==> Key(p, Claim(n)) in w.store
    requires forall n :: n in items ==> items[n] == w.store[Key(p, Claim(n))]
    ensures BoundVolumes(w, p) == BoundNames(items)
  {
    forall k | k in w.store && k.plane == p && k.kind.Claim? && w.store[k].body.Bound? && w.store[k].body.volume.Some?
      ensures w.store[k].body.volume.value in BoundNames(items)
    {
      assert k == Key(p, Claim(k.kind.name)) && k.kind.name in items;
    }
  }

  /** `teardown_inventory`: DataVolume UIDs and retained volumes of the workload namespace, read
      while that namespace still has the bound UID. */
  method TeardownInventory(api: Api, p: nat, config: Config, uid: Uid, saved: set<Name>)
    returns (result: Result<(set<Uid>, set<Name>)>)
    requires api.Valid()
    modifies api
    ensures api.Onward() && Quiet(api.foreign, old(api.world), api.world)
    ensures result.Ok? ==>
      && Surveyed(api.world.log, |old(api.world).log|, |api.world.log|, p, uid, result.value.0, result.value.1)
      && Collected(api.world.log, |old(api.world).log|, |api.world.log|, p, result.value.1, saved)
    ensures !api.foreign ==> api.world.store == old(api.world).store
    ensures !api.foreign && result.Ok? ==>
      && Holds(api.world, Key(p, Namespace), uid) && result.value.0 == CloneUids(api.world, p)
      && result.value.1 == Kept(api.world, p, BoundVolumes(api.world, p), saved)
      && VolumesAccounted(api.world, p, BoundVolumes(api.world, p), saved)
    ensures !api.foreign && !api.faulty && Surveyable(old(api.world), p, config, uid, saved) ==> result.Ok?
  {
    hide Inv, Calm, Aged, Passing, CoveredAt, ReadAs, ReadNone, Quiet, Surveyed, Collected, RunTo, Lawful;
    var space := BoundResource(api, Key(p, Namespace), uid);
    if space.Err? { return Err(space.reason); }
    if space.value.None? { return Err(NamespaceDisappeared); }
    ghost var w1 := api.world;
    var clones := api.ListClones(p);
    QuietTransitive(api.foreign, old(api.world), w1, api.world);
    if clones.Err? { return Err(clones.reason); }
    ghost var w2 := api.world;
    ListedClones(w2, p, clones.value);
    var uids := CollectClones(config, clones.value);
    if uids.Err? { return Err(uids.reason); }
    var claims := api.ListClaims(p);
    QuietTransitive(api.foreign, old(api.world), w2, api.world);
    if claims.Err? { return Err(claims.reason); }
    ghost var w3 := api.world;
    ListedClaims(w3, p, claims.value);
    var volumes := CollectVolumes(api, p, BoundNames(claims.value), saved);
    QuietTransitive(api.foreign, old(api.world), w3, api.world);
    if volumes.Err? { return Err(volumes.reason); }
    ghost var w4 := api.world;
    space := BoundResource(api, Key(p, Namespace), uid);
    QuietTransitive(api.foreign, old(api.world), w4, api.world);
    if space.Err? { return Err(space.reason); }
    if space.value.None? { return Err(NamespaceDisappeared); }
    CollectedAcross(api.foreign, old(api.world), w3, w4, api.world, p, volumes.value, saved);
    SurveyStands(api.foreign, old(api.world), w1, w2, w3, w4, api.world, p, uid, uids.value, volumes.value);
    return Ok((uids.value, volumes.value));
  }

  lemma CollectedAcross(foreign: bool, w: World, w3: World, w4: World, v: World, p: nat, names: set<Name>, saved: set<Name>)
    requires Quiet(foreign, w, w3) && Quiet(foreign, w4, v) && Collected(w4.log, |w3.log|, |w4.log|, p, names, saved)
    ensures Collected(v.log, |w.log|, |v.log|, p, names, saved)
  {
    CollectedStays(w4.log, v.log, |w.log|, |w3.log|, p, names, saved);
  }

  lemma SurveyStands(foreign: bool, w: World, w1: World, w2: World, w3: World, w4: World, v: World,
                     p: nat, space: Uid, uids: set<Uid>, volumes: set<Name>)
    requires Quiet(foreign, w1, w2) && Quiet(foreign, w2, w3) && Quiet(foreign, w3, w4) && Quiet(foreign, w4, v)
    requires |w.log| <= |w1.log| < |w2.log| < |w3.log|
    requires ReadAs(w1.log, |w.log|, |w1.log|, Key(p, Namespace), space)
    requires ReadAs(v.log, |w4.log|, |v.log|, Key(p, Namespace), space)
    requires w2.log[|w2.log|-1] == Clones(p, uids)
    requires w3.log[|w3.log|-1].Claims? && w3.log[|w3.log|-1].plane == p
    requires forall name :: name in w3.log[|w3.log|-1].bound ==>
      name in volumes || Passing(w4.log, |w3.log|, |w4.log|, p, name)
    ensures Surveyed(v.log, |w.log|, |v.log|, p, space, uids, volumes)
  {
    hide ReadAs, Inv, Aged, Calm;
    ReadAsStays(w1.log, |w1.log|, v.log, |w2.log| - 1, |w.log|, Key(p, Namespace), space);
    ReadFromBefore(v.log, |w3.log| - 1, |w4.log|, |v.log|, Key(p, Namespace), space);
    var i, j := |w2.log| - 1, |w3.log| - 1;
    assert v.log[i] == w2.log[i] && v.log[j] == w3.log[j];
    forall name | name in v.log[j].bound && name !in volumes ensures Passing(v.log, j, |v.log|, p, name) {
      var k :| |w3.log| <= k < |w4.log| && w4.log[k] == SawVolume(p, name, false);
      assert v.log[k] == w4.log[k];
    }
    assert CoveredAt(v.log, j, |v.log|, p, volumes);
  }

  /** A survey justifies any record that contains it; one made after the Cluster was seen gone
      justifies the refresh. */
  lemma SurveyIsInventory(w: World, v: World, m: nat, r: Record, uids: set<Uid>, volumes: set<Name>)
    requires Prefix(w.log, v.log)
    requires Surveyed(v.log, |w.log|, |v.log|, Provider(m, r), ProviderSpace(r), uids, volumes)
    requires uids <= r.dataVolumes && volumes <= r.volumes
    ensures Inventoried(v.log, |v.log|, m, r, false)
    ensures Seen(w, Key(m, Cluster), r.cluster) ==> Inventoried(v.log, |v.log|, m, r, true)
  {
    var p := Provider(m, r);
    var i, j :| |w.log| <= i < j < |v.log| && v.log[i].Clones? && v.log[i].plane == p && v.log[i].uids <= uids
                && CoveredAt(v.log, j, |v.log|, p, volumes)
                && ReadAround(v.log, |w.log|, i, j, |v.log|, Key(p, Namespace), ProviderSpace(r));
    hide ReadAs;
    ReadFromBefore(v.log, 0, |w.log|, i, Key(p, Namespace), ProviderSpace(r));
    assert CoveredAt(v.log, j, |v.log|, p, r.volumes);
    if Seen(w, Key(m, Cluster), r.cluster) {
      SeenGoneStays(w.log, |w.log|, v.log, i, Key(m, Cluster), r.cluster);
    }
  }

  // ---- teardown_storage_uids ----

  /** Saved identities still name what is live, or nothing does. */
  predicate StorageMatches(w: World, p: nat, name: Name, s: Storage) {
    && (Key(p, Volume(name)) in w.store ==> w.store[Key(p, Volume(name))].uid == s.volume)
    && (Key(p, Longhorn(name)) in w.store ==> Some(w.store[Key(p, Longhorn(name))].uid) == s.longhorn)
  }

  /** Between `from` and n both were read: each was found absent or to have its saved identity. */
  ghost predicate StorageLooked(log: seq<Event>, from: nat, n: nat, p: nat, name: Name, s: Storage)
    requires n <= |log|
  {
    && Looked(log, from, n, Key(p, Volume(name)), s.volume)
    && (if s.longhorn.Some? then Looked(log, from, n, Key(p, Longhorn(name)), s.longhorn.value)
        else ReadNone(log, from, n, Key(p, Longhorn(name))))
  }

  lemma StorageLookedStays(log: seq<Event>, more: seq<Event>, before: nat, from: nat, p: nat, name: Name, s: Storage)
    requires Prefix(log, more) && before <= from && StorageLooked(log, from, |log|, p, name, s)
    ensures StorageLooked(more, before, |more|, p, name, s)
  {
    hide ReadAs, ReadNone, Looked;
    LookedStays(log, |log|, more, |more|, from, Key(p, Volume(name)), s.volume);
    ReadFromBefore(more, before, from, |more|, Key(p, Volume(name)), s.volume);
    if s.longhorn.Some? {
      LookedStays(log, |log|, more, |more|, from, Key(p, Longhorn(name)), s.longhorn.value);
      ReadFromBefore(more, before, from, |more|, Key(p, Longhorn(name)), s.longhorn.value);
    } else {
      ReadNoneStays(log, |log|, more, |more|, from, Key(p, Longhorn(name)));
      ReadFromBefore(more, before, from, |more|, Key(p, Longhorn(name)), 0);
    }
  }

  /** Every one of these names was looked at in that way. */
  ghost predicate AllLooked(log: seq<Event>, from: nat, n: nat, p: nat, names: set<Name>, storage: map<Name, Storage>)
    requires n <= |log|
  {
    forall name :: name in names ==> name in storage && StorageLooked(log, from, n, p, name, storage[name])
  }

  /** A captured identity names a PV that was read. */
  ghost predicate Captured(log: seq<Event>, from: nat, n: nat, p: nat, names: set<Name>, storage: map<Name, Storage>)
    requires n <= |log|
  {
    forall name :: name in names ==> name in storage && ReadAs(log, from, n, Key(p, Volume(name)), storage[name].volume)
  }

  lemma OneMoreLooked(log: seq<Event>, more: seq<Event>, from: nat, p: nat, names: set<Name>, storage: map<Name, Storage>,
                      name: Name, s: Storage)
    requires Prefix(log, more) && from <= |log| && AllLooked(log, from, |log|, p, names, storage)
    requires StorageLooked(more, |log|, |more|, p, name, s)
    ensures AllLooked(more, from, |more|, p, names + {name}, storage[name := s])
  {
    hide StorageLooked;
    forall n | n in names + {name} ensures StorageLooked(more, from, |more|, p, n, storage[name := s][n]) {
      if n == name { StorageLookedStays(more, more, from, |log|, p, name, s); }
      else { StorageLookedStays(log, more, from, from, p, n, storage[n]); }
    }
  }

  lemma OneMoreCaptured(log: seq<Event>, more: seq<Event>, from: nat, p: nat, names: set<Name>, storage: map<Name, Storage>,
                        name: Name, s: Storage)
    requires Prefix(log, more) && from <= |log| && Captured(log, from, |log|, p, names, storage)
    requires ReadAs(more, |log|, |more|, Key(p, Volume(name)), s.volume)
    ensures Captured(more, from, |more|, p, names + {name}, storage[name := s])
  {
    hide ReadAs;
    ReadFromBefore(more, from, |log|, |more|, Key(p, Volume(name)), s.volume);
    forall n | n in names && n != name ensures ReadAs(more, from, |more|, Key(p, Volume(n)), storage[n].volume) {
      ReadAsStays(log, |log|, more, |more|, from, Key(p, Volume(n)), storage[n].volume);
    }
  }

  lemma CapturedStays(log: seq<Event>, more: seq<Event>, from: nat, p: nat, names: set<Name>, storage: map<Name, Storage>)
    requires Prefix(log, more) && Captured(log, from, |log|, p, names, storage)
    ensures Captured(more, from, |more|, p, names, storage)
  {
    hide ReadAs;
    forall n | n in names ensures ReadAs(more, from, |more|, Key(p, Volume(n)), storage[n].volume) {
      ReadAsStays(log, |log|, more, |more|, from, Key(p, Volume(n)), storage[n].volume);
    }
  }

  lemma AllLookedStays(log: seq<Event>, more: seq<Event>, before: nat, from: nat, p: nat, names: set<Name>,
                       storage: map<Name, Storage>)
    requires Prefix(log, more) && before <= from && AllLooked(log, from, |log|, p, names, storage)
    ensures AllLooked(more, before, |more|, p, names, storage)
  {
    hide StorageLooked;
    forall n | n in names ensures StorageLooked(more, before, |more|, p, n, storage[n]) {
      StorageLookedStays(log, more, before, from, p, n, storage[n]);
    }
  }

  /** A reply that fits the saved identity shows it, or that nothing is there. */
  lemma ReplyLooks(w: World, from: nat, k: Key, reply: Reply, uid: Uid)
    requires from < |w.log|
    requires reply.Found? ==> JustPresent(w, k, reply.item.uid) && reply.item.uid == uid
    requires !reply.Found? ==> JustAbsent(w, k)
    ensures Looked(w.log, from, |w.log|, k, uid)
    ensures reply.Found? ==> ReadAs(w.log, from, |w.log|, k, uid)
    ensures !reply.Found? ==> ReadNone(w.log, from, |w.log|, k)
  {
    assert w.log[|w.log|-1].Absent? || w.log[|w.log|-1] == Present(k, uid);
  }

  /** Identity of one name: checked against the saved one, or captured when the PV is there. */
  method IdentifyStorage(api: Api, p: nat, name: Name, saved: Option<Storage>) returns (result: Result<Storage>)
    requires api.Valid()
    modifies api
    ensures api.Onward() && Quiet(api.foreign, old(api.world), api.world)
    ensures result.Ok? ==>
      if saved.Some? then result.value == saved.value
      else
        && result.value.volume != 0 && result.value.longhorn != Some(0)
        && ReadAs(api.world.log, |old(api.world).log|, |api.world.log|, Key(p, Volume(name)), result.value.volume)
    ensures result.Ok? ==>
      StorageLooked(api.world.log, |old(api.world).log|, |api.world.log|, p, name, result.value)
    ensures !api.foreign ==> api.world.store == old(api.world).store
    ensures !api.foreign && result.Ok? ==> StorageMatches(api.world, p, name, result.value)
    ensures !api.foreign && !api.faulty && Identifiable(old(api.world), p, name, saved) ==> result.Ok?
  {
    hide Calm, Aged, LogOk, ReceiptsMatch, AbsencesHold, RunTo, Lawful, ReadAs, ReadNone, Looked;
    var volume := api.Get(Key(p, Volume(name)));
    if volume.Failed? { return Err(ReadFailed); }
    if saved.Some? && volume.Found? && volume.item.uid != saved.value.volume {
      return Err(StorageDiffers);
    }
    ghost var mid := api.world;
    var longhorn := api.Get(Key(p, Longhorn(name)));
    QuietTransitive(api.foreign, old(api.world), mid, api.world);
    if longhorn.Failed? { return Err(ReadFailed); }
    if saved.Some? {
      if longhorn.Found? && Some(longhorn.item.uid) != saved.value.longhorn {
        return Err(StorageDiffers);
      }
      RepliesLook(old(api.world), mid, api.world, p, name, volume, longhorn, saved.value);
      return Ok(saved.value);
    }
    if volume.NotFound? { return Err(VolumeDisappeared); }
    var identity := Storage(volume.item.uid, if longhorn.Found? then Some(longhorn.item.uid) else None);
    RepliesLook(old(api.world), mid, api.world, p, name, volume, longhorn, identity);
    return Ok(identity);
  }

  lemma RepliesLook(w: World, mid: World, v: World, p: nat, name: Name, volume: Reply, longhorn: Reply, s: Storage)
    requires |w.log| < |mid.log| < |v.log| && Prefix(mid.log, v.log)
    requires if volume.Found? then JustPresent(mid, Key(p, Volume(name)), volume.item.uid) && volume.item.uid == s.volume
             else JustAbsent(mid, Key(p, Volume(name)))
    requires if longhorn.Found?
             then JustPresent(v, Key(p, Longhorn(name)), longhorn.item.uid) && Some(longhorn.item.uid) == s.longhorn
             else JustAbsent(v, Key(p, Longhorn(name)))
    ensures StorageLooked(v.log, |w.log|, |v.log|, p, name, s)
    ensures volume.Found? ==> ReadAs(v.log, |w.log|, |v.log|, Key(p, Volume(name)), s.volume)
  {
    hide ReadAs, ReadNone;
    ReplyLooks(mid, |w.log|, Key(p, Volume(name)), volume, s.volume);
    LookedStays(mid.log, |mid.log|, v.log, |v.log|, |w.log|, Key(p, Volume(name)), s.volume);
    if volume.Found? { ReadAsStays(mid.log, |mid.log|, v.log, |v.log|, |w.log|, Key(p, Volume(name)), s.volume); }
    ReplyLooks(v, |w.log|, Key(p, Longhorn(name)), longhorn, if s.longhorn.Some? then s.longhorn.value else 0);
  }

  predicate Identifiable(w: World, p: nat, name: Name, saved: Option<Storage>) {
    if saved.Some? then StorageMatches(w, p, name, saved.value) else Key(p, Volume(name)) in w.store
  }

  function SavedStorage(saved: map<Name, Storage>, name: Name): Option<Storage> {
    if name in saved then Some(saved[name]) else None
  }

  /** Adds the storage identities of new names and never rebinds a saved one; each was looked at
      during the call. */
  method TeardownStorageUids(api: Api, p: nat, names: set<Name>, saved: map<Name, Storage>)
    returns (result: Result<map<Name, Storage>>)
    requires api.Valid()
    modifies api
    ensures api.Onward() && Quiet(api.foreign, old(api.world), api.world)
    ensures result.Ok? ==>
      && result.value.Keys == saved.Keys + names
      && (forall n :: n in saved ==> result.value[n] == saved[n])
      && (forall n :: n in result.value && n !in saved ==>
            result.value[n].volume != 0 && result.value[n].longhorn != Some(0))
      && AllLooked(api.world.log, |old(api.world).log|, |api.world.log|, p, names, result.value)
      && Captured(api.world.log, |old(api.world).log|, |api.world.log|, p, names - saved.Keys, result.value)
    ensures !api.foreign ==> api.world.store == old(api.world).store
    ensures !api.foreign && result.Ok? ==> forall n :: n in names ==> StorageMatches(api.world, p, n, result.value[n])
    ensures !api.foreign && !api.faulty
      && (forall n :: n in names ==> Identifiable(old(api.world), p, n, SavedStorage(saved, n)))
      ==> result.Ok?
  {
    hide Calm, Aged, Inv, StorageMatches, Identifiable, RunTo, Lawful, ReadAs, StorageLooked, AllLooked, Captured;
    ghost var start := api.world;
    MovesReflexive(api.foreign, start);
    var identities := saved;
    var left := names;
    NoneLooked(start.log, |start.log|, p, saved);
    assert names - left == {} && names - left - saved.Keys == {};
    while left != {}
      invariant api.Onward() && Quiet(api.foreign, start, api.world)
      invariant left <= names && identities.Keys == saved.Keys + (names - left)
      invariant forall n :: n in saved ==> identities[n] == saved[n]
      invariant forall n :: n in identities && n !in saved ==>
        identities[n].volume != 0 && identities[n].longhorn != Some(0)
      invariant AllLooked(api.world.log, |start.log|, |api.world.log|, p, names - left, identities)
      invariant Captured(api.world.log, |start.log|, |api.world.log|, p, names - left - saved.Keys, identities)
      invariant !api.foreign ==> api.world.store == start.store
      invariant !api.foreign ==> forall n :: n in names && n !in left ==> StorageMatches(start, p, n, identities[n])
      decreases left
    {
      var name :| name in left;
      ghost var before := api.world;
      var identity := IdentifyStorage(api, p, name, SavedStorage(saved, name));
      QuietTransitive(api.foreign, start, before, api.world);
      SameStorage(start, before, p);
      SameStorage(start, api.world, p);
      if identity.Err? { return Err(identity.reason); }
      LooksOn(before.log, api.world.log, |start.log|, p, names - left, saved.Keys, identities, name, identity.value);
      assert names - left + {name} == names - (left - {name});
      identities := identities[name := identity.value];
      left := left - {name};
    }
    SameStorage(start, api.world, p);
    assert names - left == names;
    return Ok(identities);
  }

  lemma NoneLooked(log: seq<Event>, from: nat, p: nat, storage: map<Name, Storage>)
    ensures AllLooked(log, from, |log|, p, {}, storage) && Captured(log, from, |log|, p, {}, storage)
  {
  }

  /** The look at one more name. */
  lemma LooksOn(log: seq<Event>, more: seq<Event>, from: nat, p: nat, names: set<Name>, saved: set<Name>,
                storage: map<Name, Storage>, name: Name, s: Storage)
    requires Prefix(log, more) && from <= |log| && name !in names
    requires AllLooked(log, from, |log|, p, names, storage) && Captured(log, from, |log|, p, names - saved, storage)
    requires StorageLooked(more, |log|, |more|, p, name, s)
    requires name !in saved ==> ReadAs(more, |log|, |more|, Key(p, Volume(name)), s.volume)
    ensures AllLooked(more, from, |more|, p, names + {name}, storage[name := s])
    ensures Captured(more, from, |more|, p, names + {name} - saved, storage[name := s])
  {
    hide ReadAs, StorageLooked, AllLooked;
    OneMoreLooked(log, more, from, p, names, storage, name, s);
    if name in saved {
      CapturedStays(log, more, from, p, names - saved, storage);
      assert names + {name} - saved == names - saved;
    } else {
      OneMoreCaptured(log, more, from, p, names - saved, storage, name, s);
      assert names + {name} - saved == names - saved + {name};
    }
  }

  lemma SameStorage(w: World, v: World, p: nat)
    ensures w.store == v.store ==>
      && (forall n, s :: StorageMatches(w, p, n, s) == StorageMatches(v, p, n, s))
      && (forall n, s :: Identifiable(w, p, n, s) == Identifiable(v, p, n, s))
  {
  }

  // ---- write_teardown_configmap and persist_teardown_record ----

  /** Writes the receipt under the version that was read and insists on reading back exactly the
      same bytes. */
  method WriteReceipt(api: Api, m: nat, text: Text, existing: Option<Object>, origin: Origin) returns (result: Result<Object>)
    requires api.Valid() && TextBelow(text, api.world.nextUid)
    requires existing.Some? ==> existing.value.body.Ledger? && Known(api.world, Key(m, Receipt), existing.value)
    requires MayWrite(api.world.log, |api.world.log|, m, TextOf(existing), text, origin)
    modifies api
    ensures api.Onward() && Moves(api.foreign, old(api.world), api.world)
    ensures result.Ok? ==>
      && result.value.body.Ledger? && result.value.body.text == text && Readable(text)
      && Known(api.world, Key(m, Receipt), result.value)
      && LedgerAt(api.world, m, text)
      && RecordedAs(api.world.log, |api.world.log|, m, text.parsed.value, origin)
    ensures !api.foreign ==> forall j :: j != Key(m, Receipt) ==> SameAt(old(api.world), api.world, j)
    ensures !api.foreign && Matches(old(api.world), m, existing) ==>
      && (!api.faulty ==> result.Ok?)
      && (result.Ok? ==> Matches(api.world, m, Some(result.value)))
      && (SameAt(old(api.world), api.world, Key(m, Receipt)) || LedgerAt(api.world, m, text))
    ensures !api.foreign && !Matches(old(api.world), m, existing) ==> SameAt(old(api.world), api.world, Key(m, Receipt))
  {
    hide MayWrite, Calm, Aged, LogOk, ReceiptsMatch, AbsencesHold, RunTo, Lawful;
    var took := api.PutReceipt(m, existing, text, origin);
    if !took { return Err(WriteFailed); }
    ghost var mid := api.world;
    var reply := api.Get(Key(m, Receipt));
    MovesTransitive(api.foreign, old(api.world), mid, api.world);
    if !api.foreign { SameStore(old(api.world), mid, api.world); }
    RecordedStays(mid.log, |mid.log|, api.world.log, |api.world.log|, m, text.parsed.value);
    match reply
    case Failed => return Err(ReadFailed);
    case NotFound => return Err(WriteUnconfirmed);
    case Found(o) =>
      if o.body != Ledger(text, true) { return Err(WriteUnconfirmed); }
      FoundIsKnown(api.world, Key(m, Receipt));
      return Ok(o);
  }

  /** Validates the record and writes its canonical text. */
  method PersistRecord(api: Api, m: nat, r: Record, existing: Option<Object>, origin: Origin) returns (result: Result<Object>)
    requires api.Valid() && RecordBelow(r, api.world.nextUid)
    requires existing.Some? ==> existing.value.body.Ledger? && Known(api.world, Key(m, Receipt), existing.value)
    requires ValidRecord(r) ==>
      MayWrite(api.world.log, |api.world.log|, m, TextOf(existing), Canonical(r), origin)
    modifies api
    ensures api.Onward() && Moves(api.foreign, old(api.world), api.world)
    ensures result.Ok? ==>
      && ValidRecord(r)
      && result.value.body.Ledger? && result.value.body.text == Canonical(r)
      && Known(api.world, Key(m, Receipt), result.value)
      && LedgerAt(api.world, m, Canonical(r))
      && RecordedAs(api.world.log, |api.world.log|, m, r, origin)
    ensures !api.foreign ==> forall j :: j != Key(m, Receipt) ==> SameAt(old(api.world), api.world, j)
    ensures !api.foreign && Matches(old(api.world), m, existing) ==>
      && (!api.faulty && ValidRecord(r) ==> result.Ok?)
      && (result.Ok? ==> Matches(api.world, m, Some(result.value)))
      && (SameAt(old(api.world), api.world, Key(m, Receipt)) || LedgerAt(api.world, m, Canonical(r)))
    ensures !api.foreign && !Matches(old(api.world), m, existing) ==> SameAt(old(api.world), api.world, Key(m, Receipt))
  {
    hide MayWrite, Calm, Aged, Inv, Known, RecordedAs, RunTo, Lawful;
    MovesReflexive(api.foreign, api.world);
    if !ValidRecord(r) { return Err(ReceiptInvalid); }
    result := WriteReceipt(api, m, Canonical(r), existing, origin);
  }
}
