/** The read-mostly first half of `teardown`: which receipt is in force, which generation it binds,
    and the durable provenance that must exist before anything is deleted. */
module Opening {
  import opened Wrappers
  import opened Receipts
  import opened Kubernetes
  import opened Protocol
  import opened ProtocolLemmas
  import opened Steps
  import opened ApiServer
  import opened Lifecycle
  import opened Phases
  import opened Cleanup

  datatype Local = Local(config: Config, external: bool)

  /** Command line and local render directory of one run. */
  datatype Request = Request(management: nat, provider: Option<nat>, local: Option<Local>, confirmed: bool, preserve: bool)

  function ProviderOf(q: Request): nat {
    if q.provider.Some? then q.provider.value else q.management
  }

  /** The record was made with the same plane authority. */
  predicate PlanesFit(q: Request, r: Record) {
    if q.provider.None? then r.planes.None?
    else r.planes.Some? && r.planes.value.management == q.management && r.planes.value.provider == q.provider.value
  }

  /** UIDs of the two kube-system namespaces, when there are two planes. */
  function PlanesOf(q: Request): Option<(Uid, Uid)> {
    if q.provider.Some? then Some((q.management, q.provider.value)) else None
  }

  /** The record was made with the same plane authority as was read. */
  predicate PlanesAgree(planes: Option<(Uid, Uid)>, r: Record) {
    && (planes.Some? <==> r.planes.Some?)
    && (planes.Some? ==> r.planes.value.management == planes.value.0 && r.planes.value.provider == planes.value.1)
  }

  // ---- what was looked at, with or without other actors ----

  ghost predicate IdentitiesLooked(log: seq<Event>, from: nat, n: nat, m: nat, r: Record)
    requires n <= |log|
  {
    && Looked(log, from, n, Key(m, Cluster), r.cluster)
    && Looked(log, from, n, Key(m, Namespace), r.space)
    && Looked(log, from, n, Key(Provider(m, r), Namespace), ProviderSpace(r))
  }

  /** As IdentitiesLooked, and all three were there. */
  ghost predicate IdentitiesRead(log: seq<Event>, from: nat, n: nat, m: nat, r: Record)
    requires n <= |log|
  {
    && ReadAs(log, from, n, Key(m, Cluster), r.cluster)
    && ReadAs(log, from, n, Key(m, Namespace), r.space)
    && ReadAs(log, from, n, Key(Provider(m, r), Namespace), ProviderSpace(r))
  }

  /** Between `from` and n every identity of the record, storage of a split-plane one included, was
      found to be the recorded one, or absent. */
  ghost predicate Vetted(log: seq<Event>, from: nat, n: nat, m: nat, r: Record)
    requires n <= |log|
  {
    && IdentitiesLooked(log, from, n, m, r)
    && (r.planes.Some? ==> AllLooked(log, from, n, Provider(m, r), r.volumes, r.storage))
  }

  lemma IdentitiesStay(log: seq<Event>, more: seq<Event>, before: nat, from: nat, m: nat, r: Record)
    requires Prefix(log, more) && before <= from
    ensures IdentitiesLooked(log, from, |log|, m, r) ==> IdentitiesLooked(more, before, |more|, m, r)
    ensures IdentitiesRead(log, from, |log|, m, r) ==> IdentitiesRead(more, before, |more|, m, r)
  {
    hide ReadAs, Looked;
    ReadStays(log, more, before, from, Key(m, Cluster), r.cluster);
    ReadStays(log, more, before, from, Key(m, Namespace), r.space);
    ReadStays(log, more, before, from, Key(Provider(m, r), Namespace), ProviderSpace(r));
  }

  lemma ReadStays(log: seq<Event>, more: seq<Event>, before: nat, from: nat, k: Key, uid: Uid)
    requires Prefix(log, more) && before <= from
    ensures Looked(log, from, |log|, k, uid) ==> Looked(more, before, |more|, k, uid)
    ensures ReadAs(log, from, |log|, k, uid) ==> ReadAs(more, before, |more|, k, uid)
  {
    hide ReadAs, ReadNone, Looked;
    if Looked(log, from, |log|, k, uid) { LookedStays(log, |log|, more, |more|, from, k, uid); }
    if ReadAs(log, from, |log|, k, uid) { ReadAsStays(log, |log|, more, |more|, from, k, uid); }
    ReadFromBefore(more, before, from, |more|, k, uid);
  }

  lemma VettedStays(log: seq<Event>, more: seq<Event>, before: nat, from: nat, m: nat, r: Record)
    requires Prefix(log, more) && before <= from && Vetted(log, from, |log|, m, r)
    ensures Vetted(more, before, |more|, m, r)
  {
    hide IdentitiesLooked, AllLooked;
    IdentitiesStay(log, more, before, from, m, r);
    if r.planes.Some? { AllLookedStays(log, more, before, from, Provider(m, r), r.volumes, r.storage); }
  }

  lemma ReadIsLooked(log: seq<Event>, from: nat, m: nat, r: Record)
    requires IdentitiesRead(log, from, |log|, m, r)
    ensures IdentitiesLooked(log, from, |log|, m, r)
  {
    hide ReadAs;
  }

  // ---- worlds in which an undisturbed run succeeds ----

  predicate SystemSpaces(w: World, m: nat, p: nat) {
    Key(m, SystemSpace) in w.store && Key(p, SystemSpace) in w.store
  }

  ghost predicate Prepared(w: World, q: Request) {
    && Key(q.management, LedgerSpace) in w.store
    && (q.provider.Some? ==>
          q.provider.value != q.management && SystemSpaces(w, q.management, q.provider.value))
    && (q.local.Some? && q.local.value.external ==> q.provider.Some?)
    && q.confirmed
  }

  lemma PreparedStays(w: World, v: World, q: Request)
    requires Shrinks(w, v, ProviderOf(q)) && Prepared(w, q)
    ensures Prepared(v, q)
  {
    assert Permanent(Key(q.management, LedgerSpace));
  }

  /** In a calm world a reply tells what is there. */
  predicate Tells(w: World, k: Key, reply: Reply) {
    && (reply.Found? ==> k in w.store && w.store[k] == reply.item)
    && (reply.NotFound? ==> k !in w.store)
  }

  /** Finding an object at k rules out every UID issued before other than its own. */
  ghost predicate Excludes(w: World, v: World, k: Key, reply: Reply) {
    reply.Found? ==>
      && (forall uid: Uid :: uid < w.nextUid && uid != reply.item.uid ==> Gone(v, k, uid))
      && (forall uid: Uid :: Gone(w, k, uid) ==> reply.item.uid != uid)
      && 0 < reply.item.uid < v.nextUid
  }

  lemma FoundExcludes(w: World, v: World, k: Key)
    requires Aged(w, v) && Fresh(v) && k in v.store
    ensures Excludes(w, v, k, Found(v.store[k]))
  {
    forall uid: Uid | Gone(w, k, uid) ensures v.store[k].uid != uid { GoneForGood(w, v, k, uid); }
  }

  lemma ExcludesStays(w: World, u: World, v: World, k: Key, reply: Reply)
    requires Aged(u, v) && Excludes(w, u, k, reply)
    ensures Excludes(w, v, k, reply)
  {
    if reply.Found? {
      forall uid: Uid | uid < w.nextUid && uid != reply.item.uid ensures Gone(v, k, uid) { GoneForGood(u, v, k, uid); }
    }
  }

  lemma ExcludesFromBefore(w: World, u: World, v: World, k: Key, reply: Reply)
    requires Aged(w, u) && Excludes(u, v, k, reply)
    ensures Excludes(w, v, k, reply)
  {
    if reply.Found? {
      forall uid: Uid | Gone(w, k, uid) ensures reply.item.uid != uid { GoneForGood(w, u, k, uid); }
    }
  }

  method Read(api: Api, k: Key) returns (reply: Reply)
    requires api.Valid()
    modifies api
    ensures api.Onward() && Quiet(api.foreign, old(api.world), api.world) && api.sent == old(api.sent)
    ensures reply.Failed? ==> api.faulty
    ensures !api.foreign ==> api.world.store == old(api.world).store && Tells(api.world, k, reply)
    ensures Excludes(old(api.world), api.world, k, reply)
    ensures reply.Found? ==> ReadAs(api.world.log, |old(api.world).log|, |api.world.log|, k, reply.item.uid)
    ensures reply.Found? && k.kind.SystemSpace? ==> reply.item.uid == k.plane
  {
    hide Calm, Aged, Excludes, LogOk, AbsencesHold, ReceiptsMatch, RunTo, Lawful;
    reply := api.Get(k);
    if reply.Found? { FoundExcludes(old(api.world), api.world, k); }
    else { NothingExcluded(old(api.world), api.world, k, reply); }
  }

  lemma NothingExcluded(w: World, v: World, k: Key, reply: Reply)
    requires !reply.Found?
    ensures Excludes(w, v, k, reply)
  {
  }

  /** Two reads in a row. */
  method GetBoth(api: Api, first: Key, second: Key) returns (one: Reply, two: Reply)
    requires api.Valid()
    modifies api
    ensures api.Onward() && Quiet(api.foreign, old(api.world), api.world) && api.sent == old(api.sent)
    ensures one.Failed? || two.Failed? ==> api.faulty
    ensures !api.foreign ==>
      api.world.store == old(api.world).store && Tells(api.world, first, one) && Tells(api.world, second, two)
    ensures Excludes(old(api.world), api.world, first, one) && Excludes(old(api.world), api.world, second, two)
    ensures one.Found? ==> ReadAs(api.world.log, |old(api.world).log|, |api.world.log|, first, one.item.uid)
    ensures two.Found? ==> ReadAs(api.world.log, |old(api.world).log|, |api.world.log|, second, two.item.uid)
    ensures one.Found? && first.kind.SystemSpace? ==> one.item.uid == first.plane
    ensures two.Found? && second.kind.SystemSpace? ==> two.item.uid == second.plane
  {
    hide Inv, Calm, Aged, Excludes, ReadAs, RunTo, Lawful;
    one := Read(api, first);
    ghost var mid := api.world;
    two := Read(api, second);
    QuietTransitive(api.foreign, old(api.world), mid, api.world);
    if one.Found? { ReadStays(mid.log, api.world.log, |old(api.world).log|, |old(api.world).log|, first, one.item.uid); }
    if two.Found? { ReadStays(api.world.log, api.world.log, |old(api.world).log|, |mid.log|, second, two.item.uid); }
    ExcludesStays(old(api.world), mid, api.world, first, one);
    ExcludesFromBefore(old(api.world), mid, api.world, second, two);
  }

  // ---- preconditions checked before the receipt is read ----

  /** Both kube-system namespaces were read, with these UIDs. */
  ghost predicate PlanesRead(log: seq<Event>, from: nat, n: nat, m: nat, p: nat, planes: (Uid, Uid))
    requires n <= |log|
  {
    && ReadAs(log, from, n, Key(m, SystemSpace), planes.0)
    && ReadAs(log, from, n, Key(p, SystemSpace), planes.1)
  }

  lemma PlanesReadStay(foreign: bool, w: World, v: World, before: nat, m: nat, p: nat, planes: (Uid, Uid))
    requires Quiet(foreign, w, v) && before <= |w.log| && PlanesRead(v.log, |w.log|, |v.log|, m, p, planes)
    ensures PlanesRead(v.log, before, |v.log|, m, p, planes)
  {
    hide ReadAs;
    ReadFromBefore(v.log, before, |w.log|, |v.log|, Key(m, SystemSpace), planes.0);
    ReadFromBefore(v.log, before, |w.log|, |v.log|, Key(p, SystemSpace), planes.1);
  }

  /** UIDs of the two kube-system namespaces, which must differ. */
  method DistinctPlanes(api: Api, m: nat, p: nat) returns (result: Result<(Uid, Uid)>)
    requires api.Valid()
    modifies api
    ensures api.Onward() && Quiet(api.foreign, old(api.world), api.world) && api.sent == old(api.sent)
    ensures result.Ok? ==>
      && PlanesRead(api.world.log, |old(api.world).log|, |api.world.log|, m, p, result.value)
      && result.value == (m, p) && m != p
    ensures !api.foreign ==> api.world.store == old(api.world).store
    ensures !api.foreign && !api.faulty && p != m && SystemSpaces(old(api.world), m, p) ==> result.Ok?
  {
    hide Inv, Calm, Aged, Quiet, Excludes, ReadAs, RunTo, Lawful;
    var here, there := GetBoth(api, Key(m, SystemSpace), Key(p, SystemSpace));
    if !here.Found? || !there.Found? { return Err(PlaneUnknown); }
    if here.item.uid == there.item.uid { return Err(PlanesEqual); }
    return Ok((here.item.uid, there.item.uid));
  }

  lemma FoundIsRead(w: World, from: nat, k: Key, uid: Uid)
    requires JustPresent(w, k, uid) && from < |w.log|
    ensures ReadAs(w.log, from, |w.log|, k, uid)
  {
  }

  lemma LedgerReadStays(foreign: bool, w: World, v: World, from: nat, k: Key, uid: Uid)
    requires Quiet(foreign, w, v) && ReadAs(w.log, from, |w.log|, k, uid)
    ensures ReadAs(v.log, from, |v.log|, k, uid)
  {
    ReadAsStays(w.log, |w.log|, v.log, |v.log|, from, k, uid);
  }

  /** The ledger namespace, the two planes, and what the local config demands. */
  method Preflight(api: Api, q: Request) returns (result: Result<Option<(Uid, Uid)>>)
    requires api.Valid()
    modifies api
    ensures api.Onward() && Quiet(api.foreign, old(api.world), api.world) && api.sent == old(api.sent)
    ensures result.Ok? ==> result.value == PlanesOf(q)
    ensures result.Ok? && q.provider.Some? ==>
      && PlanesRead(api.world.log, |old(api.world).log|, |api.world.log|, q.management, q.provider.value, result.value.value)
      && result.value.value.0 != result.value.value.1
    ensures result.Ok? ==> (q.local.Some? && q.local.value.external ==> q.provider.Some?)
    ensures result.Ok? ==>
      exists uid :: ReadAs(api.world.log, |old(api.world).log|, |api.world.log|, Key(q.management, LedgerSpace), uid)
    ensures !api.foreign ==> api.world.store == old(api.world).store
    ensures !api.foreign && !api.faulty && Prepared(old(api.world), q) ==> result.Ok?
  {
    hide Inv, Calm, Aged, Quiet, PlanesRead, ReadAs, RunTo, Lawful;
    var space := api.Get(Key(q.management, LedgerSpace));
    if !space.Found? { return Err(LedgerSpaceAbsent); }
    FoundIsRead(api.world, |old(api.world).log|, Key(q.management, LedgerSpace), space.item.uid);
    var planes := None;
    if q.provider.Some? {
      ghost var w1 := api.world;
      var distinct := DistinctPlanes(api, q.management, q.provider.value);
      QuietTransitive(api.foreign, old(api.world), w1, api.world);
      if distinct.Err? { return Err(distinct.reason); }
      LedgerReadStays(api.foreign, w1, api.world, |old(api.world).log|, Key(q.management, LedgerSpace), space.item.uid);
      PlanesReadStay(api.foreign, w1, api.world, |old(api.world).log|, q.management, q.provider.value, distinct.value);
      planes := Some(distinct.value);
    }
    if q.local.Some? && q.local.value.external && q.provider.None? {
      return Err(ProviderRequired);
    }
    return Ok(planes);
  }

  // ---- read_teardown_configmap and teardown_record_from_configmap ----

  /** The valid record a labelled receipt holds. */
  function ReceiptRecord(w: World, m: nat): Option<Record> {
    var k := Key(m, Receipt);
    if k in w.store && w.store[k].body.Ledger? && w.store[k].body.labelled && Readable(w.store[k].body.text)
    then w.store[k].body.text.parsed
    else None
  }

  predicate ReceiptUsable(w: World, m: nat) {
    Key(m, Receipt) in w.store ==> ReceiptRecord(w, m).Some?
  }

  /** Whatever the receipt says was written by the tool before. */
  lemma {:induction false} LastTextIsRecorded(log: seq<Event>, n: nat, m: nat)
    requires n <= |log| && LastText(log, n, m).Some?
    ensures LastText(log, n, m).value.parsed.Some? ==> Recorded(log, n, m, LastText(log, n, m).value.parsed.value)
  {
    if log[n-1].Wrote? && log[n-1].plane == m {
    } else {
      LastTextIsRecorded(log, n - 1, m);
    }
  }

  lemma ReceiptIsRecorded(w: World, m: nat, r: Record)
    requires Inv(w) && ReceiptText(w, m).Some? && ReceiptText(w, m).value.parsed == Some(r)
    ensures Recorded(w.log, |w.log|, m, r) && RecordBelow(r, w.nextUid)
  {
    LastTextIsRecorded(w.log, |w.log|, m);
    assert IsReceipt(Key(m, Receipt));
  }

  method ReadReceipt(api: Api, m: nat) returns (result: Result<Option<Object>>)
    requires api.Valid()
    modifies api
    ensures api.Onward() && Quiet(api.foreign, old(api.world), api.world) && api.sent == old(api.sent)
    ensures result.Ok? && result.value.Some? ==>
      var o := result.value.value;
      && o.body.Ledger? && o.body.text.parsed.Some?
      && Carries(api.world, m, o.body.text.parsed.value, o)
      && Recorded(api.world.log, |api.world.log|, m, o.body.text.parsed.value)
    ensures !api.foreign ==> api.world.store == old(api.world).store
    ensures !api.foreign && result.Ok? ==> Matches(api.world, m, result.value)
    ensures !api.foreign && result.Ok? && result.value.Some? ==>
      ReceiptRecord(api.world, m) == result.value.value.body.text.parsed
    ensures !api.foreign && !api.faulty && ReceiptUsable(old(api.world), m) ==> result.Ok?
  {
    hide Calm, Aged, Inv, RecordBelow, RunTo, Lawful;
    var reply := api.Get(Key(m, Receipt));
    match reply
    case Failed => return Err(ReadFailed);
    case NotFound => return Ok(None);
    case Found(o) =>
      if !o.body.Ledger? || !o.body.labelled { return Err(ReceiptInvalid); }
      if !Readable(o.body.text) { return Err(ReceiptInvalid); }
      ReceiptIsRecorded(api.world, m, o.body.text.parsed.value);
      FoundIsKnown(api.world, Key(m, Receipt));
      return Ok(Some(o));
  }

  // ---- a completed receipt ----

  datatype Completion = TornDown | Superseding

  predicate GenerationAbsent(w: World, q: Request) {
    && Key(q.management, Cluster) !in w.store
    && Key(q.management, Namespace) !in w.store
    && Key(ProviderOf(q), Namespace) !in w.store
  }

  /** A live Cluster or Namespace of the name has another UID than the completed record. */
  predicate NameReused(w: World, q: Request, r: Record) {
    || (Key(q.management, Cluster) in w.store && w.store[Key(q.management, Cluster)].uid != r.cluster)
    || (Key(q.management, Namespace) in w.store && w.store[Key(q.management, Namespace)].uid != r.space)
  }

  /** One of the two identities of the record can never be live again. */
  ghost predicate Outlived(w: World, m: nat, r: Record) {
    Gone(w, Key(m, Cluster), r.cluster) || Gone(w, Key(m, Namespace), r.space)
  }

  /** Already torn down, or superseded by a new generation of the name on a single plane. */
  method JudgeCompleted(api: Api, q: Request, r: Record) returns (result: Result<Completion>)
    requires api.Valid() && ValidRecord(r) && PlanesFit(q, r) && RecordBelow(r, api.world.nextUid)
    modifies api
    ensures api.Onward() && Quiet(api.foreign, old(api.world), api.world) && api.sent == old(api.sent)
    ensures result == Ok(Superseding) ==> q.provider.None? && Outlived(api.world, q.management, r)
    ensures !api.foreign ==> api.world.store == old(api.world).store
    ensures !api.foreign && result == Ok(TornDown) ==> GenerationAbsent(api.world, q)
    ensures !api.foreign && result == Ok(Superseding) ==> NameReused(api.world, q, r)
    ensures !api.foreign && !api.faulty && GenerationAbsent(old(api.world), q) ==> result == Ok(TornDown)
    ensures !api.foreign && !api.faulty && q.provider.None? && NameReused(old(api.world), q, r) ==> result == Ok(Superseding)
  {
    hide Inv, Calm, Aged, Quiet, Excludes, Outlived, RunTo, Lawful;
    var cluster, space := GetBoth(api, Key(q.management, Cluster), Key(q.management, Namespace));
    if cluster.Failed? || space.Failed? { return Err(ReadFailed); }
    var provider := Ok(None);
    if q.provider.Some? {
      ghost var w2 := api.world;
      provider := BoundResource(api, Key(ProviderOf(q), Namespace), ProviderSpace(r));
      QuietTransitive(api.foreign, old(api.world), w2, api.world);
      if provider.Err? { return Err(provider.reason); }
    }
    if q.provider.None? { JudgeOutlived(old(api.world), api.world, q, r, cluster, space, true); }
    return Judge(q, r, cluster, space, provider.value.None?);
  }

  lemma JudgeOutlived(w: World, v: World, q: Request, r: Record, cluster: Reply, space: Reply, providerAbsent: bool)
    requires RecordBelow(r, w.nextUid)
    requires Excludes(w, v, Key(q.management, Cluster), cluster) && Excludes(w, v, Key(q.management, Namespace), space)
    ensures Judge(q, r, cluster, space, providerAbsent) == Ok(Superseding) ==> Outlived(v, q.management, r)
  {
  }

  function Judge(q: Request, r: Record, cluster: Reply, space: Reply, providerAbsent: bool): Result<Completion> {
    if cluster.NotFound? && space.NotFound? && providerAbsent then Ok(TornDown)
    else if (cluster.Found? && cluster.item.uid != r.cluster) || (space.Found? && space.item.uid != r.space) then
      if q.provider.Some? then Err(OtherGeneration) else Ok(Superseding)
    else Err(OriginalsLive)
  }

  predicate GenerationUndisturbed(w: World, m: nat, r: Record) {
    Undisturbed(w, Key(m, Cluster), r.cluster) && SpacesUndisturbed(w, m, r)
  }

  // ---- an incomplete receipt: bind the three live identities ----

  /** Cluster and management namespace: absent, or of the recorded UIDs. */
  method BindManagement(api: Api, m: nat, r: Record) returns (result: Result<Option<Object>>)
    requires api.Valid()
    modifies api
    ensures api.Onward() && Quiet(api.foreign, old(api.world), api.world)
    ensures result.Ok? && result.value.None? ==> JustAbsent(api.world, Key(m, Namespace))
    ensures result.Ok? ==>
      && Looked(api.world.log, |old(api.world).log|, |api.world.log|, Key(m, Cluster), r.cluster)
      && Looked(api.world.log, |old(api.world).log|, |api.world.log|, Key(m, Namespace), r.space)
    ensures !api.foreign ==> api.world.store == old(api.world).store
    ensures !api.foreign && result.Ok? ==>
      && (result.value.Some? <==> Key(m, Namespace) in api.world.store)
      && Undisturbed(api.world, Key(m, Cluster), r.cluster) && Undisturbed(api.world, Key(m, Namespace), r.space)
    ensures !api.foreign && !api.faulty && Undisturbed(old(api.world), Key(m, Cluster), r.cluster)
      && Undisturbed(old(api.world), Key(m, Namespace), r.space)
      ==> result.Ok?
  {
    hide Inv, Calm, Aged, Quiet, ReadAs, ReadNone, RunTo, Lawful;
    var cluster := BoundResource(api, Key(m, Cluster), r.cluster);
    if cluster.Err? { return cluster; }
    ghost var w1 := api.world;
    result := BoundResource(api, Key(m, Namespace), r.space);
    QuietTransitive(api.foreign, old(api.world), w1, api.world);
    if result.Ok? {
      BothLooked(api.foreign, old(api.world), w1, api.world, Key(m, Cluster), r.cluster, Key(m, Namespace), r.space);
    }
  }

  /** Two looks in a row. */
  lemma BothLooked(foreign: bool, w: World, w1: World, v: World, first: Key, one: Uid, second: Key, two: Uid)
    requires Quiet(foreign, w, w1) && Quiet(foreign, w1, v)
    requires Looked(w1.log, |w.log|, |w1.log|, first, one) && Looked(v.log, |w1.log|, |v.log|, second, two)
    ensures Looked(v.log, |w.log|, |v.log|, first, one) && Looked(v.log, |w.log|, |v.log|, second, two)
  {
    hide Looked, ReadAs, Inv, Aged, Calm;
    ReadStays(w1.log, v.log, |w.log|, |w.log|, first, one);
    ReadStays(v.log, v.log, |w.log|, |w1.log|, second, two);
  }

  /** Binds the three live identities of an unfinished record; whether the workload namespace is there. */
  method BindRecord(api: Api, q: Request, r: Record) returns (result: Result<bool>)
    requires api.Valid() && ValidRecord(r) && PlanesFit(q, r) && RecordBelow(r, api.world.nextUid)
    modifies api
    ensures api.Onward() && Quiet(api.foreign, old(api.world), api.world)
    ensures result == Ok(false) ==> Seen(api.world, Key(ProviderOf(q), Namespace), ProviderSpace(r))
    ensures result.Ok? ==> IdentitiesLooked(api.world.log, |old(api.world).log|, |api.world.log|, q.management, r)
    ensures !api.foreign ==> api.world.store == old(api.world).store
    ensures !api.foreign && result.Ok? ==> (result.value <==> Key(ProviderOf(q), Namespace) in api.world.store)
    ensures !api.foreign && result.Ok? ==> GenerationUndisturbed(api.world, q.management, r)
    ensures !api.foreign && !api.faulty && GenerationUndisturbed(old(api.world), q.management, r) ==> result.Ok?
  {
    hide Inv, Calm, Aged, Quiet, SeenGone, ReadAs, ReadNone, RunTo, Lawful;
    var space := BindManagement(api, q.management, r);
    if space.Err? { return Err(space.reason); }
    if q.provider.Some? {
      ghost var w1 := api.world;
      space := BoundResource(api, Key(ProviderOf(q), Namespace), ProviderSpace(r));
      QuietTransitive(api.foreign, old(api.world), w1, api.world);
      if space.Err? { return Err(space.reason); }
      BothLooked(api.foreign, old(api.world), w1, api.world,
                 Key(q.management, Cluster), r.cluster, Key(ProviderOf(q), Namespace), ProviderSpace(r));
      BothLooked(api.foreign, old(api.world), w1, api.world,
                 Key(q.management, Namespace), r.space, Key(ProviderOf(q), Namespace), ProviderSpace(r));
    }
    if space.value.None? {
      QuietGrows(api.foreign, old(api.world), api.world);
      JustAbsentIsSeen(api.world, Key(ProviderOf(q), Namespace), ProviderSpace(r));
    }
    return Ok(space.value.Some?);
  }

  lemma QuietGrows(foreign: bool, w: World, v: World)
    requires Quiet(foreign, w, v)
    ensures w.nextUid <= v.nextUid
  {
  }

  // ---- a new generation: draft the record ----

  /** Local config that can be persisted. */
  predicate ValidConfig(c: Config) {
    && c.kind != ""
    && (c.golden.Some? ==>
          && c.kind == "talos"
          && c.golden.value.space != "" && c.golden.value.claim != ""
          && c.golden.value.osIdentity != "" && c.golden.value.imageDigest != "")
  }

  datatype Live = Live(cluster: Uid, space: Uid)
  datatype Identity = Identity(cluster: Uid, space: Uid, providerSpace: Uid)

  function LiveUid(w: World, k: Key): Uid {
    if k in w.store then w.store[k].uid else 0
  }

  function IdentityOf(w: World, q: Request): Identity {
    Identity(LiveUid(w, Key(q.management, Cluster)), LiveUid(w, Key(q.management, Namespace)),
             LiveUid(w, Key(ProviderOf(q), Namespace)))
  }

  predicate ClusterLive(w: World, m: nat) {
    Key(m, Cluster) in w.store && Key(m, Namespace) in w.store
  }

  predicate GenerationLive(w: World, q: Request) {
    && ClusterLive(w, q.management)
    && Key(ProviderOf(q), Namespace) in w.store
  }

  /** An identity read between w and v: issued, and none that was gone before. */
  ghost predicate Current(w: World, v: World, k: Key, uid: Uid) {
    0 < uid < v.nextUid && forall earlier: Uid :: Gone(w, k, earlier) ==> uid != earlier
  }

  lemma FoundIsCurrent(w: World, v: World, k: Key, reply: Reply)
    requires reply.Found? && Excludes(w, v, k, reply)
    ensures Current(w, v, k, reply.item.uid)
  {
  }

  lemma CurrentStays(w: World, u: World, v: World, k: Key, uid: Uid)
    requires u.nextUid <= v.nextUid && Current(w, u, k, uid)
    ensures Current(w, v, k, uid)
  {
  }

  /** UIDs of the live Cluster and management namespace; both must be there. */
  method ReadCluster(api: Api, m: nat) returns (result: Result<Live>)
    requires api.Valid()
    modifies api
    ensures api.Onward() && Quiet(api.foreign, old(api.world), api.world)
    ensures result.Ok? ==>
      && Current(old(api.world), api.world, Key(m, Cluster), result.value.cluster)
      && Current(old(api.world), api.world, Key(m, Namespace), result.value.space)
    ensures !api.foreign ==> api.world.store == old(api.world).store
    ensures !api.foreign && result.Ok? ==>
      && Key(m, Cluster) in api.world.store && result.value.cluster == LiveUid(api.world, Key(m, Cluster))
      && Key(m, Namespace) in api.world.store && result.value.space == LiveUid(api.world, Key(m, Namespace))
    ensures !api.foreign && !api.faulty && ClusterLive(old(api.world), m) ==> result.Ok?
  {
    hide Inv, Calm, Aged, Quiet, Excludes, Current, RunTo, Lawful;
    var space, cluster := GetBoth(api, Key(m, Namespace), Key(m, Cluster));
    if !space.Found? || !cluster.Found? {
      return Err(GenerationNotLive);
    }
    FoundIsCurrent(old(api.world), api.world, Key(m, Cluster), cluster);
    FoundIsCurrent(old(api.world), api.world, Key(m, Namespace), space);
    return Ok(Live(cluster.item.uid, space.item.uid));
  }

  /** UID of the live provider namespace; on a single plane that is the management namespace. */
  method ReadProviderSpace(api: Api, q: Request, space: Uid) returns (result: Result<Uid>)
    requires api.Valid() && 0 < space < api.world.nextUid
    modifies api
    ensures api.Onward() && Quiet(api.foreign, old(api.world), api.world)
    ensures result.Ok? ==> 0 < result.value < api.world.nextUid && (q.provider.None? ==> result.value == space)
    ensures !api.foreign ==> api.world.store == old(api.world).store
    ensures !api.foreign && result.Ok? && q.provider.Some? ==>
      Key(ProviderOf(q), Namespace) in api.world.store && result.value == LiveUid(api.world, Key(ProviderOf(q), Namespace))
    ensures !api.foreign && !api.faulty && Key(ProviderOf(q), Namespace) in old(api.world).store ==> result.Ok?
  {
    hide Inv, Calm, Aged, Excludes, Current, RunTo, Lawful;
    MovesReflexive(api.foreign, api.world);
    if q.provider.None? { return Ok(space); }
    var reply := Read(api, Key(ProviderOf(q), Namespace));
    if !reply.Found? { return Err(GenerationNotLive); }
    FoundIsCurrent(old(api.world), api.world, Key(ProviderOf(q), Namespace), reply);
    CurrentMeans(old(api.world), api.world, Key(ProviderOf(q), Namespace), reply.item.uid);
    return Ok(reply.item.uid);
  }

  method ReadIdentity(api: Api, q: Request) returns (result: Result<Identity>)
    requires api.Valid()
    modifies api
    ensures api.Onward() && Quiet(api.foreign, old(api.world), api.world)
    ensures result.Ok? ==>
      && Current(old(api.world), api.world, Key(q.management, Cluster), result.value.cluster)
      && Current(old(api.world), api.world, Key(q.management, Namespace), result.value.space)
      && 0 < result.value.providerSpace < api.world.nextUid
      && (q.provider.None? ==> result.value.providerSpace == result.value.space)
    ensures !api.foreign ==> api.world.store == old(api.world).store
    ensures !api.foreign && result.Ok? ==> result.value == IdentityOf(api.world, q) && GenerationLive(api.world, q)
    ensures !api.foreign && !api.faulty && GenerationLive(old(api.world), q) ==> result.Ok?
  {
    hide Inv, Calm, Aged, Quiet, Excludes, Current, RunTo, Lawful;
    var live := ReadCluster(api, q.management);
    if live.Err? { return Err(live.reason); }
    ghost var mid := api.world;
    CurrentMeans(old(api.world), mid, Key(q.management, Namespace), live.value.space);
    var providerSpace := ReadProviderSpace(api, q, live.value.space);
    QuietTransitive(api.foreign, old(api.world), mid, api.world);
    if providerSpace.Err? { return Err(providerSpace.reason); }
    QuietGrows(api.foreign, mid, api.world);
    CurrentStays(old(api.world), mid, api.world, Key(q.management, Cluster), live.value.cluster);
    CurrentStays(old(api.world), mid, api.world, Key(q.management, Namespace), live.value.space);
    return Ok(Identity(live.value.cluster, live.value.space, providerSpace.value));
  }

  lemma CurrentMeans(w: World, v: World, k: Key, uid: Uid)
    requires Current(w, v, k, uid)
    ensures 0 < uid < v.nextUid
  {
  }

  // ---- what a calm world must look like for a record to be carried through ----

  /** Snapshots a future refresh may own belong to clones that are listed now. */
  function Widen(w: World, m: nat, r: Record): Record {
    if Key(Provider(m, r), Namespace) in w.store
    then r.(dataVolumes := r.dataVolumes + CloneUids(w, Provider(m, r)))
    else r
  }

  /** Nobody replaced or spoiled anything the record is about. */
  ghost predicate RecordFits(w: World, m: nat, r: Record) {
    && GenerationUndisturbed(w, m, r)
    && (Key(Provider(m, r), Namespace) in w.store ==> Refreshable(w, m, r))
    && StorageUndisturbed(w, m, r)
    && GoldenUndisturbed(w, m, Widen(w, m, r))
  }

  /** Golden evidence a calm world yields for config c. */
  function EvidenceOf(w: World, p: nat, c: Config): Option<Evidence> {
    if c.golden.Some?
    then Some(Evidence(LiveUid(w, Key(p, GoldenClaim(c.golden.value.space, c.golden.value.claim))),
                       c.golden.value.imageDigest, c.golden.value.osIdentity))
    else None
  }

  /** A record drafted from the world: volumes and storage identities are what was collected. */
  function DraftOf(w: World, q: Request, c: Config, volumes: set<Name>, storage: map<Name, Storage>): Record {
    var p := ProviderOf(q);
    NewRecord(q, c, IdentityOf(w, q), EvidenceOf(w, p, c), CloneUids(w, p), volumes, storage)
  }

  function NewRecord(q: Request, c: Config, id: Identity, evidence: Option<Evidence>, uids: set<Uid>,
                     volumes: set<Name>, storage: map<Name, Storage>): Record {
    Record(id.cluster, id.space, c, evidence, uids, volumes,
           if q.provider.Some? then Some(Planes(q.management, ProviderOf(q), id.providerSpace)) else None,
           storage, false)
  }

  ghost predicate Draftable(w: World, q: Request, c: Config) {
    && ValidConfig(c) && GenerationLive(w, q)
    && Surveyable(w, ProviderOf(q), c, IdentityOf(w, q).providerSpace, {})
    && GoldenUndisturbed(w, q.management, DraftOf(w, q, c, {}, map[]))
  }

  /** Well-formed storage identities for exactly these volumes, or none on a single plane. */
  predicate StorageFormed(q: Request, volumes: set<Name>, storage: map<Name, Storage>) {
    && (q.provider.Some? ==>
          && storage.Keys == volumes
          && forall n :: n in storage ==> storage[n].volume != 0 && storage[n].longhorn != Some(0))
    && (q.provider.None? ==> storage == map[])
  }

  /** In a calm world: the volumes are there, with the identities that were collected. */
  ghost predicate StorageDrafted(w: World, q: Request, volumes: set<Name>, storage: map<Name, Storage>) {
    && VolumesAccounted(w, ProviderOf(q), volumes, {})
    && (q.provider.Some? ==> forall n :: n in volumes ==> n in storage && StorageMatches(w, ProviderOf(q), n, storage[n]))
  }

  /** In a calm world: r is the draft, with storage identities that match. */
  ghost predicate Drafted(w: World, q: Request, c: Config, r: Record) {
    && r == DraftOf(w, q, c, r.volumes, r.storage)
    && GenerationLive(w, q)
    && r.volumes == Kept(w, ProviderOf(q), BoundVolumes(w, ProviderOf(q)), {})
    && StorageFormed(q, r.volumes, r.storage)
    && StorageDrafted(w, q, r.volumes, r.storage)
  }

  lemma DraftFits(w: World, q: Request, c: Config, r: Record)
    requires Draftable(w, q, c) && Drafted(w, q, c, r) && forall k :: k in w.store ==> w.store[k].uid != 0
    requires q.provider.Some? ==> q.provider.value != q.management
    ensures ValidRecord(r) && PlanesFit(q, r) && RecordFits(w, q.management, r)
  {
    var m := q.management;
    assert Provider(m, r) == ProviderOf(q) && ProviderSpace(r) == IdentityOf(w, q).providerSpace;
    DraftGolden(w, q, c, r);
  }

  lemma DraftGolden(w: World, q: Request, c: Config, r: Record)
    requires Draftable(w, q, c) && Drafted(w, q, c, r)
    ensures GoldenUndisturbed(w, q.management, Widen(w, q.management, r))
  {
    var m := q.management;
    var d := DraftOf(w, q, c, {}, map[]);
    assert CloneUids(w, Provider(m, r)) + CloneUids(w, Provider(m, r)) == CloneUids(w, Provider(m, r));
    assert Widen(w, m, r).dataVolumes == d.dataVolumes;
    if c.golden.Some? {
      assert RoleKey(m, d) == RoleKey(m, r) && BindingKey(m, d) == BindingKey(m, r);
      forall n | SnapshotKey(m, r, n) in w.store ensures Proper(Widen(w, m, r), w.store[SnapshotKey(m, r, n)].body) {
        assert SnapshotKey(m, d, n) in w.store;
      }
    }
  }

  // ---- drafting ----

  method GoldenEvidence(api: Api, p: nat, c: Config) returns (result: Result<Option<Evidence>>)
    requires api.Valid()
    modifies api
    ensures api.Onward() && Quiet(api.foreign, old(api.world), api.world)
    ensures result.Ok? ==> (result.value.Some? <==> c.golden.Some?)
    ensures !api.foreign ==> api.world.store == old(api.world).store
    ensures !api.foreign && result.Ok? ==> result.value == EvidenceOf(api.world, p, c)
    ensures !api.foreign && !api.faulty && (c.golden.Some? ==> ImageFits(old(api.world), p, c.golden.value)) ==> result.Ok?
  {
    hide Inv, Calm, Aged, RunTo, Lawful;
    MovesReflexive(api.foreign, api.world);
    if c.golden.None? { return Ok(None); }
    var evidence := VerifyGolden(api, p, c.golden.value);
    return if evidence.Ok? then Ok(Some(evidence.value)) else Err(evidence.reason);
  }

  /** Storage identities of the drafted volumes, for split-plane records only. */
  method DraftStorage(api: Api, q: Request, volumes: set<Name>) returns (result: Result<map<Name, Storage>>)
    requires api.Valid()
    modifies api
    ensures api.Onward() && Quiet(api.foreign, old(api.world), api.world)
    ensures result.Ok? ==> StorageFormed(q, volumes, result.value)
    ensures !api.foreign ==> api.world.store == old(api.world).store
    ensures !api.foreign && result.Ok? && VolumesAccounted(old(api.world), ProviderOf(q), volumes, {}) ==>
      StorageDrafted(api.world, q, volumes, result.value)
    ensures !api.foreign && !api.faulty && VolumesAccounted(old(api.world), ProviderOf(q), volumes, {}) ==> result.Ok?
  {
    hide Inv, Calm, Aged, StorageMatches, AllLooked, Captured, RunTo, Lawful;
    MovesReflexive(api.foreign, api.world);
    if q.provider.None? { return Ok(map[]); }
    result := TeardownStorageUids(api, ProviderOf(q), volumes, map[]);
  }

  ghost predicate Collectable(w: World, p: nat, c: Config, id: Identity) {
    && Surveyable(w, p, c, id.providerSpace, {})
    && (c.golden.Some? ==> ImageFits(w, p, c.golden.value))
  }

  /** First inventory, Golden evidence and storage identities of an identified generation. */
  method CollectDraft(api: Api, q: Request, c: Config, id: Identity) returns (result: Result<Record>)
    requires api.Valid()
    modifies api
    ensures api.Onward() && Quiet(api.foreign, old(api.world), api.world)
    ensures result.Ok? ==> var r := result.value;
      && r == NewRecord(q, c, id, r.evidence, r.dataVolumes, r.volumes, r.storage)
      && StorageFormed(q, r.volumes, r.storage)
      && Surveyed(api.world.log, |old(api.world).log|, |api.world.log|, ProviderOf(q), id.providerSpace, r.dataVolumes, r.volumes)
      && AllRetained(api.world.log, |api.world.log|, ProviderOf(q), r.volumes)
    ensures !api.foreign ==> api.world.store == old(api.world).store
    ensures !api.foreign && result.Ok? ==> var r := result.value;
      && r.evidence == EvidenceOf(api.world, ProviderOf(q), c) && r.dataVolumes == CloneUids(api.world, ProviderOf(q))
      && r.volumes == Kept(api.world, ProviderOf(q), BoundVolumes(api.world, ProviderOf(q)), {})
      && StorageDrafted(api.world, q, r.volumes, r.storage)
    ensures !api.foreign && !api.faulty && Collectable(old(api.world), ProviderOf(q), c, id) ==> result.Ok?
  {
    hide Inv, Calm, Aged, Surveyed, StorageFormed, StorageDrafted, CloneUids, EvidenceOf, VolumesAccounted,
         ImageFits, Collected, AllRetained, Kept, BoundVolumes, RunTo, Lawful;
    var p := ProviderOf(q);
    ghost var w0 := api.world;
    var survey := TeardownInventory(api, p, c, id.providerSpace, {});
    if survey.Err? { return Err(survey.reason); }
    ghost var w1 := api.world;
    DraftRetains(w1, |w0.log|, p, survey.value.1);
    if !api.foreign { SameView(w0, w1, p, c); KeptAccounted(w1, p, BoundVolumes(w1, p), {}); }
    var evidence := GoldenEvidence(api, p, c);
    QuietTransitive(api.foreign, w0, w1, api.world);
    if evidence.Err? { return Err(evidence.reason); }
    ghost var w2 := api.world;
    if !api.foreign { SameView(w1, w2, p, c); }
    var storage := DraftStorage(api, q, survey.value.1);
    QuietTransitive(api.foreign, w0, w2, api.world);
    QuietTransitive(api.foreign, w1, w2, api.world);
    if storage.Err? { return Err(storage.reason); }
    SurveyedStays(w1.log, api.world.log, |w0.log|, p, id.providerSpace, survey.value.0, survey.value.1);
    AllRetainedStays(w1.log, |w1.log|, api.world.log, |api.world.log|, p, survey.value.1);
    if !api.foreign { SameView(w2, api.world, p, c); SameBound(w1, api.world, p, {}); }
    return Ok(NewRecord(q, c, id, evidence.value, survey.value.0, survey.value.1, storage.value));
  }

  /** Nothing is saved before the first inventory: every name it collects was read with the policy Retain. */
  lemma DraftRetains(w: World, from: nat, p: nat, names: set<Name>)
    requires Collected(w.log, from, |w.log|, p, names, {})
    ensures AllRetained(w.log, |w.log|, p, names)
  {
    CollectedRetains(w.log, from, p, names, {});
    assert names - {} == names;
  }

  lemma SurveyedStays(log: seq<Event>, more: seq<Event>, from: nat, p: nat, space: Uid, uids: set<Uid>, volumes: set<Name>)
    requires Prefix(log, more) && Surveyed(log, from, |log|, p, space, uids, volumes)
    ensures Surveyed(more, from, |more|, p, space, uids, volumes)
  {
    hide ReadAs;
    var i, j :| from <= i < j < |log| && log[i].Clones? && log[i].plane == p && log[i].uids <= uids
                && CoveredAt(log, j, |log|, p, volumes) && ReadAround(log, from, i, j, |log|, Key(p, Namespace), space);
    ReadAroundStays(log, |log|, more, |more|, from, i, j, Key(p, Namespace), space);
    PassingStays(log, more, j, p);
    assert more[i] == log[i] && more[j] == log[j];
    assert CoveredAt(more, j, |more|, p, volumes);
  }

  lemma SameView(w: World, v: World, p: nat, c: Config)
    requires w.store == v.store
    ensures CloneUids(w, p) == CloneUids(v, p) && EvidenceOf(w, p, c) == EvidenceOf(v, p, c)
    ensures forall b, s :: VolumesAccounted(w, p, b, s) == VolumesAccounted(v, p, b, s)
    ensures forall g :: ImageFits(w, p, g) == ImageFits(v, p, g)
  {
  }

  lemma SameIdentity(w: World, v: World, q: Request)
    requires w.store == v.store
    ensures IdentityOf(w, q) == IdentityOf(v, q) && GenerationLive(w, q) == GenerationLive(v, q)
    ensures forall p, c, uid, s :: Surveyable(w, p, c, uid, s) == Surveyable(v, p, c, uid, s)
    ensures forall p, g :: ImageFits(w, p, g) == ImageFits(v, p, g)
  {
    assert forall p :: BoundVolumes(w, p) == BoundVolumes(v, p);
  }

  /** The record of a new teardown: live identities, first inventory, Golden evidence, storage. */
  method DraftRecord(api: Api, q: Request, c: Config) returns (result: Result<Record>)
    requires api.Valid() && (q.provider.Some? ==> q.provider.value != q.management)
    modifies api
    ensures api.Onward() && Quiet(api.foreign, old(api.world), api.world)
    ensures result.Ok? ==> var r := result.value;
      && PlanesFit(q, r) && RecordBelow(r, api.world.nextUid) && !r.complete && r.config == c
      && StorageFormed(q, r.volumes, r.storage)
      && Inventoried(api.world.log, |api.world.log|, q.management, r, false)
      && AllRetained(api.world.log, |api.world.log|, ProviderOf(q), r.volumes)
      && Current(old(api.world), api.world, Key(q.management, Cluster), r.cluster)
      && Current(old(api.world), api.world, Key(q.management, Namespace), r.space)
    ensures !api.foreign ==> api.world.store == old(api.world).store
    ensures !api.foreign && result.Ok? ==> Drafted(api.world, q, c, result.value)
    ensures !api.foreign && !api.faulty && Draftable(old(api.world), q, c) ==> result.Ok?
  {
    hide Inv, Calm, Aged, Current, Inventoried, Surveyed, StorageFormed, StorageDrafted, CloneUids, EvidenceOf,
         Surveyable, GoldenUndisturbed, Quiet, AllRetained, Kept, BoundVolumes, RunTo, Lawful;
    var m := q.management;
    ghost var w0 := api.world;
    var id := ReadIdentity(api, q);
    if id.Err? { return Err(id.reason); }
    ghost var w1 := api.world;
    if !api.foreign {
      SameIdentity(w0, w1, q);
      if Draftable(w0, q, c) { DraftableImage(w0, q, c); }
    }
    result := CollectDraft(api, q, c, id.value);
    QuietTransitive(api.foreign, w0, w1, api.world);
    if result.Err? { return; }
    if !api.foreign { SameIdentity(w1, api.world, q); }
    DraftStands(api.foreign, w0, w1, api.world, q, result.value);
  }

  lemma DraftableImage(w: World, q: Request, c: Config)
    requires Draftable(w, q, c)
    ensures c.golden.Some? ==> ImageFits(w, ProviderOf(q), c.golden.value)
  {
    assert Provider(q.management, DraftOf(w, q, c, {}, map[])) == ProviderOf(q);
  }

  lemma DraftStands(foreign: bool, w0: World, w1: World, v: World, q: Request, r: Record)
    requires Quiet(foreign, w1, v)
    requires Surveyed(v.log, |w1.log|, |v.log|, Provider(q.management, r), ProviderSpace(r), r.dataVolumes, r.volumes)
    requires Current(w0, w1, Key(q.management, Cluster), r.cluster) && Current(w0, w1, Key(q.management, Namespace), r.space)
    requires ProviderSpace(r) < w1.nextUid
    ensures Inventoried(v.log, |v.log|, q.management, r, false)
    ensures Current(w0, v, Key(q.management, Cluster), r.cluster) && Current(w0, v, Key(q.management, Namespace), r.space)
    ensures RecordBelow(r, v.nextUid)
  {
    SurveyIsInventory(w1, v, q.management, r, r.dataVolumes, r.volumes);
    CurrentStays(w0, w1, v, Key(q.management, Cluster), r.cluster);
    CurrentStays(w0, w1, v, Key(q.management, Namespace), r.space);
  }
}
