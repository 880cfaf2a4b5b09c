/** Facts only accumulate, worlds compose, and every kind of step is a move. */
module ProtocolLemmas {
  import opened Wrappers
  import opened Receipts
  import opened Kubernetes
  import opened Protocol

  lemma PrefixTransitive<T>(a: seq<T>, b: seq<T>, c: seq<T>)
    requires Prefix(a, b) && Prefix(b, c)
    ensures Prefix(a, c)
  {
  }

  lemma SeenGoneStays(log: seq<Event>, n: nat, more: seq<Event>, n': nat, k: Key, uid: Uid)
    requires Prefix(log, more) && n <= |log| && n <= n' <= |more| && SeenGone(log, n, k, uid)
    ensures SeenGone(more, n', k, uid)
  {
    var i :| 0 <= i < n && log[i].Absent? && log[i].key == k && uid < log[i].below;
    assert more[i] == log[i];
  }

  lemma ReadAsStays(log: seq<Event>, n: nat, more: seq<Event>, n': nat, from: nat, k: Key, uid: Uid)
    requires Prefix(log, more) && n <= |log| && n <= n' <= |more| && ReadAs(log, from, n, k, uid)
    ensures ReadAs(more, from, n', k, uid)
  {
    var i :| from <= i < n && log[i] == Present(k, uid);
    assert more[i] == log[i];
  }

  lemma ReadNoneStays(log: seq<Event>, n: nat, more: seq<Event>, n': nat, from: nat, k: Key)
    requires Prefix(log, more) && n <= |log| && n <= n' <= |more| && ReadNone(log, from, n, k)
    ensures ReadNone(more, from, n', k)
  {
    var i :| from <= i < n && log[i].Absent? && log[i].key == k;
    assert more[i] == log[i];
  }

  lemma LookedStays(log: seq<Event>, n: nat, more: seq<Event>, n': nat, from: nat, k: Key, uid: Uid)
    requires Prefix(log, more) && n <= |log| && n <= n' <= |more| && Looked(log, from, n, k, uid)
    ensures Looked(more, from, n', k, uid)
  {
    hide ReadAs, ReadNone;
    if ReadAs(log, from, n, k, uid) { ReadAsStays(log, n, more, n', from, k, uid); }
    else { ReadNoneStays(log, n, more, n', from, k); }
  }

  /** A read in a later stretch of the history is one in a longer stretch. */
  lemma ReadFromBefore(log: seq<Event>, before: nat, from: nat, n: nat, k: Key, uid: Uid)
    requires before <= from && n <= |log|
    ensures ReadAs(log, from, n, k, uid) ==> ReadAs(log, before, n, k, uid)
    ensures ReadNone(log, from, n, k) ==> ReadNone(log, before, n, k)
    ensures Looked(log, from, n, k, uid) ==> Looked(log, before, n, k, uid)
  {
  }

  lemma AttemptedStays(log: seq<Event>, more: seq<Event>, before: nat, from: nat, k: Key)
    requires Prefix(log, more) && before <= from && Attempted(log, from, |log|, k)
    ensures Attempted(more, before, |more|, k)
  {
    var i :| from <= i < |log| && (log[i].Deleted? || log[i].Absent?) && log[i].key == k;
    assert more[i] == log[i];
  }

  lemma ReadAroundStays(log: seq<Event>, n: nat, more: seq<Event>, n': nat, from: nat, i: nat, j: nat, k: Key, uid: Uid)
    requires Prefix(log, more) && i <= n <= |log| && n <= n' <= |more| && ReadAround(log, from, i, j, n, k, uid)
    ensures ReadAround(more, from, i, j, n', k, uid)
  {
    ReadAsStays(log, i, more, i, from, k, uid);
    ReadAsStays(log, n, more, n', j, k, uid);
  }

  lemma RecordedStays(log: seq<Event>, n: nat, more: seq<Event>, n': nat, m: nat, r: Record)
    requires Prefix(log, more) && n <= |log| && n <= n' <= |more|
    ensures Recorded(log, n, m, r) ==> Recorded(more, n', m, r)
    ensures forall o :: RecordedAs(log, n, m, r, o) ==> RecordedAs(more, n', m, r, o)
  {
  }

  lemma ClearedStays(log: seq<Event>, n: nat, more: seq<Event>, n': nat, m: nat, r: Record)
    requires Prefix(log, more) && n <= |log| && n <= n' <= |more| && Cleared(log, n, m, r)
    ensures Cleared(more, n', m, r)
  {
    SeenGoneStays(log, n, more, n', Key(m, Cluster), r.cluster);
    SeenGoneStays(log, n, more, n', Key(Provider(m, r), Namespace), ProviderSpace(r));
    SeenGoneStays(log, n, more, n', Key(m, Namespace), r.space);
  }

  lemma SweptStays(log: seq<Event>, n: nat, more: seq<Event>, n': nat, m: nat, r: Record, k: Key)
    requires Prefix(log, more) && n <= |log| && n <= n' <= |more| && SweptAt(log, n, m, r, k)
    ensures SweptAt(more, n', m, r, k)
  {
    var i :| 0 <= i < n && log[i].Absent? && log[i].key == k && Cleared(log, i, m, r);
    ClearedStays(log, i, more, i, m, r);
    assert more[i] == log[i];
  }

  lemma InventoriedStays(log: seq<Event>, n: nat, more: seq<Event>, n': nat, m: nat, r: Record, drained: bool)
    requires Prefix(log, more) && n <= |log| && n <= n' <= |more| && Inventoried(log, n, m, r, drained)
    ensures Inventoried(more, n', m, r, drained)
  {
    var p := Provider(m, r);
    var i, j :| 0 <= i < j < n
      && log[i].Clones? && log[i].plane == p && log[i].uids <= r.dataVolumes
      && CoveredAt(log, j, n, p, r.volumes)
      && ReadAround(log, 0, i, j, n, Key(p, Namespace), ProviderSpace(r))
      && (drained ==> SeenGone(log, i, Key(m, Cluster), r.cluster));
    hide ReadAs;
    ReadAroundStays(log, n, more, n', 0, i, j, Key(p, Namespace), ProviderSpace(r));
    forall name | name in more[j].bound && name !in r.volumes ensures Passing(more, j, n', p, name) {
      var k :| j <= k < n && log[k] == SawVolume(p, name, false);
      assert more[k] == log[k];
    }
    if drained { SeenGoneStays(log, i, more, i, Key(m, Cluster), r.cluster); }
    assert more[i] == log[i] && more[j] == log[j];
    assert CoveredAt(more, j, n', p, r.volumes);
  }

  lemma RetainedStays(log: seq<Event>, n: nat, more: seq<Event>, n': nat, before: nat, from: nat, p: nat, name: Name)
    requires Prefix(log, more) && n <= |log| && n <= n' <= |more| && before <= from && Retained(log, from, n, p, name)
    ensures Retained(more, before, n', p, name)
  {
    var i :| from <= i < n && log[i] == SawVolume(p, name, true);
    assert more[i] == log[i];
  }

  lemma AllRetainedStays(log: seq<Event>, n: nat, more: seq<Event>, n': nat, p: nat, names: set<Name>)
    requires Prefix(log, more) && n <= |log| && n <= n' <= |more| && AllRetained(log, n, p, names)
    ensures AllRetained(more, n', p, names)
  {
    hide Retained;
    forall name | name in names ensures Retained(more, 0, n', p, name) { RetainedStays(log, n, more, n', 0, 0, p, name); }
  }

  lemma StorageSweptStays(log: seq<Event>, n: nat, more: seq<Event>, n': nat, m: nat, r: Record)
    requires Prefix(log, more) && n <= |log| && n <= n' <= |more| && StorageSwept(log, n, m, r)
    ensures StorageSwept(more, n', m, r)
  {
    forall name | name in r.volumes
      ensures SweptAt(more, n', m, r, Key(Provider(m, r), Volume(name)))
      ensures r.planes.Some? ==> SweptAt(more, n', m, r, Key(Provider(m, r), Longhorn(name)))
    {
      SweptStays(log, n, more, n', m, r, Key(Provider(m, r), Volume(name)));
      if r.planes.Some? { SweptStays(log, n, more, n', m, r, Key(Provider(m, r), Longhorn(name))); }
    }
  }

  lemma SnapshotsSweptStays(log: seq<Event>, n: nat, more: seq<Event>, n': nat, m: nat, r: Record, space: string)
    requires Prefix(log, more) && n <= |log| && n <= n' <= |more| && SnapshotsSwept(log, n, m, r, space)
    ensures SnapshotsSwept(more, n', m, r, space)
  {
    if r.dataVolumes != {} {
      var i :| 0 <= i < n && log[i].Snapshots? && log[i].plane == Provider(m, r) && log[i].space == space
               && log[i].owners !! r.dataVolumes && Cleared(log, i, m, r);
      ClearedStays(log, i, more, i, m, r);
      assert more[i] == log[i];
    }
  }

  lemma ImageUnchangedStays(log: seq<Event>, n: nat, more: seq<Event>, n': nat, m: nat, r: Record, id: GoldenId, evidence: Evidence)
    requires Prefix(log, more) && n <= |log| && n <= n' <= |more| && ImageUnchanged(log, n, m, r, id, evidence)
    ensures ImageUnchanged(more, n', m, r, id, evidence)
  {
    var i :| 0 <= i < n && log[i] == SawImage(Provider(m, r), id, evidence) && Cleared(log, i, m, r);
    ClearedStays(log, i, more, i, m, r);
    assert more[i] == log[i];
  }

  lemma GoldenSweptStays(log: seq<Event>, n: nat, more: seq<Event>, n': nat, m: nat, r: Record)
    requires Prefix(log, more) && n <= |log| && n <= n' <= |more| && GoldenSwept(log, n, m, r)
    ensures GoldenSwept(more, n', m, r)
  {
    if r.config.golden.Some? {
      var id := r.config.golden.value;
      SweptStays(log, n, more, n', m, r, Key(Provider(m, r), Role(id.space)));
      SweptStays(log, n, more, n', m, r, Key(Provider(m, r), RoleBinding(id.space)));
      SnapshotsSweptStays(log, n, more, n', m, r, id.space);
      ImageUnchangedStays(log, n, more, n', m, r, id, r.evidence.value);
    }
  }

  lemma MayWriteStays(log: seq<Event>, n: nat, more: seq<Event>, n': nat,
                      m: nat, before: Option<Text>, text: Text, origin: Origin)
    requires Prefix(log, more) && n <= |log| && n <= n' <= |more| && MayWrite(log, n, m, before, text, origin)
    ensures MayWrite(more, n', m, before, text, origin)
  {
    var r := text.parsed.value;
    match origin
    case Begun =>
      InventoriedStays(log, n, more, n', m, r, false);
      AllRetainedStays(log, n, more, n', Provider(m, r), r.volumes);
    case Refreshed =>
      InventoriedStays(log, n, more, n', m, r, true);
      AllRetainedStays(log, n, more, n', Provider(m, r), r.volumes - before.value.parsed.value.volumes);
    case Completed =>
      ClearedStays(log, n, more, n', m, r);
      StorageSweptStays(log, n, more, n', m, r);
      GoldenSweptStays(log, n, more, n', m, r);
    case Migrated =>
  }

  lemma MayDeleteStays(log: seq<Event>, n: nat, more: seq<Event>, n': nat,
                       k: Key, uid: Uid, checked: Option<Body>, m: nat, r: Record)
    requires Prefix(log, more) && n <= |log| && n <= n' <= |more| && MayDelete(log, n, k, uid, checked, m, r)
    ensures MayDelete(more, n', k, uid, checked, m, r)
  {
    RecordedStays(log, n, more, n', m, r);
    if Cleared(log, n, m, r) { ClearedStays(log, n, more, n', m, r); }
    var p := Provider(m, r);
    if SeenGone(log, n, Key(m, Cluster), r.cluster) { SeenGoneStays(log, n, more, n', Key(m, Cluster), r.cluster); }
    if SeenGone(log, n, Key(m, Namespace), r.space) { SeenGoneStays(log, n, more, n', Key(m, Namespace), r.space); }
    if SeenGone(log, n, Key(p, Namespace), ProviderSpace(r)) {
      SeenGoneStays(log, n, more, n', Key(p, Namespace), ProviderSpace(r));
    }
    match k.kind
    case Longhorn(name) =>
      if r.planes.Some? { SweptStays(log, n, more, n', m, r, Key(p, Volume(name))); }
    case LegacyReceipt =>
      var i :| 0 <= i < n && log[i] == ReadBack(m, checked.value.text);
      assert more[i] == log[i];
    case _ =>
  }

  lemma {:induction false} LastTextStays(log: seq<Event>, more: seq<Event>, n: nat, m: nat)
    requires Prefix(log, more) && n <= |log|
    ensures LastText(log, n, m) == LastText(more, n, m)
  {
    if n > 0 {
      LastTextStays(log, more, n - 1, m);
      assert more[n-1] == log[n-1];
    }
  }

  /** Appending a justified event keeps the history acceptable. */
  lemma LogOkAppend(log: seq<Event>, e: Event)
    requires LogOk(log) && Justified(log, |log|, e)
    ensures LogOk(log + [e]) && Prefix(log, log + [e])
  {
    var more := log + [e];
    forall n | 0 <= n < |more| ensures Justified(more, n, more[n]) {
      var f := more[n];
      assert Justified(log, n, f);
      match f
      case Wrote(m, before, text, origin) =>
        LastTextStays(log, more, n, m);
        MayWriteStays(log, n, more, n, m, before, text, origin);
      case Deleted(k, uid, checked, m, r) =>
        MayDeleteStays(log, n, more, n, k, uid, checked, m, r);
        LastTextStays(log, more, n, k.plane);
      case _ =>
    }
  }

  // ---- moves compose ----

  lemma MovesReflexive(foreign: bool, w: World)
    requires Inv(w)
    ensures Moves(foreign, w, w)
  {
  }

  lemma MovesSound(foreign: bool, w: World, v: World)
    requires Moves(foreign, w, v)
    ensures Inv(v)
  {
  }

  lemma AgedTransitive(u: World, v: World, w: World)
    requires Aged(u, v) && Aged(v, w)
    ensures Aged(u, w)
  {
    forall k | k in w.store && !(u.nextUid <= w.store[k].uid && u.nextVersion <= w.store[k].version)
      ensures k in u.store && u.store[k].uid == w.store[k].uid
      ensures u.store[k].version <= w.store[k].version
      ensures u.store[k].version == w.store[k].version ==> u.store[k].body == w.store[k].body
    {
      assert k in v.store && v.store[k].uid == w.store[k].uid;
    }
  }

  lemma CalmTransitive(u: World, v: World, w: World)
    requires Calm(u, v) && Calm(v, w) && Prefix(u.log, v.log) && Prefix(v.log, w.log)
    ensures Calm(u, w)
  {
    forall k | k in u.store && !IsReceipt(k) && k !in w.store
      ensures Explained(w, |u.log|, k, u.store[k].uid)
    {
      if k in v.store {
        assert v.store[k] == u.store[k];
        assert Explained(w, |v.log|, k, u.store[k].uid);
      } else {
        var i :| |u.log| <= i < |v.log| && v.log[i].Deleted?
                && ((v.log[i].key == k && v.log[i].uid == u.store[k].uid)
                    || (v.log[i].key == Key(k.plane, Namespace) && Namespaced(k)));
        assert w.log[i] == v.log[i];
      }
    }
  }

  lemma MovesTransitive(foreign: bool, u: World, v: World, w: World)
    requires Moves(foreign, u, v) && Moves(foreign, v, w)
    ensures Moves(foreign, u, w)
  {
    AgedTransitive(u, v, w);
    PrefixTransitive(u.log, v.log, w.log);
    if !foreign { CalmTransitive(u, v, w); }
  }

  lemma QuietTransitive(foreign: bool, u: World, v: World, w: World)
    requires Quiet(foreign, u, v) && Quiet(foreign, v, w)
    ensures Quiet(foreign, u, w)
  {
    MovesTransitive(foreign, u, v, w);
    if !foreign {
      forall k | IsReceipt(k) ensures SameAt(u, w, k) { assert SameAt(u, v, k) && SameAt(v, w, k); }
    }
  }

  lemma QuietMoves(foreign: bool, w: World, v: World)
    requires Quiet(foreign, w, v)
    ensures Moves(foreign, w, v)
    ensures !foreign ==> forall m :: SameAt(w, v, Key(m, Receipt))
  {
    assert forall m :: IsReceipt(Key(m, Receipt));
  }

  lemma SameStore(u: World, v: World, w: World)
    requires v.store == w.store
    ensures forall k {:trigger SameAt(u, w, k)} :: SameAt(u, v, k) == SameAt(u, w, k)
  {
  }

  lemma SameStart(u: World, v: World, w: World)
    requires u.store == v.store
    ensures forall k {:trigger SameAt(u, w, k)} :: SameAt(u, w, k) == SameAt(v, w, k)
  {
  }

  lemma KnownStays(w: World, v: World, k: Key, o: Object)
    requires Aged(w, v) && Known(w, k, o)
    ensures Known(v, k, o)
  {
  }

  lemma TextBelowStays(w: World, v: World, text: Text)
    requires Aged(w, v) && TextBelow(text, w.nextUid)
    ensures TextBelow(text, v.nextUid)
  {
  }

  /** A UID that is gone stays gone in every later world. */
  lemma GoneForGood(w: World, v: World, k: Key, uid: Uid)
    requires Aged(w, v) && Gone(w, k, uid)
    ensures Gone(v, k, uid)
  {
  }

  /** An observed absence means gone for good, now and later. */
  lemma SeenGoneIsGone(w: World, k: Key, uid: Uid)
    requires Inv(w) && SeenGone(w.log, |w.log|, k, uid)
    ensures Gone(w, k, uid)
  {
  }
}
