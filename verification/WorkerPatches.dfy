/** Worker template check of the workload user-namespace opt-in: nothing before or beside its own two
    patches may touch the two fields they own. */
module WorkerPatches {
  import opened Wrappers
  import opened Json

  /** One element of configPatches as parsed: an operation, perhaps with a stray `from` member that it
      does not use, another mapping, or no mapping at all. */
  datatype Entry = Op(op: Operation, stray: Option<string>) | Other(path: Option<string>, from: Option<string>) | NotMapping

  datatype Template = Template(configPatches: seq<Entry>, strategicPatches: seq<Json>)

  /** The two owned fields and the values the opt-in gives them. */
  datatype Ownership = Ownership(one: Path, two: Path, first: Json, second: Json)

  /** Plain member names, neither field inside the other. */
  predicate Ownable(o: Ownership) {
    Named(o.one) && Named(o.two) && !Overlap(o.two, o.one)
  }

  const SYSCTLS: Path := ["machine", "sysctls"]
  const MOUNTS: Path := ["machine", "kubelet", "extraMounts"]

  /** What the opt-in owns. */
  function OptIn(sysctls: Json, mounts: Json): Ownership {
    Ownership(SYSCTLS, MOUNTS, sysctls, mounts)
  }

  lemma OptInOwnable(sysctls: Json, mounts: Json)
    ensures Ownable(OptIn(sysctls, mounts))
  {
    assert MOUNTS[..2][1] != SYSCTLS[..2][1];
  }

  /** The two patches the opt-in appends. */
  function Expected(o: Ownership): seq<Entry> {
    [Op(AddOp(Pointer(o.one), o.first), None), Op(AddOp(Pointer(o.two), o.second), None)]
  }

  function PathOf(e: Entry): Option<string> {
    match e
    case Op(op, _) => Some(op.path)
    case Other(path, _) => path
    case NotMapping => None
  }

  function FromOf(e: Entry): Option<string> {
    match e
    case Op(op, stray) => if op.MoveOp? || op.CopyOp? then Some(op.from) else stray
    case Other(_, from) => from
    case NotMapping => None
  }

  /** A pointer the check lets pass: absent, or well started and clear of both owned fields. */
  predicate PointerClear(pointer: Option<string>, o: Ownership) {
    pointer.Some? ==>
      var path := Segments(pointer.value);
      path.Some? && !Overlap(path.value, o.one) && !Overlap(path.value, o.two)
  }

  predicate EntryClear(e: Entry, o: Ownership) {
    PointerClear(PathOf(e), o) && PointerClear(FromOf(e), o)
  }

  predicate StrategicClear(patch: Json, o: Ownership) {
    patch.Obj? && forall p :: p in LeafPaths(patch) ==> !Overlap(p, o.one) && !Overlap(p, o.two)
  }

  datatype Refusal = ExpectedMissing | ConfigConflict | StrategicConflict

  predicate Accepted(t: Template, o: Ownership) {
    var n := |t.configPatches| - 2;
    && n >= 0 && t.configPatches[n..] == Expected(o)
    && (forall i :: 0 <= i < n ==> EntryClear(t.configPatches[i], o))
    && (forall i :: 0 <= i < |t.strategicPatches| ==> StrategicClear(t.strategicPatches[i], o))
  }

  /** `validate_workload_user_namespace_template` for one worker template of an enabled opt-in. */
  method Validate(t: Template, sysctls: Json, mounts: Json) returns (refusal: Option<Refusal>)
    ensures refusal.None? <==> Accepted(t, OptIn(sysctls, mounts))
    ensures refusal == Some(ExpectedMissing) <==>
      |t.configPatches| < 2 || t.configPatches[|t.configPatches|-2..] != Expected(OptIn(sysctls, mounts))
    ensures refusal == Some(ConfigConflict) ==>
      exists i :: 0 <= i < |t.configPatches| - 2 && !EntryClear(t.configPatches[i], OptIn(sysctls, mounts))
    ensures refusal == Some(StrategicConflict) ==>
      exists i :: 0 <= i < |t.strategicPatches| && !StrategicClear(t.strategicPatches[i], OptIn(sysctls, mounts))
  {
    hide Expected, EntryClear, StrategicClear, OptIn;
    var owned := OptIn(sysctls, mounts);
    var expected := Expected(owned);
    TwoExpected(owned);
    var n := |t.configPatches| - |expected|;
    if n < 0 || t.configPatches[n..] != expected { return Some(ExpectedMissing); }
    for i := 0 to n
      invariant forall j :: 0 <= j < i ==> EntryClear(t.configPatches[j], owned)
    {
      if !EntryClear(t.configPatches[i], owned) { return Some(ConfigConflict); }
    }
    for i := 0 to |t.strategicPatches|
      invariant forall j :: 0 <= j < i ==> StrategicClear(t.strategicPatches[j], owned)
    {
      if !StrategicClear(t.strategicPatches[i], owned) { return Some(StrategicConflict); }
    }
    return None;
  }

  lemma TwoExpected(o: Ownership)
    ensures |Expected(o)| == 2
  {
  }

  // ---- which templates pass ----

  /** Every RFC 6901 pointer apart from both fields passes. */
  lemma ApartPasses(pointer: string, o: Ownership)
    requires Resolve(pointer).Some?
    ensures PointerClear(Some(pointer), o) <==>
      !Overlap(Resolve(pointer).value, o.one) && !Overlap(Resolve(pointer).value, o.two)
  {
    SegmentsResolve(pointer);
  }

  /** The patch sets something at the path, above it or below it. */
  predicate Touches(patch: Json, path: Path)
    decreases |path|
  {
    || !patch.Obj? || patch.fields == map[] || path == []
    || (path[0] in patch.fields && Touches(patch.fields[path[0]], path[1..]))
  }

  lemma {:induction false} TouchesExactly(patch: Json, path: Path)
    ensures Touches(patch, path) <==> exists p :: p in LeafPaths(patch) && Overlap(p, path)
    decreases |path|
  {
    if !patch.Obj? || patch.fields == map[] {
      RootOverlaps(path);
      assert [] in LeafPaths(patch);
    } else if path == [] {
      PathsBelow(patch);
      var p :| p in LeafPaths(patch);
      assert Overlap(p, path) by { assert p[..0] == path[..0]; }
    } else {
      if path[0] in patch.fields {
        TouchesExactly(patch.fields[path[0]], path[1..]);
        if p :| p in LeafPaths(patch.fields[path[0]]) && Overlap(p, path[1..]) {
          assert ([path[0]] + p)[1..] == p;
          OverlapTail([path[0]] + p, path);
          assert [path[0]] + p in LeafPaths(patch);
        }
      }
      if q :| q in LeafPaths(patch) && Overlap(q, path) { LeafOnTheWay(patch, path, q); }
    }
  }

  lemma LeafOnTheWay(patch: Json, path: Path, q: Path)
    requires patch.Obj? && patch.fields != map[] && path != [] && q in LeafPaths(patch) && Overlap(q, path)
    ensures path[0] in patch.fields && exists p :: p in LeafPaths(patch.fields[path[0]]) && Overlap(p, path[1..])
  {
    var k, p :| k in patch.fields && p in LeafPaths(patch.fields[k]) && q == [k] + p;
    assert q[0] == k && q[1..] == p;
    assert q[..1][0] == path[..1][0] by { FirstAgrees(q, path); }
    OverlapTail(q, path);
  }

  lemma FirstAgrees(q: Path, path: Path)
    requires q != [] && path != [] && Overlap(q, path)
    ensures q[0] == path[0]
  {
    var common := if |q| < |path| then |q| else |path|;
    assert q[..common][0] == path[..common][0];
  }

  /** A template passes exactly when it ends in the two expected patches, every pointer of the others
      is apart from both fields, and no strategic patch touches them. */
  lemma AcceptedExactly(t: Template, o: Ownership)
    requires forall i :: 0 <= i < |t.configPatches| ==> PointersResolve(t.configPatches[i])
    ensures Accepted(t, o) <==>
      && |t.configPatches| >= 2 && t.configPatches[|t.configPatches|-2..] == Expected(o)
      && (forall i :: 0 <= i < |t.configPatches| - 2 ==> EntryApart(t.configPatches[i], o))
      && (forall i :: 0 <= i < |t.strategicPatches| ==>
            t.strategicPatches[i].Obj? && !Touches(t.strategicPatches[i], o.one) && !Touches(t.strategicPatches[i], o.two))
  {
    hide Expected, Touches, EntryApart, EntryClear;
    forall i | 0 <= i < |t.configPatches| ensures EntryClear(t.configPatches[i], o) <==> EntryApart(t.configPatches[i], o) {
      ApartEntries(t.configPatches[i], o);
    }
    forall i | 0 <= i < |t.strategicPatches|
      ensures StrategicClear(t.strategicPatches[i], o) <==>
        t.strategicPatches[i].Obj? && !Touches(t.strategicPatches[i], o.one) && !Touches(t.strategicPatches[i], o.two)
    {
      TouchesExactly(t.strategicPatches[i], o.one);
      TouchesExactly(t.strategicPatches[i], o.two);
    }
  }

  predicate PointersResolve(e: Entry) {
    (PathOf(e).Some? ==> Resolve(PathOf(e).value).Some?) && (FromOf(e).Some? ==> Resolve(FromOf(e).value).Some?)
  }

  predicate EntryApart(e: Entry, o: Ownership)
    requires PointersResolve(e)
  {
    && (PathOf(e).Some? ==> !Overlap(Resolve(PathOf(e).value).value, o.one) && !Overlap(Resolve(PathOf(e).value).value, o.two))
    && (FromOf(e).Some? ==> !Overlap(Resolve(FromOf(e).value).value, o.one) && !Overlap(Resolve(FromOf(e).value).value, o.two))
  }

  lemma ApartEntries(e: Entry, o: Ownership)
    requires PointersResolve(e)
    ensures EntryClear(e, o) <==> EntryApart(e, o)
  {
    hide Resolve, Overlap, Segments;
    if PathOf(e).Some? { ApartPasses(PathOf(e).value, o); }
    if FromOf(e).Some? { ApartPasses(FromOf(e).value, o); }
  }

  // ---- what applying an accepted template does ----

  /** Patches in order; one that does not apply fails the whole patch. */
  function ApplyAll(doc: Json, entries: seq<Entry>): Option<Json>
    decreases |entries|
  {
    if entries == [] then Some(doc)
    else if !entries[0].Op? then None
    else
      var next := Perform(doc, entries[0].op);
      if next.Some? then ApplyAll(next.value, entries[1..]) else None
  }

  function MergeAll(doc: Option<Json>, patches: seq<Json>, leaf: (Option<Json>, Json) -> Option<Json>): Option<Json>
    decreases |patches|
  {
    if patches == [] then doc else MergeAll(Merge(doc, patches[0], leaf), patches[1..], leaf)
  }

  /** Both owned fields read the same. */
  predicate SameOwned(a: Option<Json>, b: Option<Json>, o: Ownership) {
    LookupIn(a, o.one) == LookupIn(b, o.one) && LookupIn(a, o.two) == LookupIn(b, o.two)
  }

  /** The check reads pointers as the patch engine does, so what it passes is apart from both fields. */
  lemma ClearIsApart(e: Entry, o: Ownership)
    requires e.Op? && EntryClear(e, o)
    ensures Apart(e.op, o.one) && Apart(e.op, o.two)
  {
    SegmentsResolve(e.op.path);
    if e.op.MoveOp? || e.op.CopyOp? { SegmentsResolve(e.op.from); }
  }

  /** Accepted earlier patches leave both owned subtrees exactly as they were. */
  lemma {:induction false} EarlierPatchesApart(doc: Json, entries: seq<Entry>, o: Ownership)
    requires Ownable(o) && (forall i :: 0 <= i < |entries| ==> EntryClear(entries[i], o)) && ApplyAll(doc, entries).Some?
    ensures SameOwned(ApplyAll(doc, entries), Some(doc), o)
    decreases |entries|
  {
    if entries != [] {
      ClearIsApart(entries[0], o);
      PerformElsewhere(doc, entries[0].op, o.one);
      PerformElsewhere(doc, entries[0].op, o.two);
      EarlierPatchesApart(Perform(doc, entries[0].op).value, entries[1..], o);
    }
  }

  /** Accepted strategic patches leave them alone too, whatever the policy on lists and scalars. */
  lemma {:induction false} StrategicPatchesApart(doc: Option<Json>, patches: seq<Json>, leaf: (Option<Json>, Json) -> Option<Json>, o: Ownership)
    requires Ownable(o) && forall i :: 0 <= i < |patches| ==> StrategicClear(patches[i], o)
    ensures SameOwned(MergeAll(doc, patches, leaf), doc, o)
    decreases |patches|
  {
    if patches != [] {
      MergeElsewhere(doc, patches[0], leaf, o.one);
      MergeElsewhere(doc, patches[0], leaf, o.two);
      StrategicPatchesApart(Merge(doc, patches[0], leaf), patches[1..], leaf, o);
    }
  }

  lemma {:induction false} ApplyAllSplits(doc: Json, a: seq<Entry>, b: seq<Entry>)
    ensures ApplyAll(doc, a + b) == (var mid := ApplyAll(doc, a); if mid.Some? then ApplyAll(mid.value, b) else None)
    decreases |a|
  {
    if a == [] {
      assert a + b == b;
    } else {
      assert (a + b)[1..] == a[1..] + b;
      if a[0].Op? && Perform(doc, a[0].op).Some? { ApplyAllSplits(Perform(doc, a[0].op).value, a[1..], b); }
    }
  }

  /** Two adds at named paths that do not overlap leave exactly the two values. */
  lemma LastPatchesSet(doc: Json, o: Ownership)
    requires Ownable(o) && ApplyAll(doc, Expected(o)).Some?
    ensures var done := ApplyAll(doc, Expected(o)).value;
      Lookup(done, o.one) == Some(o.first) && Lookup(done, o.two) == Some(o.second)
  {
    PointerRoundTrip(o.one);
    PointerRoundTrip(o.two);
    var last := Expected(o);
    var one := Add(doc, o.one, o.first).value;
    var two := Add(one, o.two, o.second).value;
    assert last[1..] == [last[1]] && last[1..][1..] == [];
    assert ApplyAll(one, last[1..]) == ApplyAll(two, []);
    AddedThere(doc, o.one, o.first);
    AddedThere(one, o.two, o.second);
    AddElsewhere(one, o.two, o.second, o.one);
  }

  /** With an accepted template the machine configuration ends with exactly the two owned values, and
      every patch before them acts on a document that never had the owned fields changed. */
  lemma OwnedFieldsHold(doc: Json, t: Template, o: Ownership, leaf: (Option<Json>, Json) -> Option<Json>)
    requires Ownable(o) && Accepted(t, o) && ApplyAll(doc, t.configPatches).Some?
    ensures SameOwned(ApplyAll(doc, t.configPatches[..|t.configPatches|-2]), Some(doc), o)
    ensures var patched := MergeAll(ApplyAll(doc, t.configPatches), t.strategicPatches, leaf);
      LookupIn(patched, o.one) == Some(o.first) && LookupIn(patched, o.two) == Some(o.second)
  {
    hide ApplyAll, Lookup, MergeAll, Expected, EntryClear, StrategicClear, Ownable;
    var n := |t.configPatches| - 2;
    var early, last := t.configPatches[..n], t.configPatches[n..];
    assert t.configPatches == early + last;
    ApplyAllSplits(doc, early, last);
    EarlierPatchesApart(doc, early, o);
    LastPatchesSet(ApplyAll(doc, early).value, o);
    StrategicPatchesApart(ApplyAll(doc, t.configPatches), t.strategicPatches, leaf, o);
  }

  /** The same for the opt-in's own two fields. */
  lemma OptInHolds(doc: Json, t: Template, sysctls: Json, mounts: Json, leaf: (Option<Json>, Json) -> Option<Json>)
    requires Accepted(t, OptIn(sysctls, mounts)) && ApplyAll(doc, t.configPatches).Some?
    ensures SameOwned(ApplyAll(doc, t.configPatches[..|t.configPatches|-2]), Some(doc), OptIn(sysctls, mounts))
    ensures var patched := MergeAll(ApplyAll(doc, t.configPatches), t.strategicPatches, leaf);
      LookupIn(patched, SYSCTLS) == Some(sysctls) && LookupIn(patched, MOUNTS) == Some(mounts)
  {
    OptInOwnable(sysctls, mounts);
    hide ApplyAll, LookupIn, MergeAll, Accepted, Ownable, SameOwned;
    OwnedFieldsHold(doc, t, OptIn(sysctls, mounts), leaf);
  }
}
