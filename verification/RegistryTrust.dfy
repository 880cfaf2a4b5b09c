/** Registry trust: an upsert of one registry's CA and one host alias into a machine configuration,
    applied to a live node or folded into a list of configuration patches. */
module RegistryTrust {
  import opened Wrappers
  import opened Json

  const EMPTY := Obj(map[])

  /** `mapping.get(key) or default`. */
  function GetOr(fields: map<string, Json>, key: string, default: Json): Json {
    if key in fields && !Falsy(fields[key]) then fields[key] else default
  }

  // ---- the two owned values ----

  /** What the upsert is about. */
  datatype Trust = Trust(host: string, address: string, ca: string)

  datatype Owned = Owned(registries: Json, entries: seq<Json>)

  function CaPath(host: string): Path {
    ["config", host, "tls", "ca"]
  }

  /** setdefault down a path of mappings, then assignment; None where a non-mapping is in the way. */
  function SetIn(j: Json, path: Path, value: Json): Option<Json>
    decreases |path|
  {
    if path == [] then Some(value)
    else if !j.Obj? then None
    else
      var child := SetIn(if path[0] in j.fields then j.fields[path[0]] else EMPTY, path[1..], value);
      if child.Some? then Some(Obj(j.fields[path[0] := child.value])) else None
  }

  /** Aliases of a host entry; None for an invalid entry. */
  function Aliases(entry: Json): Option<seq<Json>> {
    if !entry.Obj? then None
    else if "aliases" !in entry.fields then Some([])
    else if entry.fields["aliases"].Arr? then Some(entry.fields["aliases"].items)
    else None
  }

  function Without(aliases: seq<Json>, host: string): seq<Json> {
    if aliases == [] then []
    else (if aliases[0] == Str(host) then [] else [aliases[0]]) + Without(aliases[1..], host)
  }

  /** The entry without the host; none when no alias remains. */
  function KeptEntry(entry: Json, host: string): seq<Json>
    requires Aliases(entry).Some?
  {
    var kept := Without(Aliases(entry).value, host);
    if kept == [] then [] else [Obj(entry.fields["aliases" := Arr(kept)])]
  }

  predicate EntriesValid(entries: seq<Json>) {
    forall i :: 0 <= i < |entries| ==> Aliases(entries[i]).Some?
  }

  function KeptEntries(entries: seq<Json>, host: string): seq<Json>
    requires EntriesValid(entries)
  {
    if entries == [] then [] else KeptEntry(entries[0], host) + KeptEntries(entries[1..], host)
  }

  function HostEntry(t: Trust): Json {
    Obj(map["ip" := Str(t.address), "aliases" := Arr([Str(t.host)])])
  }

  /** The upsert on the two owned values. */
  function Upsert(o: Owned, t: Trust): Option<Owned> {
    var registries := SetIn(o.registries, CaPath(t.host), Str(t.ca));
    if registries.None? || !EntriesValid(o.entries) then None
    else Some(Owned(registries.value, KeptEntries(o.entries, t.host) + [HostEntry(t)]))
  }

  /** The owned values of a machine configuration. */
  function Current(current: Json): Option<Owned> {
    if !current.Obj? || "machine" !in current.fields || !current.fields["machine"].Obj? then None
    else
      var machine := current.fields["machine"].fields;
      var network := GetOr(machine, "network", EMPTY);
      if !network.Obj? then None
      else
        var entries := GetOr(network.fields, "extraHostEntries", Arr([]));
        if entries.Arr? then Some(Owned(GetOr(machine, "registries", EMPTY), entries.items)) else None
  }

  function Then(o: Option<Owned>, t: Trust): Option<Owned> {
    if o.Some? then Upsert(o.value, t) else None
  }

  /** `runtime_ops`: the values of its two add operations. */
  method RuntimeOps(current: Json, t: Trust) returns (result: Option<Owned>)
    ensures result == Then(Current(current), t)
  {
    var owned := Current(current);
    if owned.None? { return None; }
    var registries := SetIn(owned.value.registries, CaPath(t.host), Str(t.ca));
    if registries.None? { return None; }
    var entries := owned.value.entries;
    var preserved: seq<Json> := [];
    for i := 0 to |entries|
      invariant EntriesValid(entries[..i])
      invariant preserved == KeptEntries(entries[..i], t.host)
    {
      if Aliases(entries[i]).None? { return None; }
      assert entries[..i+1] == entries[..i] + [entries[i]];
      KeptAppend(entries[..i], entries[i], t.host);
      preserved := preserved + KeptEntry(entries[i], t.host);
    }
    assert entries[..|entries|] == entries;
    return Some(Owned(registries.value, preserved + [HostEntry(t)]));
  }

  lemma {:induction false} KeptAppend(entries: seq<Json>, entry: Json, host: string)
    requires EntriesValid(entries) && Aliases(entry).Some?
    ensures EntriesValid(entries + [entry])
    ensures KeptEntries(entries + [entry], host) == KeptEntries(entries, host) + KeptEntry(entry, host)
  {
    if entries == [] {
      assert ([entry])[1..] == [];
    } else {
      assert (entries + [entry])[1..] == entries[1..] + [entry];
      KeptAppend(entries[1..], entry, host);
    }
  }

  // ---- laws ----

  /** Every alias in order, each with all the other fields of its entry. */
  function Flat(entries: seq<Json>): seq<(map<string, Json>, Json)>
    requires EntriesValid(entries)
  {
    if entries == [] then [] else Pairs(Rest(entries[0]), Aliases(entries[0]).value) + Flat(entries[1..])
  }

  function Ip(entry: Json): Option<Json>
    requires entry.Obj?
  {
    Field(entry.fields, "ip")
  }

  /** The entry without its aliases. */
  function Rest(entry: Json): map<string, Json>
    requires entry.Obj?
  {
    entry.fields - {"aliases"}
  }

  function Pairs(rest: map<string, Json>, aliases: seq<Json>): seq<(map<string, Json>, Json)> {
    if aliases == [] then [] else [(rest, aliases[0])] + Pairs(rest, aliases[1..])
  }

  function Drop(pairs: seq<(map<string, Json>, Json)>, host: string): seq<(map<string, Json>, Json)> {
    if pairs == [] then []
    else (if pairs[0].1 == Str(host) then [] else [pairs[0]]) + Drop(pairs[1..], host)
  }

  lemma {:induction false} DropConcat(a: seq<(map<string, Json>, Json)>, b: seq<(map<string, Json>, Json)>, host: string)
    ensures Drop(a + b, host) == Drop(a, host) + Drop(b, host)
  {
    if a == [] {
      assert a + b == b;
    } else {
      assert (a + b)[1..] == a[1..] + b;
      DropConcat(a[1..], b, host);
    }
  }

  lemma {:induction false} PairsWithout(rest: map<string, Json>, aliases: seq<Json>, host: string)
    ensures Pairs(rest, Without(aliases, host)) == Drop(Pairs(rest, aliases), host)
  {
    if aliases != [] {
      PairsWithout(rest, aliases[1..], host);
      var left := Without(aliases[1..], host);
      assert ([aliases[0]] + left)[1..] == left;
      assert Without(aliases, host) == if aliases[0] == Str(host) then left else [aliases[0]] + left;
      assert Pairs(rest, aliases)[1..] == Pairs(rest, aliases[1..]);
    }
  }

  lemma {:induction false} FlatConcat(a: seq<Json>, b: seq<Json>)
    requires EntriesValid(a) && EntriesValid(b)
    ensures EntriesValid(a + b) && Flat(a + b) == Flat(a) + Flat(b)
  {
    hide Pairs, Rest, Aliases;
    if a == [] {
      assert a + b == b && Flat(a) == [];
    } else {
      assert (a + b)[1..] == a[1..] + b;
      FlatConcat(a[1..], b);
      assert (a + b)[0] == a[0];
    }
  }

  lemma KeptEntryFlat(entry: Json, host: string)
    requires Aliases(entry).Some?
    ensures EntriesValid(KeptEntry(entry, host))
    ensures Flat(KeptEntry(entry, host)) == Drop(Pairs(Rest(entry), Aliases(entry).value), host)
  {
    PairsWithout(Rest(entry), Aliases(entry).value, host);
    var kept := KeptEntry(entry, host);
    if kept != [] {
      assert kept == [kept[0]] && kept[1..] == [];
      assert Rest(kept[0]) == Rest(entry);
      assert Flat(kept) == Pairs(Rest(kept[0]), Aliases(kept[0]).value) + Flat([]);
    }
  }

  lemma {:induction false} KeptFlat(entries: seq<Json>, host: string)
    requires EntriesValid(entries)
    ensures EntriesValid(KeptEntries(entries, host))
    ensures Flat(KeptEntries(entries, host)) == Drop(Flat(entries), host)
  {
    if entries != [] {
      KeptFlat(entries[1..], host);
      KeptEntryFlat(entries[0], host);
      FlatConcat(KeptEntry(entries[0], host), KeptEntries(entries[1..], host));
      DropConcat(Pairs(Rest(entries[0]), Aliases(entries[0]).value), Flat(entries[1..]), host);
    }
  }

  /** The pairs after the upsert: the old ones without the host, in order, then exactly the new one. */
  lemma UpsertPairs(o: Owned, t: Trust)
    requires Upsert(o, t).Some?
    ensures var e := Upsert(o, t).value.entries;
      EntriesValid(e) && Flat(e) == Drop(Flat(o.entries), t.host) + [(map["ip" := Str(t.address)], Str(t.host))]
  {
    KeptFlat(o.entries, t.host);
    HostPairs(t);
    FlatConcat(KeptEntries(o.entries, t.host), [HostEntry(t)]);
  }

  lemma HostPairs(t: Trust)
    ensures EntriesValid([HostEntry(t)]) && Flat([HostEntry(t)]) == [(map["ip" := Str(t.address)], Str(t.host))]
  {
    var e := HostEntry(t);
    assert [e][1..] == [] && Aliases(e) == Some([Str(t.host)]) && Rest(e) == map["ip" := Str(t.address)];
    assert [Str(t.host)][1..] == [];
    assert Pairs(Rest(e), [Str(t.host)]) == [(Rest(e), Str(t.host))] + Pairs(Rest(e), []);
    assert Flat([e]) == Pairs(Rest(e), [Str(t.host)]) + Flat([]);
  }

  lemma {:induction false} SetThere(j: Json, path: Path, value: Json)
    requires SetIn(j, path, value).Some?
    ensures Reaches(SetIn(j, path, value).value, path, value)
    ensures forall other: Json :: SetIn(SetIn(j, path, value).value, path, other) == SetIn(j, path, other)
    decreases |path|
  {
    if path != [] {
      var child := if path[0] in j.fields then j.fields[path[0]] else EMPTY;
      SetThere(child, path[1..], value);
      var done := SetIn(j, path, value).value;
      forall other: Json ensures SetIn(done, path, other) == SetIn(j, path, other) {
        var inner := SetIn(child, path[1..], other);
        if inner.Some? {
          assert done.fields[path[0] := inner.value] == j.fields[path[0] := inner.value];
        }
      }
    }
  }

  /** A chain of mappings leads to exactly this value. */
  predicate Reaches(j: Json, path: Path, value: Json)
    decreases |path|
  {
    if path == [] then j == value
    else j.Obj? && path[0] in j.fields && Reaches(j.fields[path[0]], path[1..], value)
  }

  /** Everything beside the path stays: other registries and the other TLS fields. */
  lemma {:induction false} SetBeside(j: Json, path: Path, value: Json, other: Path)
    requires SetIn(j, path, value).Some? && !Overlap(path, other)
    ensures Lookup(SetIn(j, path, value).value, other) == Lookup(j, other)
    decreases |path|
  {
    assert path != [] && other != [];
    if path[0] == other[0] {
      OverlapTail(path, other);
      var child := if path[0] in j.fields then j.fields[path[0]] else EMPTY;
      SetBeside(child, path[1..], value, other[1..]);
    }
  }

  /** `assert_applied` on the owned values. */
  predicate Applied(o: Owned, t: Trust) {
    && Reaches(o.registries, CaPath(t.host), Str(t.ca))
    && Holders(o.entries, t.host) == [HostOnly(t)]
  }

  /** What the read-back looks at: address and aliases of every entry that carries the host. */
  function Holders(entries: seq<Json>, host: string): seq<(Option<Json>, seq<Json>)> {
    if entries == [] then []
    else (if Aliases(entries[0]).Some? && Str(host) in Aliases(entries[0]).value
          then [(Ip(entries[0]), Aliases(entries[0]).value)] else [])
         + Holders(entries[1..], host)
  }

  function HostOnly(t: Trust): (Option<Json>, seq<Json>) {
    (Some(Str(t.address)), [Str(t.host)])
  }

  lemma {:induction false} WithoutHost(aliases: seq<Json>, host: string)
    ensures Str(host) !in Without(aliases, host)
    ensures Without(Without(aliases, host), host) == Without(aliases, host)
  {
    if aliases != [] {
      WithoutHost(aliases[1..], host);
      var rest := Without(aliases[1..], host);
      assert ([aliases[0]] + rest)[1..] == rest;
      assert Without(aliases, host) == if aliases[0] == Str(host) then rest else [aliases[0]] + rest;
    }
  }

  lemma {:induction false} HoldersConcat(a: seq<Json>, b: seq<Json>, host: string)
    ensures Holders(a + b, host) == Holders(a, host) + Holders(b, host)
  {
    hide Aliases, Ip;
    if a == [] {
      assert a + b == b;
    } else {
      assert (a + b)[1..] == a[1..] + b;
      HoldersConcat(a[1..], b, host);
    }
  }

  lemma {:induction false} KeptHolders(entries: seq<Json>, host: string)
    requires EntriesValid(entries)
    ensures Holders(KeptEntries(entries, host), host) == []
  {
    if entries != [] {
      KeptHolders(entries[1..], host);
      WithoutHost(Aliases(entries[0]).value, host);
      HoldersConcat(KeptEntry(entries[0], host), KeptEntries(entries[1..], host), host);
      var kept := KeptEntry(entries[0], host);
      if kept != [] { assert kept == [kept[0]] && kept[1..] == []; }
    }
  }

  /** The upsert always satisfies the read-back check that follows it. */
  lemma UpsertApplies(o: Owned, t: Trust)
    requires Upsert(o, t).Some?
    ensures Applied(Upsert(o, t).value, t)
  {
    SetThere(o.registries, CaPath(t.host), Str(t.ca));
    KeptHolders(o.entries, t.host);
    HoldersConcat(KeptEntries(o.entries, t.host), [HostEntry(t)], t.host);
    var e := HostEntry(t);
    assert [e][1..] == [] && Aliases(e) == Some([Str(t.host)]) && Ip(e) == Some(Str(t.address));
  }

  lemma {:induction false} KeptAgain(entries: seq<Json>, host: string)
    requires EntriesValid(entries)
    ensures EntriesValid(KeptEntries(entries, host))
    ensures KeptEntries(KeptEntries(entries, host), host) == KeptEntries(entries, host)
  {
    if entries != [] {
      KeptAgain(entries[1..], host);
      WithoutHost(Aliases(entries[0]).value, host);
      var kept, rest := KeptEntry(entries[0], host), KeptEntries(entries[1..], host);
      if kept != [] {
        assert (kept + rest)[1..] == rest && (kept + rest)[0] == kept[0];
        assert kept[0].fields["aliases" := kept[0].fields["aliases"]] == kept[0].fields;
        assert KeptEntry(kept[0], host) == kept;
      } else {
        assert kept + rest == rest;
      }
    }
  }

  /** A later upsert for the same host replaces an earlier one; with the same values it changes nothing. */
  lemma LastUpsertWins(o: Owned, s: Trust, t: Trust)
    requires Upsert(o, s).Some? && s.host == t.host
    ensures Upsert(Upsert(o, s).value, t) == Upsert(o, t)
  {
    var host := t.host;
    SetThere(o.registries, CaPath(host), Str(s.ca));
    KeptAgain(o.entries, host);
    var kept := KeptEntries(o.entries, host);
    HostPairs(s);
    KeptAppend(kept, HostEntry(s), host);
    assert Aliases(HostEntry(s)) == Some([Str(host)]) && [Str(host)][1..] == [];
    assert Without([Str(host)], host) == Without([], host);
    assert KeptEntry(HostEntry(s), host) == [];
    assert KeptEntries(kept + [HostEntry(s)], host) == kept;
  }

  lemma UpsertIdempotent(o: Owned, t: Trust)
    requires Upsert(o, t).Some?
    ensures Upsert(Upsert(o, t).value, t) == Upsert(o, t)
  {
    LastUpsertWins(o, t, t);
  }

  /** The path is set exactly when everything on the way that exists is a mapping. */
  lemma {:induction false} SetInExactly(j: Json, path: Path, value: Json)
    ensures SetIn(j, path, value).Some? <==> forall i :: 0 <= i < |path| ==> MappingAt(j, path[..i])
    decreases |path|
  {
    if path != [] {
      var child := if j.Obj? && path[0] in j.fields then j.fields[path[0]] else EMPTY;
      SetInExactly(child, path[1..], value);
      assert path[..0] == [];
      forall i | 0 < i < |path| && j.Obj? ensures MappingAt(j, path[..i]) == MappingAt(child, path[1..][..i-1]) {
        assert path[..i][1..] == path[1..][..i-1];
      }
      if j.Obj? && (forall i :: 0 <= i < |path| ==> MappingAt(j, path[..i])) {
        forall i | 0 <= i < |path[1..]| ensures MappingAt(child, path[1..][..i]) { assert MappingAt(j, path[..i+1]); }
      }
      if SetIn(j, path, value).Some? {
        forall i | 0 < i < |path| ensures MappingAt(j, path[..i]) { assert MappingAt(child, path[1..][..i-1]); }
      }
    }
  }

  /** Nothing there, or a mapping. */
  predicate MappingAt(j: Json, path: Path) {
    Lookup(j, path).Some? ==> Lookup(j, path).value.Obj?
  }

  /** The upsert is refused exactly when something other than a mapping is in the way to the CA, or a
      host entry is no mapping or has aliases that are no list. */
  lemma UpsertExactly(o: Owned, t: Trust)
    ensures Upsert(o, t).Some? <==>
      && (forall i :: 0 <= i < 4 ==> MappingAt(o.registries, ["config", t.host, "tls", "ca"][..i]))
      && (forall e :: e in o.entries ==> e.Obj? && ("aliases" in e.fields ==> e.fields["aliases"].Arr?))
  {
    SetInExactly(o.registries, CaPath(t.host), Str(t.ca));
    assert forall e :: Aliases(e).Some? <==> e.Obj? && ("aliases" in e.fields ==> e.fields["aliases"].Arr?);
    hide Aliases, MappingAt, SetIn;
  }

  // ---- on a whole machine configuration ----

  const REGISTRIES: Path := ["machine", "registries"]
  const ENTRIES: Path := ["machine", "network", "extraHostEntries"]

  /** The two add operations applied to the configuration they were computed from. */
  function ApplyOps(current: Json, o: Owned): Option<Json> {
    var one := Add(current, REGISTRIES, o.registries);
    if one.Some? then Add(one.value, ENTRIES, Arr(o.entries)) else None
  }

  /** Reading the configuration back gives the values that were set. */
  lemma AppliedReadsBack(current: Json, o: Owned)
    requires ApplyOps(current, o).Some? && !Falsy(o.registries) && o.entries != []
    ensures Current(ApplyOps(current, o).value) == Some(o)
  {
    hide Falsy;
    assert !Falsy(Arr(o.entries)) by { NotFalsy(o.entries); }
    var one := Add(current, REGISTRIES, o.registries).value;
    var machine := current.fields["machine"];
    assert REGISTRIES[1..] == ["registries"] && ENTRIES[1..] == ["network", "extraHostEntries"] && ENTRIES[1..][1..] == ["extraHostEntries"];
    assert one.fields["machine"] == Obj(machine.fields["registries" := o.registries]);
    var two := ApplyOps(current, o).value;
    var network := two.fields["machine"].fields["network"];
    assert network.Obj? && network.fields["extraHostEntries"] == Arr(o.entries);
    assert !Falsy(network) by { NotEmpty(network.fields, "extraHostEntries"); }
  }

  lemma NotFalsy(items: seq<Json>)
    ensures items != [] ==> !Falsy(Arr(items))
  {
  }

  lemma NotEmpty(fields: map<string, Json>, key: string)
    ensures key in fields ==> !Falsy(Obj(fields))
  {
  }

  /** A node that took the operations passes the read-back check, and the operations computed for it
      again, with the same or with new values, are those of the first configuration. */
  lemma NodeConverges(current: Json, s: Trust, t: Trust)
    requires s.host == t.host && Then(Current(current), s).Some? && ApplyOps(current, Then(Current(current), s).value).Some?
    ensures var after := ApplyOps(current, Then(Current(current), s).value).value;
      && Current(after).Some? && Applied(Current(after).value, s)
      && Then(Current(after), t) == Then(Current(current), t)
  {
    hide ApplyOps, Current;
    var o := Current(current).value;
    UpsertApplies(o, s);
    assert !Falsy(Upsert(o, s).value.registries) by { NotEmpty(Upsert(o, s).value.registries.fields, "config"); }
    AppliedReadsBack(current, Upsert(o, s).value);
    LastUpsertWins(o, s, t);
  }

  /** A configuration the operations can be computed for takes them exactly when it has a network mapping. */
  lemma AppliesExactly(current: Json, o: Owned)
    requires Current(current).Some?
    ensures ApplyOps(current, o).Some? <==>
      var machine := current.fields["machine"].fields; "network" in machine && machine["network"].Obj?
  {
    assert REGISTRIES[1..] == ["registries"] && ENTRIES[1..] == ["network", "extraHostEntries"];
    assert ENTRIES[1..][1..] == ["extraHostEntries"];
  }

  // ---- upsert_capi_patches ----

  /** What a patch in the list is to the upsert. */
  datatype Class = Nested | Registries(value: Json) | Entries(items: seq<Json>) | Unmergeable | Unowned

  function RegistriesAt(): string {
    "/machine/registries"
  }

  function EntriesAt(): string {
    "/machine/network/extraHostEntries"
  }

  function Classify(item: Json): Class {
    if !item.Obj? then Unmergeable
    else
      var path := Field(item.fields, "path");
      if path.Some? && (path.value.Obj? || path.value.Arr?) then Unmergeable      // no set can be asked for it
      else if path.None? || !path.value.Str? then Unowned
      else
        var text := path.value.text;
        if IsNested(text) then Nested
        else if text != RegistriesAt() && text != EntriesAt() then Unowned
        else if !Sets(item) then Unmergeable
        else Assigned(text == RegistriesAt(), Field(item.fields, "value"))
  }

  predicate IsNested(text: string) {
    RegistriesAt() + "/" <= text || EntriesAt() + "/" <= text
  }

  predicate Sets(item: Json)
    requires item.Obj?
  {
    Field(item.fields, "op") == Some(Str("add")) || Field(item.fields, "op") == Some(Str("replace"))
  }

  function Assigned(registries: bool, value: Option<Json>): Class {
    if registries then
      if value.Some? && value.value.Obj? then Registries(value.value) else Unmergeable
    else if value.Some? && value.value.Arr? then Entries(value.value.items) else Unmergeable
  }

  function PatchAt(text: string, value: Json): Json {
    Obj(map["op" := Str("add"), "path" := Str(text), "value" := value])
  }

  function Ops(o: Owned): seq<Json> {
    [PatchAt(RegistriesAt(), o.registries), PatchAt(EntriesAt(), Arr(o.entries))]
  }

  datatype Gathered = Gathered(preserved: seq<Json>, owned: Owned)

  function Take(g: Gathered, item: Json): Option<Gathered> {
    match Classify(item)
    case Unowned => Some(g.(preserved := g.preserved + [item]))
    case Registries(value) => Some(g.(owned := g.owned.(registries := value)))
    case Entries(items) => Some(g.(owned := g.owned.(entries := items)))
    case _ => None
  }

  /** Patches it does not own, in order, and the last value of each field it does. */
  function Gather(existing: seq<Json>): Option<Gathered> {
    if existing == [] then Some(Gathered([], Owned(EMPTY, [])))
    else
      var before := Gather(existing[..|existing|-1]);
      if before.Some? then Take(before.value, existing[|existing|-1]) else None
  }

  function Compose(existing: seq<Json>, t: Trust): Option<seq<Json>> {
    var gathered := Gather(existing);
    if gathered.None? || Upsert(gathered.value.owned, t).None? then None
    else Some(gathered.value.preserved + Ops(Upsert(gathered.value.owned, t).value))
  }

  // ---- the same, said on the items' own texts ----

  /** Text of the item's path. */
  function PathText(item: Json): Option<string> {
    if item.Obj? && "path" in item.fields && item.fields["path"].Str? then Some(item.fields["path"].text) else None
  }

  ghost predicate Below(text: string, at: string) {
    exists rest: string :: text == at + "/" + rest
  }

  predicate At(item: Json, text: string) {
    PathText(item) == Some(text)
  }

  /** Sets its path to a value, a mapping or a list as asked. */
  predicate Settable(item: Json, mapping: bool) {
    && item.Obj? && "op" in item.fields && "value" in item.fields
    && (item.fields["op"] == Str("add") || item.fields["op"] == Str("replace"))
    && (if mapping then item.fields["value"].Obj? else item.fields["value"].Arr?)
  }

  /** An item no list with it can be composed: no mapping, a path that is itself a collection, below an
      owned path, or at one without setting it to a value of its kind. */
  ghost predicate Refused(item: Json) {
    || !item.Obj?
    || ("path" in item.fields && (item.fields["path"].Obj? || item.fields["path"].Arr?))
    || (exists text :: At(item, text) && (Below(text, RegistriesAt()) || Below(text, EntriesAt())))
    || (At(item, RegistriesAt()) && !Settable(item, true))
    || (At(item, EntriesAt()) && !Settable(item, false))
  }

  /** The items at neither owned path, in order. */
  function Others(items: seq<Json>): seq<Json> {
    if items == [] then []
    else
      var last := items[|items|-1];
      Others(items[..|items|-1]) + (if At(last, RegistriesAt()) || At(last, EntriesAt()) then [] else [last])
  }

  /** Value of the last item at a path. */
  function LastAt(items: seq<Json>, text: string, default: Json): Json {
    if items == [] then default
    else
      var last := items[|items|-1];
      if At(last, text) && last.Obj? && "value" in last.fields then last.fields["value"]
      else LastAt(items[..|items|-1], text, default)
  }

  /** The values that the list sets last, empty where it sets none. */
  function LastOwned(items: seq<Json>): Owned {
    var entries := LastAt(items, EntriesAt(), Arr([]));
    Owned(LastAt(items, RegistriesAt(), EMPTY), if entries.Arr? then entries.items else [])
  }

  lemma NestedMeans(text: string)
    ensures IsNested(text) <==> Below(text, RegistriesAt()) || Below(text, EntriesAt())
  {
    hide RegistriesAt, EntriesAt;
    PrefixMeans(text, RegistriesAt());
    PrefixMeans(text, EntriesAt());
  }

  lemma PrefixMeans(text: string, at: string)
    ensures at + "/" <= text <==> Below(text, at)
  {
    if at + "/" <= text { assert text == at + "/" + text[|at|+1..]; }
  }

  lemma ClassifyMeans(item: Json)
    ensures Classify(item).Nested? || Classify(item).Unmergeable? <==> Refused(item)
    ensures Classify(item).Unowned? ==> !At(item, RegistriesAt()) && !At(item, EntriesAt())
    ensures Classify(item).Registries? ==>
      At(item, RegistriesAt()) && item.Obj? && "value" in item.fields && Classify(item).value == item.fields["value"]
    ensures Classify(item).Entries? ==>
      At(item, EntriesAt()) && item.Obj? && "value" in item.fields && Arr(Classify(item).items) == item.fields["value"]
  {
    TextsApart();
    if PathText(item).Some? { NestedMeans(PathText(item).value); }
    hide RegistriesAt, EntriesAt, IsNested, Below;
  }

  /** Gathering refuses exactly lists with a refused item, and else splits them as the texts say. */
  lemma {:induction false} GatherMeans(items: seq<Json>)
    ensures Gather(items).None? <==> exists x :: x in items && Refused(x)
    ensures Gather(items).Some? ==> Gather(items).value == Gathered(Others(items), LastOwned(items))
  {
    hide Classify, Refused, At, RegistriesAt, EntriesAt;
    if items != [] {
      var front, last := items[..|items|-1], items[|items|-1];
      assert items == front + [last];
      GatherMeans(front);
      ClassifyMeans(last);
      PathsApart(last);
    }
  }

  lemma PathsApart(item: Json)
    ensures !(At(item, RegistriesAt()) && At(item, EntriesAt()))
  {
    TextsApart();
  }

  /** What composing does, in terms of the list's own texts and the upsert. */
  ghost predicate Composes(existing: seq<Json>, t: Trust, result: Option<seq<Json>>) {
    && (result.None? <==> (exists x :: x in existing && Refused(x)) || Upsert(LastOwned(existing), t).None?)
    && (result.Some? && Upsert(LastOwned(existing), t).Some? ==>
          result.value == Others(existing) + Ops(Upsert(LastOwned(existing), t).value))
  }

  lemma ComposeExactly(existing: seq<Json>, t: Trust)
    ensures Composes(existing, t, Compose(existing, t))
  {
    hide Refused, Upsert, LastOwned, Others, Ops, Gather;
    GatherMeans(existing);
  }

  /** `upsert_capi_patches`. */
  method UpsertPatches(existing: seq<Json>, t: Trust) returns (result: Option<seq<Json>>)
    ensures result == Compose(existing, t)
    ensures Composes(existing, t, result)
  {
    hide Classify, Upsert, Gather, Ops, Composes;
    ComposeExactly(existing, t);
    var preserved: seq<Json> := [];
    GatherNone();
    var registries, entries := EMPTY, [];
    for i := 0 to |existing|
      invariant Gather(existing[..i]) == Some(Gathered(preserved, Owned(registries, entries)))
    {
      assert existing[..i+1] == existing[..i] + [existing[i]];
      GatherNext(existing[..i], existing[i]);
      GatherFails(existing, i);
      match Classify(existing[i])
      case Unowned => preserved := preserved + [existing[i]];
      case Registries(value) => registries := value;
      case Entries(items) => entries := items;
      case _ => return None;
    }
    assert existing[..|existing|] == existing;
    var merged := Upsert(Owned(registries, entries), t);
    return if merged.Some? then Some(preserved + Ops(merged.value)) else None;
  }

  lemma GatherNone()
    ensures Gather([]) == Some(Gathered([], Owned(EMPTY, [])))
  {
  }

  /** A patch it refuses anywhere refuses the list. */
  lemma {:induction false} GatherFails(existing: seq<Json>, i: nat)
    requires i < |existing|
    ensures Gather(existing[..i+1]).None? ==> Gather(existing).None?
    decreases |existing| - i
  {
    if i + 1 < |existing| {
      assert existing[..i+2][..i+1] == existing[..i+1];
      GatherFails(existing, i + 1);
    } else {
      assert existing[..i+1] == existing;
    }
  }

  lemma {:induction false} GatherPreserves(existing: seq<Json>)
    requires Gather(existing).Some?
    ensures forall x :: x in Gather(existing).value.preserved ==> Classify(x).Unowned?
  {
    hide Classify;
    if existing != [] { GatherPreserves(existing[..|existing|-1]); }
  }

  lemma {:induction false} GatherForeign(items: seq<Json>)
    requires forall x :: x in items ==> Classify(x).Unowned?
    ensures Gather(items) == Some(Gathered(items, Owned(EMPTY, [])))
  {
    hide Classify;
    if items != [] {
      GatherForeign(items[..|items|-1]);
      assert items[..|items|-1] + [items[|items|-1]] == items;
    }
  }

  lemma TextsApart()
    ensures RegistriesAt() != EntriesAt() && !IsNested(RegistriesAt()) && !IsNested(EntriesAt())
  {
    assert |RegistriesAt()| == 19 && |EntriesAt()| == 33;
    assert (RegistriesAt() + "/")[9] == 'r' && EntriesAt()[9] == 'n';
  }

  lemma PatchFields(text: string, value: Json)
    ensures var p := PatchAt(text, value);
      && Field(p.fields, "path") == Some(Str(text)) && Field(p.fields, "value") == Some(value) && Sets(p)
  {
  }

  lemma OpsClassified(o: Owned)
    requires o.registries.Obj?
    ensures Classify(Ops(o)[0]) == Registries(o.registries) && Classify(Ops(o)[1]) == Entries(o.entries)
  {
    TextsApart();
    PatchFields(RegistriesAt(), o.registries);
    PatchFields(EntriesAt(), Arr(o.entries));
    hide RegistriesAt, EntriesAt, IsNested, Sets, Field;
  }

  lemma TwoOps(o: Owned)
    ensures |Ops(o)| == 2
  {
  }

  lemma GatherNext(items: seq<Json>, item: Json)
    ensures Gather(items + [item]) == if Gather(items).Some? then Take(Gather(items).value, item) else None
  {
    assert (items + [item])[..|items|] == items;
  }

  /** Gathering a composed list gives back what was composed. */
  lemma GatherComposed(preserved: seq<Json>, o: Owned)
    requires o.registries.Obj? && forall x :: x in preserved ==> Classify(x).Unowned?
    ensures Gather(preserved + Ops(o)) == Some(Gathered(preserved, o))
  {
    hide Classify, Ops, Gather;
    var ops := Ops(o);
    TwoOps(o);
    OpsClassified(o);
    GatherForeign(preserved);
    GatherNext(preserved, ops[0]);
    GatherNext(preserved + [ops[0]], ops[1]);
    assert preserved + [ops[0]] + [ops[1]] == preserved + ops;
  }

  /** Patches it does not own keep their order and content; composing again with the same host, same
      values or new ones, gives what composing the original list with those values gives. */
  lemma ComposeLaws(existing: seq<Json>, s: Trust, t: Trust)
    requires s.host == t.host && Compose(existing, s).Some?
    ensures Others(Compose(existing, s).value) == Others(existing)
    ensures Compose(Compose(existing, s).value, t) == Compose(existing, t)
  {
    hide Classify, Upsert, Gather, Others, LastOwned, Ops;
    var g := Gather(existing).value;
    var o := Upsert(g.owned, s).value;
    GatherPreserves(existing);
    assert o.registries.Obj? by { UpsertKeepsMapping(g.owned, s); }
    GatherComposed(g.preserved, o);
    GatherMeans(existing);
    GatherMeans(g.preserved + Ops(o));
    LastUpsertWins(g.owned, s, t);
  }

  lemma UpsertKeepsMapping(o: Owned, t: Trust)
    requires Upsert(o, t).Some?
    ensures Upsert(o, t).value.registries.Obj?
  {
  }
}
