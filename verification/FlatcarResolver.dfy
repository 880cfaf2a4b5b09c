/** Materialization of the constrained Flatcar profile: absent fields are filled in, present ones must
    already be what the profile says. */
module FlatcarResolver {
  import opened Wrappers
  import opened Json

  /** Top-level fields of a cluster configuration. */
  datatype Top =
    | Name | Type | Provider | ControlPlane | Workers | Versions | Network | NodeSelector | ProviderProfile | Os
    | Bootstrap | Upgrade
    | Unsupported(text: string)

  type Config = map<Top, Json>

  /** Values of the accepted envelope, the last three taken from the validated profile. */
  datatype Envelope = Envelope(
    provider: Json, nodeSelector: Json,
    versions: map<string, Json>, controlPlane: map<string, Json>, workers: map<string, Json>,
    providerProfile: map<string, Json>, upgrade: map<string, Json>,
    os: map<string, Json>, bootstrap: map<string, Json>)

  // ---- set_exact and exact_mapping ----

  method SetExact(mapping: map<string, Json>, key: string, expected: Json) returns (result: Option<map<string, Json>>)
    ensures result.Some? <==> (key in mapping ==> mapping[key] == expected)
    ensures result.Some? ==> result.value == mapping[key := expected]
  {
    if key in mapping && mapping[key] != expected { return None; }
    return Some(mapping[key := expected]);
  }

  /** Only expected keys, each with its expected value. */
  predicate Within(mapping: map<string, Json>, expected: map<string, Json>) {
    mapping.Keys <= expected.Keys && forall k :: k in mapping ==> mapping[k] == expected[k]
  }

  /** An accepted mapping ends up as exactly the expected one. */
  method ExactMapping(mapping: map<string, Json>, expected: map<string, Json>) returns (result: Option<map<string, Json>>)
    ensures result.Some? <==> Within(mapping, expected)
    ensures result.Some? ==> result.value == expected
  {
    if !(mapping.Keys <= expected.Keys) { return None; }
    var current := mapping;
    var left := expected.Keys;
    while left != {}
      invariant left <= expected.Keys
      invariant mapping.Keys <= current.Keys <= expected.Keys && expected.Keys - left <= current.Keys
      invariant forall k :: k in current ==> if k in left then k in mapping && current[k] == mapping[k] else current[k] == expected[k]
      invariant forall k :: k in mapping && k !in left ==> mapping[k] == expected[k]
      decreases left
    {
      var key :| key in left;
      var next := SetExact(current, key, expected[key]);
      if next.None? {
        assert key in mapping && mapping[key] != expected[key];
        return None;
      }
      current, left := next.value, left - {key};
    }
    assert current.Keys == expected.Keys;
    assert current == expected;
    return Some(current);
  }

  // ---- top level ----

  /** Fields the resolver fills in. */
  const FILLED: set<Top> :=
    {Provider, Versions, ControlPlane, Workers, NodeSelector, ProviderProfile, Os, Bootstrap, Upgrade}

  /** Sections are compared entry by entry, the two plain fields as a whole. */
  function Expected(e: Envelope, key: Top): Json {
    match key
    case Provider => e.provider
    case NodeSelector => e.nodeSelector
    case Versions => Obj(e.versions)
    case ControlPlane => Obj(e.controlPlane)
    case Workers => Obj(e.workers)
    case ProviderProfile => Obj(e.providerProfile)
    case Os => Obj(e.os)
    case Bootstrap => Obj(e.bootstrap)
    case _ => Obj(e.upgrade)
  }

  predicate IsSection(key: Top) {
    !key.Provider? && !key.NodeSelector?
  }

  /** Absent, or already what the profile says. */
  predicate Fits(config: Config, e: Envelope, key: Top) {
    key in config ==>
      if IsSection(key) then config[key].Obj? && Expected(e, key).Obj? && Within(config[key].fields, Expected(e, key).fields)
      else config[key] == Expected(e, key)
  }

  function Filled(config: Config, e: Envelope, keys: set<Top>): Config {
    map k | k in config.Keys + keys :: if k in keys then Expected(e, k) else config[k]
  }

  /** One `set_exact` or `exact_mapping` at the top level, after those of `done`. */
  method Fill(config: Config, e: Envelope, key: Top, ghost source: Config, ghost done: set<Top>) returns (result: Option<Config>)
    requires config == Filled(source, e, done) && key in FILLED && key !in done
    ensures result == if Fits(source, e, key) then Some(Filled(source, e, done + {key})) else None
  {
    hide Filled;
    FilledOneMore(source, e, done, key);
    if IsSection(key) {
      var section := if key in config then config[key] else Obj(map[]);
      if !section.Obj? { return None; }
      var exact := ExactMapping(section.fields, Expected(e, key).fields);
      if exact.None? { return None; }
      result := Some(config[key := Obj(exact.value)]);
    } else {
      if key in config && config[key] != Expected(e, key) { return None; }
      result := Some(config[key := Expected(e, key)]);
    }
  }

  lemma FilledOneMore(source: Config, e: Envelope, done: set<Top>, key: Top)
    requires key !in done
    ensures var config := Filled(source, e, done);
      && (key in config <==> key in source) && (key in source ==> config[key] == source[key])
      && config[key := Expected(e, key)] == Filled(source, e, done + {key})
  {
  }

  predicate LabelChar(c: char) {
    'a' <= c <= 'z' || '0' <= c <= '9'
  }

  /** Lower-case DNS label of at most 63 characters. */
  predicate DnsLabel(s: string) {
    && 0 < |s| <= 63 && LabelChar(s[0]) && LabelChar(s[|s|-1])
    && forall i :: 0 <= i < |s| ==> LabelChar(s[i]) || s[i] == '-'
  }

  /** `str(name or "")` where that can be a label. */
  function NameText(config: Config): string {
    if Name !in config then ""
    else match config[Name]
      case Str(text) => text
      case Literal(text) => if text == "null" || text == "false" || text == "0" || text == "true" then "" else text
      case _ => ""
  }

  predicate Supported(config: Config) {
    forall k :: k in config ==> !k.Unsupported?
  }

  /** Everything the resolver checks. */
  predicate Accepts(config: Config, e: Envelope) {
    && Type in config && config[Type] == Str("flatcar")
    && DnsLabel(NameText(config)) && Supported(config)
    && forall key :: key in FILLED ==> Fits(config, e, key)
  }

  function Resolved(config: Config, e: Envelope): Option<Config> {
    if Accepts(config, e) then Some(Filled(config, e, FILLED)) else None
  }

  /** Provider, versions and machine sizes. */
  method FillSizes(config: Config, e: Envelope) returns (result: Option<Config>)
    ensures result == if Fits(config, e, Provider) && Fits(config, e, Versions) && Fits(config, e, ControlPlane) && Fits(config, e, Workers)
                      then Some(Filled(config, e, {Provider, Versions, ControlPlane, Workers})) else None
  {
    hide Filled, Fits;
    assert config == Filled(config, e, {}) by { FilledNothing(config, e); }
    var one := Fill(config, e, Provider, config, {});
    if one.None? { return None; }
    var two := Fill(one.value, e, Versions, config, {} + {Provider});
    if two.None? { return None; }
    var three := Fill(two.value, e, ControlPlane, config, {} + {Provider} + {Versions});
    if three.None? { return None; }
    result := Fill(three.value, e, Workers, config, {} + {Provider} + {Versions} + {ControlPlane});
    assert {} + {Provider} + {Versions} + {ControlPlane} + {Workers} == {Provider, Versions, ControlPlane, Workers};
  }

  lemma FilledNothing(config: Config, e: Envelope)
    ensures Filled(config, e, {}) == config
  {
  }

  /** `resolve_flatcar_config`. */
  method Resolve(config: Config, e: Envelope) returns (result: Option<Config>)
    ensures result == Resolved(config, e)
  {
    hide Filled, Fits, DnsLabel;
    if Type !in config || config[Type] != Str("flatcar") { return None; }
    if !DnsLabel(NameText(config)) { return None; }
    if !Supported(config) { return None; }
    var sizes := FillSizes(config, e);
    if sizes.None? { return None; }
    ghost var done := {Provider, Versions, ControlPlane, Workers};
    var one := Fill(sizes.value, e, NodeSelector, config, done);
    if one.None? { return None; }
    var two := Fill(one.value, e, ProviderProfile, config, done + {NodeSelector});
    if two.None? { return None; }
    var three := Fill(two.value, e, Os, config, done + {NodeSelector} + {ProviderProfile});
    if three.None? { return None; }
    var four := Fill(three.value, e, Bootstrap, config, done + {NodeSelector} + {ProviderProfile} + {Os});
    if four.None? { return None; }
    result := Fill(four.value, e, Upgrade, config, done + {NodeSelector} + {ProviderProfile} + {Os} + {Bootstrap});
    assert done + {NodeSelector} + {ProviderProfile} + {Os} + {Bootstrap} + {Upgrade} == FILLED;
  }

  // ---- field by field ----

  /** Absent, or a mapping with nothing but entries of the expected one. */
  predicate Narrows(config: Config, key: Top, expected: map<string, Json>) {
    key in config ==>
      && config[key].Obj?
      && forall k :: k in config[key].fields ==> k in expected && config[key].fields[k] == expected[k]
  }

  /** Which configurations are accepted, field by field. */
  lemma AcceptsExactly(config: Config, e: Envelope)
    ensures Resolved(config, e).Some? <==>
      && Type in config && config[Type] == Str("flatcar") && DnsLabel(NameText(config)) && Supported(config)
      && (Provider in config ==> config[Provider] == e.provider)
      && (NodeSelector in config ==> config[NodeSelector] == e.nodeSelector)
      && Narrows(config, Versions, e.versions) && Narrows(config, ControlPlane, e.controlPlane)
      && Narrows(config, Workers, e.workers) && Narrows(config, ProviderProfile, e.providerProfile)
      && Narrows(config, Os, e.os) && Narrows(config, Bootstrap, e.bootstrap) && Narrows(config, Upgrade, e.upgrade)
  {
    hide DnsLabel, Filled, Supported;
    FitsExactly(config, e);
    hide Fits, Narrows;
    assert (forall key :: key in FILLED ==> Fits(config, e, key)) <==>
      && Fits(config, e, Provider) && Fits(config, e, NodeSelector) && Fits(config, e, Versions)
      && Fits(config, e, ControlPlane) && Fits(config, e, Workers) && Fits(config, e, ProviderProfile)
      && Fits(config, e, Os) && Fits(config, e, Bootstrap) && Fits(config, e, Upgrade);
  }

  lemma FitsExactly(config: Config, e: Envelope)
    ensures Fits(config, e, Provider) <==> (Provider in config ==> config[Provider] == e.provider)
    ensures Fits(config, e, NodeSelector) <==> (NodeSelector in config ==> config[NodeSelector] == e.nodeSelector)
    ensures Fits(config, e, Versions) <==> Narrows(config, Versions, e.versions)
    ensures Fits(config, e, ControlPlane) <==> Narrows(config, ControlPlane, e.controlPlane)
    ensures Fits(config, e, Workers) <==> Narrows(config, Workers, e.workers)
    ensures Fits(config, e, ProviderProfile) <==> Narrows(config, ProviderProfile, e.providerProfile)
    ensures Fits(config, e, Os) <==> Narrows(config, Os, e.os)
    ensures Fits(config, e, Bootstrap) <==> Narrows(config, Bootstrap, e.bootstrap)
    ensures Fits(config, e, Upgrade) <==> Narrows(config, Upgrade, e.upgrade)
  {
    hide Narrows, Within;
    SectionFits(config, e, Versions, e.versions);
    SectionFits(config, e, ControlPlane, e.controlPlane);
    SectionFits(config, e, Workers, e.workers);
    SectionFits(config, e, ProviderProfile, e.providerProfile);
    SectionFits(config, e, Os, e.os);
    SectionFits(config, e, Bootstrap, e.bootstrap);
    SectionFits(config, e, Upgrade, e.upgrade);
  }

  lemma SectionFits(config: Config, e: Envelope, key: Top, expected: map<string, Json>)
    requires IsSection(key) && Expected(e, key) == Obj(expected)
    ensures Fits(config, e, key) <==> Narrows(config, key, expected)
  {
  }

  /** What an accepted configuration ends up as, field by field; nothing else changes. */
  lemma ResolvedFields(config: Config, e: Envelope)
    requires Resolved(config, e).Some?
    ensures var r := Resolved(config, e).value;
      && FILLED <= r.Keys && r.Keys == config.Keys + FILLED
      && r[Provider] == e.provider && r[NodeSelector] == e.nodeSelector
      && r[Versions] == Obj(e.versions) && r[ControlPlane] == Obj(e.controlPlane) && r[Workers] == Obj(e.workers)
      && r[ProviderProfile] == Obj(e.providerProfile) && r[Os] == Obj(e.os)
      && r[Bootstrap] == Obj(e.bootstrap) && r[Upgrade] == Obj(e.upgrade)
      && forall key :: key in config && key !in FILLED ==> r[key] == config[key]
  {
    hide Accepts, Filled;
    FilledAt(config, e, Provider);
    FilledAt(config, e, NodeSelector);
    FilledAt(config, e, Versions);
    FilledAt(config, e, ControlPlane);
    FilledAt(config, e, Workers);
    FilledAt(config, e, ProviderProfile);
    FilledAt(config, e, Os);
    FilledAt(config, e, Bootstrap);
    FilledAt(config, e, Upgrade);
    FilledBeside(config, e);
  }

  lemma FilledAt(config: Config, e: Envelope, key: Top)
    requires key in FILLED
    ensures key in Filled(config, e, FILLED) && Filled(config, e, FILLED)[key] == Expected(e, key)
  {
  }

  lemma FilledBeside(config: Config, e: Envelope)
    ensures Filled(config, e, FILLED).Keys == config.Keys + FILLED
    ensures forall key :: key in config && key !in FILLED ==> Filled(config, e, FILLED)[key] == config[key]
  {
  }

  // ---- laws ----

  /** Resolving a resolved configuration changes nothing. */
  lemma ResolveIdempotent(config: Config, e: Envelope)
    requires Resolved(config, e).Some?
    ensures Resolved(Resolved(config, e).value, e) == Resolved(config, e)
  {
    hide DnsLabel, Within;
    var r := Resolved(config, e).value;
    assert r[Type] == config[Type] && NameText(r) == NameText(config);
    FilledFits(config, e);
    assert Filled(r, e, FILLED) == r;
  }

  /** What was filled in fits. */
  lemma FilledFits(config: Config, e: Envelope)
    ensures forall key :: key in FILLED ==> Fits(Filled(config, e, FILLED), e, key)
  {
  }

  /** No supplied value is altered: every supplied field keeps its value, and every supplied section
      entry keeps its value in the filled-in section. */
  lemma SuppliedKept(config: Config, e: Envelope, key: Top)
    requires Resolved(config, e).Some? && key in config
    ensures var r := Resolved(config, e).value;
      key in r && (r[key] == config[key]
                   || (config[key].Obj? && r[key].Obj? && Within(config[key].fields, r[key].fields)))
  {
    hide DnsLabel;
  }

  /** Accepted configurations with the same name and network resolve to the same configuration. */
  lemma NameAndNetworkDecide(a: Config, b: Config, e: Envelope)
    requires Resolved(a, e).Some? && Resolved(b, e).Some?
    requires Name in a && Name in b && a[Name] == b[Name]
    requires (Network in a <==> Network in b) && (Network in a ==> a[Network] == b[Network])
    ensures Resolved(a, e) == Resolved(b, e)
  {
    hide DnsLabel, Fits;
    var x, y := Resolved(a, e).value, Resolved(b, e).value;
    forall k ensures (k in x <==> k in y) && (k in x ==> x[k] == y[k]) {
      if k !in FILLED { assert k == Name || k == Type || k == Network || k.Unsupported?; }
    }
    assert x.Keys == y.Keys;
    assert x == y;
  }

  /** The "fully materialized" test accepts exactly what some accepted configuration resolves to. */
  lemma MaterializedExactly(config: Config, e: Envelope)
    ensures Resolved(config, e) == Some(config) <==> exists source :: Resolved(source, e) == Some(config)
  {
    hide Accepts, Filled;
    if source :| Resolved(source, e) == Some(config) { ResolveIdempotent(source, e); }
  }
}
