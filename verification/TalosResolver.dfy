/** Materialization of the Talos/KubeVirt profile: the provider profile, the reviewed version and the
    image identity are filled in from the owning profile. */
module TalosResolver {
  import opened Wrappers
  import opened Json

  type Fields = map<string, Json>

  /** A reviewed provider profile: where it runs and the canonical mapping written for it. */
  datatype Reviewed = Reviewed(nodeSelector: Json, canonical: Fields)

  /** The validated ok-linux profile. `image` holds every field of the OS section that is written. */
  datatype Profile = Profile(default: Json, reviewed: map<Json, Reviewed>, version: Json, image: Fields)

  /** The OS section names its own profile, and each canonical mapping carries its own name. */
  predicate WellFormed(p: Profile) {
    && (forall name :: name in p.reviewed ==>
          && p.reviewed[name].nodeSelector.Str? && p.reviewed[name].nodeSelector.text != ""
          && "name" in p.reviewed[name].canonical && p.reviewed[name].canonical["name"] == name)
    && "profile" in p.image && p.image["profile"] == Str("kubevirt")
    && "schematic_id" in p.image
  }

  function Or(fields: Fields, key: string, default: Json): Json {
    if key in fields then fields[key] else default
  }

  // ---- resolve_provider_profile ----

  /** Name of the selected provider profile; None when providerProfile is no mapping. */
  function Selected(config: Fields, p: Profile): Option<Json> {
    var supplied := Or(config, "providerProfile", Obj(map[]));
    if Falsy(supplied) then Some(p.default)
    else if supplied.Obj? then Some(Or(supplied.fields, "name", p.default))
    else None
  }

  predicate ProviderAccepts(config: Fields, p: Profile) {
    var name := Selected(config, p);
    && name.Some? && name.value in p.reviewed
    && var reviewed := p.reviewed[name.value];
    var supplied := Or(config, "providerProfile", Obj(map[]));
    && (Falsy(supplied) || supplied == Obj(map["name" := name.value]) || supplied == Obj(reviewed.canonical))
    && var selector := Or(config, "nodeSelector", Literal("null"));
    selector == Literal("null") || selector == Str("") || selector == reviewed.nodeSelector
  }

  method ResolveProvider(config: Fields, p: Profile) returns (result: Option<Fields>)
    ensures result.Some? <==> ProviderAccepts(config, p)
    ensures result.Some? ==> var reviewed := p.reviewed[Selected(config, p).value];
      result.value == config["nodeSelector" := reviewed.nodeSelector]["providerProfile" := Obj(reviewed.canonical)]
  {
    hide Falsy;
    var name := Selected(config, p);
    if name.None? || name.value !in p.reviewed { return None; }
    var reviewed := p.reviewed[name.value];
    var supplied := Or(config, "providerProfile", Obj(map[]));
    if !Falsy(supplied) && supplied != Obj(map["name" := name.value]) && supplied != Obj(reviewed.canonical) { return None; }
    var selector := Or(config, "nodeSelector", Literal("null"));
    if selector != Literal("null") && selector != Str("") && selector != reviewed.nodeSelector { return None; }
    return Some(config["nodeSelector" := reviewed.nodeSelector]["providerProfile" := Obj(reviewed.canonical)]);
  }

  // ---- resolve_talos_config ----

  predicate VersionsAccept(config: Fields, p: Profile) {
    var versions := Or(config, "versions", Obj(map[]));
    versions.Obj? && Or(versions.fields, "talos", p.version) == p.version
  }

  predicate OsAccepts(config: Fields, p: Profile)
    requires "schematic_id" in p.image
  {
    var os := Or(config, "os", Obj(map[]));
    && os.Obj? && Or(os.fields, "profile", Str("kubevirt")) == Str("kubevirt")
    && Or(os.fields, "schematic_id", p.image["schematic_id"]) == p.image["schematic_id"]
  }

  predicate Concerns(config: Fields) {
    Or(config, "provider", Str("kubevirt")) == Str("kubevirt")
  }

  function Written(config: Fields, p: Profile): Fields
    requires WellFormed(p) && ProviderAccepts(config, p) && VersionsAccept(config, p) && OsAccepts(config, p)
  {
    var reviewed := p.reviewed[Selected(config, p).value];
    config["nodeSelector" := reviewed.nodeSelector]
          ["providerProfile" := Obj(reviewed.canonical)]
          ["versions" := Obj(Or(config, "versions", Obj(map[])).fields["talos" := p.version])]
          ["os" := Obj(Or(config, "os", Obj(map[])).fields + p.image)]
  }

  function Resolved(config: Fields, p: Profile): Option<Fields>
    requires WellFormed(p)
  {
    if Or(config, "type", Literal("null")) != Str("talos") then None
    else if !Concerns(config) then Some(config)
    else if ProviderAccepts(config, p) && VersionsAccept(config, p) && OsAccepts(config, p) then Some(Written(config, p))
    else None
  }

  method Resolve(config: Fields, p: Profile) returns (result: Option<Fields>)
    requires WellFormed(p)
    ensures result == Resolved(config, p)
  {
    hide ProviderAccepts, Selected;
    if Or(config, "type", Literal("null")) != Str("talos") { return None; }
    if !Concerns(config) { return Some(config); }
    var provided := ResolveProvider(config, p);
    if provided.None? { return None; }
    var current := provided.value;
    var versions := Or(current, "versions", Obj(map[]));
    if !versions.Obj? || Or(versions.fields, "talos", p.version) != p.version { return None; }
    current := current["versions" := Obj(versions.fields["talos" := p.version])];
    var os := Or(current, "os", Obj(map[]));
    if !os.Obj? || Or(os.fields, "profile", Str("kubevirt")) != Str("kubevirt") { return None; }
    if Or(os.fields, "schematic_id", p.image["schematic_id"]) != p.image["schematic_id"] { return None; }
    return Some(current["os" := Obj(os.fields + p.image)]);
  }

  /** Nothing of a section but the written entries changes, and nothing else appears in it. */
  predicate Beside(config: Fields, section: string, after: Fields, written: set<string>) {
    && (section in config ==> config[section].Obj?)
    && var before := if section in config then config[section].fields else map[];
    after.Keys == before.Keys + written && forall k :: k in before && k !in written ==> after[k] == before[k]
  }

  /** What an accepted configuration of this provider ends up as, field by field: the selected profile's
      node selector and mapping, the reviewed version beside other versions, the image fields beside
      other OS fields; nothing else changes, and no reviewed value the user gave is overruled. */
  lemma ResolvedFields(config: Fields, p: Profile)
    requires WellFormed(p) && Concerns(config) && Resolved(config, p).Some?
    ensures Selected(config, p).Some? && Selected(config, p).value in p.reviewed
    ensures var r := Resolved(config, p).value;
      var reviewed := p.reviewed[Selected(config, p).value];
      && r.Keys == config.Keys + {"nodeSelector", "providerProfile", "versions", "os"}
      && r["nodeSelector"] == reviewed.nodeSelector && r["providerProfile"] == Obj(reviewed.canonical)
      && r["versions"].Obj? && r["os"].Obj?
      && (forall key :: key in config && key !in {"nodeSelector", "providerProfile", "versions", "os"} ==> r[key] == config[key])
    ensures var versions, os := Resolved(config, p).value["versions"].fields, Resolved(config, p).value["os"].fields;
      && "talos" in versions && versions["talos"] == p.version
      && (forall k :: k in p.image ==> k in os && os[k] == p.image[k])
      && Beside(config, "versions", versions, {"talos"}) && Beside(config, "os", os, p.image.Keys)
  {
  }

  // ---- laws ----

  /** A resolved configuration selects the same profile again and is accepted again. */
  lemma WrittenFits(config: Fields, p: Profile)
    requires WellFormed(p) && ProviderAccepts(config, p) && VersionsAccept(config, p) && OsAccepts(config, p)
    ensures var r := Written(config, p);
      && ProviderAccepts(r, p) && VersionsAccept(r, p) && OsAccepts(r, p)
      && Selected(r, p) == Selected(config, p)
      && Or(r, "type", Literal("null")) == Or(config, "type", Literal("null")) && Concerns(r) == Concerns(config)
  {
    var r := Written(config, p);
    var reviewed := p.reviewed[Selected(config, p).value];
    assert r["providerProfile"] == Obj(reviewed.canonical) && !Falsy(r["providerProfile"]);
    assert r["nodeSelector"] == reviewed.nodeSelector;
  }

  /** Resolving twice is resolving once. */
  lemma ResolveIdempotent(config: Fields, p: Profile)
    requires WellFormed(p) && Resolved(config, p).Some?
    ensures Resolved(Resolved(config, p).value, p) == Resolved(config, p)
  {
    hide ProviderAccepts, Selected, VersionsAccept, OsAccepts, Concerns;
    if Concerns(config) {
      WrittenFits(config, p);
      WrittenAgain(config, p);
    }
  }

  lemma WrittenAgain(config: Fields, p: Profile)
    requires WellFormed(p) && ProviderAccepts(config, p) && VersionsAccept(config, p) && OsAccepts(config, p)
    requires var r := Written(config, p);
      ProviderAccepts(r, p) && VersionsAccept(r, p) && OsAccepts(r, p) && Selected(r, p) == Selected(config, p)
    ensures Written(Written(config, p), p) == Written(config, p)
  {
    hide ProviderAccepts, Selected;
    var r := Written(config, p);
    var versions, os := r["versions"].fields, r["os"].fields;
    assert versions["talos" := p.version] == versions;
    assert os + p.image == os;
    assert Written(r, p) == r;
  }

  /** The "fully materialized" test of the lifecycle accepts exactly what some accepted configuration
      resolves to. */
  lemma MaterializedExactly(config: Fields, p: Profile)
    requires WellFormed(p)
    ensures Resolved(config, p) == Some(config) <==> exists source :: Resolved(source, p) == Some(config)
  {
    hide ProviderAccepts, VersionsAccept, OsAccepts, Concerns, Written;
    if source :| Resolved(source, p) == Some(config) { ResolveIdempotent(source, p); }
  }
}
