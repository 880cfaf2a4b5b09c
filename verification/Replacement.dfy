/** Replacement readiness: machines, their VirtualMachines and their boot DataVolumes, counted. */
module Replacement {
  import opened Wrappers
  import opened Counting

  type Name = nat
  type Uid = nat

  datatype Template = Template(name: Name, expected: nat)
  datatype Machine = Machine(name: Name, clonedFrom: Option<Name>)
  datatype Vm = Vm(name: Name, uid: Uid)

  datatype Phase = Succeeded | FailedPhase | OtherPhase

  /** `owners`: UIDs of the owning VirtualMachines; `golden`: its source is the configured Golden PVC. */
  datatype Volume = Volume(name: Name, owners: set<Uid>, golden: bool, phase: Phase)

  datatype Trouble = TooManyMachines | SharedMachine | SharedVm | WrongSource | VolumeFailed
  datatype Verdict = Ready(ready: bool) | Raised(why: Trouble)

  // ---- the three layers ----

  predicate Known(templates: seq<Template>, m: Machine) {
    exists i :: 0 <= i < |templates| && m.clonedFrom == Some(templates[i].name)
  }

  function Targets(templates: seq<Template>, machines: seq<Machine>): seq<Machine> {
    Keep(machines, (m: Machine) => Known(templates, m))
  }

  function Of(t: Template, machines: seq<Machine>): seq<Machine> {
    Keep(machines, (m: Machine) => m.clonedFrom == Some(t.name))
  }

  function Names(machines: seq<Machine>): set<Name> {
    set m | m in machines :: m.name
  }

  function OwnedVms(names: set<Name>, vms: seq<Vm>): seq<Vm> {
    Keep(vms, (v: Vm) => v.name in names)
  }

  function VmsOf(name: Name, vms: seq<Vm>): seq<Vm> {
    Keep(vms, (v: Vm) => v.name == name)
  }

  function Uids(vms: seq<Vm>): set<Uid> {
    set v | v in vms :: v.uid
  }

  function OwnedVolumes(uids: set<Uid>, volumes: seq<Volume>): seq<Volume> {
    Keep(volumes, (d: Volume) => d.owners * uids != {})
  }

  function VolumesOf(uid: Uid, volumes: seq<Volume>): seq<Volume> {
    Keep(volumes, (d: Volume) => uid in d.owners)
  }

  function Expected(templates: seq<Template>): nat {
    if templates == [] then 0 else templates[0].expected + Expected(templates[1..])
  }

  /** The phase table keeps the last volume of each name. */
  predicate LastOfName(volumes: seq<Volume>, i: nat)
    requires i < |volumes|
  {
    forall j :: i < j < |volumes| ==> volumes[j].name != volumes[i].name
  }

  predicate PhasesSucceeded(volumes: seq<Volume>) {
    forall i :: 0 <= i < |volumes| && LastOfName(volumes, i) ==> volumes[i].phase == Succeeded
  }

  /** What the first faulty volume of the list raises. */
  function FirstFault(boots: seq<Volume>): Option<Trouble> {
    if boots == [] then None
    else if !boots[0].golden then Some(WrongSource)
    else if boots[0].phase == FailedPhase then Some(VolumeFailed)
    else FirstFault(boots[1..])
  }

  lemma {:induction false} FaultMeans(boots: seq<Volume>)
    ensures FirstFault(boots).None? <==> forall d :: d in boots ==> d.golden && d.phase != FailedPhase
  {
    if boots != [] {
      FaultMeans(boots[1..]);
      assert boots == [boots[0]] + boots[1..];
    }
  }

  /** `replacement_data_volume_state`. */
  function Evaluate(templates: seq<Template>, machines: seq<Machine>, vms: seq<Vm>, volumes: seq<Volume>): Verdict {
    var targets := Targets(templates, machines);
    var names := Names(targets);
    var owned := OwnedVms(names, vms);
    var uids := Uids(owned);
    var boots := OwnedVolumes(uids, volumes);
    if exists i :: 0 <= i < |templates| && |Of(templates[i], machines)| > templates[i].expected then Raised(TooManyMachines)
    else if exists n :: n in names && |VmsOf(n, owned)| > 1 then Raised(SharedMachine)
    else if exists u :: u in uids && |VolumesOf(u, boots)| > 1 then Raised(SharedVm)
    else if FirstFault(boots).Some? then Raised(FirstFault(boots).value)
    else Ready(
      && |targets| == Expected(templates)
      && |owned| == Expected(templates)
      && (forall n :: n in names ==> |VmsOf(n, owned)| == 1)
      && |boots| == Expected(templates)
      && (forall u :: u in uids ==> |VolumesOf(u, boots)| == 1)
      && PhasesSucceeded(boots))
  }

  // ---- what ready means ----

  /** Each template has its machines; machines, VirtualMachines and boot volumes match one to one. */
  ghost predicate Matched(templates: seq<Template>, machines: seq<Machine>, vms: seq<Vm>, volumes: seq<Volume>) {
    var targets := Targets(templates, machines);
    var owned := OwnedVms(Names(targets), vms);
    var boots := OwnedVolumes(Uids(owned), volumes);
    && (forall i :: 0 <= i < |templates| ==> |Of(templates[i], machines)| == templates[i].expected)
    && Distinct(Each(targets, (m: Machine) => m.name))
    && (forall m :: m in targets ==> Single(owned, (v: Vm) => v.name == m.name))
    && Distinct(Each(owned, (v: Vm) => v.uid))
    && (forall v :: v in owned ==> Single(boots, (d: Volume) => v.uid in d.owners))
    && (forall d :: d in boots ==> |d.owners * Uids(owned)| == 1 && d.golden)
  }

  predicate DistinctTemplates(templates: seq<Template>) {
    forall i, j :: 0 <= i < j < |templates| ==> templates[i].name != templates[j].name
  }

  // ---- counting per template ----

  lemma KnownFirst(templates: seq<Template>, m: Machine)
    requires templates != [] && DistinctTemplates(templates)
    ensures Known(templates, m) <==> m.clonedFrom == Some(templates[0].name) || Known(templates[1..], m)
    ensures !(m.clonedFrom == Some(templates[0].name) && Known(templates[1..], m))
  {
    var rest := templates[1..];
    assert forall i :: 0 <= i < |rest| ==> rest[i] == templates[i+1];
    if Known(rest, m) {
      var i :| 0 <= i < |rest| && m.clonedFrom == Some(rest[i].name);
      assert m.clonedFrom == Some(templates[i+1].name) && templates[0].name != templates[i+1].name;
    }
    if Known(templates, m) {
      var i :| 0 <= i < |templates| && m.clonedFrom == Some(templates[i].name);
      if i > 0 { assert m.clonedFrom == Some(rest[i-1].name); }
    }
  }

  /** The targets split into those of the first template and the rest. */
  lemma {:induction false} TargetsSplit(templates: seq<Template>, machines: seq<Machine>)
    requires templates != [] && DistinctTemplates(templates)
    ensures |Targets(templates, machines)| == |Of(templates[0], machines)| + |Targets(templates[1..], machines)|
    decreases |machines|
  {
    if machines != [] {
      TargetsSplit(templates, machines[1..]);
      KnownFirst(templates, machines[0]);
    }
  }

  /** No template above its number and the right total leave every template exactly at its number. */
  lemma {:induction false} TotalsFix(templates: seq<Template>, machines: seq<Machine>)
    requires DistinctTemplates(templates)
    requires forall i :: 0 <= i < |templates| ==> |Of(templates[i], machines)| <= templates[i].expected
    ensures |Targets(templates, machines)| <= Expected(templates)
    ensures |Targets(templates, machines)| == Expected(templates) <==>
      forall i :: 0 <= i < |templates| ==> |Of(templates[i], machines)| == templates[i].expected
    decreases |templates|
  {
    if templates == [] {
      KeepSingle(machines, (m: Machine) => Known(templates, m));
    } else {
      var rest := templates[1..];
      assert forall i :: 0 <= i < |rest| ==> rest[i] == templates[i+1];
      TotalsFix(rest, machines);
      TargetsSplit(templates, machines);
      assert forall i :: 1 <= i < |templates| ==> templates[i] == rest[i-1];
    }
  }

  // ---- matching by pigeonhole ----

  function OwnName(v: Vm): set<Name> { {v.name} }

  lemma NamesAre(machines: seq<Machine>)
    ensures Names(machines) == Members(Each(machines, (m: Machine) => m.name))
  {
    var names := Each(machines, (m: Machine) => m.name);
    EachAt(machines, (m: Machine) => m.name);
    forall n | n in Names(machines) ensures n in names {
      var m :| m in machines && m.name == n;
      var i :| 0 <= i < |machines| && machines[i] == m;
      assert names[i] == n;
    }
    forall n | n in names ensures n in Names(machines) {
      var i :| 0 <= i < |names| && names[i] == n;
      assert machines[i] in machines;
    }
  }

  lemma UidsAre(vms: seq<Vm>)
    ensures Uids(vms) == Members(Each(vms, (v: Vm) => v.uid))
  {
    var uids := Each(vms, (v: Vm) => v.uid);
    EachAt(vms, (v: Vm) => v.uid);
    forall u | u in Uids(vms) ensures u in uids {
      var v :| v in vms && v.uid == u;
      var i :| 0 <= i < |vms| && vms[i] == v;
      assert uids[i] == u;
    }
    forall u | u in uids ensures u in Uids(vms) {
      var i :| 0 <= i < |uids| && uids[i] == u;
      assert vms[i] in vms;
    }
  }

  /** At most one VirtualMachine to a name: there are no more of them than names. */
  lemma VmsAtMostNames(names: set<Name>, vms: seq<Vm>)
    requires forall n :: n in names ==> |VmsOf(n, OwnedVms(names, vms))| <= 1
    ensures |OwnedVms(names, vms)| <= |names|
  {
    var owned := OwnedVms(names, vms);
    var sets := Each(owned, OwnName);
    EachAt(owned, OwnName);
    KeepIn(vms, (v: Vm) => v.name in names);
    forall n | n in names ensures forall i, j :: 0 <= i < j < |owned| ==> !(owned[i].name == n && owned[j].name == n) {
      KeepSingle(owned, (v: Vm) => v.name == n);
    }
    forall i | 0 <= i < |sets| ensures sets[i] * names != {} {
      assert owned[i] in owned;
      assert owned[i].name in sets[i] * names;
    }
    Pigeonhole(sets, names);
  }

  /** At most one boot volume to a VirtualMachine: no more volumes than UIDs, and where there are as
      many every volume has exactly one owner among them. */
  lemma VolumesAtMostUids(uids: set<Uid>, volumes: seq<Volume>)
    requires forall u :: u in uids ==> |VolumesOf(u, OwnedVolumes(uids, volumes))| <= 1
    ensures var boots := OwnedVolumes(uids, volumes);
      |boots| <= |uids| && (|boots| == |uids| ==> forall d :: d in boots ==> |d.owners * uids| == 1)
  {
    var boots := OwnedVolumes(uids, volumes);
    var sets := Each(boots, (d: Volume) => d.owners);
    EachAt(boots, (d: Volume) => d.owners);
    KeepIn(volumes, (d: Volume) => d.owners * uids != {});
    forall u | u in uids ensures forall i, j :: 0 <= i < j < |boots| ==> !(u in boots[i].owners && u in boots[j].owners) {
      KeepSingle(boots, (d: Volume) => u in d.owners);
    }
    forall i | 0 <= i < |sets| ensures sets[i] * uids != {} { assert boots[i] in boots; }
    Pigeonhole(sets, uids);
    if |boots| == |uids| {
      forall d | d in boots ensures |d.owners * uids| == 1 {
        var i :| 0 <= i < |boots| && boots[i] == d;
        assert sets[i] == d.owners;
      }
    }
  }

  /** As many VirtualMachines as machines, one to a name: the names differ and each has its own. */
  lemma VmsMatch(targets: seq<Machine>, vms: seq<Vm>)
    requires var owned := OwnedVms(Names(targets), vms);
      |owned| == |targets| && forall n :: n in Names(targets) ==> |VmsOf(n, owned)| == 1
    ensures Distinct(Each(targets, (m: Machine) => m.name))
    ensures forall m :: m in targets ==> Single(OwnedVms(Names(targets), vms), (v: Vm) => v.name == m.name)
  {
    hide OwnedVms, Single, Distinct;
    var names := Names(targets);
    var owned := OwnedVms(names, vms);
    NamesAre(targets);
    MembersSize(Each(targets, (m: Machine) => m.name));
    EachAt(targets, (m: Machine) => m.name);
    VmsAtMostNames(names, vms);
    forall m | m in targets ensures Single(owned, (v: Vm) => v.name == m.name) {
      assert m.name in names;
      KeepSingle(owned, (v: Vm) => v.name == m.name);
    }
  }

  /** As many boot volumes as VirtualMachines, one to a UID: the UIDs differ and each has its own. */
  lemma VolumesMatch(owned: seq<Vm>, volumes: seq<Volume>)
    requires var boots := OwnedVolumes(Uids(owned), volumes);
      |boots| == |owned| && forall u :: u in Uids(owned) ==> |VolumesOf(u, boots)| == 1
    ensures Distinct(Each(owned, (v: Vm) => v.uid))
    ensures forall v :: v in owned ==> Single(OwnedVolumes(Uids(owned), volumes), (d: Volume) => v.uid in d.owners)
    ensures forall d :: d in OwnedVolumes(Uids(owned), volumes) ==> |d.owners * Uids(owned)| == 1
  {
    hide OwnedVolumes, Single, Distinct;
    var uids := Uids(owned);
    var boots := OwnedVolumes(uids, volumes);
    UidsAre(owned);
    MembersSize(Each(owned, (v: Vm) => v.uid));
    EachAt(owned, (v: Vm) => v.uid);
    VolumesAtMostUids(uids, volumes);
    forall v | v in owned ensures Single(boots, (d: Volume) => v.uid in d.owners) {
      assert v.uid in uids;
      KeepSingle(boots, (d: Volume) => v.uid in d.owners);
    }
  }

  /** Ready means the three layers match one to one, and the phase table is all Succeeded. */
  lemma ReadyMatches(templates: seq<Template>, machines: seq<Machine>, vms: seq<Vm>, volumes: seq<Volume>)
    requires DistinctTemplates(templates) && Evaluate(templates, machines, vms, volumes) == Ready(true)
    ensures Matched(templates, machines, vms, volumes)
  {
    hide Targets, OwnedVms, OwnedVolumes, Of, VmsOf, VolumesOf, Distinct, Single, Names, Uids, PhasesSucceeded, Each;
    var targets := Targets(templates, machines);
    FaultMeans(OwnedVolumes(BootOwners(templates, machines, vms), volumes));
    TotalsFix(templates, machines);
    VmsMatch(targets, vms);
    VolumesMatch(OwnedVms(Names(targets), vms), volumes);
  }

  // ---- and the other way round ----

  lemma SubsetSize<T>(a: set<T>, b: set<T>)
    requires a <= b
    ensures |a| <= |b|
  {
    assert b == a + (b - a);
  }

  ghost function OwnerIn(d: Volume, uids: set<Uid>): Uid {
    if d.owners * uids != {} then (var u :| u in d.owners * uids; u) else 0
  }

  lemma NamesAtMostVms(names: set<Name>, owned: seq<Vm>)
    requires forall n :: n in names ==> exists v :: v in owned && v.name == n
    ensures |names| <= |owned|
  {
    var all := Each(owned, (v: Vm) => v.name);
    EachAt(owned, (v: Vm) => v.name);
    forall n | n in names ensures n in all {
      var v :| v in owned && v.name == n;
      var i :| 0 <= i < |owned| && owned[i] == v;
      assert all[i] == n;
    }
    MembersSize(all);
    SubsetSize(names, Members(all));
  }

  lemma OneMember<T>(s: set<T>, a: T, b: T)
    requires |s| == 1 && a in s && b in s
    ensures a == b
  {
    if a != b { SubsetSize({a, b}, s); }
  }

  lemma OwnerIs(d: Volume, uids: set<Uid>, u: Uid)
    requires |d.owners * uids| == 1 && u in d.owners && u in uids
    ensures OwnerIn(d, uids) == u
  {
    OneMember(d.owners * uids, u, OwnerIn(d, uids));
  }

  lemma OwnersListed(uids: set<Uid>, boots: seq<Volume>, u: Uid)
    requires exists d :: d in boots && u in d.owners
    requires u in uids && forall d :: d in boots ==> |d.owners * uids| == 1
    ensures u in Each(boots, (d: Volume) => OwnerIn(d, uids))
  {
    hide OwnerIn;
    var all := Each(boots, (d: Volume) => OwnerIn(d, uids));
    EachAt(boots, (d: Volume) => OwnerIn(d, uids));
    var d :| d in boots && u in d.owners;
    var i :| 0 <= i < |boots| && boots[i] == d;
    OwnerIs(d, uids, u);
    assert all[i] == u;
  }

  lemma UidsAtMostVolumes(uids: set<Uid>, boots: seq<Volume>)
    requires forall u :: u in uids ==> exists d :: d in boots && u in d.owners
    requires forall d :: d in boots ==> |d.owners * uids| == 1
    ensures |uids| <= |boots|
  {
    hide OwnerIn;
    var all := Each(boots, (d: Volume) => OwnerIn(d, uids));
    EachAt(boots, (d: Volume) => OwnerIn(d, uids));
    forall u | u in uids ensures u in all { OwnersListed(uids, boots, u); }
    MembersSize(all);
    SubsetSize(uids, Members(all));
  }

  /** Distinct machine names with one VirtualMachine each: as many VirtualMachines as machines. */
  lemma VmLayer(targets: seq<Machine>, vms: seq<Vm>)
    requires Distinct(Each(targets, (m: Machine) => m.name))
    requires forall m :: m in targets ==> Single(OwnedVms(Names(targets), vms), (v: Vm) => v.name == m.name)
    ensures var owned := OwnedVms(Names(targets), vms);
      |owned| == |targets| && forall n :: n in Names(targets) ==> |VmsOf(n, owned)| == 1
  {
    var names := Names(targets);
    var owned := OwnedVms(names, vms);
    NamesAre(targets);
    MembersSize(Each(targets, (m: Machine) => m.name));
    EachAt(targets, (m: Machine) => m.name);
    forall n | n in names ensures |VmsOf(n, owned)| == 1 && exists v :: v in owned && v.name == n {
      var m :| m in targets && m.name == n;
      KeepSingle(owned, (v: Vm) => v.name == m.name);
      KeepSingle(owned, (v: Vm) => v.name == n);
      var i :| 0 <= i < |owned| && owned[i].name == n;
      assert owned[i] in owned;
    }
    VmsAtMostNames(names, vms);
    NamesAtMostVms(names, owned);
  }

  lemma OneBootEach(owned: seq<Vm>, boots: seq<Volume>)
    requires forall v :: v in owned ==> Single(boots, (d: Volume) => v.uid in d.owners)
    ensures forall u :: u in Uids(owned) ==> |VolumesOf(u, boots)| == 1
    ensures forall u :: u in Uids(owned) ==> exists d :: d in boots && u in d.owners
  {
    forall u | u in Uids(owned) ensures |VolumesOf(u, boots)| == 1 && exists d :: d in boots && u in d.owners {
      var v :| v in owned && v.uid == u;
      KeepSingle(boots, (d: Volume) => v.uid in d.owners);
      KeepSingle(boots, (d: Volume) => u in d.owners);
      var i :| 0 <= i < |boots| && u in boots[i].owners;
      assert boots[i] in boots;
    }
  }

  /** Distinct UIDs with one boot volume each: as many volumes as VirtualMachines. */
  lemma VolumeLayer(owned: seq<Vm>, volumes: seq<Volume>)
    requires Distinct(Each(owned, (v: Vm) => v.uid))
    requires forall v :: v in owned ==> Single(OwnedVolumes(Uids(owned), volumes), (d: Volume) => v.uid in d.owners)
    requires forall d :: d in OwnedVolumes(Uids(owned), volumes) ==> |d.owners * Uids(owned)| == 1
    ensures var boots := OwnedVolumes(Uids(owned), volumes);
      |boots| == |owned| && forall u :: u in Uids(owned) ==> |VolumesOf(u, boots)| == 1
  {
    hide OwnedVolumes, VolumesOf, Single, Each, Uids, Members, Distinct;
    var uids := Uids(owned);
    var boots := OwnedVolumes(uids, volumes);
    UidsAre(owned);
    MembersSize(Each(owned, (v: Vm) => v.uid));
    EachAt(owned, (v: Vm) => v.uid);
    OneBootEach(owned, boots);
    VolumesAtMostUids(uids, volumes);
    UidsAtMostVolumes(uids, boots);
  }

  /** UIDs of the VirtualMachines of the target machines. */
  function BootOwners(templates: seq<Template>, machines: seq<Machine>, vms: seq<Vm>): set<Uid> {
    Uids(OwnedVms(Names(Targets(templates, machines)), vms))
  }

  // ---- when it raises ----

  /** A template with too many machines; two VirtualMachines of one target machine; two volumes of one
      VirtualMachine; a boot volume of another source, or a failed one. */
  ghost predicate Troubled(templates: seq<Template>, machines: seq<Machine>, vms: seq<Vm>, volumes: seq<Volume>) {
    var uids := BootOwners(templates, machines, vms);
    || (exists i :: 0 <= i < |templates| && |Of(templates[i], machines)| > templates[i].expected)
    || (exists m, i, j :: m in machines && Known(templates, m) && 0 <= i < j < |vms| && vms[i].name == vms[j].name == m.name)
    || (exists u, i, j :: u in uids && 0 <= i < j < |volumes| && u in volumes[i].owners && u in volumes[j].owners)
    || (exists d :: d in volumes && d.owners * uids != {} && (!d.golden || d.phase == FailedPhase))
  }

  lemma SharedName(names: set<Name>, vms: seq<Vm>, n: Name)
    requires n in names
    ensures |VmsOf(n, OwnedVms(names, vms))| > 1 <==> exists i, j :: 0 <= i < j < |vms| && vms[i].name == vms[j].name == n
  {
    KeepTwice(vms, (v: Vm) => v.name in names, (v: Vm) => v.name == n);
    KeepAtMostOne(vms, (v: Vm) => v.name == n);
  }

  lemma SharedMachines(templates: seq<Template>, machines: seq<Machine>, vms: seq<Vm>)
    ensures var names := Names(Targets(templates, machines));
      (exists n :: n in names && |VmsOf(n, OwnedVms(names, vms))| > 1) <==>
        exists m, i, j :: m in machines && Known(templates, m) && 0 <= i < j < |vms| && vms[i].name == vms[j].name == m.name
  {
    hide Names, Targets, Known, VmsOf, OwnedVms;
    var names := Names(Targets(templates, machines));
    NamesMean(templates, machines);
    if n :| n in names && |VmsOf(n, OwnedVms(names, vms))| > 1 {
      SharedName(names, vms, n);
      var m :| m in machines && Known(templates, m) && m.name == n;
      var i, j :| 0 <= i < j < |vms| && vms[i].name == vms[j].name == n;
      assert vms[i].name == vms[j].name == m.name;
    }
    if m, i, j :| m in machines && Known(templates, m) && 0 <= i < j < |vms| && vms[i].name == vms[j].name == m.name {
      SharedName(names, vms, m.name);
    }
  }

  lemma NamesMean(templates: seq<Template>, machines: seq<Machine>)
    ensures forall n :: n in Names(Targets(templates, machines)) <==>
      exists m :: m in machines && Known(templates, m) && m.name == n
  {
    KeepIn(machines, (m: Machine) => Known(templates, m));
  }

  lemma SharedOwner(uids: set<Uid>, volumes: seq<Volume>, u: Uid)
    requires u in uids
    ensures |VolumesOf(u, OwnedVolumes(uids, volumes))| > 1 <==>
      exists i, j :: 0 <= i < j < |volumes| && u in volumes[i].owners && u in volumes[j].owners
  {
    forall d: Volume | u in d.owners ensures d.owners * uids != {} { assert u in d.owners * uids; }
    KeepTwice(volumes, (d: Volume) => d.owners * uids != {}, (d: Volume) => u in d.owners);
    KeepAtMostOne(volumes, (d: Volume) => u in d.owners);
  }

  lemma SharedOwners(uids: set<Uid>, volumes: seq<Volume>)
    ensures (exists u :: u in uids && |VolumesOf(u, OwnedVolumes(uids, volumes))| > 1) <==>
      exists u, i, j :: u in uids && 0 <= i < j < |volumes| && u in volumes[i].owners && u in volumes[j].owners
  {
    hide VolumesOf, OwnedVolumes;
    if u :| u in uids && |VolumesOf(u, OwnedVolumes(uids, volumes))| > 1 { SharedOwner(uids, volumes, u); }
    if u, i, j :| u in uids && 0 <= i < j < |volumes| && u in volumes[i].owners && u in volumes[j].owners {
      SharedOwner(uids, volumes, u);
    }
  }

  /** The evaluation raises exactly on these, each told from the given lists. */
  lemma RaisesExactly(templates: seq<Template>, machines: seq<Machine>, vms: seq<Vm>, volumes: seq<Volume>)
    ensures Evaluate(templates, machines, vms, volumes).Raised? <==> Troubled(templates, machines, vms, volumes)
  {
    hide Targets, Names, OwnedVms, VmsOf, VolumesOf, Uids, Of, Known, PhasesSucceeded, FirstFault;
    var uids := BootOwners(templates, machines, vms);
    SharedMachines(templates, machines, vms);
    SharedOwners(uids, volumes);
    FaultMeans(OwnedVolumes(uids, volumes));
    KeepIn(volumes, (d: Volume) => d.owners * uids != {});
  }

  /** What each trouble says; the ones before it are ruled out. */
  lemma RaisesWhat(templates: seq<Template>, machines: seq<Machine>, vms: seq<Vm>, volumes: seq<Volume>)
    ensures var verdict := Evaluate(templates, machines, vms, volumes);
      var uids := BootOwners(templates, machines, vms);
      && (verdict == Raised(TooManyMachines) <==>
            exists i :: 0 <= i < |templates| && |Of(templates[i], machines)| > templates[i].expected)
      && (verdict == Raised(SharedMachine) ==>
            exists m, i, j :: m in machines && Known(templates, m) && 0 <= i < j < |vms| && vms[i].name == vms[j].name == m.name)
      && (verdict == Raised(SharedVm) ==>
            exists u, i, j :: u in uids && 0 <= i < j < |volumes| && u in volumes[i].owners && u in volumes[j].owners)
      && (verdict == Raised(WrongSource) ==> exists d :: d in volumes && d.owners * uids != {} && !d.golden)
      && (verdict == Raised(VolumeFailed) ==> exists d :: d in volumes && d.owners * uids != {} && d.phase == FailedPhase)
  {
    hide Targets, Names, OwnedVms, VmsOf, VolumesOf, Uids, Of, Known, PhasesSucceeded, FirstFault;
    var uids := BootOwners(templates, machines, vms);
    SharedMachines(templates, machines, vms);
    SharedOwners(uids, volumes);
    FaultSays(OwnedVolumes(uids, volumes));
    KeepIn(volumes, (d: Volume) => d.owners * uids != {});
  }

  lemma {:induction false} FaultSays(boots: seq<Volume>)
    ensures FirstFault(boots) == Some(WrongSource) ==> exists d :: d in boots && !d.golden
    ensures FirstFault(boots) == Some(VolumeFailed) ==> exists d :: d in boots && d.phase == FailedPhase
    ensures FirstFault(boots).Some? ==> FirstFault(boots).value.WrongSource? || FirstFault(boots).value.VolumeFailed?
  {
    if boots != [] {
      FaultSays(boots[1..]);
      assert boots[0] in boots && forall d :: d in boots[1..] ==> d in boots;
    }
  }

  /** One-to-one layers whose volumes have not failed are ready as soon as the phase table is. */
  lemma MatchedIsReady(templates: seq<Template>, machines: seq<Machine>, vms: seq<Vm>, volumes: seq<Volume>)
    requires DistinctTemplates(templates) && Matched(templates, machines, vms, volumes)
    ensures var boots := OwnedVolumes(BootOwners(templates, machines, vms), volumes);
      (forall d :: d in boots ==> d.phase != FailedPhase) && PhasesSucceeded(boots) ==>
        Evaluate(templates, machines, vms, volumes) == Ready(true)
  {
    hide Targets, OwnedVms, OwnedVolumes, Of, VmsOf, VolumesOf, Distinct, Single, Names, Uids, PhasesSucceeded;
    var targets := Targets(templates, machines);
    FaultMeans(OwnedVolumes(BootOwners(templates, machines, vms), volumes));
    TotalsFix(templates, machines);
    VmLayer(targets, vms);
    VolumeLayer(OwnedVms(Names(targets), vms), volumes);
  }

  lemma ReadyPhases(templates: seq<Template>, machines: seq<Machine>, vms: seq<Vm>, volumes: seq<Volume>)
    requires Evaluate(templates, machines, vms, volumes) == Ready(true)
    ensures PhasesSucceeded(OwnedVolumes(BootOwners(templates, machines, vms), volumes))
  {
  }

  // ---- the phase table ----

  /** The same volumes, apart from their phases. */
  predicate SameShape(s: seq<Volume>, t: seq<Volume>) {
    |s| == |t| && forall i :: 0 <= i < |s| ==> t[i] == s[i].(phase := t[i].phase)
  }

  predicate Boot(uids: set<Uid>, d: Volume) {
    d.owners * uids != {}
  }

  /** No two boot volumes share a name, as within one namespace. */
  predicate NamesApart(uids: set<Uid>, volumes: seq<Volume>) {
    forall i, j :: 0 <= i < j < |volumes| && Boot(uids, volumes[i]) && Boot(uids, volumes[j]) ==>
      volumes[i].name != volumes[j].name
  }

  /** The phase table read off the unfiltered list. */
  predicate TableSucceeded(uids: set<Uid>, volumes: seq<Volume>) {
    forall i :: 0 <= i < |volumes| && Boot(uids, volumes[i])
      && (forall j :: i < j < |volumes| && Boot(uids, volumes[j]) ==> volumes[j].name != volumes[i].name)
      ==> volumes[i].phase == Succeeded
  }

  lemma LastInKept(uids: set<Uid>, volumes: seq<Volume>)
    requires volumes != [] && Boot(uids, volumes[0])
    ensures LastOfName(OwnedVolumes(uids, volumes), 0) <==>
      forall j :: 0 < j < |volumes| && Boot(uids, volumes[j]) ==> volumes[j].name != volumes[0].name
  {
    var boots, rest := OwnedVolumes(uids, volumes), OwnedVolumes(uids, volumes[1..]);
    KeepIn(volumes[1..], (d: Volume) => d.owners * uids != {});
    assert boots == [volumes[0]] + rest;
    if LastOfName(boots, 0) {
      forall j | 0 < j < |volumes| && Boot(uids, volumes[j]) ensures volumes[j].name != volumes[0].name {
        assert volumes[j] == volumes[1..][j-1] && volumes[j] in rest;
        var i :| 0 <= i < |rest| && rest[i] == volumes[j];
        assert boots[i+1] == volumes[j];
      }
    } else {
      var i :| 0 < i < |boots| && boots[i].name == volumes[0].name;
      assert boots[i] == rest[i-1] && boots[i] in volumes[1..];
      var j :| 0 <= j < |volumes[1..]| && volumes[1..][j] == boots[i];
      assert volumes[j+1] == boots[i];
    }
  }

  lemma {:induction false} TableOfKept(uids: set<Uid>, volumes: seq<Volume>)
    ensures PhasesSucceeded(OwnedVolumes(uids, volumes)) <==> TableSucceeded(uids, volumes)
  {
    if volumes != [] {
      var rest := volumes[1..];
      TableOfKept(uids, rest);
      assert forall i :: 0 <= i < |rest| ==> rest[i] == volumes[i+1];
      TableTail(uids, volumes);
      var kept := OwnedVolumes(uids, rest);
      if Boot(uids, volumes[0]) {
        LastInKept(uids, volumes);
        assert OwnedVolumes(uids, volumes) == [volumes[0]] + kept;
        PhasesTail(volumes[0], kept);
      } else {
        assert OwnedVolumes(uids, volumes) == kept;
      }
    }
  }

  predicate HeadSucceeded(uids: set<Uid>, volumes: seq<Volume>)
    requires volumes != []
  {
    Boot(uids, volumes[0])
    && (forall j :: 0 < j < |volumes| && Boot(uids, volumes[j]) ==> volumes[j].name != volumes[0].name)
    ==> volumes[0].phase == Succeeded
  }

  lemma TableTail(uids: set<Uid>, volumes: seq<Volume>)
    requires volumes != []
    ensures TableSucceeded(uids, volumes) <==> TableSucceeded(uids, volumes[1..]) && HeadSucceeded(uids, volumes)
  {
    var rest := volumes[1..];
    assert forall i :: 0 <= i < |rest| ==> rest[i] == volumes[i+1];
    assert forall i :: 0 < i < |volumes| ==> volumes[i] == rest[i-1];
  }

  lemma PhasesTail(d: Volume, kept: seq<Volume>)
    ensures PhasesSucceeded([d] + kept) <==>
      PhasesSucceeded(kept) && (LastOfName([d] + kept, 0) ==> d.phase == Succeeded)
  {
    var all := [d] + kept;
    assert forall i :: 0 <= i < |kept| ==> all[i+1] == kept[i];
    assert forall i :: 0 <= i < |kept| ==> (LastOfName(all, i + 1) <==> LastOfName(kept, i));
    assert forall i :: 0 < i < |all| ==> all[i] == kept[i-1] && LastOfName(all, i) == LastOfName(kept, i - 1);
  }

  /** Everything but the phase table depends on the shape alone. */
  lemma {:induction false} ShapeKept(uids: set<Uid>, s: seq<Volume>, t: seq<Volume>)
    requires SameShape(s, t)
    ensures SameShape(OwnedVolumes(uids, s), OwnedVolumes(uids, t))
  {
    if s != [] {
      ShapeKept(uids, s[1..], t[1..]);
      assert t[0].owners == s[0].owners;
    }
  }

  lemma ShapeSingle(u: Uid, s: seq<Volume>, t: seq<Volume>)
    requires SameShape(s, t) && Single(s, (d: Volume) => u in d.owners)
    ensures Single(t, (d: Volume) => u in d.owners)
  {
    var i :| 0 <= i < |s| && u in s[i].owners;
    assert u in t[i].owners;
  }

  lemma ShapeOwners(uids: set<Uid>, s: seq<Volume>, t: seq<Volume>)
    requires SameShape(s, t) && forall d :: d in s ==> |d.owners * uids| == 1 && d.golden
    ensures forall d :: d in t ==> |d.owners * uids| == 1 && d.golden
  {
    forall d | d in t ensures |d.owners * uids| == 1 && d.golden {
      var i :| 0 <= i < |t| && t[i] == d;
      assert s[i] in s;
    }
  }

  lemma ShapeMatched(templates: seq<Template>, machines: seq<Machine>, vms: seq<Vm>, s: seq<Volume>, t: seq<Volume>)
    requires SameShape(s, t) && Matched(templates, machines, vms, s)
    ensures Matched(templates, machines, vms, t)
  {
    hide SameShape, OwnedVolumes, Targets, OwnedVms, Names, Uids, Of, Distinct, Each, Single;
    var owned := OwnedVms(Names(Targets(templates, machines)), vms);
    var uids := Uids(owned);
    ShapeKept(uids, s, t);
    forall v | v in owned ensures Single(OwnedVolumes(uids, t), (d: Volume) => v.uid in d.owners) {
      ShapeSingle(v.uid, OwnedVolumes(uids, s), OwnedVolumes(uids, t));
    }
    ShapeOwners(uids, OwnedVolumes(uids, s), OwnedVolumes(uids, t));
  }

  /** In a list without shared names the phase table speaks for every boot volume. */
  lemma TableSpeaks(uids: set<Uid>, volumes: seq<Volume>, other: seq<Volume>)
    requires NamesApart(uids, volumes) && SameShape(volumes, other) && PhasesSucceeded(OwnedVolumes(uids, other))
    ensures forall d :: d in OwnedVolumes(uids, other) ==> d.phase == Succeeded
  {
    TableOfKept(uids, other);
    KeepIn(other, (d: Volume) => d.owners * uids != {});
    forall d | d in OwnedVolumes(uids, other) ensures d.phase == Succeeded {
      var i :| 0 <= i < |other| && other[i] == d;
      assert Boot(uids, other[i]);
      forall j | i < j < |other| && Boot(uids, other[j]) ensures other[j].name != other[i].name {
        assert Boot(uids, volumes[i]) && Boot(uids, volumes[j]);
      }
    }
  }

  /** Ready vouches for every single boot volume, whatever the phases are, exactly when no two boot
      volumes share a name: a later volume of the same name hides the phase of an earlier one. */
  lemma SucceededExactly(templates: seq<Template>, machines: seq<Machine>, vms: seq<Vm>, volumes: seq<Volume>)
    requires DistinctTemplates(templates) && Matched(templates, machines, vms, volumes)
    ensures var uids := BootOwners(templates, machines, vms);
      (forall other :: SameShape(volumes, other) && Evaluate(templates, machines, vms, other) == Ready(true) ==>
         forall d :: d in OwnedVolumes(uids, other) ==> d.phase == Succeeded)
      <==> NamesApart(uids, volumes)
  {
    hide Matched, Evaluate, OwnedVolumes, BootOwners, PhasesSucceeded;
    var uids := BootOwners(templates, machines, vms);
    if NamesApart(uids, volumes) {
      forall other: seq<Volume> | SameShape(volumes, other) && Evaluate(templates, machines, vms, other) == Ready(true)
        ensures forall d :: d in OwnedVolumes(uids, other) ==> d.phase == Succeeded
      {
        ReadyPhases(templates, machines, vms, other);
        TableSpeaks(uids, volumes, other);
      }
    } else {
      var other := HiddenPhase(templates, machines, vms, volumes);
    }
  }

  /** All phases Succeeded but the one at a. */
  function Unfinished(volumes: seq<Volume>, a: nat): seq<Volume> {
    seq(|volumes|, i requires 0 <= i < |volumes| => volumes[i].(phase := if i == a then OtherPhase else Succeeded))
  }

  /** A later boot volume of the same name hides the unfinished one from the table. */
  lemma UnfinishedHidden(uids: set<Uid>, volumes: seq<Volume>, a: nat, b: nat)
    requires a < b < |volumes| && Boot(uids, volumes[a]) && Boot(uids, volumes[b]) && volumes[a].name == volumes[b].name
    ensures var other := Unfinished(volumes, a);
      && SameShape(volumes, other) && PhasesSucceeded(OwnedVolumes(uids, other))
      && (forall d :: d in OwnedVolumes(uids, other) ==> d.phase != FailedPhase)
      && exists d :: d in OwnedVolumes(uids, other) && d.phase != Succeeded
  {
    var other := Unfinished(volumes, a);
    TableOfKept(uids, other);
    KeepIn(other, (d: Volume) => d.owners * uids != {});
    assert Boot(uids, other[b]) && other[b].name == other[a].name;
    assert other[a] in other && other[a] in OwnedVolumes(uids, other);
  }

  /** The counterexample: two boot volumes of one name, the first unfinished, and still ready. */
  lemma HiddenPhase(templates: seq<Template>, machines: seq<Machine>, vms: seq<Vm>, volumes: seq<Volume>) returns (other: seq<Volume>)
    requires DistinctTemplates(templates) && Matched(templates, machines, vms, volumes)
    requires !NamesApart(BootOwners(templates, machines, vms), volumes)
    ensures SameShape(volumes, other) && Evaluate(templates, machines, vms, other) == Ready(true)
    ensures exists d :: d in OwnedVolumes(BootOwners(templates, machines, vms), other) && d.phase != Succeeded
  {
    hide Matched, Evaluate, OwnedVolumes, BootOwners, PhasesSucceeded, Unfinished;
    var uids := BootOwners(templates, machines, vms);
    var a, b :| 0 <= a < b < |volumes| && Boot(uids, volumes[a]) && Boot(uids, volumes[b]) && volumes[a].name == volumes[b].name;
    other := Unfinished(volumes, a);
    UnfinishedHidden(uids, volumes, a, b);
    ShapeMatched(templates, machines, vms, volumes, other);
    MatchedIsReady(templates, machines, vms, other);
  }
}
